/**
 * Keys: the key formats and data-type flags handed to the OpenSSL key loaders, the mapping of their
 * answers onto results, and the ownership of the backend's key objects.
 */
module Keys {
  import opened Errors
  import opened Ffi

  /** XmlSecKeyFormat, whose discriminants are the backend's xmlSecKeyDataFormat values. */
  datatype KeyFormat = Unknown | Binary | Pem | Der | Pkcs8Pem | Pkcs8Der | Pkcs12 | CertPem | CertDer | Engine | Store

  /** into_raw: the xmlSecKeyDataFormat constant of each format. */
  function IntoRaw(f: KeyFormat): (c: int)
    ensures 0 <= c <= 10
  {
    match f
    case Unknown => 0
    case Binary => 1
    case Pem => 2
    case Der => 3
    case Pkcs8Pem => 4
    case Pkcs8Der => 5
    case Pkcs12 => 6
    case CertPem => 7
    case CertDer => 8
    case Engine => 9
    case Store => 10
  }

  /** The xmlSecKeyDataFormat table read backwards. */
  function FormatOfRaw(c: int): (r: Option<KeyFormat>)
    ensures r.Some? <==> 0 <= c <= 10
  {
    if c == 0 then Some(Unknown)
    else if c == 1 then Some(Binary)
    else if c == 2 then Some(Pem)
    else if c == 3 then Some(Der)
    else if c == 4 then Some(Pkcs8Pem)
    else if c == 5 then Some(Pkcs8Der)
    else if c == 6 then Some(Pkcs12)
    else if c == 7 then Some(CertPem)
    else if c == 8 then Some(CertDer)
    else if c == 9 then Some(Engine)
    else if c == 10 then Some(Store)
    else None
  }

  /** Each format reaches the backend as its own constant, and that constant names it back. */
  lemma IntoRawRoundTrip(f: KeyFormat)
    ensures FormatOfRaw(IntoRaw(f)) == Some(f)
  {
  }

  lemma IntoRawInjective(f1: KeyFormat, f2: KeyFormat)
    requires IntoRaw(f1) == IntoRaw(f2)
    ensures f1 == f2
  {
    IntoRawRoundTrip(f1);
    IntoRawRoundTrip(f2);
  }

  /** XmlSecKeyDataType: the backend's xmlSecKeyDataType bit set. */
  type KeyDataType = bv32

  const DataTypeUnknown: KeyDataType := 0
  const DataTypeNone: KeyDataType := 0
  const DataTypePublic: KeyDataType := 0x1
  const DataTypePrivate: KeyDataType := 0x2
  const DataTypeSymmetric: KeyDataType := 0x4
  const DataTypeSession: KeyDataType := 0x8
  const DataTypePermanent: KeyDataType := 0x10
  const DataTypeTrusted: KeyDataType := 0x100
  const DataTypeAny: KeyDataType := 0xFFFF

  /** `bits()`: a flag set is passed to C as its plain u32 bit pattern. */
  function Bits(t: KeyDataType): nat
  {
    t as nat
  }

  /** XmlSecKey: a Rust value wrapping one pointer to a backend key object. */
  datatype Key = Key(ptr: Handle)

  /** `PartialEq`: two keys are equal exactly when they wrap the same pointer; the key material is never compared. */
  function Eq(a: Key, b: Key): (r: bool)
    ensures r <==> a == b
  {
    a.ptr == b.ptr
  }

  /** The arguments a key load hands to the OpenSSL application layer. */
  datatype KeyLoad =
    | AppKeyLoadEx(path: CString, dataType: nat, format: int, password: CString, pwdCallback: Handle, pwdCallbackCtx: Handle)
    | AppKeyLoadMemory(data: seq<byte>, size: nat, format: int, password: CString, pwdCallback: Handle, pwdCallbackCtx: Handle)

  /** The arguments a certificate load into a key hands to the OpenSSL application layer. */
  datatype CertLoad =
    | AppKeyCertLoad(key: Handle, path: CString, format: int)
    | AppKeyCertLoadMemory(key: Handle, data: seq<byte>, size: nat, format: int)

  /** The call `from_file` makes, or a panic while converting its strings; no password becomes a null pointer. */
  function FromFileCall(path: string, keyType: KeyDataType, format: KeyFormat, password: Option<string>): (o: Outcome<KeyLoad>)
    ensures o.Panicked? <==> '\0' in path || (password.Some? && '\0' in password.value)
    ensures o.Returned? ==>
      && o.value.AppKeyLoadEx?
      && o.value.path == CStr(path) && o.value.dataType == Bits(keyType) && o.value.format == IntoRaw(format)
      && (o.value.password == NullStr <==> password == None)
      && o.value.pwdCallback == Null && o.value.pwdCallbackCtx == Null
  {
    match NewCString(path)
    case Panicked => Panicked
    case Returned(cpath) =>
      match OptionalCString(password)
      case Panicked => Panicked
      case Returned(cpasswd) => Returned(AppKeyLoadEx(cpath, Bits(keyType), IntoRaw(format), cpasswd, Null, Null))
  }

  /** The call `from_memory` makes: the whole buffer and its length, the format constant and the password or null. */
  function FromMemoryCall(buffer: seq<byte>, format: KeyFormat, password: Option<string>): (o: Outcome<KeyLoad>)
    ensures o.Panicked? <==> password.Some? && '\0' in password.value
    ensures o.Returned? ==>
      && o.value.AppKeyLoadMemory?
      && o.value.data == buffer && o.value.size == |buffer| && o.value.format == IntoRaw(format)
      && (o.value.password == NullStr <==> password == None)
      && o.value.pwdCallback == Null && o.value.pwdCallbackCtx == Null
  {
    match OptionalCString(password)
    case Panicked => Panicked
    case Returned(cpasswd) => Returned(AppKeyLoadMemory(buffer, |buffer|, IntoRaw(format), cpasswd, Null, Null))
  }

  /** The result a loader's answer maps to: a null key is a load error, any other pointer becomes the key. */
  function KeyLoadResult(loaded: Handle): (r: Result<Key>)
    ensures r.Err? <==> loaded == Null
    ensures r.Err? ==> r.error == KeyLoadError
    ensures r.Ok? ==> r.value.ptr == loaded
  {
    if loaded == Null then Err(KeyLoadError) else Ok(Key(loaded))
  }

  /** The result a certificate loader's return code maps to: 0 is success, anything else a certificate error. */
  function CertLoadResult(rc: int): (r: Result<()>)
    ensures r.Ok? <==> rc == 0
    ensures r.Err? ==> r.error == CertLoadError
  {
    if rc != 0 then Err(CertLoadError) else Ok(())
  }

  /** load_cert_from_file: panics on a path holding NUL, otherwise loads into this key's pointer by path and format. */
  function LoadCertFromFile(k: Key, path: string, format: KeyFormat, load: CertLoad -> int): (o: Outcome<Result<()>>)
    ensures o.Panicked? <==> '\0' in path
    ensures o.Returned? ==>
      (o.value.Ok? <==> load(AppKeyCertLoad(k.ptr, CStr(path), IntoRaw(format))) == 0)
    ensures o.Returned? && o.value.Err? ==> o.value.error == CertLoadError
  {
    match NewCString(path)
    case Panicked => Panicked
    case Returned(cpath) => Returned(CertLoadResult(load(AppKeyCertLoad(k.ptr, cpath, IntoRaw(format)))))
  }

  /** load_cert_from_memory: loads the whole buffer into this key's pointer. */
  function LoadCertFromMemory(k: Key, buff: seq<byte>, format: KeyFormat, load: CertLoad -> int): (r: Result<()>)
    ensures r.Ok? <==> load(AppKeyCertLoadMemory(k.ptr, buff, |buff|, IntoRaw(format))) == 0
    ensures r.Err? ==> r.error == CertLoadError
  {
    CertLoadResult(load(AppKeyCertLoadMemory(k.ptr, buff, |buff|, IntoRaw(format))))
  }

  /**
   * The backend's key objects. `live` are the allocated, not yet destroyed keys, `names` the name each
   * carries. The ghost `wrapped` records which of them some Rust XmlSecKey owns (its Drop destroys
   * it); the others have been leaked to the C side, which manages their lifetime.
   */
  class KeyHeap {
    var live: set<Handle>
    var names: map<Handle, string>
    ghost var wrapped: set<Handle>

    ghost predicate Valid()
      reads this
    {
      Null !in live && wrapped <= live && names.Keys <= live
    }

    /** The keys that are allocated but owned by no Rust value. */
    ghost function Leaked(): (s: set<Handle>)
      reads this
      ensures s <= live && s !! wrapped
    {
      live - wrapped
    }

    /** `k` is a key value the caller holds: it wraps null or a key it owns. */
    ghost predicate Owns(k: Key)
      reads this
    {
      k.ptr == Null || k.ptr in wrapped
    }

    /** The backend hands out either null or a key object not in use. */
    ghost predicate FreshOrNull(h: Handle)
      reads this
    {
      h == Null || h !in live
    }

    constructor Empty()
      ensures Valid() && live == {} && names == map[] && wrapped == {}
    {
      live := {};
      names := map[];
      wrapped := {};
    }

    /** Adds a freshly loaded key to the heap, owned by the returned value. */
    method Adopt(loaded: Handle) returns (r: Result<Key>)
      requires Valid() && FreshOrNull(loaded)
      modifies this`live, this`wrapped
      ensures Valid()
      ensures r == KeyLoadResult(loaded)
      ensures live == if loaded == Null then old(live) else old(live) + {loaded}
      ensures wrapped == if loaded == Null then old(wrapped) else old(wrapped) + {loaded}
    {
      if loaded == Null {
        return Err(KeyLoadError);
      }
      live := live + {loaded};
      wrapped := wrapped + {loaded};
      return Ok(Key(loaded));
    }

    /** from_file: builds the loader call (null for a missing password), then maps the loader's answer. */
    method FromFile(path: string, keyType: KeyDataType, format: KeyFormat, password: Option<string>, load: KeyLoad -> Handle)
      returns (o: Outcome<Result<Key>>)
      requires Valid()
      requires FromFileCall(path, keyType, format, password).Returned? ==> FreshOrNull(load(FromFileCall(path, keyType, format, password).value))
      modifies this`live, this`wrapped
      ensures Valid()
      ensures o.Panicked? <==> FromFileCall(path, keyType, format, password).Panicked?
      ensures o.Returned? ==> o.value == KeyLoadResult(load(FromFileCall(path, keyType, format, password).value))
      ensures o.Returned? && o.value.Ok? ==> o.value.value.ptr in wrapped && live == old(live) + {o.value.value.ptr}
      ensures (o.Panicked? || o.value.Err?) ==> live == old(live) && wrapped == old(wrapped)
    {
      var call := FromFileCall(path, keyType, format, password);
      if call.Panicked? {
        return Panicked;
      }
      var r := Adopt(load(call.value));
      return Returned(r);
    }

    /** from_memory: the same for a key held in a buffer. */
    method FromMemory(buffer: seq<byte>, format: KeyFormat, password: Option<string>, load: KeyLoad -> Handle)
      returns (o: Outcome<Result<Key>>)
      requires Valid()
      requires FromMemoryCall(buffer, format, password).Returned? ==> FreshOrNull(load(FromMemoryCall(buffer, format, password).value))
      modifies this`live, this`wrapped
      ensures Valid()
      ensures o.Panicked? <==> FromMemoryCall(buffer, format, password).Panicked?
      ensures o.Returned? ==> o.value == KeyLoadResult(load(FromMemoryCall(buffer, format, password).value))
      ensures o.Returned? && o.value.Ok? ==> o.value.value.ptr in wrapped && live == old(live) + {o.value.value.ptr}
      ensures (o.Panicked? || o.value.Err?) ==> live == old(live) && wrapped == old(wrapped)
    {
      var call := FromMemoryCall(buffer, format, password);
      if call.Panicked? {
        return Panicked;
      }
      var r := Adopt(load(call.value));
      return Returned(r);
    }

    /**
     * set_name: panics on a name holding NUL or when xmlSecKeySetName returns a negative code (its
     * answer for a key object is `setName(key, name)`; for the null key, which a clone of a failed
     * duplicate wraps, it fails its `key != NULL` assertion and returns -1); on success the key carries the name.
     */
    method SetName(k: Key, name: string, setName: (Handle, string) -> int) returns (o: Outcome<()>)
      requires Valid() && (k.ptr == Null || k.ptr in live)
      modifies this`names
      ensures Valid()
      ensures o.Panicked? <==> '\0' in name || k.ptr == Null || setName(k.ptr, name) < 0
      ensures o.Returned? ==> names == old(names)[k.ptr := name]
      ensures o.Panicked? ==> names == old(names)
    {
      var cname := NewCString(name);
      if cname.Panicked? {
        return Panicked;
      }
      var rc := if k.ptr == Null then -1 else setName(k.ptr, cname.value.chars);
      if rc < 0 {
        return Panicked;
      }
      names := names[k.ptr := name];
      return Returned(());
    }

    /** get_name: the name the key carries. */
    function GetName(k: Key): (name: string)
      reads this
      requires k.ptr in names
      ensures name == names[k.ptr]
    {
      names[k.ptr]
    }

    /** from_ptr: a Rust value adopts a leaked key and will destroy it. */
    method FromPtr(p: Handle) returns (k: Key)
      requires Valid() && p in Leaked()
      modifies this`wrapped
      ensures Valid()
      ensures k.ptr == p && wrapped == old(wrapped) + {p}
    {
      wrapped := wrapped + {p};
      return Key(p);
    }

    /** leak: hands back the wrapped pointer and suppresses its destruction; the key stays allocated. */
    method Leak(k: Key) returns (p: Handle)
      requires Valid() && Owns(k)
      modifies this`wrapped
      ensures Valid()
      ensures p == k.ptr && wrapped == old(wrapped) - {p}
      ensures p != Null ==> p in Leaked()
    {
      wrapped := wrapped - {k.ptr};
      return k.ptr;
    }

    /**
     * clone: wraps whatever xmlSecKeyDuplicate returns, without a null check. Its answer for a key object
     * is `duplicate(k.ptr)`; for the null key it fails its `key != NULL` assertion and returns null.
     */
    method Clone(k: Key, duplicate: Handle -> Handle) returns (c: Key)
      requires Valid() && (k.ptr == Null || k.ptr in live) && (k.ptr != Null ==> FreshOrNull(duplicate(k.ptr)))
      modifies this
      ensures Valid()
      ensures k.ptr == Null ==> c.ptr == Null
      ensures k.ptr != Null ==> c.ptr == duplicate(k.ptr)
      ensures Owns(c)
      ensures c.ptr != Null ==> !Eq(c, k) && c.ptr !in old(live)
      ensures live == if c.ptr == Null then old(live) else old(live) + {c.ptr}
      ensures wrapped == if c.ptr == Null then old(wrapped) else old(wrapped) + {c.ptr}
      ensures names == if c.ptr != Null && k.ptr in old(names) then old(names)[c.ptr := old(names)[k.ptr]] else old(names)
    {
      var dup := if k.ptr == Null then Null else duplicate(k.ptr);
      if dup != Null {
        live := live + {dup};
        wrapped := wrapped + {dup};
        if k.ptr in names {
          names := names[dup := names[k.ptr]];
        }
      }
      return Key(dup);
    }

    /** Drop: xmlSecKeyDestroy on the owned pointer (a null pointer is ignored by the backend). */
    method Drop(k: Key)
      requires Valid() && Owns(k)
      modifies this
      ensures Valid()
      ensures live == old(live) - {k.ptr} && wrapped == old(wrapped) - {k.ptr}
      ensures names == old(names) - {k.ptr}
    {
      live := live - {k.ptr};
      wrapped := wrapped - {k.ptr};
      names := names - {k.ptr};
    }

    /** The key a context destroys when it is freed: a leaked key, no longer owned by any Rust value. */
    method DestroyLeaked(p: Handle)
      requires Valid() && (p == Null || p in Leaked())
      modifies this
      ensures Valid()
      ensures live == old(live) - {p} && wrapped == old(wrapped) && names == old(names) - {p}
    {
      live := live - {p};
      names := names - {p};
    }

    /**
     * A key object the backend creates on its own, such as a keys manager's answer stored in a
     * context's empty slot: it is allocated, and no Rust value owns it. A null answer creates nothing.
     */
    method Supply(p: Handle)
      requires Valid() && FreshOrNull(p)
      modifies this`live
      ensures Valid()
      ensures live == if p == Null then old(live) else old(live) + {p}
      ensures p != Null ==> p in Leaked()
    {
      if p != Null {
        live := live + {p};
      }
    }
  }

  /** `leak(from_ptr(p)) == p`, and the round trip hands ownership back exactly as it was. */
  method AdoptThenLeak(heap: KeyHeap, p: Handle) returns (q: Handle)
    requires heap.Valid() && p in heap.Leaked()
    modifies heap`wrapped
    ensures heap.Valid()
    ensures q == p && heap.wrapped == old(heap.wrapped)
  {
    var k := heap.FromPtr(p);
    q := heap.Leak(k);
  }

  /** The name test: a name set on a key is the name read back, and setting another key's name leaves it alone. */
  method SetThenGetName(heap: KeyHeap, k: Key, other: Key, name: string, setName: (Handle, string) -> int)
    returns (o: Outcome<string>)
    requires heap.Valid() && k.ptr in heap.live && other.ptr in heap.live && other.ptr in heap.names && other != k
    modifies heap`names
    ensures o.Panicked? <==> '\0' in name || setName(k.ptr, name) < 0
    ensures o.Returned? ==> o.value == name && other.ptr in heap.names && heap.names[other.ptr] == old(heap.names)[other.ptr]
  {
    var r := heap.SetName(k, name, setName);
    if r.Panicked? {
      return Panicked;
    }
    return Returned(heap.GetName(k));
  }
}
