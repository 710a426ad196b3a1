/**
 * XmlSecEncryptionContext: an encryption context whose key slot destroys the key it replaces, with an
 * EncryptedData/EncryptedKey mode switch and the classification of decryption results.
 */
module Enc {
  import opened Errors
  import opened Ffi
  import Keys
  import KM = KeysMngr

  /** xmlEncCtxMode. */
  const ModeEncryptedData: int := 0
  const ModeEncryptedKey: int := 1

  /** XmlSecEncryptionContextMode. */
  datatype Mode = Data | Key

  /** set_mode's choice: Key selects EncryptedKey, every other mode EncryptedData. */
  function ModeCode(m: Mode): (c: int)
    ensures c == ModeEncryptedKey <==> m == Key
    ensures c == ModeEncryptedData <==> m != Key
  {
    match m
    case Key => ModeEncryptedKey
    case _ => ModeEncryptedData
  }

  /**
   * What xmlSecEncCtxDecrypt does for a node: its return code, the context's result buffer afterwards,
   * and the key the keys manager answers when the slot is empty (null for none; unused otherwise).
   */
  datatype DecryptRun = DecryptRun(rc: int, result: Buffer, mngrKey: Handle)

  /**
   * decrypt's classification: a negative code, a null result or an empty result is an error (reported
   * as SigningError); otherwise exactly the result's bytes.
   */
  function DecryptResult(rc: int, result: Buffer): (r: Result<seq<byte>>)
    ensures r.Err? <==> rc < 0 || result.data == Null || |result.contents| == 0
    ensures r.Err? ==> r.error == SigningError
    ensures r.Ok? ==> r.value == result.contents
  {
    if rc < 0 then Err(SigningError)
    else
      match BufferBytes(result)
      case None => Err(SigningError)
      case Some(bytes) => Ok(bytes)
  }

  class EncryptionContext {
    const keys: Keys.KeyHeap
    const ptr: Handle
    const keysMngr: Option<KM.KeysMngr>
    /** The context's `encKey` slot: null or a key the context owns. */
    var encKey: Handle
    var mode: int
    /** The context's `result` buffer. */
    var result: Buffer
    ghost var alive: bool

    ghost predicate Valid()
      reads this, keys, if keysMngr.Some? then {keysMngr.value} else {}
    {
      && alive && ptr != Null && keys.Valid()
      && (encKey == Null || encKey in keys.Leaked())
      && (keysMngr.Some? ==> keysMngr.value.Valid())
    }

    constructor FromHandle(heap: Keys.KeyHeap, p: Handle, mngr: Option<KM.KeysMngr>)
      requires heap.Valid() && p != Null && (mngr.Some? ==> mngr.value.Valid())
      ensures keys == heap && ptr == p && keysMngr == mngr
      ensures encKey == Null && mode == ModeEncryptedData && result == Buffer(Null, [])
      ensures Valid()
    {
      keys := heap;
      ptr := p;
      keysMngr := mngr;
      encKey := Null;
      mode := ModeEncryptedData;
      result := Buffer(Null, []);
      alive := true;
    }

    /** new: xmlSecEncCtxCreate without a keys manager; a null context is a panic. */
    static method New(heap: Keys.KeyHeap, create: Handle -> Handle) returns (o: Outcome<EncryptionContext>)
      requires heap.Valid()
      ensures o.Panicked? <==> create(Null) == Null
      ensures o.Returned? ==>
        && fresh(o.value) && o.value.Valid() && o.value.keys == heap && o.value.ptr == create(Null)
        && o.value.keysMngr == None && o.value.encKey == Null && o.value.mode == ModeEncryptedData
    {
      var p := create(Null);
      if p == Null {
        return Panicked;
      }
      var c := new EncryptionContext.FromHandle(heap, p, None);
      return Returned(c);
    }

    /** with_keys_manager: the context is created over the manager, which it then keeps. */
    static method WithKeysManager(heap: Keys.KeyHeap, mngr: KM.KeysMngr, create: Handle -> Handle) returns (o: Outcome<EncryptionContext>)
      requires heap.Valid() && mngr.Valid()
      ensures o.Panicked? <==> create(mngr.ptr) == Null
      ensures o.Returned? ==>
        && fresh(o.value) && o.value.Valid() && o.value.keys == heap && o.value.ptr == create(mngr.ptr)
        && o.value.keysMngr == Some(mngr) && o.value.encKey == Null && o.value.mode == ModeEncryptedData
    {
      var p := create(mngr.ptr);
      if p == Null {
        return Panicked;
      }
      var c := new EncryptionContext.FromHandle(heap, p, Some(mngr));
      return Returned(c);
    }

    /** set_key: a key already in the slot is adopted and destroyed, never returned; the slot then takes the new key over. */
    method SetKey(k: Keys.Key)
      requires Valid() && keys.Owns(k)
      modifies this`encKey, keys
      ensures Valid()
      ensures encKey == k.ptr
      ensures keys.live == old(keys.live) - {old(encKey)}
      ensures keys.wrapped == old(keys.wrapped) - {k.ptr}
      ensures keys.names == old(keys.names) - {old(encKey)}
    {
      if encKey != Null {
        var held := keys.FromPtr(encKey);
        keys.Drop(held);
      }
      encKey := keys.Leak(k);
    }

    /** set_mode: writes the mode field and nothing else. */
    method SetMode(m: Mode)
      modifies this`mode
      ensures mode == ModeCode(m)
    {
      if m == Key {
        mode := ModeEncryptedKey;
      } else {
        mode := ModeEncryptedData;
      }
    }

    /**
     * The slot after the backend has run: a held key stays, and an empty slot of a context with a keys
     * manager takes the manager's answer `supplied` (xmlSecEncCtxEncDataNodeRead), possibly null.
     */
    function SlotAfter(supplied: Handle): Handle
      reads this
    {
      if encKey == Null && keysMngr.Some? then supplied else encKey
    }

    /** The allocated key objects after the backend has run: a non-null key stored from the manager is new. */
    ghost function LiveAfter(supplied: Handle): set<Handle>
      reads this, keys
    {
      if encKey == Null && keysMngr.Some? && supplied != Null then keys.live + {supplied} else keys.live
    }

    /** The backend can store a key from the manager only in an empty slot, and that key is a new object. */
    ghost predicate SuppliesFresh(run: DecryptRun)
      reads this, keys
    {
      encKey == Null && keysMngr.Some? ==> keys.FreshOrNull(run.mngrKey)
    }

    /**
     * decrypt: no key check; the outcome depends only on the backend's code and the result buffer it
     * leaves. The backend fills an empty slot from the keys manager.
     */
    method Decrypt(node: Handle, run: Handle -> DecryptRun) returns (r: Result<seq<byte>>)
      requires Valid() && SuppliesFresh(run(node))
      modifies this`result, this`encKey, keys`live
      ensures Valid()
      ensures result == run(node).result
      ensures r == DecryptResult(run(node).rc, result)
      ensures encKey == old(SlotAfter(run(node).mngrKey)) && keys.live == old(LiveAfter(run(node).mngrKey))
    {
      var answer := run(node);
      if encKey == Null && keysMngr.Some? {
        keys.Supply(answer.mngrKey);
        encKey := answer.mngrKey;
      }
      result := answer.result;
      if answer.rc < 0 {
        return Err(SigningError);
      }
      if result.data == Null || |result.contents| == 0 {
        return Err(SigningError);
      }
      return Ok(result.contents);
    }

    /** Drop: xmlSecEncCtxDestroy frees the context and the key in its slot; then the keys manager is dropped. */
    method Drop()
      requires Valid()
      modifies this`alive, keys, if keysMngr.Some? then {keysMngr.value} else {}
      ensures !alive && keys.Valid()
      ensures keys.live == old(keys.live) - {encKey} && keys.wrapped == old(keys.wrapped)
      ensures keys.names == old(keys.names) - {encKey}
      ensures keysMngr.Some? ==> !keysMngr.value.alive
    {
      keys.DestroyLeaked(encKey);
      alive := false;
      if keysMngr.Some? {
        keysMngr.value.Drop();
      }
    }
  }

  /**
   * A context built with a keys manager and no key: decrypting stores the manager's key in the slot, and
   * a following set_key destroys it rather than handing it back.
   */
  method DecryptThenSetKey(ctx: EncryptionContext, node: Handle, run: Handle -> DecryptRun, k: Keys.Key)
    returns (r: Result<seq<byte>>)
    requires ctx.Valid() && ctx.keysMngr.Some? && ctx.encKey == Null && ctx.keys.FreshOrNull(run(node).mngrKey)
    requires k.ptr in ctx.keys.wrapped
    modifies ctx`result, ctx`encKey, ctx.keys
    ensures r == DecryptResult(run(node).rc, run(node).result)
    ensures ctx.Valid() && ctx.encKey == k.ptr
    ensures run(node).mngrKey !in ctx.keys.live && k.ptr in ctx.keys.live
  {
    r := ctx.Decrypt(node, run);
    ctx.SetKey(k);
  }

  /** Replacing a key: after two set_key calls the first key no longer exists and the second is in the slot. */
  method ReplaceKey(ctx: EncryptionContext, first: Keys.Key, second: Keys.Key)
    requires ctx.Valid() && first.ptr in ctx.keys.wrapped && second.ptr in ctx.keys.wrapped && first != second
    modifies ctx`encKey, ctx.keys
    ensures ctx.Valid()
    ensures first.ptr !in ctx.keys.live && ctx.encKey == second.ptr && second.ptr in ctx.keys.live
  {
    ctx.SetKey(first);
    ctx.SetKey(second);
  }
}
