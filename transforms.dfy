/**
 * The transform chain: canonicalization and digest methods, single transforms whose operation field
 * the wrapper writes, and a transform context that takes the transforms over and runs them on a node set.
 */
module Transforms {
  import opened Ffi
  import E = Errors
  import K = Klasses
  import OpenSsl

  /** XmlSecCanonicalizationMethod: the six XML canonicalizations, plus the SHA-1 digest and base64 that the same constructor accepts. */
  datatype CanonicalizationMethod =
    | InclusiveC14N
    | InclusiveC14NWithComments
    | InclusiveC14N11
    | InclusiveC14N11WithComments
    | ExclusiveC14N
    | ExclusiveC14NWithComments
    | Sha1
    | Base64

  /** to_method: a non-null descriptor for each variant, a canonicalization descriptor exactly for the six C14N variants. */
  function ToMethod(m: CanonicalizationMethod): (d: K.TransformId)
    ensures d.Id?
    ensures K.IsC14N(d.klass) <==> !(m.Sha1? || m.Base64?)
  {
    match m
    case InclusiveC14N => K.Id(K.InclC14N)
    case InclusiveC14NWithComments => K.Id(K.InclC14NWithComments)
    case InclusiveC14N11 => K.Id(K.InclC14N11)
    case InclusiveC14N11WithComments => K.Id(K.InclC14N11WithComments)
    case ExclusiveC14N => K.Id(K.ExclC14N)
    case ExclusiveC14NWithComments => K.Id(K.ExclC14NWithComments)
    case Sha1 => K.Id(K.OpenSslSha1)
    case Base64 => K.Id(K.Base64)
  }

  /** Distinct variants name distinct descriptors. */
  lemma ToMethodInjective(m1: CanonicalizationMethod, m2: CanonicalizationMethod)
    requires ToMethod(m1) == ToMethod(m2)
    ensures m1 == m2
  {
  }

  /** The `Sha1` variant here and the `Sha1` signature method name the one OpenSSL SHA-1 descriptor. */
  lemma Sha1SharedDescriptor()
    ensures ToMethod(Sha1) == OpenSsl.ToMethod(OpenSsl.Sha1)
    ensures OpenSsl.FromMethod(ToMethod(Sha1)) == E.Some(OpenSsl.Sha1)
  {
    OpenSsl.FromToMethod(OpenSsl.Sha1);
  }

  /** XmlSecTransformOperation. */
  datatype TransformOperation = None | Encode | Decode | Sign | Verify | Encrypt | Decrypt

  /** The discriminant written into the backend's `operation` field. */
  function OperationCode(op: TransformOperation): (c: int)
    ensures 0 <= c <= 6
  {
    match op
    case None => 0
    case Encode => 1
    case Decode => 2
    case Sign => 3
    case Verify => 4
    case Encrypt => 5
    case Decrypt => 6
  }

  /** The code table read backwards: each of 0..6 is the code of exactly one operation. */
  function OperationOfCode(c: int): (r: E.Option<TransformOperation>)
    ensures r.Some? <==> 0 <= c <= 6
  {
    if c == 0 then E.Some(None)
    else if c == 1 then E.Some(Encode)
    else if c == 2 then E.Some(Decode)
    else if c == 3 then E.Some(Sign)
    else if c == 4 then E.Some(Verify)
    else if c == 5 then E.Some(Encrypt)
    else if c == 6 then E.Some(Decrypt)
    else E.None
  }

  /** The codes are fixed: reading an operation's code back gives that operation, so no two operations share a code. */
  lemma OperationCodeRoundTrip(op: TransformOperation)
    ensures OperationOfCode(OperationCode(op)) == E.Some(op)
  {
  }

  lemma OperationCodeInjective(op1: TransformOperation, op2: TransformOperation)
    requires OperationCode(op1) == OperationCode(op2)
    ensures op1 == op2
  {
    OperationCodeRoundTrip(op1);
    OperationCodeRoundTrip(op2);
  }

  /** The part of an xmlSecTransformKlass descriptor the validity test reads. */
  datatype TransformKlass = TransformKlass(klassSize: nat, objSize: nat, name: Handle)

  /** `size_of::<xmlSecTransformKlass>()` and `size_of::<xmlSecTransform>()` of the linked backend. */
  datatype Layout = Layout(klassSize: nat, transformSize: nat)

  /**
   * What xmlSecTransformCreate hands back: the transform pointer, its `id` descriptor, the descriptor's
   * contents (read only when `id` is not null) and the initial `operation` field.
   */
  datatype RawTransform = RawTransform(ptr: Handle, id: K.TransformId, klass: TransformKlass, operation: int)

  /** The backend's xmlSecTransformIsValid macro, the reference the wrapper's check re-implements. */
  predicate TransformIsValidMacro(t: RawTransform, layout: Layout)
  {
    && t.ptr != Null
    && !t.id.NullId?
    && t.klass.klassSize >= layout.klassSize
    && t.klass.objSize >= layout.transformSize
    && t.klass.name != Null
  }

  /** is_transform_valid: the wrapper's early-return transcription of the macro, equal to it on every transform. */
  function IsTransformValid(t: RawTransform, layout: Layout): (ok: bool)
    ensures ok <==> TransformIsValidMacro(t, layout)
  {
    if t.ptr == Null || t.id.NullId? then false
    else if t.klass.klassSize < layout.klassSize || t.klass.objSize < layout.transformSize || t.klass.name == Null then false
    else true
  }

  /**
   * Who frees a transform: the wrapper (its Drop), the context it was appended to, nobody because it is gone,
   * or nobody because the wrapper forgot it after the context refused it.
   */
  datatype Owner = Wrapper | Chain(ctx: Handle) | Destroyed | Forgotten

  /** XmlSecTransform. */
  class Transform {
    const ptr: Handle
    const id: K.TransformId
    /** The backend's `operation` field, as its integer discriminant. */
    var operation: int
    ghost var owner: Owner

    constructor FromRaw(raw: RawTransform)
      ensures ptr == raw.ptr && id == raw.id && operation == raw.operation && owner == Wrapper
    {
      ptr := raw.ptr;
      id := raw.id;
      operation := raw.operation;
      owner := Wrapper;
    }

    /** new: create the transform for `m`'s descriptor and panic unless it passes the validity test. */
    static method New(m: CanonicalizationMethod, create: K.TransformId -> RawTransform, layout: Layout)
      returns (o: E.Outcome<Transform>)
      ensures o.Panicked? <==> !IsTransformValid(create(ToMethod(m)), layout)
      ensures o.Returned? ==>
        var raw := create(ToMethod(m));
        && fresh(o.value) && o.value.ptr == raw.ptr && o.value.id == raw.id
        && o.value.operation == raw.operation && o.value.owner == Wrapper
    {
      var raw := create(ToMethod(m));
      if !IsTransformValid(raw, layout) {
        return E.Panicked;
      }
      var t := new Transform.FromRaw(raw);
      return E.Returned(t);
    }

    /** with_operation: `new(m)` followed by `set_operation(op)`. */
    static method WithOperation(m: CanonicalizationMethod, op: TransformOperation, create: K.TransformId -> RawTransform, layout: Layout)
      returns (o: E.Outcome<Transform>)
      ensures o.Panicked? <==> !IsTransformValid(create(ToMethod(m)), layout)
      ensures o.Returned? ==>
        var raw := create(ToMethod(m));
        && fresh(o.value) && o.value.ptr == raw.ptr && o.value.id == raw.id
        && o.value.operation == OperationCode(op) && o.value.owner == Wrapper
    {
      o := New(m, create, layout);
      if o.Returned? {
        o.value.SetOperation(op);
      }
    }

    /** set_operation: writes the operation field and nothing else. */
    method SetOperation(op: TransformOperation)
      modifies this`operation
      ensures operation == OperationCode(op)
    {
      operation := OperationCode(op);
    }

    /** Drop: xmlSecTransformDestroy, for a transform the wrapper still owns. */
    method Drop()
      requires owner == Wrapper
      modifies this`owner
      ensures owner == Destroyed
    {
      owner := Destroyed;
    }
  }

  /** What xmlSecTransformCtxXmlExecute reports: its return code and the context's result buffer afterwards. */
  datatype ExecuteRun = ExecuteRun(rc: int, result: Buffer)

  /** The three-way classification of an execution: a transform error, an empty result, or exactly the result bytes. */
  function ClassifyExecute(rc: int, result: Buffer): (r: E.Result<seq<byte>>)
    ensures r == E.Err(E.TransformError) <==> rc != 0
    ensures r == E.Err(E.EmptyResultError) <==> rc == 0 && (result.data == Null || |result.contents| == 0)
    ensures r.Ok? <==> rc == 0 && result.data != Null && |result.contents| > 0
    ensures r.Ok? ==> r.value == result.contents
  {
    if rc == 0 then
      match BufferBytes(result)
      case None => E.Err(E.EmptyResultError)
      case Some(bytes) => E.Ok(bytes)
    else
      E.Err(E.TransformError)
  }

  /** XmlSecTransformCtx. */
  class TransformCtx {
    const ptr: Handle
    /** The transforms appended so far, head first. */
    var chain: seq<Transform>
    /** The context's `result` buffer. */
    var result: Buffer

    /** Every transform in the chain belongs to this context. */
    ghost predicate Valid()
      reads this, chain
    {
      forall i :: 0 <= i < |chain| ==> chain[i].owner == Chain(ptr)
    }

    constructor FromHandle(p: Handle)
      ensures ptr == p && chain == [] && result == Buffer(Null, [])
      ensures Valid()
    {
      ptr := p;
      chain := [];
      result := Buffer(Null, []);
    }

    /** new: xmlSecTransformCtxCreate, panicking on a null context. */
    static method New(created: Handle) returns (o: E.Outcome<TransformCtx>)
      ensures o.Panicked? <==> created == Null
      ensures o.Returned? ==> fresh(o.value) && o.value.Valid() && o.value.ptr == created && o.value.chain == []
    {
      if created == Null {
        return E.Panicked;
      }
      var c := new TransformCtx.FromHandle(created);
      return E.Returned(c);
    }

    /**
     * append: xmlSecTransformCtxAppend answers `rc`, which the wrapper ignores. On 0 the transform goes to the
     * tail of the chain, which now owns it; otherwise the chain is unchanged. Either way the wrapper forgets
     * rather than destroys it, so a refused transform is owned by nobody.
     */
    method Append(t: Transform, rc: int)
      requires Valid() && t.owner == Wrapper
      modifies this`chain, t`owner
      ensures rc == 0 ==> chain == old(chain) + [t] && t.owner == Chain(ptr)
      ensures rc != 0 ==> chain == old(chain) && t.owner == Forgotten
      ensures Valid()
    {
      if rc == 0 {
        chain := chain + [t];
        t.owner := Chain(ptr);
      } else {
        t.owner := Forgotten;
      }
    }

    /** xml_execute: run the chain on a node set; the backend's answer for that node set is `exec(nodeSet)`. */
    method XmlExecute(nodeSet: Handle, exec: Handle -> ExecuteRun) returns (r: E.Result<seq<byte>>)
      modifies this`result
      ensures result == exec(nodeSet).result
      ensures r == ClassifyExecute(exec(nodeSet).rc, result)
    {
      var run := exec(nodeSet);
      result := run.result;
      if run.rc == 0 {
        if result.data == Null || |result.contents| == 0 {
          return E.Err(E.EmptyResultError);
        }
        return E.Ok(result.contents);
      }
      return E.Err(E.TransformError);
    }
  }

  /**
   * The chain the node-set digest usage builds: inclusive C14N, then SHA-1 signing, then base64 encoding,
   * appended in that order. A panic while creating any of them leaves the chain with those appended before it.
   * The context's answer to appending a transform is `appendRc(ptr)`.
   */
  method AppendDigestChain(ctx: TransformCtx, create: K.TransformId -> RawTransform, layout: Layout,
                           appendRc: Handle -> int)
    returns (o: E.Outcome<()>)
    requires ctx.Valid()
    modifies ctx`chain
    ensures ctx.Valid()
    ensures o.Returned? <==>
      && IsTransformValid(create(ToMethod(InclusiveC14N)), layout)
      && IsTransformValid(create(ToMethod(Sha1)), layout)
      && IsTransformValid(create(ToMethod(Base64)), layout)
    ensures |old(ctx.chain)| <= |ctx.chain| <= |old(ctx.chain)| + 3 && ctx.chain[..|old(ctx.chain)|] == old(ctx.chain)
    ensures (o.Returned? && appendRc(create(ToMethod(InclusiveC14N)).ptr) == 0
             && appendRc(create(ToMethod(Sha1)).ptr) == 0 && appendRc(create(ToMethod(Base64)).ptr) == 0) ==>
      && |ctx.chain| == |old(ctx.chain)| + 3
      && ctx.chain[..|old(ctx.chain)|] == old(ctx.chain)
      && fresh(ctx.chain[|old(ctx.chain)|..])
      && ctx.chain[|old(ctx.chain)|].ptr == create(ToMethod(InclusiveC14N)).ptr
      && ctx.chain[|old(ctx.chain)| + 1].ptr == create(ToMethod(Sha1)).ptr
      && ctx.chain[|old(ctx.chain)| + 1].operation == OperationCode(Sign)
      && ctx.chain[|old(ctx.chain)| + 2].ptr == create(ToMethod(Base64)).ptr
      && ctx.chain[|old(ctx.chain)| + 2].operation == OperationCode(Encode)
  {
    var c14n := Transform.New(InclusiveC14N, create, layout);
    if c14n.Panicked? {
      return E.Panicked;
    }
    ctx.Append(c14n.value, appendRc(c14n.value.ptr));
    var digest := Transform.WithOperation(Sha1, Sign, create, layout);
    if digest.Panicked? {
      return E.Panicked;
    }
    ctx.Append(digest.value, appendRc(digest.value.ptr));
    var encode := Transform.WithOperation(Base64, Encode, create, layout);
    if encode.Panicked? {
      return E.Panicked;
    }
    ctx.Append(encode.value, appendRc(encode.value.ptr));
    return E.Returned(());
  }
}
