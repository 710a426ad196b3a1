/**
 * XmlSecSignatureContext: a signature context with a single signing-key slot, an optional keys
 * manager, and the checks run before signing or verifying a document or node.
 */
module DSig {
  import opened Errors
  import opened Ffi
  import K = Klasses
  import OpenSsl
  import Keys
  import KM = KeysMngr
  import Dom

  /** xmlSecDSigNs and xmlSecNodeSignature. */
  const DSigNs: string := "http://www.w3.org/2000/09/xmldsig#"
  const NodeSignature: string := "Signature"

  /** xmlSecDSigStatus. */
  const StatusUnknown: int := 0
  const StatusSucceeded: int := 1
  const StatusInvalid: int := 2

  /**
   * What xmlSecDSigCtxSign or xmlSecDSigCtxVerify does to the context for a node: its return code,
   * the `status` it leaves, the `signMethod` transform's id it leaves (None for a null transform), and
   * the key the keys manager answers when the slot is empty (null for none; unused otherwise).
   */
  datatype DSigRun = DSigRun(rc: int, status: int, signMethod: Option<K.TransformId>, mngrKey: Handle)

  /** find_signode: xmlSecFindNode for a dsig `Signature` element from `tree` on; none found is NodeNotFound. */
  function FindSignode(tree: Dom.NodePtr): (r: Result<Dom.NodePtr>)
    ensures r.Err? <==> Dom.FindNode([tree.node] + tree.next, NodeSignature, DSigNs) == None
    ensures r.Err? ==> r.error == NodeNotFound
    ensures r.Ok? ==> Dom.Matches(r.value.node, NodeSignature, DSigNs)
  {
    match Dom.FindNode([tree.node] + tree.next, NodeSignature, DSigNs)
    case None => Err(NodeNotFound)
    case Some(p) =>
      Dom.FindNodeNoneIff([tree.node] + tree.next, NodeSignature, DSigNs);
      Ok(p)
  }

  /** find_root: the signature node searched from the root element; a document without one is RootNotFound. */
  function FindRoot(doc: Dom.XmlDocument): (r: Result<Dom.NodePtr>)
    ensures Dom.RootElement(doc) == None ==> r == Err(RootNotFound)
    ensures Dom.RootElement(doc).Some? ==> r == FindSignode(Dom.RootElement(doc).value)
  {
    match Dom.RootElement(doc)
    case None => Err(RootNotFound)
    case Some(root) => FindSignode(root)
  }

  /** The node sign_document and verify_document hand to the backend: find_root's answer, searched once more. */
  function SignatureTarget(doc: Dom.XmlDocument): (r: Result<Dom.NodePtr>)
  {
    match FindRoot(doc)
    case Err(e) => Err(e)
    case Ok(sig) => FindSignode(sig)
  }

  /** The first dsig `Signature` element in document order from the root element on. */
  ghost function FirstSignature(root: Dom.NodePtr): Option<Dom.NodePtr>
  {
    Dom.FirstMatch(Dom.Preorder([root.node] + root.next), NodeSignature, DSigNs)
  }

  /**
   * The second search is harmless: the target is RootNotFound without a root element, NodeNotFound when
   * no Signature element follows the root in document order, and otherwise the first such element.
   */
  lemma SignatureTargetIsFirstSignature(doc: Dom.XmlDocument)
    ensures SignatureTarget(doc) == Err(RootNotFound) <==> Dom.RootElement(doc) == None
    ensures SignatureTarget(doc) == Err(NodeNotFound) <==>
      Dom.RootElement(doc).Some? && FirstSignature(Dom.RootElement(doc).value) == None
    ensures SignatureTarget(doc).Ok? ==>
      Dom.RootElement(doc).Some? && FirstSignature(Dom.RootElement(doc).value) == Some(SignatureTarget(doc).value)
  {
    match Dom.RootElement(doc)
    case None =>
    case Some(root) =>
      Dom.FindNodeIsFirstMatch([root.node] + root.next, NodeSignature, DSigNs);
      match FindSignode(root)
      case Err(_) =>
      case Ok(sig) =>
        Dom.FindNodeFindsStart(sig, NodeSignature, DSigNs);
  }

  /** sign_node_raw's mapping: a negative return code is a signing error. */
  function SignResult(rc: int): (r: Result<()>)
    ensures r.Err? <==> rc < 0
    ensures r.Err? ==> r.error == SigningError
  {
    if rc < 0 then Err(SigningError) else Ok(())
  }

  /**
   * verify_node_raw's mapping: a negative return code is a verification error; otherwise Succeeded is
   * true, Unknown and Invalid are false, and any other status is a panic.
   */
  function VerifyResult(rc: int, status: int): (o: Outcome<Result<bool>>)
    ensures o == Returned(Err(VerifyError)) <==> rc < 0
    ensures o == Returned(Ok(true)) <==> rc >= 0 && status == StatusSucceeded
    ensures o == Returned(Ok(false)) <==> rc >= 0 && (status == StatusUnknown || status == StatusInvalid)
    ensures o.Panicked? <==> rc >= 0 && status != StatusUnknown && status != StatusSucceeded && status != StatusInvalid
  {
    if rc < 0 then Returned(Err(VerifyError))
    else if status == StatusUnknown then Returned(Ok(false))
    else if status == StatusSucceeded then Returned(Ok(true))
    else if status == StatusInvalid then Returned(Ok(false))
    else Panicked
  }

  /** sign_document as a function of whether a key is usable, the document and the backend. */
  function SignDocumentSpec(keyIsSet: bool, doc: Dom.XmlDocument, sign: Handle -> DSigRun): (r: Result<()>)
  {
    if !keyIsSet then Err(KeyNotLoaded)
    else
      match SignatureTarget(doc)
      case Err(e) => Err(e)
      case Ok(sig) => SignResult(sign(sig.node.id).rc)
  }

  /** verify_document as a function of whether a key is usable, the document and the backend. */
  function VerifyDocumentSpec(keyIsSet: bool, doc: Dom.XmlDocument, verify: Handle -> DSigRun): (o: Outcome<Result<bool>>)
  {
    if !keyIsSet then Returned(Err(KeyNotLoaded))
    else
      match SignatureTarget(doc)
      case Err(e) => Returned(Err(e))
      case Ok(sig) => VerifyResult(verify(sig.node.id).rc, verify(sig.node.id).status)
  }

  /**
   * The order of sign_document's checks: no key first, then no root element, then no Signature element;
   * only then is the backend asked, and a negative code from it is a signing error.
   */
  lemma SignDocumentOrder(keyIsSet: bool, doc: Dom.XmlDocument, sign: Handle -> DSigRun)
    ensures SignDocumentSpec(keyIsSet, doc, sign) == Err(KeyNotLoaded) <==> !keyIsSet
    ensures SignDocumentSpec(keyIsSet, doc, sign) == Err(RootNotFound) <==> keyIsSet && Dom.RootElement(doc) == None
    ensures SignDocumentSpec(keyIsSet, doc, sign) == Err(NodeNotFound) <==>
      keyIsSet && Dom.RootElement(doc).Some? && FirstSignature(Dom.RootElement(doc).value) == None
    ensures keyIsSet && Dom.RootElement(doc).Some? && FirstSignature(Dom.RootElement(doc).value).Some? ==>
      SignDocumentSpec(keyIsSet, doc, sign) == SignResult(sign(FirstSignature(Dom.RootElement(doc).value).value.node.id).rc)
  {
    SignatureTargetIsFirstSignature(doc);
  }

  /**
   * The same order for verify_document, ending in the collapse of the backend's three statuses into a
   * boolean: only Succeeded verifies.
   */
  lemma VerifyDocumentOrder(keyIsSet: bool, doc: Dom.XmlDocument, verify: Handle -> DSigRun)
    ensures VerifyDocumentSpec(keyIsSet, doc, verify) == Returned(Err(KeyNotLoaded)) <==> !keyIsSet
    ensures VerifyDocumentSpec(keyIsSet, doc, verify) == Returned(Err(RootNotFound)) <==> keyIsSet && Dom.RootElement(doc) == None
    ensures VerifyDocumentSpec(keyIsSet, doc, verify) == Returned(Err(NodeNotFound)) <==>
      keyIsSet && Dom.RootElement(doc).Some? && FirstSignature(Dom.RootElement(doc).value) == None
    ensures VerifyDocumentSpec(keyIsSet, doc, verify) == Returned(Ok(true)) <==>
      && keyIsSet && Dom.RootElement(doc).Some? && FirstSignature(Dom.RootElement(doc).value).Some?
      && var run := verify(FirstSignature(Dom.RootElement(doc).value).value.node.id);
      run.rc >= 0 && run.status == StatusSucceeded
  {
    SignatureTargetIsFirstSignature(doc);
  }

  class SignatureContext {
    /** The backend's key objects, shared with the keys the caller holds. */
    const keys: Keys.KeyHeap
    const ptr: Handle
    const keysMngr: Option<KM.KeysMngr>
    /** The context's `signKey` slot: null or a key the context owns. */
    var signKey: Handle
    /** `keyInfoReadCtx.certsVerificationTime`. */
    var certsVerificationTime: i64
    var status: int
    /** The id of the `signMethod` transform, None while that transform is null. */
    var signMethod: Option<K.TransformId>
    ghost var alive: bool

    ghost predicate Valid()
      reads this, keys, if keysMngr.Some? then {keysMngr.value} else {}
    {
      && alive && ptr != Null && keys.Valid()
      && (signKey == Null || signKey in keys.Leaked())
      && (keysMngr.Some? ==> keysMngr.value.Valid())
    }

    constructor FromHandle(heap: Keys.KeyHeap, p: Handle, mngr: Option<KM.KeysMngr>)
      requires heap.Valid() && p != Null && (mngr.Some? ==> mngr.value.Valid())
      ensures keys == heap && ptr == p && keysMngr == mngr
      ensures signKey == Null && certsVerificationTime == 0 && status == StatusUnknown && signMethod == None
      ensures Valid()
    {
      keys := heap;
      ptr := p;
      keysMngr := mngr;
      signKey := Null;
      certsVerificationTime := 0;
      status := StatusUnknown;
      signMethod := None;
      alive := true;
    }

    /** new: xmlSecDSigCtxCreate without a keys manager (`create` gives its answer); a null context is a panic. */
    static method New(heap: Keys.KeyHeap, create: Handle -> Handle) returns (o: Outcome<SignatureContext>)
      requires heap.Valid()
      ensures o.Panicked? <==> create(Null) == Null
      ensures o.Returned? ==>
        && fresh(o.value) && o.value.Valid() && o.value.keys == heap && o.value.ptr == create(Null)
        && o.value.keysMngr == None && o.value.signKey == Null
    {
      var p := create(Null);
      if p == Null {
        return Panicked;
      }
      var c := new SignatureContext.FromHandle(heap, p, None);
      return Returned(c);
    }

    /** with_keys_manager: the context is created over the manager, which it then keeps. */
    static method WithKeysManager(heap: Keys.KeyHeap, mngr: KM.KeysMngr, create: Handle -> Handle) returns (o: Outcome<SignatureContext>)
      requires heap.Valid() && mngr.Valid()
      ensures o.Panicked? <==> create(mngr.ptr) == Null
      ensures o.Returned? ==>
        && fresh(o.value) && o.value.Valid() && o.value.keys == heap && o.value.ptr == create(mngr.ptr)
        && o.value.keysMngr == Some(mngr) && o.value.signKey == Null
    {
      var p := create(mngr.ptr);
      if p == Null {
        return Panicked;
      }
      var c := new SignatureContext.FromHandle(heap, p, Some(mngr));
      return Returned(c);
    }

    /**
     * insert_key: the slot takes the new key over; a key it held before is handed back to the caller,
     * and an empty slot hands back nothing.
     */
    method InsertKey(k: Keys.Key) returns (prev: Option<Keys.Key>)
      requires Valid() && keys.Owns(k)
      modifies this`signKey, keys`wrapped
      ensures Valid()
      ensures prev == None <==> old(signKey) == Null
      ensures prev.Some? ==> prev.value.ptr == old(signKey) && prev.value.ptr in keys.wrapped
      ensures signKey == k.ptr
      ensures keys.wrapped == old(keys.wrapped) - {k.ptr} + (if old(signKey) == Null then {} else {old(signKey)})
    {
      prev := None;
      if signKey != Null {
        var held := keys.FromPtr(signKey);
        prev := Some(held);
      }
      signKey := keys.Leak(k);
    }

    /** release_key: hands the held key back and empties the slot; an empty slot stays empty. */
    method ReleaseKey() returns (r: Option<Keys.Key>)
      requires Valid()
      modifies this`signKey, keys`wrapped
      ensures Valid()
      ensures r == None <==> old(signKey) == Null
      ensures r.Some? ==> r.value.ptr == old(signKey) && r.value.ptr in keys.wrapped
      ensures signKey == Null
      ensures keys.wrapped == old(keys.wrapped) + (if old(signKey) == Null then {} else {old(signKey)})
    {
      if signKey == Null {
        return None;
      }
      var held := keys.FromPtr(signKey);
      signKey := Null;
      return Some(held);
    }

    /** key_is_set: a key in the slot or a keys manager makes signing possible; otherwise KeyNotLoaded. */
    function KeyIsSet(): (r: Result<()>)
      reads this
      ensures r.Ok? <==> signKey != Null || keysMngr.Some?
      ensures r.Err? ==> r.error == KeyNotLoaded
    {
      if signKey != Null || keysMngr.Some? then Ok(()) else Err(KeyNotLoaded)
    }

    /**
     * The slot after the backend has run: a held key stays, and an empty slot of a context with a keys
     * manager takes the manager's answer `supplied` (xmlSecDSigCtxProcessKeyInfoNode), possibly null.
     */
    function SlotAfter(supplied: Handle): Handle
      reads this
    {
      if signKey == Null && keysMngr.Some? then supplied else signKey
    }

    /** The allocated key objects after the backend has run: a non-null key stored from the manager is new. */
    ghost function LiveAfter(supplied: Handle): set<Handle>
      reads this, keys
    {
      if signKey == Null && keysMngr.Some? && supplied != Null then keys.live + {supplied} else keys.live
    }

    /** The backend can store a key from the manager only in an empty slot, and that key is a new object. */
    ghost predicate SuppliesFresh(run: DSigRun)
      reads this, keys
    {
      signKey == Null && keysMngr.Some? ==> keys.FreshOrNull(run.mngrKey)
    }

    /** The key lookup the backend does before signing or verifying, seen from the slot. */
    method FillSlot(supplied: Handle)
      requires Valid() && (signKey == Null && keysMngr.Some? ==> keys.FreshOrNull(supplied))
      modifies this`signKey, keys`live
      ensures Valid()
      ensures signKey == old(SlotAfter(supplied)) && keys.live == old(LiveAfter(supplied))
    {
      if signKey == Null && keysMngr.Some? {
        keys.Supply(supplied);
        signKey := supplied;
      }
    }

    /**
     * sign_node_raw: hands the node to the backend, which updates the status and signature method, and
     * fills an empty slot from the keys manager.
     */
    method SignNodeRaw(node: Handle, sign: Handle -> DSigRun) returns (r: Result<()>)
      requires Valid() && SuppliesFresh(sign(node))
      modifies this`status, this`signMethod, this`signKey, keys`live
      ensures Valid()
      ensures r == SignResult(sign(node).rc)
      ensures status == sign(node).status && signMethod == sign(node).signMethod
      ensures signKey == old(SlotAfter(sign(node).mngrKey)) && keys.live == old(LiveAfter(sign(node).mngrKey))
    {
      var run := sign(node);
      FillSlot(run.mngrKey);
      status := run.status;
      signMethod := run.signMethod;
      if run.rc < 0 {
        return Err(SigningError);
      }
      return Ok(());
    }

    /** verify_node_raw: hands the node to the backend, then reads the status it left. */
    method VerifyNodeRaw(node: Handle, verify: Handle -> DSigRun) returns (o: Outcome<Result<bool>>)
      requires Valid() && SuppliesFresh(verify(node))
      modifies this`status, this`signMethod, this`signKey, keys`live
      ensures Valid()
      ensures o == VerifyResult(verify(node).rc, status)
      ensures status == verify(node).status && signMethod == verify(node).signMethod
      ensures signKey == old(SlotAfter(verify(node).mngrKey)) && keys.live == old(LiveAfter(verify(node).mngrKey))
    {
      var run := verify(node);
      FillSlot(run.mngrKey);
      status := run.status;
      signMethod := run.signMethod;
      if run.rc < 0 {
        return Returned(Err(VerifyError));
      }
      if status == StatusUnknown {
        return Returned(Ok(false));
      } else if status == StatusSucceeded {
        return Returned(Ok(true));
      } else if status == StatusInvalid {
        return Returned(Ok(false));
      }
      return Panicked;
    }

    /** sign_node: the key check, then the node itself goes to the backend. */
    method SignNode(node: Handle, sign: Handle -> DSigRun) returns (r: Result<()>)
      requires Valid() && SuppliesFresh(sign(node))
      modifies this`status, this`signMethod, this`signKey, keys`live
      ensures Valid()
      ensures r == if KeyIsSet().Err? then Err(KeyNotLoaded) else SignResult(sign(node).rc)
      ensures KeyIsSet().Err? ==>
        status == old(status) && signMethod == old(signMethod) && signKey == old(signKey) && keys.live == old(keys.live)
      ensures KeyIsSet().Ok? ==> status == sign(node).status && signMethod == sign(node).signMethod
      ensures KeyIsSet().Ok? ==> signKey == old(SlotAfter(sign(node).mngrKey)) && keys.live == old(LiveAfter(sign(node).mngrKey))
    {
      var ks := KeyIsSet();
      if ks.Err? {
        return Err(ks.error);
      }
      r := SignNodeRaw(node, sign);
    }

    /** verify_node: the key check, then the node itself goes to the backend. */
    method VerifyNode(node: Handle, verify: Handle -> DSigRun) returns (o: Outcome<Result<bool>>)
      requires Valid() && SuppliesFresh(verify(node))
      modifies this`status, this`signMethod, this`signKey, keys`live
      ensures Valid()
      ensures o == if KeyIsSet().Err? then Returned(Err(KeyNotLoaded)) else VerifyResult(verify(node).rc, verify(node).status)
      ensures KeyIsSet().Err? ==>
        status == old(status) && signMethod == old(signMethod) && signKey == old(signKey) && keys.live == old(keys.live)
      ensures KeyIsSet().Ok? ==> status == verify(node).status && signMethod == verify(node).signMethod
      ensures KeyIsSet().Ok? ==> signKey == old(SlotAfter(verify(node).mngrKey)) && keys.live == old(LiveAfter(verify(node).mngrKey))
    {
      var ks := KeyIsSet();
      if ks.Err? {
        return Returned(Err(ks.error));
      }
      o := VerifyNodeRaw(node, verify);
    }

    /** sign_document: key check, root, signature node, then the backend; see SignDocumentOrder. */
    method SignDocument(doc: Dom.XmlDocument, sign: Handle -> DSigRun) returns (r: Result<()>)
      requires Valid() && (SignatureTarget(doc).Ok? ==> SuppliesFresh(sign(SignatureTarget(doc).value.node.id)))
      modifies this`status, this`signMethod, this`signKey, keys`live
      ensures Valid()
      ensures r == SignDocumentSpec(KeyIsSet().Ok?, doc, sign)
      ensures KeyIsSet().Err? || SignatureTarget(doc).Err? ==>
        status == old(status) && signMethod == old(signMethod) && signKey == old(signKey) && keys.live == old(keys.live)
      ensures KeyIsSet().Ok? && SignatureTarget(doc).Ok? ==>
        var run := sign(SignatureTarget(doc).value.node.id);
        && status == run.status && signMethod == run.signMethod
        && signKey == old(SlotAfter(run.mngrKey)) && keys.live == old(LiveAfter(run.mngrKey))
    {
      var ks := KeyIsSet();
      if ks.Err? {
        return Err(ks.error);
      }
      var root := FindRoot(doc);
      if root.Err? {
        return Err(root.error);
      }
      var sig := FindSignode(root.value);
      if sig.Err? {
        return Err(sig.error);
      }
      r := SignNodeRaw(sig.value.node.id, sign);
    }

    /** verify_document: key check, root, signature node, then the backend; see VerifyDocumentOrder. */
    method VerifyDocument(doc: Dom.XmlDocument, verify: Handle -> DSigRun) returns (o: Outcome<Result<bool>>)
      requires Valid() && (SignatureTarget(doc).Ok? ==> SuppliesFresh(verify(SignatureTarget(doc).value.node.id)))
      modifies this`status, this`signMethod, this`signKey, keys`live
      ensures Valid()
      ensures o == VerifyDocumentSpec(KeyIsSet().Ok?, doc, verify)
      ensures KeyIsSet().Err? || SignatureTarget(doc).Err? ==>
        status == old(status) && signMethod == old(signMethod) && signKey == old(signKey) && keys.live == old(keys.live)
      ensures KeyIsSet().Ok? && SignatureTarget(doc).Ok? ==>
        var run := verify(SignatureTarget(doc).value.node.id);
        && status == run.status && signMethod == run.signMethod
        && signKey == old(SlotAfter(run.mngrKey)) && keys.live == old(LiveAfter(run.mngrKey))
    {
      var ks := KeyIsSet();
      if ks.Err? {
        return Returned(Err(ks.error));
      }
      var root := FindRoot(doc);
      if root.Err? {
        return Returned(Err(root.error));
      }
      var sig := FindSignode(root.value);
      if sig.Err? {
        return Returned(Err(sig.error));
      }
      o := VerifyNodeRaw(sig.value.node.id, verify);
    }

    /** set_verification_time: stores the time for certificate checks and changes nothing else. */
    method SetVerificationTime(time: i64)
      modifies this`certsVerificationTime
      ensures certsVerificationTime == time
    {
      certsVerificationTime := time;
    }

    /**
     * signature_method: reads the id through the `signMethod` transform without checking it, so a context
     * that has not signed or verified yet (a null transform) crashes. Otherwise None for a null method id,
     * else from_method of the id: a method it reports is exactly the one whose descriptor the context
     * holds, and every table descriptor is reported.
     */
    function SignatureMethod(): (o: Outcome<Option<OpenSsl.SignatureMethod>>)
      reads this
      ensures o.Panicked? <==> signMethod == None
      ensures signMethod == Some(K.NullId) ==> o == Returned(None)
      ensures o.Returned? && o.value.Some? ==> Some(OpenSsl.ToMethod(o.value.value)) == signMethod
      ensures forall m :: Some(OpenSsl.ToMethod(m)) == signMethod ==> o == Returned(Some(m))
    {
      match signMethod
      case None => Panicked
      case Some(id) =>
        if id.NullId? then Returned(None)
        else
          var r := OpenSsl.FromMethod(id);
          OpenSsl.FromMethodExact(id);
          Returned(r)
    }

    /** Drop: xmlSecDSigCtxDestroy frees the context and the key in its slot; then the keys manager is dropped. */
    method Drop()
      requires Valid()
      modifies this`alive, keys, if keysMngr.Some? then {keysMngr.value} else {}
      ensures !alive && keys.Valid()
      ensures keys.live == old(keys.live) - {signKey} && keys.wrapped == old(keys.wrapped)
      ensures keys.names == old(keys.names) - {signKey}
      ensures keysMngr.Some? ==> !keysMngr.value.alive
    {
      keys.DestroyLeaked(signKey);
      alive := false;
      if keysMngr.Some? {
        keysMngr.value.Drop();
      }
    }
  }

  /**
   * A context built with a keys manager and no key: signing stores the manager's key in the slot, and
   * release_key then hands exactly that key to the caller (nothing when the manager answered null).
   */
  method SignThenRelease(ctx: SignatureContext, node: Handle, sign: Handle -> DSigRun)
    returns (r: Result<()>, released: Option<Keys.Key>)
    requires ctx.Valid() && ctx.keysMngr.Some? && ctx.signKey == Null && ctx.keys.FreshOrNull(sign(node).mngrKey)
    modifies ctx`status, ctx`signMethod, ctx`signKey, ctx.keys`live, ctx.keys`wrapped
    ensures r == SignResult(sign(node).rc)
    ensures released == if sign(node).mngrKey == Null then None else Some(Keys.Key(sign(node).mngrKey))
    ensures ctx.signKey == Null
    ensures sign(node).mngrKey != Null ==> sign(node).mngrKey in ctx.keys.live && sign(node).mngrKey in ctx.keys.wrapped
  {
    r := ctx.SignNode(node, sign);
    released := ctx.ReleaseKey();
  }

  /** The key-setting usage: a key inserted into a fresh context comes back out of release_key as the same key. */
  method InsertThenRelease(ctx: SignatureContext, k: Keys.Key) returns (before: Option<Keys.Key>, after: Option<Keys.Key>)
    requires ctx.Valid() && ctx.signKey == Null && k.ptr in ctx.keys.wrapped
    modifies ctx`signKey, ctx.keys`wrapped
    ensures before == None
    ensures after.Some? && Keys.Eq(after.value, k)
    ensures ctx.signKey == Null && ctx.keys.wrapped == old(ctx.keys.wrapped)
  {
    before := ctx.InsertKey(k);
    after := ctx.ReleaseKey();
  }
}
