/**
 * Signature templates: the document template builder that creates and attaches a `Signature` element,
 * and the builders that add a `Reference`, a `KeyInfo` and an `X509Data` to it. The DOM work is done
 * by libxmlsec1's template calls and libxml2's xmlAddChild; the model records every such call, in
 * order, on the document, and takes the node each call returns from the backend's `answer`.
 */
module Templates {
  import opened Errors
  import opened Ffi
  import K = Klasses
  import T = Transforms
  import OpenSsl
  import Dom

  /** One backend call that changes the document. */
  datatype TmplCall =
    | CreateSignature(doc: Handle, c14n: K.TransformId, signature: K.TransformId, id: CString, nsPrefix: CString)
    | AddChild(parent: Handle, child: Handle)
    | AddReference(signatureNode: Handle, digest: K.TransformId, id: CString, uri: CString, refType: CString)
    | AddTransform(reference: Handle, transform: K.TransformId)
    | EnsureKeyInfo(signatureNode: Handle, id: CString)
    | AddKeyName(keyInfo: Handle, name: CString)
    | AddKeyValue(keyInfo: Handle)
    | AddX509Data(keyInfo: Handle)
    | AddIssuerSerial(x509Data: Handle)
    | AddIssuerName(issuerSerial: Handle, name: CString)
    | AddSerialNumber(issuerSerial: Handle, serial: CString)
    | AddCertificate(x509Data: Handle)
    | Base64ContentWrite(node: Handle, data: seq<byte>, columns: int)

  /**
   * A libxml2 document: its pointer, its node tree as the signature context searches it (whose root
   * element xmlDocGetRootElement returns) and the template calls made on it so far.
   */
  class Document {
    const ptr: Handle
    const tree: Dom.XmlDocument
    var calls: seq<TmplCall>

    constructor (p: Handle, t: Dom.XmlDocument)
      ensures ptr == p && tree == t && calls == []
    {
      ptr := p;
      tree := t;
      calls := [];
    }

    /** Makes one backend call; `answer` gives the node it returns. */
    method Call(c: TmplCall, answer: TmplCall -> Handle) returns (h: Handle)
      modifies this`calls
      ensures calls == old(calls) + [c] && h == answer(c)
    {
      calls := calls + [c];
      h := answer(c);
    }
  }

  /** SignatureNode: the `Signature` element a build created, with its document. */
  datatype SignatureNode = SignatureNode(doc: Document, node: Handle)

  // ---------------------------------------------------------------------------------------------
  // XmlDocumentTemplateBuilder

  datatype DocumentTemplateBuilder = DocumentTemplateBuilder(
    doc: Document,
    c14n: T.CanonicalizationMethod,
    sig: OpenSsl.SignatureMethod,
    refsig: OpenSsl.SignatureMethod,
    nsPrefix: Option<string>,
    parentNode: Option<Handle>)

  /** new: exclusive C14N, RSA-SHA1 signature, SHA-1 reference digest, no prefix, no parent. */
  function NewDocumentTemplateBuilder(doc: Document): (b: DocumentTemplateBuilder)
    ensures b.doc == doc && b.c14n == T.ExclusiveC14N && b.sig == OpenSsl.RsaSha1 && b.refsig == OpenSsl.Sha1
    ensures b.nsPrefix == None && b.parentNode == None
  {
    DocumentTemplateBuilder(doc, T.ExclusiveC14N, OpenSsl.RsaSha1, OpenSsl.Sha1, None, None)
  }

  /** canonicalization: sets the canonicalization method only. */
  function Canonicalization(b: DocumentTemplateBuilder, c14n: T.CanonicalizationMethod): (r: DocumentTemplateBuilder)
    ensures r.c14n == c14n && r == b.(c14n := r.c14n)
  {
    b.(c14n := c14n)
  }

  /** signature: sets the signature method only. */
  function Signature(b: DocumentTemplateBuilder, sig: OpenSsl.SignatureMethod): (r: DocumentTemplateBuilder)
    ensures r.sig == sig && r == b.(sig := r.sig)
  {
    b.(sig := sig)
  }

  /** ns_prefix: sets the namespace prefix only. */
  function NsPrefix(b: DocumentTemplateBuilder, prefix: string): (r: DocumentTemplateBuilder)
    ensures r.nsPrefix == Some(prefix) && r == b.(nsPrefix := r.nsPrefix)
  {
    b.(nsPrefix := Some(prefix))
  }

  /** parent_node: sets the node to attach to only. */
  function ParentNode(b: DocumentTemplateBuilder, parent: Handle): (r: DocumentTemplateBuilder)
    ensures r.parentNode == Some(parent) && r == b.(parentNode := r.parentNode)
  {
    b.(parentNode := Some(parent))
  }

  /** Setters of different fields commute, and a later call of the same setter wins. */
  lemma SettersCommute(b: DocumentTemplateBuilder, c14n: T.CanonicalizationMethod, sig: OpenSsl.SignatureMethod, prefix: string, parent: Handle)
    ensures Signature(Canonicalization(b, c14n), sig) == Canonicalization(Signature(b, sig), c14n)
    ensures NsPrefix(ParentNode(b, parent), prefix) == ParentNode(NsPrefix(b, prefix), parent)
    ensures Canonicalization(ParentNode(b, parent), c14n) == ParentNode(Canonicalization(b, c14n), parent)
    ensures Signature(NsPrefix(b, prefix), sig) == NsPrefix(Signature(b, sig), prefix)
  {
  }

  lemma SettersOverride(b: DocumentTemplateBuilder, c1: T.CanonicalizationMethod, c2: T.CanonicalizationMethod,
                        s1: OpenSsl.SignatureMethod, s2: OpenSsl.SignatureMethod, p1: string, p2: string, n1: Handle, n2: Handle)
    ensures Canonicalization(Canonicalization(b, c1), c2) == Canonicalization(b, c2)
    ensures Signature(Signature(b, s1), s2) == Signature(b, s2)
    ensures NsPrefix(NsPrefix(b, p1), p2) == NsPrefix(b, p2)
    ensures ParentNode(ParentNode(b, n1), n2) == ParentNode(b, n2)
  {
  }

  /**
   * Where build attaches the signature: the explicit parent, else the document's root element (its first
   * top-level element), else nowhere.
   */
  function AttachTarget(b: DocumentTemplateBuilder): (t: Option<Handle>)
    ensures t == None <==> b.parentNode == None && Dom.RootElement(b.doc.tree) == None
    ensures b.parentNode.Some? ==> t == b.parentNode
    ensures b.parentNode == None && t.Some? ==>
      exists i :: 0 <= i < |b.doc.tree.top| && Dom.IsFirstElementAt(b.doc.tree, i) && t == Some(b.doc.tree.top[i].id)
  {
    if b.parentNode.Some? then b.parentNode
    else
      match Dom.RootElement(b.doc.tree)
      case None => None
      case Some(root) =>
        Dom.RootElementIsFirst(b.doc.tree);
        Some(root.node.id)
  }

  /** The xmlSecTmplSignatureCreateNsPref call build makes, given the prefix's C string. */
  function CreateCall(b: DocumentTemplateBuilder, prefix: CString): (c: TmplCall)
    ensures c.CreateSignature? && c.doc == b.doc.ptr && c.id == NullStr && c.nsPrefix == prefix
    ensures c.c14n == T.ToMethod(b.c14n) && c.signature == OpenSsl.ToMethod(b.sig)
  {
    CreateSignature(b.doc.ptr, T.ToMethod(b.c14n), OpenSsl.ToMethod(b.sig), NullStr, prefix)
  }

  /**
   * build: creates the `Signature` element (before looking for a place to put it), then appends it as
   * the last child of the attach target and returns it; with no target the result is RootNotFound and
   * nothing is attached. The created node is not checked for null. A prefix holding NUL is a panic.
   */
  method Build(b: DocumentTemplateBuilder, answer: TmplCall -> Handle) returns (o: Outcome<Result<SignatureNode>>)
    modifies b.doc`calls
    ensures o.Panicked? <==> b.nsPrefix.Some? && '\0' in b.nsPrefix.value
    ensures o.Panicked? ==> b.doc.calls == old(b.doc.calls)
    ensures o.Returned? ==>
      var create := CreateCall(b, OptionalCString(b.nsPrefix).value);
      && (o.value == Err(RootNotFound) <==> AttachTarget(b) == None)
      && (o.value.Err? ==> o.value == Err(RootNotFound) && b.doc.calls == old(b.doc.calls) + [create])
      && (o.value.Ok? ==>
            && o.value.value == SignatureNode(b.doc, answer(create))
            && b.doc.calls == old(b.doc.calls) + [create, AddChild(AttachTarget(b).value, answer(create))])
  {
    var prefix := OptionalCString(b.nsPrefix);
    if prefix.Panicked? {
      return Panicked;
    }
    var node := b.doc.Call(CreateCall(b, prefix.value), answer);
    var target := AttachTarget(b);
    if target == None {
      return Returned(Err(RootNotFound));
    }
    var _ := b.doc.Call(AddChild(target.value, node), answer);
    return Returned(Ok(SignatureNode(b.doc, node)));
  }

  // ---------------------------------------------------------------------------------------------
  // Issuing a fixed list of calls, stopping at the first null answer

  /** Every call in `cs` answers a non-null node. */
  predicate AllAnswered(cs: seq<TmplCall>, answer: TmplCall -> Handle)
    decreases |cs|
  {
    |cs| == 0 || (answer(cs[0]) != Null && AllAnswered(cs[1..], answer))
  }

  /** The calls made when `cs` are issued in order and the first null answer is a panic. */
  function IssueUntilNull(cs: seq<TmplCall>, answer: TmplCall -> Handle): (issued: seq<TmplCall>)
    decreases |cs|
  {
    if |cs| == 0 then []
    else if answer(cs[0]) == Null then [cs[0]]
    else [cs[0]] + IssueUntilNull(cs[1..], answer)
  }

  /**
   * The issued calls are a prefix of the wanted ones: all of them when every call answers, otherwise
   * up to and including the first call that answers null.
   */
  lemma {:induction false} IssueUntilNullPrefix(cs: seq<TmplCall>, answer: TmplCall -> Handle)
    ensures IssueUntilNull(cs, answer) <= cs
    ensures AllAnswered(cs, answer) ==> IssueUntilNull(cs, answer) == cs
    ensures !AllAnswered(cs, answer) ==>
      var issued := IssueUntilNull(cs, answer);
      |issued| > 0 && answer(issued[|issued| - 1]) == Null && AllAnswered(issued[..|issued| - 1], answer)
    decreases |cs|
  {
    if |cs| > 0 {
      if answer(cs[0]) == Null {
        assert [cs[0]][..0] == [];
      } else {
        IssueUntilNullPrefix(cs[1..], answer);
        var rest := IssueUntilNull(cs[1..], answer);
        var issued := [cs[0]] + rest;
        assert issued[1..] == rest;
        assert |rest| > 0 ==> issued[..|issued| - 1][1..] == rest[..|rest| - 1];
      }
    }
  }

  lemma IssueUntilNullCons(c: TmplCall, rest: seq<TmplCall>, answer: TmplCall -> Handle)
    ensures IssueUntilNull([c] + rest, answer) == if answer(c) == Null then [c] else [c] + IssueUntilNull(rest, answer)
    ensures AllAnswered([c] + rest, answer) <==> answer(c) != Null && AllAnswered(rest, answer)
  {
    assert ([c] + rest)[1..] == rest;
  }

  // ---------------------------------------------------------------------------------------------
  // ReferenceSignatureBuilder

  datatype ReferenceSignatureBuilder = ReferenceSignatureBuilder(
    signatureNode: SignatureNode,
    sig: OpenSsl.SignatureMethod,
    uri: Option<string>,
    withEnveloped: bool)

  /** new: SHA-1 digest, no URI, with the enveloped-signature transform. */
  function NewReferenceSignatureBuilder(node: SignatureNode): (b: ReferenceSignatureBuilder)
    ensures b.signatureNode == node && b.sig == OpenSsl.Sha1 && b.uri == None && b.withEnveloped
  {
    ReferenceSignatureBuilder(node, OpenSsl.Sha1, None, true)
  }

  /** signature: sets the reference digest only. */
  function ReferenceDigest(b: ReferenceSignatureBuilder, sig: OpenSsl.SignatureMethod): (r: ReferenceSignatureBuilder)
    ensures r.sig == sig && r == b.(sig := r.sig)
  {
    b.(sig := sig)
  }

  /** uri: sets the URI only, panicking on a URI holding NUL. */
  function Uri(b: ReferenceSignatureBuilder, uri: string): (o: Outcome<ReferenceSignatureBuilder>)
    ensures o.Panicked? <==> '\0' in uri
    ensures o.Returned? ==> o.value.uri == Some(uri) && o.value == b.(uri := o.value.uri)
  {
    match NewCString(uri)
    case Panicked => Panicked
    case Returned(_) => Returned(b.(uri := Some(uri)))
  }

  /** with_enveloped: sets the enveloped flag only. */
  function WithEnveloped(b: ReferenceSignatureBuilder, withEnveloped: bool): (r: ReferenceSignatureBuilder)
    ensures r.withEnveloped == withEnveloped && r == b.(withEnveloped := r.withEnveloped)
  {
    b.(withEnveloped := withEnveloped)
  }

  /** The xmlSecTmplSignatureAddReference call: the digest's descriptor, no id or type, the URI or null. */
  function ReferenceCall(b: ReferenceSignatureBuilder): (c: TmplCall)
    ensures c.AddReference? && c.signatureNode == b.signatureNode.node && c.digest == OpenSsl.ToMethod(b.sig)
    ensures c.id == NullStr && c.refType == NullStr
    ensures (c.uri == NullStr <==> b.uri == None) && (b.uri.Some? ==> c.uri == CStr(b.uri.value))
  {
    AddReference(b.signatureNode.node, OpenSsl.ToMethod(b.sig), NullStr, if b.uri.Some? then CStr(b.uri.value) else NullStr, NullStr)
  }

  /**
   * add_node: one Reference, then the enveloped-signature transform on it exactly when `withEnveloped`
   * is set (section 6.6.4 of W3C XML Signature Syntax and Processing, Second Edition); a null node from
   * either call is a panic.
   */
  method ReferenceAddNode(b: ReferenceSignatureBuilder, answer: TmplCall -> Handle) returns (o: Outcome<()>)
    modifies b.signatureNode.doc`calls
    ensures
      var ref := answer(ReferenceCall(b));
      var wanted := [ReferenceCall(b)] + (if b.withEnveloped then [AddTransform(ref, K.Id(K.Enveloped))] else []);
      && b.signatureNode.doc.calls == old(b.signatureNode.doc.calls) + IssueUntilNull(wanted, answer)
      && (o.Returned? <==> AllAnswered(wanted, answer))
  {
    var doc := b.signatureNode.doc;
    var ref := doc.Call(ReferenceCall(b), answer);
    ghost var tail := if b.withEnveloped then [AddTransform(ref, K.Id(K.Enveloped))] else [];
    IssueUntilNullCons(ReferenceCall(b), tail, answer);
    if ref == Null {
      return Panicked;
    }
    if b.withEnveloped {
      IssueUntilNullCons(AddTransform(ref, K.Id(K.Enveloped)), [], answer);
      var envelope := doc.Call(AddTransform(ref, K.Id(K.Enveloped)), answer);
      if envelope == Null {
        return Panicked;
      }
    }
    return Returned(());
  }

  // ---------------------------------------------------------------------------------------------
  // KeyInfoBuilder

  datatype KeyInfoBuilder = KeyInfoBuilder(signatureNode: SignatureNode, keyname: bool, keyvalue: bool, x509data: bool)

  /** new: every child is off. */
  function NewKeyInfoBuilder(node: SignatureNode): (b: KeyInfoBuilder)
    ensures b.signatureNode == node && !b.keyname && !b.keyvalue && !b.x509data
  {
    KeyInfoBuilder(node, false, false, false)
  }

  function KeyName(b: KeyInfoBuilder, on: bool): (r: KeyInfoBuilder)
    ensures r.keyname == on && r == b.(keyname := r.keyname)
  {
    b.(keyname := on)
  }

  function KeyValue(b: KeyInfoBuilder, on: bool): (r: KeyInfoBuilder)
    ensures r.keyvalue == on && r == b.(keyvalue := r.keyvalue)
  {
    b.(keyvalue := on)
  }

  function X509Data(b: KeyInfoBuilder, on: bool): (r: KeyInfoBuilder)
    ensures r.x509data == on && r == b.(x509data := r.x509data)
  {
    b.(x509data := on)
  }

  /** The children add_node asks for under the KeyInfo node `ki`, in the order it asks. */
  function RequestedChildren(b: KeyInfoBuilder, ki: Handle): (cs: seq<TmplCall>)
  {
    (if b.keyname then [AddKeyName(ki, NullStr)] else [])
    + (if b.keyvalue then [AddKeyValue(ki)] else [])
    + (if b.x509data then [AddX509Data(ki)] else [])
  }

  /** Each child is requested exactly when its flag is set, once, and KeyName before KeyValue before X509Data. */
  lemma RequestedChildrenExactly(b: KeyInfoBuilder, ki: Handle)
    ensures AddKeyName(ki, NullStr) in RequestedChildren(b, ki) <==> b.keyname
    ensures AddKeyValue(ki) in RequestedChildren(b, ki) <==> b.keyvalue
    ensures AddX509Data(ki) in RequestedChildren(b, ki) <==> b.x509data
    ensures |RequestedChildren(b, ki)| == (if b.keyname then 1 else 0) + (if b.keyvalue then 1 else 0) + (if b.x509data then 1 else 0)
    ensures forall i, j :: 0 <= i < j < |RequestedChildren(b, ki)| ==> Rank(RequestedChildren(b, ki)[i]) < Rank(RequestedChildren(b, ki)[j])
  {
  }

  /** The position of a KeyInfo child kind in the order add_node uses. */
  function Rank(c: TmplCall): nat
  {
    match c
    case AddKeyName(_, _) => 0
    case AddKeyValue(_) => 1
    case AddX509Data(_) => 2
    case _ => 3
  }

  /**
   * Issuing an optional call `c` ahead of `rest`, once `c` has been issued onto a trace `before`
   * (giving `after`): either the remaining calls are issued too, or the trace stops at `c`.
   */
  lemma IssueOptional(before: seq<TmplCall>, after: seq<TmplCall>, on: bool, c: TmplCall, rest: seq<TmplCall>, answer: TmplCall -> Handle)
    requires after == before + (if on then [c] else [])
    ensures var cs := (if on then [c] else []) + rest;
      && before + IssueUntilNull(cs, answer) == (if !on || answer(c) != Null then after + IssueUntilNull(rest, answer) else after)
      && (AllAnswered(cs, answer) <==> (!on || answer(c) != Null) && AllAnswered(rest, answer))
  {
    if on {
      IssueOne(before, c, rest, answer);
    } else {
      assert [] + rest == rest;
      assert before + [] == before;
    }
  }

  lemma IssueOne(before: seq<TmplCall>, c: TmplCall, rest: seq<TmplCall>, answer: TmplCall -> Handle)
    ensures before + IssueUntilNull([c] + rest, answer) == (if answer(c) != Null then before + [c] + IssueUntilNull(rest, answer) else before + [c])
    ensures AllAnswered([c] + rest, answer) <==> answer(c) != Null && AllAnswered(rest, answer)
  {
    IssueUntilNullCons(c, rest, answer);
    assert before + ([c] + IssueUntilNull(rest, answer)) == before + [c] + IssueUntilNull(rest, answer);
  }

  /** Requests child `c` only when `on`; a null answer to it is reported as `ok == false`. */
  method CallIf(doc: Document, on: bool, c: TmplCall, answer: TmplCall -> Handle) returns (ok: bool)
    modifies doc`calls
    ensures doc.calls == old(doc.calls) + (if on then [c] else [])
    ensures ok <==> !on || answer(c) != Null
  {
    if on {
      var h := doc.Call(c, answer);
      ok := h != Null;
    } else {
      ok := true;
      assert doc.calls + [] == doc.calls;
    }
  }

  /** add_node: ensure the KeyInfo node, then add the requested children in order; a null node is a panic. */
  method KeyInfoAddNode(b: KeyInfoBuilder, answer: TmplCall -> Handle) returns (o: Outcome<()>)
    modifies b.signatureNode.doc`calls
    ensures
      var ensure := EnsureKeyInfo(b.signatureNode.node, NullStr);
      var wanted := [ensure] + RequestedChildren(b, answer(ensure));
      && b.signatureNode.doc.calls == old(b.signatureNode.doc.calls) + IssueUntilNull(wanted, answer)
      && (o.Returned? <==> AllAnswered(wanted, answer))
  {
    var doc := b.signatureNode.doc;
    ghost var c0 := doc.calls;
    var ensure := EnsureKeyInfo(b.signatureNode.node, NullStr);
    var keyinfo := doc.Call(ensure, answer);
    var kn, kv, xd := AddKeyName(keyinfo, NullStr), AddKeyValue(keyinfo), AddX509Data(keyinfo);
    ghost var xs := (if b.x509data then [xd] else []) + [];
    ghost var vs := (if b.keyvalue then [kv] else []) + xs;
    ghost var ns := (if b.keyname then [kn] else []) + vs;
    assert RequestedChildren(b, keyinfo) == ns;
    ghost var c1 := doc.calls;
    IssueOptional(c0, c1, true, ensure, ns, answer);
    if keyinfo == Null {
      return Panicked;
    }
    var ok := CallIf(doc, b.keyname, kn, answer);
    ghost var c2 := doc.calls;
    IssueOptional(c1, c2, b.keyname, kn, vs, answer);
    if !ok {
      return Panicked;
    }
    ok := CallIf(doc, b.keyvalue, kv, answer);
    ghost var c3 := doc.calls;
    IssueOptional(c2, c3, b.keyvalue, kv, xs, answer);
    if !ok {
      return Panicked;
    }
    ok := CallIf(doc, b.x509data, xd, answer);
    IssueOptional(c3, doc.calls, b.x509data, xd, [], answer);
    if !ok {
      return Panicked;
    }
    return Returned(());
  }

  // ---------------------------------------------------------------------------------------------
  // X509Builder

  /** One relative distinguished name entry of an issuer: its object's short name and its text, when they exist. */
  datatype NameEntry = NameEntry(shortName: Option<string>, value: Option<string>)

  /** The parts of an X.509 certificate add_node reads: issuer entries, serial number and DER encoding. */
  datatype Certificate = Certificate(issuer: seq<NameEntry>, serial: int, der: seq<byte>)

  datatype X509Builder = X509Builder(signatureNode: SignatureNode)

  function NewX509Builder(node: SignatureNode): (b: X509Builder)
    ensures b.signatureNode == node
  {
    X509Builder(node)
  }

  /** `short=value` for one entry; a missing short name or a value that is not UTF-8 is a panic. */
  function EntryString(e: NameEntry): (o: Outcome<string>)
    ensures o.Returned? <==> e.shortName.Some? && e.value.Some?
    ensures o.Returned? ==> o.value == e.shortName.value + "=" + e.value.value
  {
    match (e.shortName, e.value)
    case (Some(n), Some(v)) => Returned(n + "=" + v)
    case _ => Panicked
  }

  /** The strings joined with `,` between consecutive ones. */
  function Join(parts: seq<string>): (s: string)
    decreases |parts|
  {
    if |parts| == 0 then ""
    else if |parts| == 1 then parts[0]
    else parts[0] + "," + Join(parts[1..])
  }

  /** Joining two non-empty lists puts exactly one separator between the two joins. */
  lemma {:induction false} JoinAppend(xs: seq<string>, ys: seq<string>)
    requires |xs| > 0 && |ys| > 0
    ensures Join(xs + ys) == Join(xs) + "," + Join(ys)
    decreases |xs|
  {
    if |xs| == 1 {
      assert (xs + ys)[1..] == ys;
    } else {
      assert (xs + ys)[1..] == xs[1..] + ys;
      JoinAppend(xs[1..], ys);
    }
  }

  /** The entry strings of the issuer, in order; the first entry that panics makes the whole a panic. */
  function EntryStrings(entries: seq<NameEntry>): (o: Outcome<seq<string>>)
    ensures o.Returned? <==> forall i :: 0 <= i < |entries| ==> EntryString(entries[i]).Returned?
    ensures o.Returned? ==> |o.value| == |entries| && forall i :: 0 <= i < |entries| ==> o.value[i] == EntryString(entries[i]).value
    decreases |entries|
  {
    if |entries| == 0 then Returned([])
    else
      match (EntryString(entries[0]), EntryStrings(entries[1..]))
      case (Returned(h), Returned(t)) => Returned([h] + t)
      case _ => Panicked
  }

  /** The issuer string add_node writes: the entries' `short=value` strings joined with `,`. */
  function IssuerString(entries: seq<NameEntry>): (o: Outcome<string>)
    ensures o.Returned? <==> forall i :: 0 <= i < |entries| ==> entries[i].shortName.Some? && entries[i].value.Some?
  {
    match EntryStrings(entries)
    case Returned(parts) => Returned(Join(parts))
    case Panicked => Panicked
  }

  /** Appending an entry appends `,short=value` to the issuer string. */
  lemma IssuerStringSnoc(entries: seq<NameEntry>, e: NameEntry)
    requires |entries| > 0 && IssuerString(entries).Returned? && EntryString(e).Returned?
    ensures IssuerString(entries + [e]) == Returned(IssuerString(entries).value + "," + EntryString(e).value)
  {
    var all := EntryStrings(entries + [e]);
    assert forall i :: 0 <= i < |entries + [e]| ==> EntryString((entries + [e])[i]).Returned? by {
      forall i | 0 <= i < |entries + [e]|
        ensures EntryString((entries + [e])[i]).Returned?
      {
        if i < |entries| {
          assert (entries + [e])[i] == entries[i];
        }
      }
    }
    assert all.value == EntryStrings(entries).value + [EntryString(e).value];
    JoinAppend(EntryStrings(entries).value, [EntryString(e).value]);
  }

  // Decimal text of the serial number

  predicate AllDigits(s: string)
  {
    forall i :: 0 <= i < |s| ==> '0' <= s[i] <= '9'
  }

  /** The decimal digits of a natural number, most significant first, with no leading zeros. */
  function Digits(n: nat): (s: string)
    ensures |s| > 0 && AllDigits(s)
    ensures |s| > 1 ==> s[0] != '0'
    decreases n
  {
    if n < 10 then [(n + '0' as int) as char]
    else Digits(n / 10) + [((n % 10) + '0' as int) as char]
  }

  /** to_dec_str: the digits, after a `-` for a negative number. */
  function DecimalString(n: int): (s: string)
    ensures |s| > 0 && (s[0] == '-' <==> n < 0)
  {
    if n < 0 then "-" + Digits(-n) else Digits(n)
  }

  /** The value of a string of decimal digits. */
  function DigitsValue(s: string): nat
    requires AllDigits(s)
    decreases |s|
  {
    if |s| == 0 then 0 else 10 * DigitsValue(s[..|s| - 1]) + (s[|s| - 1] as int - '0' as int)
  }

  /** The value of a decimal string with an optional leading `-`. */
  function ParseDecimal(s: string): Option<int>
  {
    if |s| > 0 && s[0] == '-' then
      if |s| > 1 && AllDigits(s[1..]) then Some(-(DigitsValue(s[1..]) as int)) else None
    else if |s| > 0 && AllDigits(s) then Some(DigitsValue(s)) else None
  }

  lemma {:induction false} DigitsValueOfDigits(n: nat)
    ensures DigitsValue(Digits(n)) == n
    decreases n
  {
    if n >= 10 {
      DigitsValueOfDigits(n / 10);
      var s := Digits(n);
      assert s[..|s| - 1] == Digits(n / 10);
    }
  }

  /** The serial number's decimal text reads back as the serial number. */
  lemma DecimalRoundTrip(n: int)
    ensures ParseDecimal(DecimalString(n)) == Some(n)
  {
    if n < 0 {
      NegativeRoundTrip(-n);
      assert DecimalString(n) == "-" + Digits(-n);
    } else {
      DigitsValueOfDigits(n);
      assert DecimalString(n)[0] != '-';
    }
  }

  /** A `-` followed by the digits of `m > 0` reads back as `-m`. */
  lemma NegativeRoundTrip(m: nat)
    requires m > 0
    ensures ParseDecimal("-" + Digits(m)) == Some(-(m as int))
  {
    DigitsValueOfDigits(m);
    assert ("-" + Digits(m))[1..] == Digits(m);
  }

  /** The serial number's text never holds a NUL, so turning it into a C string never panics. */
  lemma SerialCStringNeverPanics(n: int)
    ensures NewCString(DecimalString(n)) == Returned(CStr(DecimalString(n)))
  {
    var s := DecimalString(n);
    if n < 0 {
      assert forall i :: 1 <= i < |s| ==> s[i] == Digits(-n)[i - 1];
    }
    assert forall i :: 0 <= i < |s| ==> s[i] != '\0';
  }

  /** The issuer text written into the template; empty when building it panics. */
  function IssuerText(cert: Certificate): (s: string)
    ensures IssuerString(cert.issuer).Returned? ==> s == IssuerString(cert.issuer).value
  {
    match IssuerString(cert.issuer)
    case Returned(t) => t
    case Panicked => ""
  }

  /** The issuer text as a C string; a panic when building the text panics or the text holds a NUL. */
  function IssuerCString(cert: Certificate): (o: Outcome<CString>)
    ensures o.Returned? <==> IssuerString(cert.issuer).Returned? && '\0' !in IssuerText(cert)
    ensures o.Returned? ==> o.value == CStr(IssuerText(cert))
  {
    match IssuerString(cert.issuer)
    case Returned(t) => NewCString(t)
    case Panicked => Panicked
  }

  /**
   * The calls add_node makes after the X509IssuerSerial node `ser` exists under the X509Data node `xd`:
   * issuer name, serial number, certificate node and its base64 text.
   */
  function X509Tail(ser: Handle, xd: Handle, cert: Certificate, answer: TmplCall -> Handle): (ts: seq<TmplCall>)
    ensures |ts| == 4 && ts[2] == AddCertificate(xd)
  {
    [AddIssuerName(ser, CStr(IssuerText(cert))), AddSerialNumber(ser, CStr(DecimalString(cert.serial))),
     AddCertificate(xd), Base64ContentWrite(answer(AddCertificate(xd)), cert.der, 64)]
  }

  /** How many of the tail calls are made: none when the issuer text panics, three when the certificate node is null. */
  function X509TailIssued(xd: Handle, cert: Certificate, answer: TmplCall -> Handle): (k: nat)
    ensures k <= 4
  {
    if IssuerCString(cert).Panicked? then 0
    else if answer(AddCertificate(xd)) == Null then 3
    else 4
  }

  /** The calls add_node makes when nothing fails, each on the node the one before returned. */
  function X509Wanted(node: Handle, cert: Certificate, answer: TmplCall -> Handle): (cs: seq<TmplCall>)
    ensures |cs| == 7 && cs[0] == EnsureKeyInfo(node, NullStr)
    ensures cs[1] == AddX509Data(answer(cs[0])) && cs[2] == AddIssuerSerial(answer(cs[1]))
    ensures cs[5] == AddCertificate(answer(cs[1]))
  {
    var ki := answer(EnsureKeyInfo(node, NullStr));
    var xd := answer(AddX509Data(ki));
    [EnsureKeyInfo(node, NullStr), AddX509Data(ki), AddIssuerSerial(xd)]
    + X509Tail(answer(AddIssuerSerial(xd)), xd, cert, answer)
  }

  /**
   * How many of the wanted calls add_node makes: it stops after a call whose node is null, and before the
   * issuer name when building the issuer text panics.
   */
  function X509Issued(node: Handle, cert: Certificate, answer: TmplCall -> Handle): (k: nat)
    ensures 1 <= k <= 7
  {
    var cs := X509Wanted(node, cert, answer);
    if answer(cs[0]) == Null then 1
    else if answer(cs[1]) == Null then 2
    else if answer(cs[2]) == Null then 3
    else 3 + X509TailIssued(answer(cs[1]), cert, answer)
  }

  /**
   * add_node: KeyInfo, X509Data and X509IssuerSerial nodes, the issuer name and serial number, then the
   * certificate node and its base64 text (64 columns). A null node, an issuer entry without a short name or
   * UTF-8 text, or a NUL in the issuer text is a panic; the answers to the name and serial calls are unchecked.
   */
  method X509AddNode(b: X509Builder, cert: Certificate, answer: TmplCall -> Handle) returns (o: Outcome<()>)
    modifies b.signatureNode.doc`calls
    ensures var cs := X509Wanted(b.signatureNode.node, cert, answer);
      && b.signatureNode.doc.calls == old(b.signatureNode.doc.calls) + cs[..X509Issued(b.signatureNode.node, cert, answer)]
      && (o.Returned? <==>
            answer(cs[0]) != Null && answer(cs[1]) != Null && answer(cs[2]) != Null && answer(cs[5]) != Null
            && IssuerCString(cert).Returned?)
  {
    var doc := b.signatureNode.doc;
    ghost var cs := X509Wanted(b.signatureNode.node, cert, answer);
    ghost var c0 := doc.calls;
    var keyinfo := doc.Call(EnsureKeyInfo(b.signatureNode.node, NullStr), answer);
    PrefixStep(c0, cs, 0);
    if keyinfo == Null {
      return Panicked;
    }
    var x509data := doc.Call(AddX509Data(keyinfo), answer);
    PrefixStep(c0, cs, 1);
    if x509data == Null {
      return Panicked;
    }
    var serial := doc.Call(AddIssuerSerial(x509data), answer);
    PrefixStep(c0, cs, 2);
    if serial == Null {
      return Panicked;
    }
    ghost var c3 := doc.calls;
    o := X509AddIssuerSerialAndCertificate(doc, serial, x509data, cert, answer);
    PrefixJoin(c0, cs[..3], X509Tail(serial, x509data, cert, answer), X509TailIssued(x509data, cert, answer));
  }

  /** The part of add_node after the X509IssuerSerial node exists. */
  method X509AddIssuerSerialAndCertificate(doc: Document, serial: Handle, x509data: Handle, cert: Certificate,
                                            answer: TmplCall -> Handle) returns (o: Outcome<()>)
    modifies doc`calls
    ensures doc.calls == old(doc.calls) + X509Tail(serial, x509data, cert, answer)[..X509TailIssued(x509data, cert, answer)]
    ensures o.Returned? <==> IssuerCString(cert).Returned? && answer(AddCertificate(x509data)) != Null
  {
    ghost var ts := X509Tail(serial, x509data, cert, answer);
    ghost var c0 := doc.calls;
    var name := IssuerCString(cert);
    if name.Panicked? {
      assert doc.calls == c0 + ts[..0];
      return Panicked;
    }
    var _ := doc.Call(AddIssuerName(serial, name.value), answer);
    SerialCStringNeverPanics(cert.serial);
    var number := NewCString(DecimalString(cert.serial));
    var _ := doc.Call(AddSerialNumber(serial, number.value), answer);
    var x509cert := doc.Call(AddCertificate(x509data), answer);
    assert doc.calls == c0 + ts[..3];
    if x509cert == Null {
      return Panicked;
    }
    // xmlSecBufferCreate / xmlSecBufferSetData / xmlSecBufferDestroy only hold the DER bytes for the write.
    var _ := doc.Call(Base64ContentWrite(x509cert, cert.der, 64), answer);
    assert doc.calls == c0 + ts[..4];
    return Returned(());
  }

  /** Issuing the next wanted call extends the issued prefix by one. */
  lemma PrefixStep(before: seq<TmplCall>, cs: seq<TmplCall>, k: nat)
    requires k < |cs|
    ensures before + cs[..k] + [cs[k]] == before + cs[..k + 1]
  {
    assert cs[..k + 1] == cs[..k] + [cs[k]];
  }

  /** A prefix of the head followed by a prefix of the tail is a prefix of the whole. */
  lemma PrefixJoin(before: seq<TmplCall>, head: seq<TmplCall>, tail: seq<TmplCall>, k: nat)
    requires k <= |tail|
    ensures before + head + tail[..k] == before + (head + tail)[..|head| + k]
  {
    assert (head + tail)[..|head| + k] == head + tail[..k];
  }
}
