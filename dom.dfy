/**
 * The libxml2 tree as far as the wrapper looks into it: element and other nodes with ordered children,
 * the document's root element, and xmlSecFindNode, the backend's search for an element by name and
 * namespace.
 */
module Dom {
  import opened Errors
  import opened Ffi

  /** A node: an element with its local name, namespace href and children, or a text, comment or other non-element node. */
  datatype XmlNode =
    | Element(id: Handle, name: string, ns: string, children: seq<XmlNode>)
    | Other(id: Handle)

  /**
   * An `xmlNodePtr` as a search sees it: the node, and the siblings that follow it through `next`.
   */
  datatype NodePtr = NodePtr(node: XmlNode, next: seq<XmlNode>)

  /** A document is the ordered list of its top-level nodes. */
  datatype XmlDocument = XmlDocument(top: seq<XmlNode>)

  /** xmlSecCheckNodeName on an element node: same local name and same namespace. */
  predicate Matches(n: XmlNode, name: string, ns: string)
  {
    n.Element? && n.name == name && n.ns == ns
  }

  /** get_root_element: the first element among the top-level nodes, with the nodes after it. */
  function RootElement(doc: XmlDocument): (r: Option<NodePtr>)
    ensures r == None <==> forall i :: 0 <= i < |doc.top| ==> !doc.top[i].Element?
    decreases |doc.top|
  {
    if |doc.top| == 0 then None
    else if doc.top[0].Element? then Some(NodePtr(doc.top[0], doc.top[1..]))
    else
      var r := RootElement(XmlDocument(doc.top[1..]));
      assert forall i :: 1 <= i < |doc.top| ==> doc.top[i] == doc.top[1..][i - 1];
      r
  }

  /** The root found is the first top-level element, and the nodes after it are the ones that follow it. */
  lemma {:induction false} RootElementIsFirst(doc: XmlDocument)
    ensures RootElement(doc).Some? ==>
      var i := |doc.top| - 1 - |RootElement(doc).value.next|;
      IsFirstElementAt(doc, i) && doc.top[i] == RootElement(doc).value.node && doc.top[i + 1..] == RootElement(doc).value.next
    decreases |doc.top|
  {
    if |doc.top| > 0 && !doc.top[0].Element? {
      var rest := XmlDocument(doc.top[1..]);
      RootElementIsFirst(rest);
      if RootElement(rest).Some? {
        var i := |rest.top| - 1 - |RootElement(rest).value.next|;
        assert doc.top[i + 2..] == rest.top[i + 1..];
        forall j | 0 <= j < i + 1
          ensures !doc.top[j].Element?
        {
          if j > 0 {
            assert doc.top[j] == rest.top[j - 1];
          }
        }
      }
    }
  }

  /** The top-level node at `i` is an element and none before it is. */
  ghost predicate IsFirstElementAt(doc: XmlDocument, i: int)
  {
    0 <= i < |doc.top| && doc.top[i].Element? && forall j :: 0 <= j < i ==> !doc.top[j].Element?
  }

  /**
   * xmlSecFindNode starting at `cur` (a node followed by its next siblings): the node itself if it matches,
   * else a match among its descendants, else the search goes on at the next sibling.
   */
  function FindNode(cur: seq<XmlNode>, name: string, ns: string): (r: Option<NodePtr>)
    decreases cur
  {
    if |cur| == 0 then None
    else if Matches(cur[0], name, ns) then Some(NodePtr(cur[0], cur[1..]))
    else
      var below := if cur[0].Element? then FindNode(cur[0].children, name, ns) else None;
      if below.Some? then below else FindNode(cur[1..], name, ns)
  }

  /** Document order: every node reachable from `cur`, each as a pointer with its following siblings. */
  function Preorder(cur: seq<XmlNode>): (ps: seq<NodePtr>)
    decreases cur
  {
    if |cur| == 0 then []
    else
      [NodePtr(cur[0], cur[1..])]
      + (if cur[0].Element? then Preorder(cur[0].children) else [])
      + Preorder(cur[1..])
  }

  /** The first pointer in `ps` whose node matches. */
  function FirstMatch(ps: seq<NodePtr>, name: string, ns: string): (r: Option<NodePtr>)
    ensures r == None <==> forall i :: 0 <= i < |ps| ==> !Matches(ps[i].node, name, ns)
    ensures r.Some? ==> exists i :: 0 <= i < |ps| && ps[i] == r.value && IsFirstMatchAt(ps, i, name, ns)
  {
    if |ps| == 0 then None
    else if Matches(ps[0].node, name, ns) then
      assert IsFirstMatchAt(ps, 0, name, ns);
      Some(ps[0])
    else
      var r := FirstMatch(ps[1..], name, ns);
      assert forall i :: 1 <= i < |ps| ==> ps[i] == ps[1..][i - 1];
      if r.Some? then
        ghost var i :| 0 <= i < |ps| - 1 && ps[1..][i] == r.value && IsFirstMatchAt(ps[1..], i, name, ns);
        assert ps[i + 1] == r.value;
        assert IsFirstMatchAt(ps, i + 1, name, ns);
        r
      else
        r
  }

  /** The pointer at `i` is the first in `ps` whose node matches. */
  ghost predicate IsFirstMatchAt(ps: seq<NodePtr>, i: int, name: string, ns: string)
  {
    0 <= i < |ps| && Matches(ps[i].node, name, ns) && forall j :: 0 <= j < i ==> !Matches(ps[j].node, name, ns)
  }

  lemma {:induction false} FirstMatchAppend(a: seq<NodePtr>, b: seq<NodePtr>, name: string, ns: string)
    ensures FirstMatch(a + b, name, ns) == if FirstMatch(a, name, ns).Some? then FirstMatch(a, name, ns) else FirstMatch(b, name, ns)
    decreases |a|
  {
    if |a| == 0 {
      assert a + b == b;
    } else {
      assert (a + b)[1..] == a[1..] + b;
      FirstMatchAppend(a[1..], b, name, ns);
    }
  }

  /** xmlSecFindNode returns the first match in document order from where it starts. */
  lemma {:induction false} FindNodeIsFirstMatch(cur: seq<XmlNode>, name: string, ns: string)
    ensures FindNode(cur, name, ns) == FirstMatch(Preorder(cur), name, ns)
    decreases cur
  {
    if |cur| > 0 {
      var head := [NodePtr(cur[0], cur[1..])];
      var below := if cur[0].Element? then Preorder(cur[0].children) else [];
      assert Preorder(cur) == head + below + Preorder(cur[1..]);
      FirstMatchAppend(head + below, Preorder(cur[1..]), name, ns);
      FirstMatchAppend(head, below, name, ns);
      if cur[0].Element? {
        FindNodeIsFirstMatch(cur[0].children, name, ns);
      }
      FindNodeIsFirstMatch(cur[1..], name, ns);
    }
  }

  /** The search fails exactly when no node reachable from `cur` matches; a node it finds matches and is reachable. */
  lemma FindNodeNoneIff(cur: seq<XmlNode>, name: string, ns: string)
    ensures FindNode(cur, name, ns) == None <==> forall i :: 0 <= i < |Preorder(cur)| ==> !Matches(Preorder(cur)[i].node, name, ns)
    ensures FindNode(cur, name, ns).Some? ==> FindNode(cur, name, ns).value in Preorder(cur) && Matches(FindNode(cur, name, ns).value.node, name, ns)
  {
    FindNodeIsFirstMatch(cur, name, ns);
  }

  /** A search that starts on a matching node stops there. */
  lemma FindNodeFindsStart(p: NodePtr, name: string, ns: string)
    requires Matches(p.node, name, ns)
    ensures FindNode([p.node] + p.next, name, ns) == Some(p)
  {
    assert ([p.node] + p.next)[1..] == p.next;
  }
}
