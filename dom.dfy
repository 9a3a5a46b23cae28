/** The document as the engine sees it: a finite tree of nodes in document
    order. Node 0 is the document itself; every other node is an element
    whose parent comes before it. CSS selectors are opaque strings: an
    element carries the set of selectors it matches, `[x-data]` is decided
    by the element's `x-data` attribute, and a selector the browser cannot
    parse (the empty string, or one the document lists as invalid) makes
    `matches` and the query methods throw a `SyntaxError`. */
module Dom {
  import opened Wrappers
  import opened Text
  import opened JsValues

  type NodeId = nat

  datatype Node = Node(
    parent: NodeId,
    tagName: string,
    id: string,
    dataKey: Option<string>,                 // the `data-key` attribute
    hasXData: bool,                          // the `x-data` attribute
    dataStack: Option<seq<DataObject>>,      // Alpine's `_x_dataStack`, when set
    matched: set<string>)                    // the other selectors the element matches

  datatype Document = Document(nodes: seq<Node>, body: NodeId, invalidSelectors: set<string>)

  const XData: string := "[x-data]"

  const DocumentNode: NodeId := 0

  /** The shape of a document the browser can hold: node 0 is the
      document, every element's parent is an earlier node, and the nodes of
      a subtree come right after its root (ids are preorder positions).
      Under it, id order is document order; the queries below are stated in
      id order and hold for any node sequence. */
  ghost predicate WellFormed(d: Document)
  {
    |d.nodes| > 0
    && (forall n :: 0 < n < |d.nodes| ==> d.nodes[n].parent < n)
    && (forall a: NodeId, b: NodeId, c: NodeId :: a < b < c < |d.nodes| && IsAncestor(d, a, c) ==> IsAncestor(d, a, b))
  }

  predicate IsElement(d: Document, n: NodeId)
  {
    0 < n < |d.nodes|
  }

  /** The parent of an element; the document has none. */
  function ParentOf(d: Document, n: NodeId): Option<NodeId>
  {
    if IsElement(d, n) && d.nodes[n].parent < n then Some(d.nodes[n].parent) else None
  }

  function StackOf(d: Document, n: NodeId): Option<seq<DataObject>>
  {
    if IsElement(d, n) then d.nodes[n].dataStack else None
  }

  /** `el._x_dataStack && el._x_dataStack.length > 0` */
  predicate HasLiveStack(d: Document, n: NodeId)
  {
    StackOf(d, n).Some? && |StackOf(d, n).value| > 0
  }

  predicate ValidSelector(d: Document, sel: string)
  {
    sel == XData || (sel != "" && sel !in d.invalidSelectors)
  }

  /** `n.matches(sel)` for a valid selector. */
  predicate Matches(d: Document, n: NodeId, sel: string)
  {
    IsElement(d, n) && (if sel == XData then d.nodes[n].hasXData else sel in d.nodes[n].matched)
  }

  /** `sels.join(',')` is a valid selector list: no part is empty or invalid. */
  predicate ValidList(d: Document, sels: seq<string>)
  {
    |sels| > 0 && forall k :: 0 <= k < |sels| ==> ValidSelector(d, sels[k])
  }

  predicate MatchesList(d: Document, n: NodeId, sels: seq<string>)
  {
    exists k :: 0 <= k < |sels| && Matches(d, n, sels[k])
  }

  /** The nodes of a list, as a set. */
  function Elems(q: seq<NodeId>): set<NodeId>
  {
    set n | n in q
  }

  /** `a` is a proper ancestor of `n`. */
  predicate IsAncestor(d: Document, a: NodeId, n: NodeId)
    decreases n
  {
    match ParentOf(d, n)
    case None => false
    case Some(p) => p == a || IsAncestor(d, a, p)
  }

  lemma {:induction false} AncestorIsEarlier(d: Document, a: NodeId, n: NodeId)
    requires IsAncestor(d, a, n)
    ensures a < n
    decreases n
  {
    var p := ParentOf(d, n).value;
    if p != a {
      AncestorIsEarlier(d, a, p);
    }
  }

  /** The matching proper descendants of `root` among nodes `0 .. k-1`, in
      document order. */
  function Collect(d: Document, root: NodeId, sels: seq<string>, k: nat): (r: seq<NodeId>)
    ensures forall i :: 0 <= i < |r| ==> r[i] < k
    ensures forall n: NodeId :: n in r <==> n < k && IsAncestor(d, root, n) && MatchesList(d, n, sels)
    ensures forall i, j :: 0 <= i < j < |r| ==> r[i] < r[j]
  {
    if k == 0 then []
    else
      var n := k - 1;
      Collect(d, root, sels, n) + (if IsAncestor(d, root, n) && MatchesList(d, n, sels) then [n] else [])
  }

  /** `root.querySelectorAll(sels.join(','))` once the list is known to be
      valid: every matching descendant, each once, in document order. */
  function QueryAll(d: Document, root: NodeId, sels: seq<string>): (r: seq<NodeId>)
    ensures forall n: NodeId :: n in r <==> IsElement(d, n) && IsAncestor(d, root, n) && MatchesList(d, n, sels)
    ensures forall i, j :: 0 <= i < j < |r| ==> r[i] < r[j]
  {
    Collect(d, root, sels, |d.nodes|)
  }

  /** `root.querySelectorAll(sels.join(','))`, throwing on an invalid list. */
  function QuerySelectorAll(d: Document, root: NodeId, sels: seq<string>): (r: Result<seq<NodeId>, JsError>)
    ensures r.Success? <==> ValidList(d, sels)
    ensures r.Success? ==> r.value == QueryAll(d, root, sels)
  {
    if ValidList(d, sels) then Success(QueryAll(d, root, sels))
    else Failure(SyntaxError("invalid selector"))
  }

  /** The first node from `i` on, in document order, that lies in the
      document and matches `sel`. */
  function FirstMatchFrom(d: Document, sel: string, i: nat): (r: Option<NodeId>)
    decreases |d.nodes| - i
    ensures r.Some? ==>
      i <= r.value && IsElement(d, r.value) && IsAncestor(d, DocumentNode, r.value) && Matches(d, r.value, sel)
      && forall m: NodeId :: i <= m < r.value && IsAncestor(d, DocumentNode, m) ==> !Matches(d, m, sel)
    ensures r.None? ==> forall m: NodeId :: i <= m && IsAncestor(d, DocumentNode, m) ==> !Matches(d, m, sel)
  {
    if i >= |d.nodes| then None
    else if IsAncestor(d, DocumentNode, i) && Matches(d, i, sel) then Some(i)
    else FirstMatchFrom(d, sel, i + 1)
  }

  /** `document.querySelector(sel)`: the first matching node of the
      document in document order, or none. */
  function QuerySelector(d: Document, sel: string): (r: Result<Option<NodeId>, JsError>)
    ensures r.Success? <==> ValidSelector(d, sel)
    ensures r.Success? && r.value.Some? ==>
      var n := r.value.value;
      IsElement(d, n) && IsAncestor(d, DocumentNode, n) && Matches(d, n, sel)
      && forall m: NodeId :: m < n && IsAncestor(d, DocumentNode, m) ==> !Matches(d, m, sel)
    ensures r.Success? && r.value.None? ==>
      forall m: NodeId :: IsAncestor(d, DocumentNode, m) ==> !Matches(d, m, sel)
  {
    if !ValidSelector(d, sel) then Failure(SyntaxError("invalid selector"))
    else Success(FirstMatchFrom(d, sel, 0))
  }

  /** `n.closest(sel)`: the nearest inclusive ancestor that matches. */
  function Closest(d: Document, n: NodeId, sel: string): (r: Option<NodeId>)
    decreases n
    ensures r.Some? ==> Matches(d, r.value, sel) && (r.value == n || IsAncestor(d, r.value, n))
    ensures r.None? ==> !Matches(d, n, sel) && forall a: NodeId :: IsAncestor(d, a, n) ==> !Matches(d, a, sel)
  {
    if Matches(d, n, sel) then Some(n)
    else
      match ParentOf(d, n)
      case None => None
      case Some(p) => Closest(d, p, sel)
  }

  /** `closest` returns the nearest match: no node strictly between the
      result and `n` on the way up matches. */
  lemma {:induction false} ClosestIsNearest(d: Document, n: NodeId, sel: string, m: NodeId)
    requires Closest(d, n, sel).Some? && (m == n || IsAncestor(d, m, n))
    requires IsAncestor(d, Closest(d, n, sel).value, m)
    ensures !Matches(d, m, sel)
    decreases n
  {
    AncestorIsEarlier(d, Closest(d, n, sel).value, m);
    if m != n {
      AncestorIsEarlier(d, m, n);
      var p := ParentOf(d, n).value;
      ClosestIsNearest(d, p, sel, m);
    }
  }

  /** The position of element `n` among its parent's element children. */
  function SiblingIndex(d: Document, n: NodeId): nat
    requires IsElement(d, n)
  {
    CountSiblingsBefore(d, d.nodes[n].parent, n)
  }

  /** How many children of `p` come before node `k`. */
  function CountSiblingsBefore(d: Document, p: NodeId, k: nat): nat
    requires k <= |d.nodes|
  {
    if k <= 1 then 0
    else CountSiblingsBefore(d, p, k - 1) + (if d.nodes[k - 1].parent == p then 1 else 0)
  }

  /** `getElementKey(el)`: the id, else a non-empty `data-key`, else the tag
      name and the element's position among its siblings. */
  function ElementKey(d: Document, n: NodeId): string
    requires IsElement(d, n)
  {
    var node := d.nodes[n];
    if node.id != "" then node.id
    else if node.dataKey.Some? && node.dataKey.value != "" then node.dataKey.value
    else node.tagName + "-" + NatToString(SiblingIndex(d, n))
  }

  lemma {:induction false} SiblingCountGrows(d: Document, p: NodeId, m: nat, k: nat)
    requires 0 < m < k <= |d.nodes| && d.nodes[m].parent == p
    ensures CountSiblingsBefore(d, p, k) >= CountSiblingsBefore(d, p, m) + 1
    decreases k
  {
    if k - 1 > m {
      SiblingCountGrows(d, p, m, k - 1);
    }
  }

  /** Two different children of one parent with the same tag and neither an
      id nor a `data-key` get different keys, so their snapshots do not
      overwrite each other. */
  lemma SiblingKeysDiffer(d: Document, m: NodeId, n: NodeId)
    requires IsElement(d, m) && IsElement(d, n) && m != n
    requires d.nodes[m].parent == d.nodes[n].parent && d.nodes[m].tagName == d.nodes[n].tagName
    requires d.nodes[m].id == "" && d.nodes[n].id == ""
    requires d.nodes[m].dataKey.None? || d.nodes[m].dataKey.value == ""
    requires d.nodes[n].dataKey.None? || d.nodes[n].dataKey.value == ""
    ensures ElementKey(d, m) != ElementKey(d, n)
  {
    var p := d.nodes[m].parent;
    var tag := d.nodes[m].tagName + "-";
    if m < n {
      SiblingCountGrows(d, p, m, n);
    } else {
      SiblingCountGrows(d, p, n, m);
    }
    if ElementKey(d, m) == ElementKey(d, n) {
      var a := NatToString(SiblingIndex(d, m));
      var b := NatToString(SiblingIndex(d, n));
      assert tag + a == tag + b;
      assert a == (tag + a)[|tag|..];
      assert b == (tag + b)[|tag|..];
      NatToStringInjective(SiblingIndex(d, m), SiblingIndex(d, n));
    }
  }

  lemma {:induction false} NoEarlierSiblings(d: Document, p: NodeId, k: nat)
    requires k <= |d.nodes|
    requires forall j :: 0 < j < k ==> d.nodes[j].parent != p
    ensures CountSiblingsBefore(d, p, k) == 0
  {
    if k > 1 {
      NoEarlierSiblings(d, p, k - 1);
    }
  }

  /** Keys are unique among siblings only. Two keyless elements with the
      same tag that each come first among their own parent's children get
      the same key, whatever their parents are: a body holding two keyless
      `DIV`s that each hold a keyless `DIV` gives both inner ones the key
      "DIV-0". */
  lemma FirstChildKeysCollide(d: Document, m: NodeId, n: NodeId)
    requires IsElement(d, m) && IsElement(d, n)
    requires d.nodes[m].tagName == d.nodes[n].tagName
    requires d.nodes[m].id == "" && d.nodes[n].id == ""
    requires d.nodes[m].dataKey.None? || d.nodes[m].dataKey.value == ""
    requires d.nodes[n].dataKey.None? || d.nodes[n].dataKey.value == ""
    requires forall j :: 0 < j < m ==> d.nodes[j].parent != d.nodes[m].parent
    requires forall j :: 0 < j < n ==> d.nodes[j].parent != d.nodes[n].parent
    ensures ElementKey(d, m) == ElementKey(d, n) == d.nodes[m].tagName + "-0"
  {
    NoEarlierSiblings(d, d.nodes[m].parent, m);
    NoEarlierSiblings(d, d.nodes[n].parent, n);
  }
}
