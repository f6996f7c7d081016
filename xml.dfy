/** A generic XML element tree: the shape every OpenXML part has once parsed.
    The SDK's typed queries (`Descendants<T>()`, typed child properties,
    `OpenXmlUnknownElement` filters) become matches on local name and
    namespace over this tree. */
module Xml {
  import opened Wrappers
  import opened Faults

  const NS_A := "http://schemas.openxmlformats.org/drawingml/2006/main"
  const NS_C := "http://schemas.openxmlformats.org/drawingml/2006/chart"
  const NS_XDR := "http://schemas.openxmlformats.org/drawingml/2006/spreadsheetDrawing"
  const NS_CX := "http://schemas.microsoft.com/office/drawing/2014/chartex"
  const NS_R := "http://schemas.openxmlformats.org/officeDocument/2006/relationships"

  /** An attribute name: namespace URI ("" for none) and local name. */
  datatype QName = QName(ns: string, local: string)

  /** `text` is the element's own character content (that of a leaf such as
      `<a:t>`); `children` are its child elements in document order. */
  datatype Element = Element(localName: string, ns: string, attrs: map<QName, string>,
                             children: seq<Element>, text: string)

  predicate Is(e: Element, local: string, ns: string) { e.localName == local && e.ns == ns }

  /** `e.Descendants()`: every element below `e` in document (pre-)order, `e` excluded. */
  function Descendants(e: Element): seq<Element>
    decreases e, 1
  {
    DescendantsOfAll(e.children)
  }

  /** The children of a node in order, each followed by its own descendants. */
  function DescendantsOfAll(kids: seq<Element>): seq<Element>
    decreases kids, 0
  {
    if kids == [] then [] else [kids[0]] + Descendants(kids[0]) + DescendantsOfAll(kids[1..])
  }

  /** `InnerText`: the concatenated character content of `e` and everything below it. */
  function InnerText(e: Element): string
    decreases e, 1
  {
    e.text + InnerTextOfAll(e.children)
  }

  function InnerTextOfAll(kids: seq<Element>): string
    decreases kids, 0
  {
    if kids == [] then "" else InnerText(kids[0]) + InnerTextOfAll(kids[1..])
  }

  /** `xs.FirstOrDefault(p)`: the first element satisfying `p`, if any. */
  function FirstWhere(xs: seq<Element>, p: Element -> bool): (r: Option<Element>)
    ensures r.None? <==> forall i :: 0 <= i < |xs| ==> !p(xs[i])
    ensures r.Some? ==> exists i :: 0 <= i < |xs| && xs[i] == r.value && p(xs[i])
                                    && forall j :: 0 <= j < i ==> !p(xs[j])
  {
    if xs == [] then None
    else if p(xs[0]) then Some(xs[0])
    else
      var r := FirstWhere(xs[1..], p);
      assert r.Some? ==> exists i :: 0 <= i < |xs| - 1 && xs[1..][i] == r.value && p(xs[1..][i])
                                     && forall j :: 0 <= j < i ==> !p(xs[1..][j]);
      assert r.Some? ==> exists i :: 1 <= i < |xs| && xs[i] == r.value && p(xs[i])
                                     && forall j :: 0 <= j < i ==> !p(xs[j]);
      r
  }

  /** `xs.FirstOrDefault(p)` for a predicate that can throw: the search stops
      at the first element on which `p` throws or holds. */
  function FirstWhereOrFault(xs: seq<Element>, p: Element -> Result<bool, Fault>): (r: Result<Option<Element>, Fault>)
    ensures r == Success(None) <==> forall i :: 0 <= i < |xs| ==> p(xs[i]) == Success(false)
    ensures r.Success? && r.value.Some? ==>
              exists i :: 0 <= i < |xs| && xs[i] == r.value.value && p(xs[i]) == Success(true)
                          && forall j :: 0 <= j < i ==> p(xs[j]) == Success(false)
    ensures r.Failure? ==>
              exists i :: 0 <= i < |xs| && p(xs[i]) == Failure(r.error)
                          && forall j :: 0 <= j < i ==> p(xs[j]) == Success(false)
  {
    if xs == [] then Success(None)
    else match p(xs[0])
      case Failure(f) => Failure(f)
      case Success(true) => Success(Some(xs[0]))
      case Success(false) =>
        var r := FirstWhereOrFault(xs[1..], p);
        assert forall j :: 0 <= j < |xs| - 1 ==> xs[1..][j] == xs[j + 1];
        assert r.Success? && r.value.Some? ==>
                 exists i :: 1 <= i < |xs| && xs[i] == r.value.value && p(xs[i]) == Success(true)
                             && forall j :: 0 <= j < i ==> p(xs[j]) == Success(false);
        assert r.Failure? ==>
                 exists i :: 1 <= i < |xs| && p(xs[i]) == Failure(r.error)
                             && forall j :: 0 <= j < i ==> p(xs[j]) == Success(false);
        r
  }

  /** `x` is the first element of `xs` that `p` accepts. */
  ghost predicate FirstIn(xs: seq<Element>, p: Element -> bool, x: Element)
  {
    exists i :: 0 <= i < |xs| && xs[i] == x && p(x) && forall j :: 0 <= j < i ==> !p(xs[j])
  }

  /** FirstWhere finds exactly the first accepted element. */
  lemma FirstWhereIsFirst(xs: seq<Element>, p: Element -> bool, x: Element)
    requires FirstIn(xs, p, x)
    ensures FirstWhere(xs, p) == Some(x)
  {
    var i :| 0 <= i < |xs| && xs[i] == x && p(x) && forall j :: 0 <= j < i ==> !p(xs[j]);
    var r := FirstWhere(xs, p);
    var k :| 0 <= k < |xs| && xs[k] == r.value && p(xs[k]) && forall j :: 0 <= j < k ==> !p(xs[j]);
    assert !(k < i) && !(i < k);
  }

  /** A throwing search returns the first element tested true when every
      earlier test was false. */
  lemma FirstTestedTrue(xs: seq<Element>, p: Element -> Result<bool, Fault>, i: nat)
    requires i < |xs| && p(xs[i]) == Success(true)
    requires forall j :: 0 <= j < i ==> p(xs[j]) == Success(false)
    ensures FirstWhereOrFault(xs, p) == Success(Some(xs[i]))
  {
  }


  /** A throwing search throws the first fault when every earlier test was
      false. */
  lemma FirstTestedFault(xs: seq<Element>, p: Element -> Result<bool, Fault>, i: nat)
    requires i < |xs| && p(xs[i]).Failure?
    requires forall j :: 0 <= j < i ==> p(xs[j]) == Success(false)
    ensures FirstWhereOrFault(xs, p) == Failure(p(xs[i]).error)
  {
  }


  /** The test a typed query applies: the element has kind (local, ns). */
  function OfKind(local: string, ns: string): Element -> bool
  {
    (d: Element) => Is(d, local, ns)
  }

  /** The test of an untyped query by local name, whatever the namespace. */
  function Named(local: string): Element -> bool
  {
    (d: Element) => d.localName == local
  }

  /** A typed child property such as `title.ChartText`: the first child of that kind. */
  function FirstChild(e: Element, local: string, ns: string): (r: Option<Element>)
    ensures r.None? <==> forall c :: c in e.children ==> !Is(c, local, ns)
    ensures r.Some? ==> r.value in e.children && Is(r.value, local, ns)
  {
    FirstWhere(e.children, OfKind(local, ns))
  }

  /** `e.Descendants<T>().FirstOrDefault()` for the kind (local, ns). */
  function FirstDescendant(e: Element, local: string, ns: string): (r: Option<Element>)
    ensures r.None? <==> forall d :: d in Descendants(e) ==> !Is(d, local, ns)
    ensures r.Some? ==> r.value in Descendants(e) && Is(r.value, local, ns)
  {
    FirstWhere(Descendants(e), OfKind(local, ns))
  }

  /** `e.Descendants().FirstOrDefault(d => d.LocalName == local)`, whatever the namespace. */
  function FirstNamed(e: Element, local: string): (r: Option<Element>)
    ensures r.None? <==> forall d :: d in Descendants(e) ==> d.localName != local
    ensures r.Some? ==> r.value in Descendants(e) && r.value.localName == local
  {
    FirstWhere(Descendants(e), Named(local))
  }

  /** The descendants of `e` of kind (local, ns), in document order. */
  function DescendantsOfKind(e: Element, local: string, ns: string): seq<Element>
  {
    Filter(Descendants(e), d => Is(d, local, ns))
  }

  /** A child is a descendant. */
  lemma {:induction false} ChildIsDescendant(e: Element, c: Element)
    requires c in e.children
    ensures c in Descendants(e)
  {
    ChildInAll(e.children, c);
  }

  lemma {:induction false} ChildInAll(kids: seq<Element>, c: Element)
    requires c in kids
    ensures c in DescendantsOfAll(kids)
  {
    if kids[0] != c {
      ChildInAll(kids[1..], c);
    }
  }

  /** A descendant of a descendant is a descendant. */
  lemma {:induction false} DescendantsTransitive(e: Element, d: Element, x: Element)
    requires d in Descendants(e) && x in Descendants(d)
    ensures x in Descendants(e)
    decreases e, 1
  {
    DescendantsOfAllTransitive(e.children, d, x);
  }

  lemma {:induction false} DescendantsOfAllTransitive(kids: seq<Element>, d: Element, x: Element)
    requires d in DescendantsOfAll(kids) && x in Descendants(d)
    ensures x in DescendantsOfAll(kids)
    decreases kids, 0
  {
    var head, rest := kids[0], kids[1..];
    assert DescendantsOfAll(kids) == [head] + Descendants(head) + DescendantsOfAll(rest);
    if d == head {
    } else if d in Descendants(head) {
      DescendantsTransitive(head, d, x);
    } else {
      DescendantsOfAllTransitive(rest, d, x);
    }
  }

  /** `xs.Where(p)`. */
  function Filter(xs: seq<Element>, p: Element -> bool): (r: seq<Element>)
    ensures |r| <= |xs|
    ensures forall i :: 0 <= i < |r| ==> p(r[i]) && r[i] in xs
    ensures forall x :: x in xs && p(x) ==> x in r
  {
    if xs == [] then [] else (if p(xs[0]) then [xs[0]] else []) + Filter(xs[1..], p)
  }

  /** A typed attribute property (`Name`, `Id`): the value, or None when absent. */
  function Attr(e: Element, ns: string, local: string): Option<string>
  {
    if QName(ns, local) in e.attrs then Some(e.attrs[QName(ns, local)]) else None
  }

  /** `e.GetAttribute(local, ns).Value`, which throws when the attribute is absent. */
  function GetAttribute(e: Element, local: string, ns: string): (r: Result<string, Fault>)
    ensures r.Failure? <==> QName(ns, local) !in e.attrs
    ensures r.Failure? ==> r.error == KeyNotFound
    ensures r.Success? ==> r.value == e.attrs[QName(ns, local)]
  {
    if QName(ns, local) in e.attrs then Success(e.attrs[QName(ns, local)]) else Failure(KeyNotFound)
  }

  predicate HasAttributes(e: Element) { |e.attrs| > 0 }

  /** A descendant together with the local names of its parent and grandparent
      (the grandparent of a child of the root is written ""). */
  datatype Located = Located(node: Element, parent: string, grandparent: string)

  /** The descendants of `e` with their ancestry, in document order; `above`
      is the local name of `e`'s own parent. */
  function LocatedDescendants(e: Element, above: string): seq<Located>
    decreases e, 1
  {
    LocatedOfAll(e.children, e.localName, above)
  }

  function LocatedOfAll(kids: seq<Element>, parent: string, grandparent: string): seq<Located>
    decreases kids, 0
  {
    if kids == [] then []
    else [Located(kids[0], parent, grandparent)] + LocatedDescendants(kids[0], parent)
         + LocatedOfAll(kids[1..], parent, grandparent)
  }

  function Nodes(ls: seq<Located>): (r: seq<Element>)
    ensures |r| == |ls|
    ensures forall i :: 0 <= i < |ls| ==> r[i] == ls[i].node
  {
    if ls == [] then [] else [ls[0].node] + Nodes(ls[1..])
  }

  lemma {:induction false} NodesAppend(a: seq<Located>, b: seq<Located>)
    ensures Nodes(a + b) == Nodes(a) + Nodes(b)
  {
  }

  /** The located walk visits exactly the descendants, in the same order. */
  lemma {:induction false} LocatedAreDescendants(e: Element, above: string)
    ensures Nodes(LocatedDescendants(e, above)) == Descendants(e)
    decreases e, 1
  {
    LocatedOfAllAreDescendants(e.children, e.localName, above);
  }

  lemma {:induction false} LocatedOfAllAreDescendants(kids: seq<Element>, parent: string, grandparent: string)
    ensures Nodes(LocatedOfAll(kids, parent, grandparent)) == DescendantsOfAll(kids)
    decreases kids, 0
  {
    if kids != [] {
      LocatedAreDescendants(kids[0], parent);
      LocatedOfAllAreDescendants(kids[1..], parent, grandparent);
      var head := [Located(kids[0], parent, grandparent)];
      var mid := LocatedDescendants(kids[0], parent);
      var tail := LocatedOfAll(kids[1..], parent, grandparent);
      NodesAppend(head + mid, tail);
      NodesAppend(head, mid);
    }
  }

  /** The first located descendant satisfying `p`. */
  function FirstLocated(ls: seq<Located>, p: Located -> bool): (r: Option<Located>)
    ensures r.None? <==> forall i :: 0 <= i < |ls| ==> !p(ls[i])
    ensures r.Some? ==> r.value in ls && p(r.value)
  {
    if ls == [] then None else if p(ls[0]) then Some(ls[0]) else FirstLocated(ls[1..], p)
  }
}
