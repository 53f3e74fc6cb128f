/**
 * The part of Python's `xml.etree.ElementTree` that the classifier and the dependency mapper
 * use: the element tree `ET.parse` builds, its preorder walk `iter()`, the lookups `find` and
 * `findall` with the paths that occur (`x`, `.//x`, `.//x/y`), and a document whose element tags
 * can be rewritten in place.
 */
module Xml {
  import opened Wrappers
  import opened Text

  /** An element: its tag (`{namespace}local` when namespaced), its text, its children in document order. */
  datatype Element = Element(tag: string, text: Option<string>, children: seq<Element>)

  /** `e.iter()`: `e` and every element below it, in document order. */
  function Preorder(e: Element): (r: seq<Element>)
    ensures |r| >= 1 && r[0] == e
    decreases e, 1
  {
    [e] + ChildrenPreorder(e, |e.children|)
  }

  /** The preorder walks of the first `n` children of `e`, one after the other. */
  function ChildrenPreorder(e: Element, n: nat): seq<Element>
    requires n <= |e.children|
    decreases e, 0, n
  {
    if n == 0 then [] else ChildrenPreorder(e, n - 1) + Preorder(e.children[n - 1])
  }

  /** Where the subtree of child `j` of `e` begins in `Preorder(e)`. */
  function Offset(e: Element, j: nat): nat
    requires j <= |e.children|
  {
    1 + |ChildrenPreorder(e, j)|
  }

  function Tags(s: seq<Element>): seq<string> {
    seq(|s|, k requires 0 <= k < |s| => s[k].tag)
  }

  function MapStrings(f: string -> string, ts: seq<string>): seq<string> {
    seq(|ts|, k requires 0 <= k < |ts| => f(ts[k]))
  }

  lemma TagsSlice(s: seq<Element>, lo: nat, hi: nat)
    requires lo <= hi <= |s|
    ensures Tags(s)[lo..hi] == Tags(s[lo..hi])
  {
  }

  lemma MapStringsSlice(f: string -> string, ts: seq<string>, lo: nat, hi: nat)
    requires lo <= hi <= |ts|
    ensures MapStrings(f, ts)[lo..hi] == MapStrings(f, ts[lo..hi])
  {
  }

  lemma {:induction false} ChildrenPreorderPrefix(e: Element, m: nat, n: nat)
    requires m <= n <= |e.children|
    ensures ChildrenPreorder(e, m) <= ChildrenPreorder(e, n)
    decreases n
  {
    if m < n {
      ChildrenPreorderPrefix(e, m, n - 1);
    }
  }

  /** The subtree of each child takes as many positions of its parent's walk as it has elements. */
  lemma ChildBounds(e: Element, j: nat)
    requires j < |e.children|
    ensures Offset(e, j + 1) == Offset(e, j) + |Preorder(e.children[j])|
    ensures Offset(e, j + 1) <= |Preorder(e)|
  {
    ChildrenPreorderPrefix(e, j + 1, |e.children|);
  }

  /** The subtree of each child occupies one contiguous slice of its parent's preorder walk. */
  lemma ChildSlice(e: Element, j: nat)
    requires j < |e.children|
    ensures Offset(e, j + 1) == Offset(e, j) + |Preorder(e.children[j])|
    ensures Offset(e, j + 1) <= |Preorder(e)|
    ensures Preorder(e)[Offset(e, j)..Offset(e, j + 1)] == Preorder(e.children[j])
  {
    var n := |e.children|;
    ChildrenPreorderPrefix(e, j + 1, n);
    var pre, whole := ChildrenPreorder(e, j + 1), ChildrenPreorder(e, n);
    assert Preorder(e)[Offset(e, j)..Offset(e, j + 1)] == whole[|ChildrenPreorder(e, j)|..|pre|];
    assert whole[..|pre|] == pre;
  }

  /** `e` with `f` applied to every tag; texts and structure stay as they are. */
  function MapTags(f: string -> string, e: Element): Element
    decreases e
  {
    Element(f(e.tag), e.text,
      seq(|e.children|, j requires 0 <= j < |e.children| => MapTags(f, e.children[j])))
  }

  /**
   * `e` with the tags taken, in document order, from `ts`: the tree an ElementTree document
   * reads as after its elements' tags were assigned. Structure and texts are those of `e`.
   */
  function Relabel(e: Element, ts: seq<string>): Element
    requires |ts| == |Preorder(e)|
    decreases e, 1
  {
    Element(ts[0], e.text,
      seq(|e.children|, j requires 0 <= j < |e.children| => RelabelChild(e, ts, j)))
  }

  /** The `j`-th child of `Relabel(e, ts)`: that child relabelled with its own slice of `ts`. */
  function RelabelChild(e: Element, ts: seq<string>, j: nat): Element
    requires |ts| == |Preorder(e)| && j < |e.children|
    decreases e, 0
  {
    ChildBounds(e, j);
    Relabel(e.children[j], ts[Offset(e, j)..Offset(e, j + 1)])
  }

  /** Rewriting the tags of a relabelled tree is relabelling it with the rewritten tags. */
  lemma {:induction false} MapTagsRelabel(f: string -> string, e: Element, ts: seq<string>)
    requires |ts| == |Preorder(e)|
    ensures MapTags(f, Relabel(e, ts)) == Relabel(e, MapStrings(f, ts))
    decreases e
  {
    var us := MapStrings(f, ts);
    var r, ru := Relabel(e, ts), Relabel(e, us);
    forall j | 0 <= j < |e.children|
      ensures MapTags(f, r.children[j]) == ru.children[j]
    {
      ChildBounds(e, j);
      var lo, hi := Offset(e, j), Offset(e, j + 1);
      assert r.children[j] == RelabelChild(e, ts, j);
      assert ru.children[j] == RelabelChild(e, us, j);
      MapStringsSlice(f, ts, lo, hi);
      MapTagsRelabel(f, e.children[j], ts[lo..hi]);
    }
    assert MapTags(f, r).children == ru.children;
  }

  /** Relabelling a tree with its own tags gives the tree back. */
  lemma {:induction false} RelabelOwnTags(e: Element)
    ensures Relabel(e, Tags(Preorder(e))) == e
    decreases e
  {
    var ts := Tags(Preorder(e));
    var n := |e.children|;
    forall j | 0 <= j < n
      ensures Relabel(e, ts).children[j] == e.children[j]
    {
      ChildSlice(e, j);
      TagsSlice(Preorder(e), Offset(e, j), Offset(e, j + 1));
      RelabelOwnTags(e.children[j]);
    }
    assert Relabel(e, ts).children == e.children;
  }

  function MapAll(f: string -> string, s: seq<Element>): seq<Element> {
    seq(|s|, k requires 0 <= k < |s| => MapTags(f, s[k]))
  }

  lemma MapAllAppend(f: string -> string, a: seq<Element>, b: seq<Element>)
    ensures MapAll(f, a + b) == MapAll(f, a) + MapAll(f, b)
  {
  }

  /**
   * Rewriting tags commutes with the preorder walk: the k-th element of `iter()` after the
   * rewrite is the k-th element before it with its tags rewritten, so the walk has the same
   * length, and each element keeps its text and its number of children.
   */
  lemma {:induction false} PreorderMapTags(f: string -> string, e: Element)
    ensures Preorder(MapTags(f, e)) == MapAll(f, Preorder(e))
    decreases e, 1
  {
    ChildrenPreorderMapTags(f, e, |e.children|);
    assert MapAll(f, Preorder(e)) == [MapTags(f, e)] + MapAll(f, ChildrenPreorder(e, |e.children|));
  }

  lemma {:induction false} ChildrenPreorderMapTags(f: string -> string, e: Element, n: nat)
    requires n <= |e.children|
    ensures ChildrenPreorder(MapTags(f, e), n) == MapAll(f, ChildrenPreorder(e, n))
    decreases e, 0, n
  {
    if n > 0 {
      ChildrenPreorderMapTags(f, e, n - 1);
      PreorderMapTags(f, e.children[n - 1]);
      assert MapTags(f, e).children[n - 1] == MapTags(f, e.children[n - 1]);
      MapAllAppend(f, ChildrenPreorder(e, n - 1), Preorder(e.children[n - 1]));
    }
  }

  /** Position of the first element of `s` whose tag is `name`, or `|s|` when there is none. */
  function IndexOfTag(s: seq<Element>, name: string): (i: nat)
    ensures i <= |s|
    ensures forall k :: 0 <= k < i ==> s[k].tag != name
    ensures i < |s| ==> s[i].tag == name
  {
    if s == [] then 0
    else if s[0].tag == name then 0
    else 1 + IndexOfTag(s[1..], name)
  }

  function FirstTagged(s: seq<Element>, name: string): Option<Element> {
    var i := IndexOfTag(s, name);
    if i < |s| then Some(s[i]) else None
  }

  /** `e.find(name)`: the first direct child of `e` whose tag is `name`. */
  function FindChild(e: Element, name: string): Option<Element> {
    FirstTagged(e.children, name)
  }

  /** `e.find('.//' + name)`: the first element strictly below `e`, in document order, tagged `name`. */
  function FindDescendant(e: Element, name: string): Option<Element> {
    FirstTagged(Preorder(e)[1..], name)
  }

  /** `FirstTagged` gives the first element of `s` tagged `name`, and nothing only when none is. */
  lemma FirstTaggedFirst(s: seq<Element>, name: string)
    ensures FirstTagged(s, name).None? <==> forall k :: 0 <= k < |s| ==> s[k].tag != name
    ensures forall k ::
      (0 <= k < |s| && s[k].tag == name && forall j :: 0 <= j < k ==> s[j].tag != name)
      ==> FirstTagged(s, name) == Some(s[k])
  {
    var i := IndexOfTag(s, name);
    forall k | 0 <= k < |s| && s[k].tag == name && (forall j :: 0 <= j < k ==> s[j].tag != name)
      ensures FirstTagged(s, name) == Some(s[k])
    {
      assert !(i < k) && !(k < i);
    }
  }

  /** `e.find(name)` is the first child of `e` tagged `name`, and nothing only when no child is. */
  lemma FindChildFirst(e: Element, name: string)
    ensures FindChild(e, name).None? <==> forall k :: 0 <= k < |e.children| ==> e.children[k].tag != name
    ensures forall k ::
      (0 <= k < |e.children| && e.children[k].tag == name
       && forall j :: 0 <= j < k ==> e.children[j].tag != name)
      ==> FindChild(e, name) == Some(e.children[k])
  {
    FirstTaggedFirst(e.children, name);
  }

  /**
   * `e.find('.//' + name)` is the first element of `iter()` after `e` itself that is tagged
   * `name`, and nothing only when no element below `e` is.
   */
  lemma FindDescendantFirst(e: Element, name: string)
    ensures FindDescendant(e, name).None? <==>
      forall k :: 1 <= k < |Preorder(e)| ==> Preorder(e)[k].tag != name
    ensures forall k ::
      (1 <= k < |Preorder(e)| && Preorder(e)[k].tag == name
       && forall j :: 1 <= j < k ==> Preorder(e)[j].tag != name)
      ==> FindDescendant(e, name) == Some(Preorder(e)[k])
  {
    var below := Preorder(e)[1..];
    FirstTaggedFirst(below, name);
    assert forall k :: 1 <= k < |Preorder(e)| ==> Preorder(e)[k] == below[k - 1];
  }

  /** `e.findall(name)`: the direct children of `e` whose tag is `name`, in document order. */
  function FindAllChildren(e: Element, name: string): (r: seq<Element>)
    ensures forall x :: x in r <==> x in e.children && x.tag == name
    ensures forall x :: multiset(r)[x] == if x.tag == name then multiset(e.children)[x] else 0
  {
    FilterCount(e.children, name);
    Filter(e.children, name)
  }

  /** The elements of `s` tagged `name`, in the order of `s`. */
  function Filter(s: seq<Element>, name: string): (r: seq<Element>)
    ensures |r| <= |s|
  {
    if s == [] then []
    else (if s[0].tag == name then [s[0]] else []) + Filter(s[1..], name)
  }

  /** Filtering keeps each element tagged `name` as often as `s` holds it, and no other. */
  lemma {:induction false} FilterCount(s: seq<Element>, name: string)
    ensures forall x :: multiset(Filter(s, name))[x] == if x.tag == name then multiset(s)[x] else 0
  {
    if s != [] {
      FilterCount(s[1..], name);
      assert s == [s[0]] + s[1..];
    }
  }

  /** Filtering keeps relative order: it distributes over concatenation. */
  lemma {:induction false} FilterAppend(a: seq<Element>, b: seq<Element>, name: string)
    ensures Filter(a + b, name) == Filter(a, name) + Filter(b, name)
  {
    if a == [] {
      assert a + b == b;
    } else {
      var head := if a[0].tag == name then [a[0]] else [];
      assert (a + b)[0] == a[0] && (a + b)[1..] == a[1..] + b;
      assert Filter(a + b, name) == head + Filter(a[1..] + b, name);
      FilterAppend(a[1..], b, name);
    }
  }

  predicate Increasing(p: seq<nat>) {
    forall k, l :: 0 <= k < l < |p| ==> p[k] < p[l]
  }

  /**
   * The positions in `s` that `Filter(s, name)` takes its elements from: one per element of the
   * result and in the same order, and covering every position whose element is tagged `name`.
   */
  function FilterPositions(s: seq<Element>, name: string): (p: seq<nat>)
    ensures |p| == |Filter(s, name)|
    ensures forall k :: 0 <= k < |p| ==> p[k] < |s| && s[p[k]] == Filter(s, name)[k]
    ensures forall k :: 0 <= k < |p| ==> s[p[k]].tag == name
    ensures Increasing(p)
    ensures forall i :: 0 <= i < |s| && s[i].tag == name ==> i in p
  {
    assert s[0..] == s;
    FilterCount(s, name);
    PositionsPick(s, name, 0);
    PositionsIncreasing(s, name, 0);
    PositionsCover(s, name, 0);
    PositionsFrom(s, name, 0)
  }

  /** The positions, from `from` on, of the elements of `s` tagged `name`. */
  function PositionsFrom(s: seq<Element>, name: string, from: nat): (p: seq<nat>)
    requires from <= |s|
    ensures |p| == |Filter(s[from..], name)|
    ensures forall k :: 0 <= k < |p| ==> from <= p[k] < |s|
    decreases |s| - from
  {
    if from == |s| then []
    else
      assert s[from..][1..] == s[from + 1..];
      (if s[from].tag == name then [from] else []) + PositionsFrom(s, name, from + 1)
  }

  lemma {:induction false} PositionsPick(s: seq<Element>, name: string, from: nat)
    requires from <= |s|
    ensures forall k :: 0 <= k < |PositionsFrom(s, name, from)| ==>
      s[PositionsFrom(s, name, from)[k]] == Filter(s[from..], name)[k]
    decreases |s| - from
  {
    if from < |s| {
      PositionsPick(s, name, from + 1);
      assert s[from..][1..] == s[from + 1..];
      var head := if s[from].tag == name then [from] else [];
      var rest := PositionsFrom(s, name, from + 1);
      forall k | 0 <= k < |PositionsFrom(s, name, from)|
        ensures s[PositionsFrom(s, name, from)[k]] == Filter(s[from..], name)[k]
      {
        if k >= |head| {
          assert PositionsFrom(s, name, from)[k] == rest[k - |head|];
        }
      }
    }
  }

  lemma {:induction false} PositionsIncreasing(s: seq<Element>, name: string, from: nat)
    requires from <= |s|
    ensures Increasing(PositionsFrom(s, name, from))
    decreases |s| - from
  {
    if from < |s| {
      PositionsIncreasing(s, name, from + 1);
      var rest := PositionsFrom(s, name, from + 1);
      if s[from].tag == name {
        forall k, l | 0 <= k < l < |rest| + 1
          ensures ([from] + rest)[k] < ([from] + rest)[l]
        {
          if k > 0 {
            assert ([from] + rest)[k] == rest[k - 1];
          }
        }
      }
    }
  }

  lemma {:induction false} PositionsCover(s: seq<Element>, name: string, from: nat)
    requires from <= |s|
    ensures forall i :: from <= i < |s| && s[i].tag == name ==> i in PositionsFrom(s, name, from)
    decreases |s| - from
  {
    if from < |s| {
      PositionsCover(s, name, from + 1);
    }
  }

  /**
   * The first element, in the order of `nodes`, that is a child tagged `child` of a node tagged
   * `parent`: for each node tagged `parent` in turn, its first child tagged `child`.
   */
  function FindUnder(nodes: seq<Element>, parent: string, child: string): (r: Option<Element>)
    ensures r.Some? ==>
      exists k :: 0 <= k < |nodes| && nodes[k].tag == parent && FindChild(nodes[k], child) == r
        && forall j :: 0 <= j < k && nodes[j].tag == parent ==> FindChild(nodes[j], child).None?
    ensures r.None? ==>
      forall k :: 0 <= k < |nodes| && nodes[k].tag == parent ==> FindChild(nodes[k], child).None?
  {
    if nodes == [] then None
    else if nodes[0].tag == parent && FindChild(nodes[0], child).Some? then FindChild(nodes[0], child)
    else FindUnder(nodes[1..], parent, child)
  }

  /**
   * `e.find('.//' + parent + '/' + child)`: walking `iter()` after `e` itself, the first child
   * tagged `child` of the first element tagged `parent` that has one.
   */
  function FindPath(e: Element, parent: string, child: string): Option<Element> {
    FindUnder(Preorder(e)[1..], parent, child)
  }

  /**
   * `FindPath` in terms of `iter()`: a match is the child found under the first element after
   * `e` that is tagged `parent` and has such a child; no match means no such element has one.
   */
  lemma FindPathFirst(e: Element, parent: string, child: string)
    ensures FindPath(e, parent, child).Some? ==>
      exists k :: 1 <= k < |Preorder(e)| && Preorder(e)[k].tag == parent
        && FindChild(Preorder(e)[k], child) == FindPath(e, parent, child)
        && forall j :: 1 <= j < k && Preorder(e)[j].tag == parent ==> FindChild(Preorder(e)[j], child).None?
    ensures FindPath(e, parent, child).None? ==>
      forall k :: 1 <= k < |Preorder(e)| && Preorder(e)[k].tag == parent ==>
        FindChild(Preorder(e)[k], child).None?
  {
    var below := Preorder(e)[1..];
    assert forall k :: 1 <= k < |Preorder(e)| ==> Preorder(e)[k] == below[k - 1];
    if FindPath(e, parent, child).Some? {
      var k :| 0 <= k < |below| && below[k].tag == parent
        && FindChild(below[k], child) == FindPath(e, parent, child)
        && forall j :: 0 <= j < k && below[j].tag == parent ==> FindChild(below[j], child).None?;
      assert Preorder(e)[k + 1] == below[k];
    }
  }

  /**
   * A parsed document. Its elements' structure and texts are fixed (`shape`); each element's tag
   * is a slot of `tags`, indexed by the element's position in document order, so that a pass
   * over `iter()` can assign `elem.tag` in place.
   */
  class ElementTree {
    const shape: Element
    const tags: array<string>

    ghost predicate Valid()
      reads this
    {
      tags.Length == |Preorder(shape)|
    }

    /** The tree as it reads now: `shape` carrying the current tags. */
    function Root(): Element
      reads this, tags
      requires Valid()
    {
      Relabel(shape, tags[..])
    }

    /** The document `ET.parse` returns for `parsed`. */
    constructor (parsed: Element)
      ensures Valid() && fresh(tags)
      ensures shape == parsed && Root() == parsed
    {
      var elems := Preorder(parsed);
      shape := parsed;
      tags := new string[|elems|](k requires 0 <= k < |elems| => elems[k].tag);
      new;
      assert tags[..] == Tags(elems);
      RelabelOwnTags(parsed);
    }

    /**
     * One pass over the elements in document order that replaces each namespace-qualified tag
     * by its local name; nothing else in the tree changes.
     */
    method StripNamespaces()
      requires Valid()
      modifies tags
      ensures Valid()
      ensures forall k :: 0 <= k < tags.Length ==> tags[k] == LocalName(old(tags[k]))
      ensures Root() == MapTags(LocalName, old(Root()))
    {
      for i := 0 to tags.Length
        invariant forall k :: 0 <= k < i ==> tags[k] == LocalName(old(tags[k]))
        invariant forall k :: i <= k < tags.Length ==> tags[k] == old(tags[k])
      {
        if '}' in tags[i] {
          tags[i] := LocalName(tags[i]);
        }
      }
      assert tags[..] == MapStrings(LocalName, old(tags[..]));
      MapTagsRelabel(LocalName, shape, old(tags[..]));
    }
  }
}
