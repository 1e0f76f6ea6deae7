/** Keys in order: what a search, an insertion and a removal mean for the in-order sequence. */
module RedBlackOrder {
  import opened RedBlackShape

  /** synchronizedMap_compare: keys are compared as addresses. */
  function Compare(lhs: Pointer, rhs: Pointer): (r: int)
    ensures r < 0 <==> lhs < rhs
    ensures r > 0 <==> lhs > rhs
  {
    if lhs < rhs then -1 else if lhs == rhs then 0 else 1
  }

  /** Strictly ascending keys. */
  ghost predicate Sorted(s: seq<Entry>) {
    forall i, j :: 0 <= i < j < |s| ==> s[i].key < s[j].key
  }

  ghost predicate AllBelow(s: seq<Entry>, key: Pointer) {
    forall x <- s :: x.key < key
  }

  ghost predicate AllAbove(s: seq<Entry>, key: Pointer) {
    forall x <- s :: key < x.key
  }

  /** Going down by comparing keys leaves the smaller entries before and the greater ones after the hole. */
  lemma Split(p: Path, t: Shape, key: Pointer)
    requires t.Fork? && Sorted(InOrder(Plug(p, t)))
    requires AllBelow(Before(p), key) && AllAbove(After(p), key)
    ensures key < t.node.key ==> AllAbove(After(IntoLeft(p, t)), key)
    ensures key > t.node.key ==> AllBelow(Before(IntoRight(p, t)), key)
    ensures Before(IntoLeft(p, t)) == Before(p) && After(IntoRight(p, t)) == After(p)
    ensures Plug(IntoLeft(p, t), t.left) == Plug(IntoRight(p, t), t.right) == Plug(p, t)
  {
    var a, b := Before(p) + InOrder(t.left), InOrder(t.right) + After(p);
    ForkInOrder(p, t);
    assert Plug(IntoLeft(p, t), t.left) == Plug(IntoRight(p, t), t.right) == Plug(p, t);
    hide InOrder, Plug, Before, After, Sorted, AllAbove, AllBelow;
    Pivot(a, t.node, b);
    PivotKey(a, t.node, b, key);
  }

  lemma ForkInOrder(p: Path, t: Shape)
    requires t.Fork?
    ensures var a, b := Before(p) + InOrder(t.left), InOrder(t.right) + After(p);
      && InOrder(Plug(p, t)) == a + [t.node] + b
      && After(IntoLeft(p, t)) == [t.node] + b
      && Before(IntoRight(p, t)) == a + [t.node]
      && Before(IntoLeft(p, t)) == Before(p) && After(IntoRight(p, t)) == After(p)
  {
    InOrderPlug(p, t);
    Regroup(Before(p), InOrder(t.left), t.node, InOrder(t.right), After(p));
  }

  lemma PivotKey(a: seq<Entry>, x: Entry, b: seq<Entry>, key: Pointer)
    requires AllBelow(a, x.key) && AllAbove(b, x.key)
    ensures key < x.key ==> AllAbove([x] + b, key)
    ensures key > x.key ==> AllBelow(a + [x], key)
  {
  }

  lemma Pivot(a: seq<Entry>, x: Entry, b: seq<Entry>)
    requires Sorted(a + [x] + b)
    ensures AllBelow(a, x.key) && AllAbove(b, x.key)
  {
    var s := a + [x] + b;
    assert forall i :: 0 <= i < |a| ==> s[i] == a[i];
    assert forall i :: 0 <= i < |b| ==> s[|a| + 1 + i] == b[i];
    assert s[|a|] == x;
  }

  /** A fresh key inserted between the smaller and the greater ones keeps the order. */
  lemma SortedInsert(a: seq<Entry>, x: Entry, b: seq<Entry>)
    requires Sorted(a + b) && AllBelow(a, x.key) && AllAbove(b, x.key)
    ensures Sorted(a + [x] + b)
  {
    var s := a + [x] + b;
    forall i, j | 0 <= i < j < |s| ensures s[i].key < s[j].key {
      if i < |a| && j > |a| { assert s[i] == (a + b)[i] && s[j] == (a + b)[j - 1]; }
      if i < |a| && j < |a| { assert s[i] == (a + b)[i] && s[j] == (a + b)[j]; }
      if i > |a| { assert s[i] == (a + b)[i - 1] && s[j] == (a + b)[j - 1]; }
    }
  }

  /** Two entries of a tree have different keys. */
  lemma KeyOnce(t: Shape, x: Entry, y: Entry)
    requires Sorted(InOrder(t)) && y in InOrder(t) && x.key == y.key
    ensures x in Nodes(t) ==> x == y
  {
    InOrderNodes(t);
    hide InOrder, Nodes;
  }

  /** At an empty hole the search has shown that the key is absent, and where it belongs. */
  lemma Missing(p: Path, x: Entry)
    requires AllBelow(Before(p), x.key) && AllAbove(After(p), x.key) && Sorted(InOrder(Plug(p, Leaf)))
    ensures var s := InOrder(Plug(p, Leaf));
      && (forall y <- s :: y.key != x.key)
      && |Before(p)| <= |s| && Before(p) == s[..|Before(p)|] && After(p) == s[|Before(p)|..]
    ensures var s := InOrder(Plug(p, Fork(Leaf, x, Red, Leaf)));
      && s == Before(p) + [x] + After(p) && Sorted(s)
    ensures Nodes(Plug(p, Fork(Leaf, x, Red, Leaf))) == Nodes(Plug(p, Leaf)) + {x}
  {
    hide InOrder, Plug, Sorted, Nodes, Before, After;
    LeafInOrder(p);
    HungInOrder(p, x);
    SortedInsert(Before(p), x, After(p));
    NodesPlug(p, Leaf);
    NodesPlug(p, Fork(Leaf, x, Red, Leaf));
    LeafNodes(x);
  }

  lemma Locate(p: Path, t: Shape, x: Entry) returns (q: Path, s: Shape)
    requires x in Nodes(t)
    ensures Plug(q, s) == Plug(p, t) && s.Fork? && s.node == x
    decreases t
  {
    if x == t.node {
      q, s := p, t;
    } else if x in Nodes(t.left) {
      q, s := Locate(IntoLeft(p, t), t.left, x);
    } else {
      q, s := Locate(IntoRight(p, t), t.right, x);
    }
  }

  ghost function Without(s: seq<Entry>, i: nat): seq<Entry>
    requires i < |s|
  {
    s[..i] + s[i + 1..]
  }

  lemma WithoutSorted(s: seq<Entry>, i: nat)
    requires Sorted(s) && i < |s|
    ensures Sorted(Without(s, i))
    ensures (set x | x in Without(s, i)) == (set x | x in s) - {s[i]}
  {
    var w := Without(s, i);
    assert forall j :: 0 <= j < |w| ==> w[j] == if j < i then s[j] else s[j + 1];
    forall x | x in s && x != s[i] ensures x in w {
      var j :| 0 <= j < |s| && s[j] == x;
      assert w[if j < i then j else j - 1] == x;
    }
  }

  /** The index of the focused entry in the in-order sequence. */
  ghost function Place(p: Path, t: Shape): (i: nat)
    requires t.Fork?
    ensures i < |InOrder(Plug(p, t))|
  {
    InOrderPlug(p, t);
    |Before(p) + InOrder(t.left)|
  }

  lemma PlaceIs(p: Path, t: Shape)
    requires t.Fork?
    ensures InOrder(Plug(p, t))[Place(p, t)] == t.node
  {
    ForkInOrder(p, t);
  }

  lemma OnlyChildInOrder(p: Path, t: Shape)
    requires t.Fork? && (t.left.Leaf? || t.right.Leaf?)
    ensures InOrder(Plug(p, OnlyChild(t))) == Without(InOrder(Plug(p, t)), Place(p, t))
  {
    ForkInOrder(p, t);
    InOrderPlug(p, OnlyChild(t));
  }

  lemma SpliceInOrder(p: Path, t: Shape, i: Path, u: Shape)
    requires t.Fork? && u.Fork? && Plug(i, u) == t.right
    requires InOrder(t.right) == [u.node] + InOrder(Plug(i, OnlyChild(u)))
    ensures var t' := Fork(t.left, u.node, t.color, Plug(i, OnlyChild(u)));
      InOrder(Plug(Join(i, IntoRight(p, t')), OnlyChild(u))) == Without(InOrder(Plug(p, t)), Place(p, t))
  {
    var t' := Fork(t.left, u.node, t.color, Plug(i, OnlyChild(u)));
    PlugJoin(i, IntoRight(p, t'), OnlyChild(u));
    ForkInOrder(p, t);
    ForkInOrder(p, t');
  }

  lemma Absent(p: Path, key: Pointer)
    requires AllBelow(Before(p), key) && AllAbove(After(p), key)
    ensures forall x <- InOrder(Plug(p, Leaf)) :: x.key != key
  {
    LeafInOrder(p);
  }

  ghost function First(s: seq<Entry>): Entry? {
    if s == [] then null else s[0]
  }

  ghost function Last(s: seq<Entry>): Entry? {
    if s == [] then null else s[|s| - 1]
  }

  /** The first entry after a hole is the holder when the hole is on its left. */
  lemma AfterHead(p: Path)
    ensures p.Top? ==> After(p) == []
    ensures p.LeftOf? ==> First(After(p)) == p.node
    ensures p.RightOf? ==> After(p) == After(p.up)
  {
  }

  lemma AtEnds(p: Path)
    ensures p.Top? ==> Before(p) == [] && After(p) == []
    ensures p.LeftOf? ==> Before(p) == Before(p.up) && First(After(p)) == p.node
    ensures p.RightOf? ==> After(p) == After(p.up) && Last(Before(p)) == p.node
  {
  }

  lemma PlugIn(p: Path, t: Shape)
    requires t.Fork?
    ensures Plug(IntoLeft(p, t), t.left) == Plug(p, t) == Plug(IntoRight(p, t), t.right)
  {
  }

  /** How many entries come before the focus and its children. */
  lemma Counts(p: Path, t: Shape)
    requires t.Fork?
    ensures |InOrder(t)| == |InOrder(t.left)| + 1 + |InOrder(t.right)|
    ensures t.left.Leaf? ==> InOrder(t.left) == []
    ensures t.right.Leaf? ==> InOrder(t.right) == []
    ensures Place(p, t) == |Before(p)| + |InOrder(t.left)|
    ensures Before(IntoLeft(p, t)) == Before(p)
    ensures |Before(IntoRight(p, t))| == |Before(p)| + |InOrder(t.left)| + 1
  {
  }

  /** Where the holder of the hole stands in the order. */
  lemma CountsUp(p: Path, t: Shape)
    ensures p.Top? ==> Before(p) == [] && |InOrder(Plug(p, t))| == |InOrder(t)|
    ensures p.LeftOf? ==> Before(p) == Before(p.up) && |Before(p)| + |InOrder(t)| < |InOrder(Plug(p, t))|
    ensures p.LeftOf? ==> InOrder(Plug(p, t))[|Before(p)| + |InOrder(t)|] == p.node
    ensures p.RightOf? ==> 0 < |Before(p)| <= |InOrder(Plug(p, t))| && InOrder(Plug(p, t))[|Before(p)| - 1] == p.node
    ensures p.RightOf? ==> |Before(p.up)| + |InOrder(Around(p, t))| == |Before(p)| + |InOrder(t)|
    ensures !p.Top? ==> Plug(p.up, Around(p, t)) == Plug(p, t)
  {
    InOrderPlug(p, t);
  }

  lemma LeastAbove(p: Path, t: Shape, key: Pointer)
    requires t.Fork? && t.node.key == key && Sorted(InOrder(Plug(p, t)))
    ensures t.node in InOrder(Plug(p, t))
    ensures forall x <- InOrder(Plug(p, t)) :: x.key < key || key <= x.key
  {
    ForkInOrder(p, t);
  }

  lemma FirstAbove(p: Path, key: Pointer)
    requires AllBelow(Before(p), key) && AllAbove(After(p), key) && Sorted(InOrder(Plug(p, Leaf)))
    ensures var s, f := InOrder(Plug(p, Leaf)), First(After(p));
      && (f == null ==> forall x <- s :: x.key < key)
      && (f != null ==> f in s && key <= f.key && forall x <- s :: x.key < key || f.key <= x.key)
  {
    LeafInOrder(p);
    var a, b := Before(p), After(p);
    assert forall i :: 0 <= i < |b| ==> (a + b)[|a| + i] == b[i];
  }
}
