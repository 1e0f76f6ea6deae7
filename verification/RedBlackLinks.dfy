/** Left, right and parent links that make up a shape, and what the pointer surgery of rotations,
    insertion and removal does to them. A map from entries to link records stands for the heap. */
module RedBlackLinks {
  import opened RedBlackShape

  /** The link records say exactly `t`, hanging below `parent`. */
  ghost predicate Linked(m: Links, t: Shape, parent: Entry?) {
    match t
    case Leaf => true
    case Fork(l, x, c, r) =>
      && x in m && m[x] == Link(Root(l), Root(r), parent, c)
      && Linked(m, l, x) && Linked(m, r, x)
  }

  /** The link records around the hole say exactly `p`, with `hole` in the hole. */
  ghost predicate LinkedPath(m: Links, p: Path, hole: Entry?) {
    match p
    case Top => true
    case LeftOf(up, x, c, r) =>
      && x in m && m[x] == Link(hole, Root(r), Holder(up), c)
      && Linked(m, r, x) && LinkedPath(m, up, x)
    case RightOf(up, x, c, l) =>
      && x in m && m[x] == Link(Root(l), hole, Holder(up), c)
      && Linked(m, l, x) && LinkedPath(m, up, x)
  }

  /** The records spell out `t` in the hole of `p`, without sharing. */
  ghost predicate Sits(m: Links, p: Path, t: Shape) {
    && Tidy(t) && TidyPath(p) && Nodes(t) !! Above(p)
    && Linked(m, t, Holder(p)) && LinkedPath(m, p, Root(t))
  }

  lemma LinkedFrame(m: Links, m': Links, t: Shape, parent: Entry?)
    requires Linked(m, t, parent)
    requires forall x <- Nodes(t) :: x in m && x in m' && m'[x] == m[x]
    ensures Linked(m', t, parent)
  {
  }

  lemma LinkedPathFrame(m: Links, m': Links, p: Path, hole: Entry?)
    requires LinkedPath(m, p, hole)
    requires forall x <- Above(p) :: x in m && x in m' && m'[x] == m[x]
    ensures LinkedPath(m', p, hole)
  {
    match p
    case Top =>
    case LeftOf(up, x, c, s) => LinkedFrame(m, m', s, x);
    case RightOf(up, x, c, s) => LinkedFrame(m, m', s, x);
  }

  ghost function Just(n: Entry?): set<Entry> {
    if n == null then {} else {n}
  }

  ghost function Reparented(m: Links, child: Entry?, parent: Entry?): Links
    requires Just(child) <= m.Keys
  {
    if child == null then m else m[child := m[child].(parent := parent)]
  }

  lemma LinkedReparented(m: Links, t: Shape, was: Entry?, now: Entry?)
    requires Tidy(t) && Linked(m, t, was)
    ensures Just(Root(t)) <= m.Keys
    ensures Linked(Reparented(m, Root(t), now), t, now)
  {
    if t.Fork? {
      var m' := Reparented(m, Root(t), now);
      LinkedKeys(m, t, was);
      LinkedFrame(m, m', t.left, t.node);
      LinkedFrame(m, m', t.right, t.node);
    }
  }

  lemma LinkedKeys(m: Links, t: Shape, parent: Entry?)
    requires Linked(m, t, parent)
    ensures Nodes(t) <= m.Keys
  {
  }

  lemma PathKeys(m: Links, p: Path, hole: Entry?)
    requires LinkedPath(m, p, hole)
    ensures Above(p) <= m.Keys && Just(Holder(p)) <= Above(p)
  {
    match p
    case Top =>
    case LeftOf(up, x, c, s) => LinkedKeys(m, s, x);
    case RightOf(up, x, c, s) => LinkedKeys(m, s, x);
  }

  lemma PathReplaced(m: Links, p: Path, hole: Entry, next: Entry?)
    requires TidyPath(p) && LinkedPath(m, p, hole) && hole !in Above(p)
    ensures Just(Holder(p)) <= m.Keys
    ensures LinkedPath(Replaced(m, Holder(p), hole, next), p, next)
  {
    PathKeys(m, p, hole);
    if !p.Top? {
      var s, x := if p.LeftOf? then p.right else p.left, p.node;
      var m' := Replaced(m, x, hole, next);
      assert s.Fork? ==> s.node in Above(p);
      LinkedFrame(m, m', s, x);
      LinkedPathFrame(m, m', p.up, x);
    }
  }

  ghost predicate CanTurnLeft(m: Links, x: Entry) {
    && x in m && m[x].right != null && m[x].right in m
    && var y, q := m[x].right, m[x].parent;
    && var b := m[y].left;
    && Just(b) <= m.Keys && Just(q) <= m.Keys
    && Distinct(x, y, b, q)
  }

  ghost predicate CanTurnRight(m: Links, x: Entry) {
    && x in m && m[x].left != null && m[x].left in m
    && var y, q := m[x].left, m[x].parent;
    && var b := m[y].right;
    && Just(b) <= m.Keys && Just(q) <= m.Keys
    && Distinct(x, y, b, q)
  }

  ghost predicate Distinct(a: Entry, b: Entry, c: Entry?, d: Entry?) {
    a != b && a != c && b != c && a != d && b != d && (c == d ==> c == null)
  }

  /** What a left rotation at `x` does to the link records. */
  ghost function TurnedLeft(m: Links, x: Entry): Links
    requires CanTurnLeft(m, x)
  {
    var y, q := m[x].right, m[x].parent;
    var b := m[y].left;
    Replaced(Reparented(m, b, x), q, x, y)
      [x := m[x].(right := b, parent := y)]
      [y := m[y].(left := x, parent := q)]
  }

  ghost function TurnedRight(m: Links, x: Entry): Links
    requires CanTurnRight(m, x)
  {
    var y, q := m[x].left, m[x].parent;
    var b := m[y].right;
    Replaced(Reparented(m, b, x), q, x, y)
      [x := m[x].(left := b, parent := y)]
      [y := m[y].(right := x, parent := q)]
  }

  /** The link from `q` to `x` leads to `y` instead. */
  ghost function Replaced(m: Links, q: Entry?, x: Entry, y: Entry?): Links
    requires Just(q) <= m.Keys
  {
    if q == null then m
    else if m[q].left == x then m[q := m[q].(left := y)]
    else m[q := m[q].(right := y)]
  }

  lemma LinkedFork(m: Links, t: Shape, parent: Entry?)
    requires t.Fork? && Linked(m, t, parent)
    ensures t.node in m && m[t.node] == Link(Root(t.left), Root(t.right), parent, t.color)
    ensures Linked(m, t.left, t.node) && Linked(m, t.right, t.node)
    ensures Nodes(t) <= m.Keys
  {
    LinkedKeys(m, t, parent);
  }

  lemma TurnedLeftSits(m: Links, p: Path, t: Shape)
    requires Sits(m, p, t) && t.Fork? && t.right.Fork?
    ensures CanTurnLeft(m, t.node)
    ensures Sits(TurnedLeft(m, t.node), p, RotatedLeft(t))
  {
    var a, x, b, y, c := t.left, t.node, t.right.left, t.right.node, t.right.right;
    FlatLeft(t);
    PathKeys(m, p, x);
    LinkedFork(m, t, Holder(p));
    LinkedFork(m, t.right, x);
    var m1 := Reparented(m, Root(b), x);
    var m2 := Replaced(m1, Holder(p), x, y);
    var m' := TurnedLeft(m, x);
    LinkedReparented(m, b, y, x);
    LinkedPathFrame(m, m1, p, x);
    PathReplaced(m1, p, x, y);
    LinkedPathFrame(m2, m', p, y);
    LinkedFrame(m1, m', b, x);
    LinkedFrame(m, m', a, x);
    LinkedFrame(m, m', c, y);
    assert Linked(m', Fork(a, x, t.color, b), y);
  }

  lemma TurnedRightSits(m: Links, p: Path, t: Shape)
    requires Sits(m, p, t) && t.Fork? && t.left.Fork?
    ensures CanTurnRight(m, t.node)
    ensures Sits(TurnedRight(m, t.node), p, RotatedRight(t))
  {
    var a, y, b, x, c := t.left.left, t.left.node, t.left.right, t.node, t.right;
    FlatRight(t);
    PathKeys(m, p, x);
    LinkedFork(m, t, Holder(p));
    LinkedFork(m, t.left, x);
    var m1 := Reparented(m, Root(b), x);
    var m2 := Replaced(m1, Holder(p), x, y);
    var m' := TurnedRight(m, x);
    LinkedReparented(m, b, y, x);
    LinkedPathFrame(m, m1, p, x);
    PathReplaced(m1, p, x, y);
    LinkedPathFrame(m2, m', p, y);
    LinkedFrame(m1, m', b, x);
    LinkedFrame(m, m', a, y);
    LinkedFrame(m, m', c, x);
    assert Linked(m', Fork(b, x, t.color, c), y);
  }

  lemma PaintedSits(m: Links, p: Path, t: Shape, c: Color)
    requires Sits(m, p, t) && t.Fork?
    ensures t.node in m && Sits(m[t.node := m[t.node].(color := c)], p, t.(color := c))
  {
    LinkedFork(m, t, Holder(p));
    PathKeys(m, p, t.node);
    var m' := m[t.node := m[t.node].(color := c)];
    LinkedFrame(m, m', t.left, t.node);
    LinkedFrame(m, m', t.right, t.node);
    LinkedPathFrame(m, m', p, t.node);
  }

  /** The link records after the new red entry `x` was hung into the empty hole of `p`. */
  ghost function Hung(m: Links, p: Path, x: Entry): Links
    requires Just(Holder(p)) <= m.Keys
  {
    match p
    case Top => m[x := Link(null, null, null, Red)]
    case LeftOf(_, y, _, _) => m[x := Link(null, null, y, Red)][y := m[y].(left := x)]
    case RightOf(_, y, _, _) => m[x := Link(null, null, y, Red)][y := m[y].(right := x)]
  }

  lemma HungSits(m: Links, p: Path, x: Entry)
    requires Sits(m, p, Leaf) && x !in m
    ensures Just(Holder(p)) <= m.Keys
    ensures Sits(Hung(m, p, x), p, Fork(Leaf, x, Red, Leaf))
  {
    PathKeys(m, p, null);
    if !p.Top? {
      LinkedFrame(m, Hung(m, p, x), Sibling(p), p.node);
      LinkedPathFrame(m, Hung(m, p, x), p.up, p.node);
    }
  }

  ghost function Unlinked(m: Links, p: Path, t: Shape): Links
    requires t.Fork? && Just(Root(OnlyChild(t))) <= m.Keys && Just(Holder(p)) <= m.Keys
  {
    Replaced(Reparented(m, Root(OnlyChild(t)), Holder(p)), Holder(p), t.node, Root(OnlyChild(t))) - {t.node}
  }

  lemma UnlinkedSits(m: Links, p: Path, t: Shape)
    requires Sits(m, p, t) && t.Fork? && (t.left.Leaf? || t.right.Leaf?)
    ensures Just(Root(OnlyChild(t))) <= m.Keys && Just(Holder(p)) <= m.Keys
    ensures Just(Root(OnlyChild(t))) !! Just(Holder(p)) && t.node !in Just(Root(OnlyChild(t))) + Just(Holder(p))
    ensures Sits(Unlinked(m, p, t), p, OnlyChild(t))
  {
    var x, k := t.node, OnlyChild(t);
    PathKeys(m, p, x);
    LinkedFork(m, t, Holder(p));
    LinkedReparented(m, k, x, Holder(p));
    var m1 := Reparented(m, Root(k), Holder(p));
    LinkedPathFrame(m, m1, p, x);
    PathReplaced(m1, p, x, Root(k));
    var m2 := Replaced(m1, Holder(p), x, Root(k));
    LinkedFrame(m1, m2 - {x}, k, Holder(p));
    LinkedPathFrame(m2, m2 - {x}, p, Root(k));
  }

  /** `y` stands where `x` stood: under `q`, over `l` and `r`. */
  ghost function StoodIn(m: Links, q: Entry?, x: Entry, l: Entry?, r: Entry?, y: Entry): Links
    requires x in m
  {
    map z | z in m.Keys - {x} + {y} ::
      if z == y then m[x]
      else if z == q then Redirected(m[z], x, y)
      else if z == l || z == r then m[z].(parent := y)
      else m[z]
  }

  /** The four entries around a fork are apart. */
  lemma AroundFork(m: Links, p: Path, t: Shape)
    requires Sits(m, p, t) && t.Fork?
    ensures t.node in m && Just(Root(t.left)) + Just(Root(t.right)) + Just(Holder(p)) <= m.Keys
    ensures m[t.node] == Link(Root(t.left), Root(t.right), Holder(p), t.color)
    ensures t.node !in Just(Root(t.left)) + Just(Root(t.right)) + Just(Holder(p))
    ensures Just(Holder(p)) !! Just(Root(t.left)) && Just(Holder(p)) !! Just(Root(t.right))
    ensures Just(Root(t.left)) !! Just(Root(t.right))
  {
    PathKeys(m, p, t.node);
    LinkedFork(m, t, Holder(p));
    LinkedKeys(m, t.left, t.node);
    LinkedKeys(m, t.right, t.node);
  }

  /** A subtree whose root gets a new parent. */
  lemma LinkedMoved(m: Links, m': Links, t: Shape, was: Entry?, now: Entry?)
    requires Tidy(t) && Linked(m, t, was)
    requires forall z <- Nodes(t) :: z in m && z in m' && m'[z] == if z == Root(t) then m[z].(parent := now) else m[z]
    ensures Linked(m', t, now)
  {
    if t.Fork? {
      LinkedFrame(m, m', t.left, t.node);
      LinkedFrame(m, m', t.right, t.node);
    }
  }

  ghost function Redirected(l: Link, hole: Entry, next: Entry?): Link {
    if l.left == hole then l.(left := next) else l.(right := next)
  }

  /** A path with something else in its hole. */
  lemma PathMoved(m: Links, m': Links, p: Path, hole: Entry, next: Entry?)
    requires TidyPath(p) && LinkedPath(m, p, hole) && hole !in Above(p)
    requires forall z <- Above(p) ::
      z in m && z in m' && m'[z] == if z == Holder(p) then Redirected(m[z], hole, next) else m[z]
    ensures LinkedPath(m', p, next)
  {
    if !p.Top? {
      var s, x := if p.LeftOf? then p.right else p.left, p.node;
      assert s.Fork? ==> s.node in Above(p);
      LinkedFrame(m, m', s, x);
      LinkedPathFrame(m, m', p.up, x);
    }
  }

  lemma StoodInSits(m: Links, p: Path, t: Shape, y: Entry)
    requires Sits(m, p, t) && t.Fork? && y !in m && t.node in m
    ensures Sits(StoodIn(m, Holder(p), t.node, Root(t.left), Root(t.right), y), p, t.(node := y))
  {
    var x, l, r := t.node, t.left, t.right;
    var m' := StoodIn(m, Holder(p), x, Root(l), Root(r), y);
    AroundFork(m, p, t);
    PathKeys(m, p, x);
    LinkedFork(m, t, Holder(p));
    LinkedMoved(m, m', l, x, y);
    LinkedMoved(m, m', r, x, y);
    PathMoved(m, m', p, x, y);
  }
}
