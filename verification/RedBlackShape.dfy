/** The entries of a red-black tree and the shape they form: a tree, or a tree seen from a spot inside it
    as the path to the spot and the subtree that hangs there. */
module RedBlackShape {
  /** A C `void*` seen as a number; 0 is the null pointer. */
  type Pointer = nat

  const NULL: Pointer := 0

  datatype Color = Black | Red

  /** One entry of the tree: key and data never change, the link record does. */
  class Entry {
    const data: Pointer
    const key: Pointer
    var left: Entry?
    var right: Entry?
    var parent: Entry?
    var color: Color

    constructor (data: Pointer, key: Pointer)
      ensures this.data == data && this.key == key
      ensures left == null && right == null && parent == null && color == Black
    {
      this.data, this.key := data, key;
      left, right, parent, color := null, null, null, Black;
    }

    ghost function Links(): Link
      reads this
    {
      Link(left, right, parent, color)
    }
  }

  datatype Link = Link(left: Entry?, right: Entry?, parent: Entry?, color: Color)

  type Links = map<Entry, Link>

  datatype Shape = Leaf | Fork(left: Shape, node: Entry, color: Color, right: Shape)

  /** The way from a hole up to the root. `LeftOf` says the hole is the left child of `node`. */
  datatype Path =
    | Top
    | LeftOf(up: Path, node: Entry, color: Color, right: Shape)
    | RightOf(up: Path, node: Entry, color: Color, left: Shape)

  ghost function Nodes(t: Shape): set<Entry> {
    match t
    case Leaf => {}
    case Fork(l, x, _, r) => Nodes(l) + {x} + Nodes(r)
  }

  ghost function Above(p: Path): set<Entry> {
    match p
    case Top => {}
    case LeftOf(up, x, _, r) => Above(up) + {x} + Nodes(r)
    case RightOf(up, x, _, l) => Above(up) + {x} + Nodes(l)
  }

  ghost function Plug(p: Path, t: Shape): Shape {
    match p
    case Top => t
    case LeftOf(up, x, c, r) => Plug(up, Fork(t, x, c, r))
    case RightOf(up, x, c, l) => Plug(up, Fork(l, x, c, t))
  }

  ghost function Root(t: Shape): Entry? {
    if t.Leaf? then null else t.node
  }

  ghost function Holder(p: Path): Entry? {
    if p.Top? then null else p.node
  }

  /** No entry occurs twice. */
  ghost predicate Tidy(t: Shape) {
    t.Fork? ==>
      && Tidy(t.left) && Tidy(t.right)
      && t.node !in Nodes(t.left) && t.node !in Nodes(t.right)
      && Nodes(t.left) !! Nodes(t.right)
  }

  ghost predicate TidyPath(p: Path) {
    match p
    case Top => true
    case LeftOf(up, x, _, s) => TidyPath(up) && Tidy(s) && x !in Nodes(s) && x !in Above(up) && Nodes(s) !! Above(up)
    case RightOf(up, x, _, s) => TidyPath(up) && Tidy(s) && x !in Nodes(s) && x !in Above(up) && Nodes(s) !! Above(up)
  }

  ghost function RotatedLeft(t: Shape): Shape
    requires t.Fork? && t.right.Fork?
  {
    Fork(Fork(t.left, t.node, t.color, t.right.left), t.right.node, t.right.color, t.right.right)
  }

  ghost function RotatedRight(t: Shape): Shape
    requires t.Fork? && t.left.Fork?
  {
    Fork(t.left.left, t.left.node, t.left.color, Fork(t.left.right, t.node, t.color, t.right))
  }

  /** Below the top, what sits in the hole does not decide the root. */
  lemma PlugRoot(p: Path, t: Shape, t': Shape)
    ensures p.Top? ==> Plug(p, t') == t'
    ensures !p.Top? ==> Root(Plug(p, t)) == Root(Plug(p, t')) != null
  {
    if !p.Top? && !p.up.Top? {
      PlugRoot(p.up, Around(p, t), Around(p, t'));
    }
  }

  /** A tidy tree taken apart two levels deep. */
  lemma FlatLeft(t: Shape)
    requires t.Fork? && t.right.Fork? && Tidy(t)
    ensures var a, x, b, y, c := t.left, t.node, t.right.left, t.right.node, t.right.right;
      && x != y && {x, y} !! Nodes(a) && {x, y} !! Nodes(b) && {x, y} !! Nodes(c)
      && Nodes(a) !! Nodes(b) && Nodes(a) !! Nodes(c) && Nodes(b) !! Nodes(c)
      && Tidy(a) && Tidy(b) && Tidy(c)
      && Nodes(t) == Nodes(a) + {x} + Nodes(b) + {y} + Nodes(c)
    ensures Tidy(RotatedLeft(t)) && Nodes(RotatedLeft(t)) == Nodes(t)
  {
  }

  lemma FlatRight(t: Shape)
    requires t.Fork? && t.left.Fork? && Tidy(t)
    ensures var a, y, b, x, c := t.left.left, t.left.node, t.left.right, t.node, t.right;
      && x != y && {x, y} !! Nodes(a) && {x, y} !! Nodes(b) && {x, y} !! Nodes(c)
      && Nodes(a) !! Nodes(b) && Nodes(a) !! Nodes(c) && Nodes(b) !! Nodes(c)
      && Tidy(a) && Tidy(b) && Tidy(c)
      && Nodes(t) == Nodes(a) + {y} + Nodes(b) + {x} + Nodes(c)
    ensures Tidy(RotatedRight(t)) && Nodes(RotatedRight(t)) == Nodes(t)
  {
  }

  ghost function Around(p: Path, t: Shape): Shape
    requires !p.Top?
  {
    if p.LeftOf? then Fork(t, p.node, p.color, p.right) else Fork(p.left, p.node, p.color, t)
  }

  ghost function IntoLeft(p: Path, t: Shape): Path
    requires t.Fork?
  {
    LeftOf(p, t.node, t.color, t.right)
  }

  ghost function IntoRight(p: Path, t: Shape): Path
    requires t.Fork?
  {
    RightOf(p, t.node, t.color, t.left)
  }

  ghost function Depth(p: Path): nat {
    if p.Top? then 0 else Depth(p.up) + 1
  }

  ghost function InOrder(t: Shape): seq<Entry> {
    match t
    case Leaf => []
    case Fork(l, x, _, r) => InOrder(l) + [x] + InOrder(r)
  }

  ghost function Before(p: Path): seq<Entry> {
    match p
    case Top => []
    case LeftOf(up, _, _, _) => Before(up)
    case RightOf(up, x, _, l) => Before(up) + InOrder(l) + [x]
  }

  ghost function After(p: Path): seq<Entry> {
    match p
    case Top => []
    case LeftOf(up, x, _, r) => [x] + InOrder(r) + After(up)
    case RightOf(up, _, _, _) => After(up)
  }

  lemma InOrderPlug(p: Path, t: Shape)
    ensures InOrder(Plug(p, t)) == Before(p) + InOrder(t) + After(p)
  {
  }

  /** Replacing the filling by one with the same in-order sequence changes nothing in order. */
  lemma SameInOrder(p: Path, t: Shape, p': Path, t': Shape)
    requires Before(p) + InOrder(t) + After(p) == Before(p') + InOrder(t') + After(p')
    ensures InOrder(Plug(p, t)) == InOrder(Plug(p', t'))
  {
    InOrderPlug(p, t);
    InOrderPlug(p', t');
  }

  ghost function Sibling(p: Path): Shape
    requires !p.Top?
  {
    if p.LeftOf? then p.right else p.left
  }

  lemma InOrderNodes(t: Shape)
    ensures Nodes(t) == set x | x in InOrder(t)
  {
  }

  ghost function Height(t: Shape): nat {
    if t.Leaf? then 0
    else 1 + if Height(t.left) > Height(t.right) then Height(t.left) else Height(t.right)
  }

  lemma Lower(t: Shape)
    requires t.Fork?
    ensures Height(t.left) < Height(t) && Height(t.right) < Height(t)
  {
  }

  lemma Regroup(a: seq<Entry>, l: seq<Entry>, x: Entry, r: seq<Entry>, b: seq<Entry>)
    ensures a + (l + [x] + r) + b == (a + l) + [x] + (r + b)
    ensures [x] + r + b == [x] + (r + b)
  {
  }

  lemma Inside(p: Path, t: Shape)
    requires t.Fork?
    ensures t.node in InOrder(Plug(p, t))
  {
    InOrderPlug(p, t);
  }

  lemma LeafInOrder(p: Path)
    ensures InOrder(Plug(p, Leaf)) == Before(p) + After(p)
  {
    InOrderPlug(p, Leaf);
    assert Before(p) + [] + After(p) == Before(p) + After(p);
  }

  lemma HungInOrder(p: Path, x: Entry)
    ensures InOrder(Plug(p, Fork(Leaf, x, Red, Leaf))) == Before(p) + [x] + After(p)
  {
    InOrderPlug(p, Fork(Leaf, x, Red, Leaf));
  }

  lemma SameNodes(s: Shape, t: Shape)
    requires InOrder(s) == InOrder(t)
    ensures Nodes(s) == Nodes(t)
  {
    InOrderNodes(s);
    InOrderNodes(t);
  }

  lemma LeafNodes(x: Entry)
    ensures Nodes(Fork(Leaf, x, Red, Leaf)) == {x} && Nodes(Leaf) == {}
  {
  }

  lemma NodesPlug(p: Path, t: Shape)
    ensures Nodes(Plug(p, t)) == Above(p) + Nodes(t)
  {
  }

  lemma RootAbove(p: Path, t: Shape)
    requires !p.Top?
    ensures Root(Plug(p, t)) in Above(p)
  {
  }

  /** The path `i` continued by the path `o`. */
  ghost function Join(i: Path, o: Path): Path {
    match i
    case Top => o
    case LeftOf(up, x, c, r) => LeftOf(Join(up, o), x, c, r)
    case RightOf(up, x, c, l) => RightOf(Join(up, o), x, c, l)
  }

  ghost function OnlyChild(t: Shape): Shape
    requires t.Fork?
  {
    if t.left.Leaf? then t.right else t.left
  }

  lemma PlugJoin(i: Path, o: Path, t: Shape)
    ensures Plug(Join(i, o), t) == Plug(o, Plug(i, t))
    decreases i
  {
    if !i.Top? {
      PlugJoin(i.up, o, Around(i, t));
    }
  }

  lemma JoinTop(o: Path, t: Shape)
    ensures Join(Top, o) == o && Plug(Top, t) == t && Leftmost(Top)
  {
  }

  lemma JoinIn(i: Path, o: Path, t: Shape)
    requires t.Fork?
    ensures Join(IntoLeft(i, t), o) == IntoLeft(Join(i, o), t)
    ensures Plug(IntoLeft(i, t), t.left) == Plug(i, t)
    ensures Leftmost(i) ==> Leftmost(IntoLeft(i, t))
  {
  }

  ghost predicate Leftmost(p: Path) {
    !p.Top? ==> p.LeftOf? && Leftmost(p.up)
  }

  lemma LeftmostBefore(p: Path)
    requires Leftmost(p)
    ensures Before(p) == []
  {
  }

  lemma LeftmostFirst(i: Path, u: Shape)
    requires Leftmost(i) && u.Fork? && u.left.Leaf?
    ensures InOrder(Plug(i, u)) == [u.node] + InOrder(Plug(i, OnlyChild(u)))
  {
    LeftmostBefore(i);
    InOrderPlug(i, u);
    InOrderPlug(i, OnlyChild(u));
    assert InOrder(u) == [u.node] + InOrder(u.right);
    assert OnlyChild(u) == u.right;
    hide InOrder, Plug, Leftmost, Before, After, OnlyChild;
    Slide(u.node, InOrder(u.right), After(i));
  }

  lemma Slide(x: Entry, mid: seq<Entry>, end: seq<Entry>)
    ensures [] + ([x] + mid) + end == [x] + ([] + mid + end)
  {
  }

  lemma PlugTop(t: Shape)
    ensures Plug(Top, t) == t
  {
  }

  lemma JoinHolder(i: Path, o: Path)
    requires !o.Top?
    ensures !Join(i, o).Top?
    ensures Holder(Join(i, o)) == if i.Top? then o.node else i.node
  {
  }

  lemma JoinAbove(i: Path, o: Path)
    requires !o.Top?
    ensures o.node in Above(Join(i, o))
  {
  }
}
