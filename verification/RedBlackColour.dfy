/** The colour rules: equal black counts and no red node under a red one, through every repair step of
    insertion and removal, and the bound on the height they give. */
module RedBlackColour {
  import opened RedBlackShape

  ghost predicate BlackTop(t: Shape) {
    t.Fork? ==> t.color.Black?
  }

  /** No red entry has a red child, and every way down meets `h` black entries. */
  ghost predicate Rb(t: Shape, h: nat) {
    match t
    case Leaf => h == 0
    case Fork(l, _, c, r) =>
      && (c.Red? ==> BlackTop(l) && BlackTop(r) && Rb(l, h) && Rb(r, h))
      && (c.Black? ==> h > 0 && Rb(l, h - 1) && Rb(r, h - 1))
  }

  /** What the surroundings must satisfy so that a tree of black height `h` fits in the hole. */
  ghost predicate RbPath(p: Path, h: nat) {
    p.Top? ||
    var s := if p.LeftOf? then p.right else p.left;
    && Rb(s, h)
    && (p.color.Red? ==> BlackTop(s) && !p.up.Top? && p.up.color.Black?)
    && RbPath(p.up, if p.color.Black? then h + 1 else h)
  }

  /** A red entry with a red parent has a black grandparent: it is never missing. */
  lemma RedParent(p: Path, t: Shape, h: nat)
    requires RbPath(p, h) && !p.Top? && p.color.Red?
    ensures !p.up.Top? && p.up.color.Black?
  {
  }

  /** Parent and uncle become black, the grandparent red. */
  ghost function Recoloured(g: Shape): Shape
    requires g.Fork? && g.left.Fork? && g.right.Fork?
  {
    Fork(g.left.(color := Black), g.node, Red, g.right.(color := Black))
  }

  lemma RecolouredUp(p: Path, t: Shape, h: nat)
    requires t.Fork? && t.color.Red? && Rb(t, h) && RbPath(p, h) && !p.Top? && p.color.Red?
    requires !p.up.Top? && Sibling(p.up).Fork? && Sibling(p.up).color.Red?
    ensures var g := Recoloured(Around(p.up, Around(p, t)));
      && Rb(g, h + 1) && RbPath(p.up.up, h + 1)
      && InOrder(Plug(p.up.up, g)) == InOrder(Plug(p, t))
    ensures Depth(p.up.up) < Depth(p)
  {
    hide InOrder, Plug;
    RecolouredInOrder(p, t);
  }

  lemma RecolouredInOrder(p: Path, t: Shape)
    requires !p.Top? && !p.up.Top? && Sibling(p.up).Fork?
    ensures InOrder(Plug(p.up.up, Recoloured(Around(p.up, Around(p, t))))) == InOrder(Plug(p, t))
  {
    var g := Around(p.up, Around(p, t));
    assert Plug(p, t) == Plug(p.up.up, g);
    assert InOrder(Recoloured(g)) == InOrder(g);
    SameInOrder(p.up.up, g, p.up.up, Recoloured(g));
  }

  /** Where a left-leaning insertion conflict ends: parent on top, grandparent to its right. */
  ghost function TiltedRight(pt: Shape, gparent: Entry, ut: Shape): Shape
    requires pt.Fork?
  {
    RotatedRight(Fork(pt.(color := Black), gparent, Red, ut))
  }

  lemma TiltedRightUp(p: Path, t: Shape, h: nat)
    requires t.Fork? && t.color.Red? && Rb(t, h) && RbPath(p, h) && !p.Top? && p.color.Red?
    requires p.up.LeftOf? && BlackTop(p.up.right)
    ensures var pt := if p.RightOf? then RotatedLeft(Around(p, t)) else Around(p, t);
      && pt.left.Fork? && pt.left.color.Red? && Rb(pt.left, h)
      && var q := IntoLeft(p.up.up, TiltedRight(pt, p.up.node, p.up.right));
      && RbPath(q, h) && Depth(q) < Depth(p)
      && InOrder(Plug(q, pt.left)) == InOrder(Plug(p, t))
  {
    var pt := if p.RightOf? then RotatedLeft(Around(p, t)) else Around(p, t);
    var q := IntoLeft(p.up.up, TiltedRight(pt, p.up.node, p.up.right));
    TiltedRightColours(p, t, h);
    hide Rb, RbPath, BlackTop;
    SameInOrder(p, t, q, pt.left);
  }

  lemma TiltedRightColours(p: Path, t: Shape, h: nat)
    requires t.Fork? && t.color.Red? && Rb(t, h) && RbPath(p, h) && !p.Top? && p.color.Red?
    requires p.up.LeftOf? && BlackTop(p.up.right)
    ensures var pt := if p.RightOf? then RotatedLeft(Around(p, t)) else Around(p, t);
      && pt.left.Fork? && pt.left.color.Red? && Rb(pt.left, h)
      && RbPath(IntoLeft(p.up.up, TiltedRight(pt, p.up.node, p.up.right)), h)
  {
  }

  ghost function TiltedLeft(pt: Shape, gparent: Entry, ut: Shape): Shape
    requires pt.Fork?
  {
    RotatedLeft(Fork(ut, gparent, Red, pt.(color := Black)))
  }

  lemma TiltedLeftUp(p: Path, t: Shape, h: nat)
    requires t.Fork? && t.color.Red? && Rb(t, h) && RbPath(p, h) && !p.Top? && p.color.Red?
    requires p.up.RightOf? && BlackTop(p.up.left)
    ensures var pt := if p.LeftOf? then RotatedRight(Around(p, t)) else Around(p, t);
      && pt.right.Fork? && pt.right.color.Red? && Rb(pt.right, h)
      && var q := IntoRight(p.up.up, TiltedLeft(pt, p.up.node, p.up.left));
      && RbPath(q, h) && Depth(q) < Depth(p)
      && InOrder(Plug(q, pt.right)) == InOrder(Plug(p, t))
  {
    var pt := if p.LeftOf? then RotatedRight(Around(p, t)) else Around(p, t);
    var q := IntoRight(p.up.up, TiltedLeft(pt, p.up.node, p.up.left));
    TiltedLeftColours(p, t, h);
    hide Rb, RbPath, BlackTop;
    SameInOrder(p, t, q, pt.right);
  }

  lemma TiltedLeftColours(p: Path, t: Shape, h: nat)
    requires t.Fork? && t.color.Red? && Rb(t, h) && RbPath(p, h) && !p.Top? && p.color.Red?
    requires p.up.RightOf? && BlackTop(p.up.left)
    ensures var pt := if p.LeftOf? then RotatedRight(Around(p, t)) else Around(p, t);
      && pt.right.Fork? && pt.right.color.Red? && Rb(pt.right, h)
      && RbPath(IntoRight(p.up.up, TiltedLeft(pt, p.up.node, p.up.left)), h)
  {
  }

  ghost function BlackHeight(t: Shape): nat {
    if t.Leaf? then 0 else BlackHeight(t.left) + if t.color.Black? then 1 else 0
  }

  /** The colour rules of a whole tree: black root, no red child of a red entry, equal black counts. */
  ghost predicate Balanced(t: Shape) {
    BlackTop(t) && Rb(t, BlackHeight(t))
  }

  lemma RbHeight(t: Shape, h: nat)
    requires Rb(t, h)
    ensures h == BlackHeight(t)
  {
  }

  /** `t` in the hole of `p` obeys every colour rule. */
  ghost predicate RbFit(p: Path, t: Shape, h: nat) {
    Rb(t, h) && RbPath(p, h) && (!BlackTop(t) ==> !p.Top? && p.color.Black?)
  }

  ghost function Below(t: Shape, h: nat): nat
    requires t.Fork? && Rb(t, h)
  {
    if t.color.Black? then h - 1 else h
  }

  lemma RbIn(p: Path, t: Shape, h: nat)
    requires RbFit(p, t, h) && t.Fork?
    ensures Rb(t, h)
    ensures RbFit(IntoLeft(p, t), t.left, Below(t, h))
    ensures RbFit(IntoRight(p, t), t.right, Below(t, h))
  {
  }

  lemma {:induction false} RbOut(p: Path, t: Shape, h: nat)
    requires RbFit(p, t, h)
    ensures Balanced(Plug(p, t))
    decreases p
  {
    if p.Top? {
      RbHeight(t, h);
    } else {
      RbOut(p.up, Around(p, t), if p.color.Black? then h + 1 else h);
    }
  }

  lemma HungRb(p: Path, x: Entry, h: nat)
    requires RbFit(p, Leaf, h)
    ensures Rb(Fork(Leaf, x, Red, Leaf), h) && RbPath(p, h)
  {
  }

  ghost function Dark(t: Shape): Shape {
    if t.Leaf? then t else t.(color := Black)
  }

  /** The hole expects one more black entry than `t` has; painting a red top black would settle it. */
  ghost predicate Deficit(p: Path, t: Shape, h: nat) {
    RbPath(p, h + 1) && if BlackTop(t) then Rb(t, h) else Rb(Dark(t), h + 1)
  }

  /** A red sibling becomes the black top, the parent red below it. */
  ghost function LiftedLeft(p: Path): Path
    requires p.LeftOf? && p.right.Fork?
  {
    LeftOf(LeftOf(p.up, p.right.node, Black, p.right.right), p.node, Red, p.right.left)
  }

  lemma LiftLeftFits(p: Path, t: Shape, h: nat)
    requires Deficit(p, t, h) && BlackTop(t) && p.LeftOf? && p.right.Fork? && p.right.color.Red?
    ensures p.color.Black? && p.right.left.Fork? && p.right.left.color.Black?
    ensures Deficit(LiftedLeft(p), t, h) && Depth(LiftedLeft(p)) == Depth(p) + 1
    ensures InOrder(Plug(LiftedLeft(p), t)) == InOrder(Plug(p, t))
  {
    LiftLeftColours(p, t, h);
    LiftLeftOrder(p, t);
    hide Deficit, InOrder, Plug, Depth;
  }

  lemma LiftLeftColours(p: Path, t: Shape, h: nat)
    requires Deficit(p, t, h) && BlackTop(t) && p.LeftOf? && p.right.Fork? && p.right.color.Red?
    ensures p.color.Black? && p.right.left.Fork? && p.right.left.color.Black?
    ensures Deficit(LiftedLeft(p), t, h) && Depth(LiftedLeft(p)) == Depth(p) + 1
  {
    assert Rb(p.right, h + 1) && Rb(p.right.left, h + 1);
  }

  lemma LiftLeftOrder(p: Path, t: Shape)
    requires p.LeftOf? && p.right.Fork?
    ensures InOrder(Plug(LiftedLeft(p), t)) == InOrder(Plug(p, t))
  {
    var g := Fork(t, p.node, Red, p.right.(color := Black));
    assert InOrder(RotatedLeft(g)) == InOrder(Around(p, t));
    SameInOrder(p.up, RotatedLeft(g), p.up, Around(p, t));
  }

  lemma FadeLeftFits(p: Path, t: Shape, h: nat)
    requires Deficit(p, t, h) && BlackTop(t) && p.LeftOf? && p.right.Fork? && p.right.color.Black?
    requires BlackTop(p.right.left) && BlackTop(p.right.right)
    ensures var g := Fork(t, p.node, p.color, p.right.(color := Red));
      && Deficit(p.up, g, if p.color.Black? then h + 1 else h)
      && InOrder(Plug(p.up, g)) == InOrder(Plug(p, t))
    ensures Depth(p.up) < Depth(p)
  {
    SameInOrder(p.up, Fork(t, p.node, p.color, p.right.(color := Red)), p.up, Around(p, t));
  }

  /** The sibling `w` whose outer child is red takes the parent's place and colour. */
  ghost function ClosedLeft(p: Path, t: Shape, w: Shape): Shape
    requires p.LeftOf? && w.Fork? && w.right.Fork?
  {
    RotatedLeft(Fork(t, p.node, Black, Fork(w.left, w.node, p.color, w.right.(color := Black))))
  }

  ghost function InnerRightUp(w: Shape): Shape
    requires w.Fork? && w.left.Fork?
  {
    RotatedRight(Fork(w.left.(color := Black), w.node, Red, w.right))
  }

  lemma CloseLeftFits(p: Path, t: Shape, h: nat)
    requires Deficit(p, t, h) && BlackTop(t) && p.LeftOf? && p.right.Fork? && p.right.color.Black?
    requires !BlackTop(p.right.left) || !BlackTop(p.right.right)
    ensures var w := if BlackTop(p.right.right) then InnerRightUp(p.right) else p.right;
      && w.right.Fork?
      && var s := Plug(p.up, ClosedLeft(p, t, w));
      && Balanced(s) && InOrder(s) == InOrder(Plug(p, t))
  {
    var w := if BlackTop(p.right.right) then InnerRightUp(p.right) else p.right;
    CloseLeftRb(p, t, h);
    assert InOrder(w) == InOrder(p.right);
    assert InOrder(ClosedLeft(p, t, w)) == InOrder(Around(p, t)) by {
      Regroup([], InOrder(t) + [p.node] + InOrder(w.left), w.node, InOrder(w.right), []);
    }
    SameInOrder(p.up, ClosedLeft(p, t, w), p.up, Around(p, t));
  }

  lemma CloseLeftRb(p: Path, t: Shape, h: nat)
    requires Deficit(p, t, h) && BlackTop(t) && p.LeftOf? && p.right.Fork? && p.right.color.Black?
    requires !BlackTop(p.right.left) || !BlackTop(p.right.right)
    ensures var w := if BlackTop(p.right.right) then InnerRightUp(p.right) else p.right;
      && w.right.Fork? && Balanced(Plug(p.up, ClosedLeft(p, t, w)))
  {
    var l, r := p.right.left, p.right.right;
    assert Rb(p.right, h + 1) && Rb(l, h) && Rb(r, h);
    assert BlackTop(p.right.right) ==> Rb(p.right.left.left, h) && Rb(p.right.left.right, h);
    var w := if BlackTop(p.right.right) then InnerRightUp(p.right) else p.right;
    var c := ClosedLeft(p, t, w);
    var k := if p.color.Black? then h + 2 else h + 1;
    assert Rb(c.left, h + 1) && Rb(c.right, h + 1);
    RbOut(p.up, c, k);
  }

  /** A red sibling becomes the black top, the parent red below it. */
  ghost function LiftedRight(p: Path): Path
    requires p.RightOf? && p.left.Fork?
  {
    RightOf(RightOf(p.up, p.left.node, Black, p.left.left), p.node, Red, p.left.right)
  }

  lemma LiftRightFits(p: Path, t: Shape, h: nat)
    requires Deficit(p, t, h) && BlackTop(t) && p.RightOf? && p.left.Fork? && p.left.color.Red?
    ensures p.color.Black? && p.left.right.Fork? && p.left.right.color.Black?
    ensures Deficit(LiftedRight(p), t, h) && Depth(LiftedRight(p)) == Depth(p) + 1
    ensures InOrder(Plug(LiftedRight(p), t)) == InOrder(Plug(p, t))
  {
    assert Rb(p.left, h + 1) && Rb(p.left.right, h + 1);
    var g := Fork(p.left.(color := Black), p.node, Red, t);
    assert InOrder(RotatedRight(g)) == InOrder(Around(p, t));
    SameInOrder(p.up, RotatedRight(g), p.up, Around(p, t));
  }

  lemma FadeRightFits(p: Path, t: Shape, h: nat)
    requires Deficit(p, t, h) && BlackTop(t) && p.RightOf? && p.left.Fork? && p.left.color.Black?
    requires BlackTop(p.left.right) && BlackTop(p.left.left)
    ensures var g := Fork(p.left.(color := Red), p.node, p.color, t);
      && Deficit(p.up, g, if p.color.Black? then h + 1 else h)
      && InOrder(Plug(p.up, g)) == InOrder(Plug(p, t))
    ensures Depth(p.up) < Depth(p)
  {
    SameInOrder(p.up, Fork(p.left.(color := Red), p.node, p.color, t), p.up, Around(p, t));
  }

  /** The sibling `w` whose outer child is red takes the parent's place and colour. */
  ghost function ClosedRight(p: Path, t: Shape, w: Shape): Shape
    requires p.RightOf? && w.Fork? && w.left.Fork?
  {
    RotatedRight(Fork(Fork(w.left.(color := Black), w.node, p.color, w.right), p.node, Black, t))
  }

  ghost function InnerLeftUp(w: Shape): Shape
    requires w.Fork? && w.right.Fork?
  {
    RotatedLeft(Fork(w.left, w.node, Red, w.right.(color := Black)))
  }

  lemma CloseRightFits(p: Path, t: Shape, h: nat)
    requires Deficit(p, t, h) && BlackTop(t) && p.RightOf? && p.left.Fork? && p.left.color.Black?
    requires !BlackTop(p.left.right) || !BlackTop(p.left.left)
    ensures var w := if BlackTop(p.left.left) then InnerLeftUp(p.left) else p.left;
      && w.left.Fork?
      && var s := Plug(p.up, ClosedRight(p, t, w));
      && Balanced(s) && InOrder(s) == InOrder(Plug(p, t))
  {
    var w := if BlackTop(p.left.left) then InnerLeftUp(p.left) else p.left;
    CloseRightRb(p, t, h);
    assert InOrder(w) == InOrder(p.left);
    assert InOrder(ClosedRight(p, t, w)) == InOrder(Around(p, t)) by {
      Regroup([], InOrder(w.left), w.node, InOrder(w.right) + [p.node] + InOrder(t), []);
    }
    SameInOrder(p.up, ClosedRight(p, t, w), p.up, Around(p, t));
  }

  lemma CloseRightRb(p: Path, t: Shape, h: nat)
    requires Deficit(p, t, h) && BlackTop(t) && p.RightOf? && p.left.Fork? && p.left.color.Black?
    requires !BlackTop(p.left.right) || !BlackTop(p.left.left)
    ensures var w := if BlackTop(p.left.left) then InnerLeftUp(p.left) else p.left;
      && w.left.Fork? && Balanced(Plug(p.up, ClosedRight(p, t, w)))
  {
    var l, r := p.left.left, p.left.right;
    assert Rb(p.left, h + 1) && Rb(l, h) && Rb(r, h);
    assert BlackTop(p.left.left) ==> Rb(p.left.right.left, h) && Rb(p.left.right.right, h);
    var w := if BlackTop(p.left.left) then InnerLeftUp(p.left) else p.left;
    var c := ClosedRight(p, t, w);
    var k := if p.color.Black? then h + 2 else h + 1;
    assert Rb(c.left, h + 1) && Rb(c.right, h + 1);
    RbOut(p.up, c, k);
  }

  /** At the root, or at a red top, painting the top black ends the deficit. */
  lemma DeficitEnds(p: Path, t: Shape, h: nat)
    requires Deficit(p, t, h) && (p.Top? || !BlackTop(t))
    ensures Balanced(Plug(p, Dark(t)))
  {
    RbOut(p, Dark(t), if BlackTop(t) then h else h + 1);
  }

  lemma DarkInOrder(p: Path, t: Shape)
    ensures InOrder(Plug(p, Dark(t))) == InOrder(Plug(p, t))
  {
    SameInOrder(p, Dark(t), p, t);
  }

  lemma BalancedShort(t: Shape)
    requires Balanced(t)
    ensures Deficit(Top, t, BlackHeight(t)) && Plug(Top, t) == t
  {
  }

  lemma UnlinkFits(p: Path, t: Shape, h: nat)
    requires RbFit(p, t, h) && t.Fork? && (t.left.Leaf? || t.right.Leaf?)
    ensures t.color.Red? ==> RbFit(p, OnlyChild(t), h)
    ensures t.color.Black? ==> h > 0 && Deficit(p, OnlyChild(t), h - 1)
  {
    var kid := OnlyChild(t);
    if t.color.Black? {
      assert Rb(kid, h - 1);
      if !BlackTop(kid) {
        assert Rb(kid.left, h - 1) && Rb(kid.right, h - 1);
      }
    }
  }

  /** Colours do not depend on which entry stands where. */
  lemma JoinRename(i: Path, o: Path, y: Entry, h: nat)
    requires !o.Top?
    ensures RbPath(Join(i, o.(node := y)), h) == RbPath(Join(i, o), h)
    decreases i
  {
    if !i.Top? {
      JoinRename(i.up, o, y, if i.color.Black? then h + 1 else h);
    }
  }

  lemma RbInto(p: Path, t: Shape)
    requires Balanced(Plug(p, t))
    ensures RbFit(p, t, BlackHeight(t))
    decreases p
  {
    if !p.Top? {
      RbInto(p.up, Around(p, t));
      RbIn(p.up, Around(p, t), BlackHeight(Around(p, t)));
      RbHeight(t, Below(Around(p, t), BlackHeight(Around(p, t))));
    }
  }

  lemma SpliceFits(p: Path, t: Shape, h: nat, i: Path, u: Shape) returns (k: nat)
    requires RbFit(p, t, h) && t.Fork? && u.Fork? && u.left.Leaf? && Plug(i, u) == t.right
    ensures var q := Join(i, RightOf(p, u.node, t.color, t.left));
      if u.color.Red? then RbFit(q, OnlyChild(u), k) else Deficit(q, OnlyChild(u), k)
  {
    var o := IntoRight(p, t);
    var q := Join(i, RightOf(p, u.node, t.color, t.left));
    RbOut(p, t, h);
    PlugJoin(i, o, u);
    RbInto(Join(i, o), u);
    var hu := BlackHeight(u);
    UnlinkFits(Join(i, o), u, hu);
    JoinRename(i, o, u.node, hu);
    JoinTopColor(i, o, u.node);
    k := if u.color.Red? then hu else hu - 1;
  }

  lemma JoinTopColor(i: Path, o: Path, y: Entry)
    requires !o.Top?
    ensures !Join(i, o).Top? && !Join(i, o.(node := y)).Top?
    ensures Join(i, o.(node := y)).color == Join(i, o).color
  {
  }

  function Pow2(n: nat): (r: nat)
    ensures r > 0
  {
    if n == 0 then 1 else 2 * Pow2(n - 1)
  }

  lemma Pow2Sum(a: nat, b: nat)
    ensures Pow2(a + b) == Pow2(a) * Pow2(b)
  {
    if a > 0 { Pow2Sum(a - 1, b); }
  }

  lemma Pow2Grows(a: nat, b: nat)
    requires a <= b
    ensures Pow2(a) <= Pow2(b)
  {
  }

  lemma {:induction false} FullEnough(t: Shape, h: nat)
    requires Rb(t, h)
    ensures Pow2(h) <= |InOrder(t)| + 1
    decreases t
  {
    if t.Fork? {
      FullEnough(t.left, Below(t, h));
      FullEnough(t.right, Below(t, h));
    }
  }

  lemma {:induction false} LowEnough(t: Shape, h: nat)
    requires Rb(t, h)
    ensures Height(t) <= 2 * h + if BlackTop(t) then 0 else 1
    decreases t
  {
    if t.Fork? {
      LowEnough(t.left, Below(t, h));
      LowEnough(t.right, Below(t, h));
    }
  }

  lemma Squares(a: nat, b: nat)
    requires a <= b
    ensures a * a <= b * b
  {
  }

  /** The header's bound: height at most 2 lg(n + 1). */
  lemma HeightBound(t: Shape)
    requires Balanced(t)
    ensures Pow2(Height(t)) <= (|InOrder(t)| + 1) * (|InOrder(t)| + 1)
  {
    hide Rb, InOrder, Pow2;
    var h := BlackHeight(t);
    FullEnough(t, h);
    LowEnough(t, h);
    Pow2Grows(Height(t), h + h);
    Pow2Sum(h, h);
    Squares(Pow2(h), |InOrder(t)| + 1);
  }
}
