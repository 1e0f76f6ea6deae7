/** The red-black tree of systree.h over heap entries, with its loops and parent links. The ghost parameters
    `p`, `t` and `h` of the repair steps say where they are: the path down, the subtree there, its black height. */
module RedBlackTree {
  import opened RedBlackShape
  import opened RedBlackLinks
  import opened RedBlackColour
  import opened RedBlackOrder

  class Tree {
    var root: Entry?
    ghost var shape: Shape      // the tree the links spell out
    ghost var repr: set<Entry>  // its entries
    ghost var turns: nat        // the rotations made so far

    constructor ()
      ensures Valid() && shape == Leaf && repr == {}
    {
      root, shape, repr, turns := null, Leaf, {}, 0;
    }

    ghost function Snap(): (m: Links)
      reads this`repr, repr
      ensures m.Keys == repr
    {
      map x | x in repr :: x.Links()
    }

    ghost predicate At(p: Path, t: Shape)
      reads this`root, this`repr, repr
    {
      && root == Root(Plug(p, t))
      && Sits(Snap(), p, t)
    }

    /** The link from `parent`, or from the head, to `elm` leads to `next` instead. */
    method Replace(parent: Entry?, elm: Entry, next: Entry?)
      requires Just(parent) <= repr
      modifies this`root, Just(parent)`left, Just(parent)`right
      ensures Snap() == Replaced(old(Snap()), parent, elm, next)
      ensures root == if parent == null then next else old(root)
      ensures parent != null ==> parent.left == if old(parent.left) == elm then next else old(parent.left)
      ensures parent != null ==> parent.right == if old(parent.left) == elm then old(parent.right) else next
    {
      if parent != null {
        if parent.left == elm {
          parent.left := next;
        } else {
          parent.right := next;
        }
      } else {
        root := next;
      }
    }

    /** RB_ROTATE_LEFT, proved against its effect on the link records. */
    method RotateLeft(elm: Entry) returns (tmp: Entry)
      requires CanTurnLeft(Snap(), elm)
      modifies this`root, this`turns, repr
      ensures tmp == old(elm.right)
      ensures Snap() == TurnedLeft(old(Snap()), elm)
      ensures root == if old(elm.parent) == null then tmp else old(root)
      ensures turns == old(turns) + 1
    {
      ghost var m := Snap();
      tmp := TurnLeft(elm);
      assert Snap() == TurnedLeft(m, elm);
      turns := turns + 1;
    }

    /** The pointer updates of a left rotation. */
    method TurnLeft(elm: Entry) returns (tmp: Entry)
      requires elm.right != null && Distinct(elm, elm.right, elm.right.left, elm.parent)
      modifies this`root, elm`right, elm`parent, elm.right`left, elm.right`parent
      modifies Just(elm.right.left)`parent, Just(elm.parent)`left, Just(elm.parent)`right
      ensures tmp == old(elm.right)
      ensures elm.right == old(elm.right.left) && tmp.left == elm
      ensures elm.parent == tmp && tmp.parent == old(elm.parent)
      ensures elm.right != null ==> elm.right.parent == elm
      ensures root == if tmp.parent == null then tmp else old(root)
      ensures tmp.parent != null ==>
        if old(elm.parent.left) == elm
        then tmp.parent.left == tmp && tmp.parent.right == old(elm.parent.right)
        else tmp.parent.right == tmp && tmp.parent.left == old(elm.parent.left)
    {
      tmp := elm.right;
      elm.right := tmp.left;
      if tmp.left != null {
        tmp.left.parent := elm;
      }
      tmp.parent := elm.parent;
      if tmp.parent != null {
        if elm == elm.parent.left {
          elm.parent.left := tmp;
        } else {
          elm.parent.right := tmp;
        }
      } else {
        root := tmp;
      }
      tmp.left := elm;
      elm.parent := tmp;
    }

    method RotateLeftAt(elm: Entry, ghost p: Path, ghost t: Shape) returns (tmp: Entry)
      requires At(p, t) && t.Fork? && t.right.Fork? && elm == t.node
      modifies this`root, this`turns, repr
      ensures tmp == t.right.node
      ensures At(p, RotatedLeft(t))
      ensures turns == old(turns) + 1
    {
      TurnedLeftSits(Snap(), p, t);
      tmp := RotateLeft(elm);
      PlugRoot(p, t, RotatedLeft(t));
    }

    /** RB_ROTATE_RIGHT, proved against its effect on the link records. */
    method RotateRight(elm: Entry) returns (tmp: Entry)
      requires CanTurnRight(Snap(), elm)
      modifies this`root, this`turns, repr
      ensures tmp == old(elm.left)
      ensures Snap() == TurnedRight(old(Snap()), elm)
      ensures root == if old(elm.parent) == null then tmp else old(root)
      ensures turns == old(turns) + 1
    {
      ghost var m := Snap();
      tmp := TurnRight(elm);
      assert Snap() == TurnedRight(m, elm);
      turns := turns + 1;
    }

    /** The pointer updates of a right rotation. */
    method TurnRight(elm: Entry) returns (tmp: Entry)
      requires elm.left != null && Distinct(elm, elm.left, elm.left.right, elm.parent)
      modifies this`root, elm`left, elm`parent, elm.left`right, elm.left`parent
      modifies Just(elm.left.right)`parent, Just(elm.parent)`left, Just(elm.parent)`right
      ensures tmp == old(elm.left)
      ensures elm.left == old(elm.left.right) && tmp.right == elm
      ensures elm.parent == tmp && tmp.parent == old(elm.parent)
      ensures elm.left != null ==> elm.left.parent == elm
      ensures root == if tmp.parent == null then tmp else old(root)
      ensures tmp.parent != null ==>
        if old(elm.parent.left) == elm
        then tmp.parent.left == tmp && tmp.parent.right == old(elm.parent.right)
        else tmp.parent.right == tmp && tmp.parent.left == old(elm.parent.left)
    {
      tmp := elm.left;
      elm.left := tmp.right;
      if tmp.right != null {
        tmp.right.parent := elm;
      }
      tmp.parent := elm.parent;
      if tmp.parent != null {
        if elm == elm.parent.left {
          elm.parent.left := tmp;
        } else {
          elm.parent.right := tmp;
        }
      } else {
        root := tmp;
      }
      tmp.right := elm;
      elm.parent := tmp;
    }

    method RotateRightAt(elm: Entry, ghost p: Path, ghost t: Shape) returns (tmp: Entry)
      requires At(p, t) && t.Fork? && t.left.Fork? && elm == t.node
      modifies this`root, this`turns, repr
      ensures tmp == t.left.node
      ensures At(p, RotatedRight(t))
      ensures turns == old(turns) + 1
    {
      TurnedRightSits(Snap(), p, t);
      tmp := RotateRight(elm);
      PlugRoot(p, t, RotatedRight(t));
    }

    /** The entries in ascending order. */
    ghost function Order(): seq<Entry>
      reads this
    {
      InOrder(shape)
    }

    ghost predicate Valid()
      reads this, repr
    {
      At(Top, shape) && repr == Nodes(shape) && Balanced(shape) && Sorted(Order())
    }

    /** RB_INIT. */
    method Init()
      modifies this
      ensures Valid() && shape == Leaf && repr == {}
    {
      root := null;
      shape, repr := Leaf, {};
    }

    /** RB_COPY: this head shares the entries of `source`. */
    method CopyFrom(source: Tree)
      requires source.Valid()
      modifies this
      ensures Valid() && shape == source.shape && repr == source.repr
    {
      root := source.root;
      shape, repr := source.shape, source.repr;
      assert Snap() == source.Snap();
    }

    lemma RootIn()
      requires Valid()
      ensures if root == null then Order() == [] else root in repr && Order() != []
    {
    }

    // Moving the focus

    lemma Here(p: Path, t: Shape)
      requires At(p, t) && t.Fork?
      ensures t.node in repr && t.node.left == Root(t.left) && t.node.right == Root(t.right)
      ensures t.node.parent == Holder(p) && t.node.color == t.color
    {
      assert t.node.Links() == Snap()[t.node];
    }

    lemma There(p: Path, t: Shape)
      requires At(p, t) && !p.Top?
      ensures p.node in repr && p.node.parent == Holder(p.up) && p.node.color == p.color
      ensures p.LeftOf? ==> p.node.left == Root(t) && p.node.right == Root(p.right)
      ensures p.RightOf? ==> p.node.right == Root(t) && p.node.left == Root(p.left)
      ensures Root(Sibling(p)) == Root(t) ==> Sibling(p).Leaf? && t.Leaf?
    {
      assert p.node.Links() == Snap()[p.node];
      assert Sibling(p).Fork? ==> Sibling(p).node in Above(p);
    }

    lemma Out(p: Path, t: Shape)
      requires At(p, t) && !p.Top?
      ensures At(p.up, Around(p, t))
    {
    }

    lemma In(p: Path, t: Shape)
      requires At(p, t) && t.Fork?
      ensures At(IntoLeft(p, t), t.left)
      ensures At(IntoRight(p, t), t.right)
    {
    }

    // Setting one colour

    method Paint(x: Entry, c: Color, ghost p: Path, ghost t: Shape)
      requires At(p, t) && t.Fork? && t.node == x
      modifies repr`color
      ensures At(p, t.(color := c))
    {
      ghost var m := Snap();
      PaintedSits(m, p, t, c);
      x.color := c;
      assert Snap() == m[x := m[x].(color := c)];
      PlugRoot(p, t, t.(color := c));
    }

    method PaintLeft(x: Entry, c: Color, ghost p: Path, ghost t: Shape)
      requires At(p, t) && t.Fork? && t.left.Fork? && t.left.node == x
      modifies repr`color
      ensures At(p, t.(left := t.left.(color := c)))
    {
      In(p, t);
      Paint(x, c, IntoLeft(p, t), t.left);
      Out(IntoLeft(p, t), t.left.(color := c));
    }

    method PaintRight(x: Entry, c: Color, ghost p: Path, ghost t: Shape)
      requires At(p, t) && t.Fork? && t.right.Fork? && t.right.node == x
      modifies repr`color
      ensures At(p, t.(right := t.right.(color := c)))
    {
      In(p, t);
      Paint(x, c, IntoRight(p, t), t.right);
      Out(IntoRight(p, t), t.right.(color := c));
    }

    // Insertion

    ghost predicate RedAt(elm: Entry, p: Path, t: Shape, h: nat)
      reads this`root, this`repr, repr
    {
      At(p, t) && t.Fork? && t.node == elm && t.color.Red? && Rb(t, h) && RbPath(p, h)
    }

    /** One round of the loop of RB_INSERT_COLOR when the parent is a left child. */
    method RaiseLeft(elm: Entry, parent: Entry, gparent: Entry, ghost p: Path, ghost t: Shape, ghost h: nat)
      returns (next: Entry, ghost q: Path, ghost s: Shape, ghost k: nat, ghost spins: nat)
      requires RedAt(elm, p, t, h) && parent == Holder(p) && p.color.Red? && p.up.LeftOf? && gparent == p.up.node
      modifies this`root, this`turns, repr
      ensures RedAt(next, q, s, k) && InOrder(Plug(q, s)) == InOrder(Plug(p, t))
      ensures Depth(q) < Depth(p) && spins <= 2
      ensures spins > 0 ==> !q.Top? && q.color.Black?
      ensures turns == old(turns) + spins
    {
      hide At, Rb, RbPath, InOrder, Plug, Depth;
      ghost var up, pt, ut := p.up.up, Around(p, t), p.up.right;
      ghost var g := Fork(pt, gparent, Black, ut);
      RedParent(p, t, h);
      There(p, t);
      Out(p, t);
      There(p.up, pt);
      Out(p.up, pt);
      var tmp := gparent.right;
      In(up, g);
      if ut.Fork? { Here(IntoRight(up, g), ut); }
      if tmp != null && tmp.color == Red {
        RecolouredUp(p, t, h);
        PaintRight(tmp, Black, up, g);
        ghost var g1 := g.(right := ut.(color := Black));
        PaintLeft(parent, Black, up, g1);
        ghost var g2 := g1.(left := pt.(color := Black));
        Paint(gparent, Red, up, g2);
        return gparent, up, g2.(color := Red), h + 1, 0;
      }
      TiltedRightUp(p, t, h);
      var mid, low := parent, elm;
      ghost var pt1 := pt;
      spins := 1;
      if parent.right == elm {
        tmp := RotateLeftAt(parent, p.up, pt);
        pt1 := RotatedLeft(pt);
        mid, low, spins := elm, parent, 2;
        Out(p.up, pt1);
      }
      ghost var g1 := g.(left := pt1);
      PaintLeft(mid, Black, up, g1);
      ghost var g2 := g1.(left := pt1.(color := Black));
      Paint(gparent, Red, up, g2);
      tmp := RotateRightAt(gparent, up, g2.(color := Red));
      ghost var g3 := TiltedRight(pt1, gparent, ut);
      In(up, g3);
      return low, IntoLeft(up, g3), pt1.left, h, spins;
    }

    /** One round of the loop of RB_INSERT_COLOR when the parent is a right child. */
    method RaiseRight(elm: Entry, parent: Entry, gparent: Entry, ghost p: Path, ghost t: Shape, ghost h: nat)
      returns (next: Entry, ghost q: Path, ghost s: Shape, ghost k: nat, ghost spins: nat)
      requires RedAt(elm, p, t, h) && parent == Holder(p) && p.color.Red? && p.up.RightOf? && gparent == p.up.node
      modifies this`root, this`turns, repr
      ensures RedAt(next, q, s, k) && InOrder(Plug(q, s)) == InOrder(Plug(p, t))
      ensures Depth(q) < Depth(p) && spins <= 2
      ensures spins > 0 ==> !q.Top? && q.color.Black?
      ensures turns == old(turns) + spins
    {
      hide At, Rb, RbPath, InOrder, Plug, Depth;
      ghost var up, pt, ut := p.up.up, Around(p, t), p.up.left;
      ghost var g := Fork(ut, gparent, Black, pt);
      RedParent(p, t, h);
      There(p, t);
      Out(p, t);
      There(p.up, pt);
      Out(p.up, pt);
      var tmp := gparent.left;
      In(up, g);
      if ut.Fork? { Here(IntoLeft(up, g), ut); }
      if tmp != null && tmp.color == Red {
        RecolouredUp(p, t, h);
        PaintLeft(tmp, Black, up, g);
        ghost var g1 := g.(left := ut.(color := Black));
        PaintRight(parent, Black, up, g1);
        ghost var g2 := g1.(right := pt.(color := Black));
        Paint(gparent, Red, up, g2);
        return gparent, up, g2.(color := Red), h + 1, 0;
      }
      TiltedLeftUp(p, t, h);
      var mid, low := parent, elm;
      ghost var pt1 := pt;
      spins := 1;
      if parent.left == elm {
        tmp := RotateRightAt(parent, p.up, pt);
        pt1 := RotatedRight(pt);
        mid, low, spins := elm, parent, 2;
        Out(p.up, pt1);
      }
      ghost var g1 := g.(right := pt1);
      PaintRight(mid, Black, up, g1);
      ghost var g2 := g1.(right := pt1.(color := Black));
      Paint(gparent, Red, up, g2);
      tmp := RotateLeftAt(gparent, up, g2.(color := Red));
      ghost var g3 := TiltedLeft(pt1, gparent, ut);
      In(up, g3);
      return low, IntoRight(up, g3), pt1.right, h, spins;
    }

    lemma OutToTop(p: Path, t: Shape)
      requires At(p, t)
      ensures At(Top, Plug(p, t))
      decreases p
    {
      if !p.Top? {
        Out(p, t);
        OutToTop(p.up, Around(p, t));
      }
    }

    /** RB_INSERT_COLOR. */
    method InsertColor(start: Entry, ghost p0: Path, ghost t0: Shape, ghost h0: nat)
      returns (ghost s: Shape)
      requires RedAt(start, p0, t0, h0)
      modifies this`root, this`turns, repr
      ensures At(Top, s) && Balanced(s) && InOrder(s) == InOrder(Plug(p0, t0))
      ensures turns <= old(turns) + 2
    {
      hide At, Rb, RbPath, InOrder, Plug, Depth, Balanced;
      var elm := start;
      ghost var p, t, h := p0, t0, h0;
      ghost var spins: nat := 0;
      Here(p, t);
      if !p.Top? { There(p, t); }
      while elm.parent != null && elm.parent.color == Red
        invariant RedAt(elm, p, t, h) && InOrder(Plug(p, t)) == InOrder(Plug(p0, t0))
        invariant elm.parent == Holder(p) && elm in repr
        invariant elm.parent != null ==> elm.parent.color == p.color
        invariant turns == old(turns) + spins
        invariant spins <= 2 && (spins > 0 ==> !p.Top? && p.color.Black?)
        decreases Depth(p)
      {
        var parent := elm.parent;
        RedParent(p, t, h);
        There(p, t);
        Out(p, t);
        There(p.up, Around(p, t));
        var gparent := parent.parent;
        if parent == gparent.left {
          elm, p, t, h, spins := RaiseLeft(elm, parent, gparent, p, t, h);
        } else {
          elm, p, t, h, spins := RaiseRight(elm, parent, gparent, p, t, h);
        }
        Here(p, t);
        if !p.Top? { There(p, t); }
      }
      OutToTop(p, t);
      s := Plug(p, t);
      Finished(p, t, h);
      RootIs(s);
      Paint(root, Black, Top, s);
      s := s.(color := Black);
    }

    lemma RootIs(s: Shape)
      requires At(Top, s)
      ensures root == Root(s)
    {
    }

    lemma Finished(p: Path, t: Shape, h: nat)
      requires t.Fork? && Rb(t, h) && RbPath(p, h) && (!p.Top? ==> p.color.Black?)
      ensures var s := Plug(p, t);
        && s.Fork? && Balanced(s.(color := Black)) && InOrder(s.(color := Black)) == InOrder(s)
    {
      if p.Top? {
        RbHeight(t, h);
        RbOut(Top, t.(color := Black), if t.color.Red? then h + 1 else h);
      } else {
        RbOut(p, t, h);
        PlugRoot(p, t, t);
      }
    }

    /** RB_SET and the link from the parent. */
    method Hang(elm: Entry, parent: Entry?, comp: int, ghost p: Path)
      requires At(p, Leaf) && elm !in repr && parent == Holder(p)
      requires p.LeftOf? ==> comp < 0
      requires p.RightOf? ==> comp > 0
      modifies this`root, this`repr, Just(parent), elm
      ensures repr == old(repr) + {elm} && At(p, Fork(Leaf, elm, Red, Leaf))
    {
      hide Linked, LinkedPath, Nodes, Above, Tidy, TidyPath, Plug, Sits;
      ghost var m := Snap();
      HungSits(m, p, elm);
      elm.parent := parent;
      elm.left := null;
      elm.right := null;
      elm.color := Red;
      if parent != null {
        if comp < 0 {
          parent.left := elm;
        } else {
          parent.right := elm;
        }
      } else {
        root := elm;
      }
      repr := repr + {elm};
      PlugRoot(p, Leaf, Fork(Leaf, elm, Red, Leaf));
      assert Snap() == Hung(m, p, elm);
    }

    lemma Start(key: Pointer)
      requires Valid()
      ensures Plug(Top, shape) == shape && RbFit(Top, shape, BlackHeight(shape))
      ensures AllBelow(Before(Top), key) && AllAbove(After(Top), key)
      ensures root == Root(shape) && At(Top, shape) && Sorted(InOrder(shape)) && repr == Nodes(shape)
    {
    }

    /** RB_INSERT. An entry that is in the tree already is what the call gives back. */
    method Insert(elm: Entry) returns (found: Entry?, ghost at: nat, ghost visits: nat)
      requires Valid()
      modifies this, repr, elm
      ensures Valid()
      ensures elm in old(repr) ==> found == elm
      ensures found != null ==> found in old(Order()) && found.key == elm.key
      ensures found != null ==> shape == old(shape) && repr == old(repr) && Snap() == old(Snap()) && unchanged(elm)
      ensures found == null ==> forall x <- old(Order()) :: x.key != elm.key
      ensures found == null ==> repr == old(repr) + {elm}
      ensures found == null ==> at <= |old(Order())| && Order() == old(Order())[..at] + [elm] + old(Order())[at..]
      ensures visits <= Height(old(shape)) && turns <= old(turns) + 2
    {
      hide At, Rb, RbPath, RbFit, InOrder, Plug, Balanced, Nodes, Height, Sorted, AllBelow, AllAbove, Before, After;
      ghost var p, t, h := Top, shape, BlackHeight(shape);
      Start(elm.key);
      at, visits := 0, 0;
      var parent: Entry? := null;
      var comp := 0;
      var tmp := root;
      while tmp != null
        invariant At(p, t) && Plug(p, t) == shape && RbFit(p, t, h)
        invariant Sorted(InOrder(Plug(p, t)))
        invariant tmp == Root(t) && parent == Holder(p)
        invariant p.LeftOf? ==> comp < 0
        invariant p.RightOf? ==> comp > 0
        invariant AllBelow(Before(p), elm.key) && AllAbove(After(p), elm.key)
        invariant visits + Height(t) <= Height(shape)
        decreases t
        modifies {}
      {
        visits := visits + 1;
        parent := tmp;
        comp := Compare(elm.key, parent.key);
        Here(p, t);
        In(p, t);
        RbIn(p, t, h);
        Split(p, t, elm.key);
        Lower(t);
        if comp < 0 {
          tmp := tmp.left;
          h := Below(t, h);
          p, t := IntoLeft(p, t), t.left;
        } else if comp > 0 {
          tmp := tmp.right;
          h := Below(t, h);
          p, t := IntoRight(p, t), t.right;
        } else {
          Inside(p, t);
          KeyOnce(shape, elm, tmp);
          return tmp, 0, visits;
        }
      }
      Missing(p, elm);
      InOrderNodes(shape);
      HungRb(p, elm, h);
      if !p.Top? { There(p, Leaf); }
      Hang(elm, parent, comp, p);
      shape := InsertColor(elm, p, Fork(Leaf, elm, Red, Leaf), h);
      SameNodes(shape, Plug(p, Fork(Leaf, elm, Red, Leaf)));
      at := |Before(p)|;
      return null, at, visits;
    }

    // Removal

    ghost predicate ShortAt(p: Path, t: Shape, h: nat)
      reads this`root, this`repr, repr
    {
      At(p, t) && Deficit(p, t, h)
    }

    lemma Kids(p: Path, t: Shape)
      requires At(p, t) && t.Fork?
      ensures t.left.Fork? ==> t.left.node in repr && t.left.node.color == t.left.color
      ensures t.right.Fork? ==> t.right.node in repr && t.right.node.color == t.right.color
    {
      In(p, t);
      if t.left.Fork? { Here(IntoLeft(p, t), t.left); }
      if t.right.Fork? { Here(IntoRight(p, t), t.right); }
    }

    /** A red sibling: one rotation gives the deficient side a black sibling and a red parent. */
    method LiftLeft(parent: Entry, tmp: Entry, ghost p: Path, ghost t: Shape, ghost h: nat)
      returns (ghost q: Path)
      requires ShortAt(p, t, h) && BlackTop(t) && p.LeftOf? && parent == p.node
      requires p.right.Fork? && p.right.color.Red? && tmp == p.right.node
      modifies this`root, this`turns, repr
      ensures q == LiftedLeft(p) && ShortAt(q, t, h) && InOrder(Plug(q, t)) == InOrder(Plug(p, t))
      ensures BlackTop(q.right) && q.right.Fork?
      ensures turns == old(turns) + 1
    {
      hide At, Deficit, InOrder, Plug;
      LiftLeftFits(p, t, h);
      Out(p, t);
      ghost var g := Around(p, t);
      PaintRight(tmp, Black, p.up, g);
      ghost var g1 := g.(right := g.right.(color := Black));
      Paint(parent, Red, p.up, g1);
      ghost var g2 := g1.(color := Red);
      var turned := RotateLeftAt(parent, p.up, g2);
      In(p.up, RotatedLeft(g2));
      In(IntoLeft(p.up, RotatedLeft(g2)), RotatedLeft(g2).left);
      q := LiftedLeft(p);
    }

    /** A black sibling with a red child: the deficit ends with one or two rotations. */
    method CloseLeft(parent: Entry, sibling: Entry, ghost p: Path, ghost t: Shape, ghost h: nat)
      returns (ghost s: Shape, ghost spins: nat)
      requires ShortAt(p, t, h) && BlackTop(t) && p.LeftOf? && parent == p.node
      requires p.right.Fork? && p.right.color.Black? && sibling == p.right.node
      requires !BlackTop(p.right.left) || !BlackTop(p.right.right)
      modifies this`root, this`turns, repr
      ensures At(Top, s) && Balanced(s) && InOrder(s) == InOrder(Plug(p, t)) && spins <= 2
      ensures turns == old(turns) + spins
    {
      hide At, Deficit, InOrder, Plug, Balanced;
      CloseLeftFits(p, t, h);
      ghost var up, g, w := p.up, Around(p, t), p.right;
      There(p, t);
      Out(p, t);
      In(up, g);
      Here(IntoRight(up, g), w);
      Kids(IntoRight(up, g), w);
      spins := 1;
      var tmp := sibling;
      if tmp.right == null || tmp.right.color == Black {
        var oleft := tmp.left;
        if oleft != null {
          PaintLeft(oleft, Black, IntoRight(up, g), w);
        }
        w := w.(left := w.left.(color := Black));
        Paint(tmp, Red, IntoRight(up, g), w);
        w := w.(color := Red);
        oleft := RotateRightAt(tmp, IntoRight(up, g), w);
        w := RotatedRight(w);
        Out(IntoRight(up, g), w);
        g := g.(right := w);
        Here(up, g);
        tmp := parent.right;
        In(up, g);
        Here(IntoRight(up, g), w);
        spins := 2;
      }
      Here(up, g);
      Paint(tmp, parent.color, IntoRight(up, g), w);
      w := w.(color := p.color);
      Out(IntoRight(up, g), w);
      g := g.(right := w);
      Paint(parent, Black, up, g);
      g := g.(color := Black);
      In(up, g);
      Here(IntoRight(up, g), w);
      if tmp.right != null {
        PaintRight(tmp.right, Black, IntoRight(up, g), w);
      }
      w := w.(right := w.right.(color := Black));
      Out(IntoRight(up, g), w);
      g := g.(right := w);
      tmp := RotateLeftAt(parent, up, g);
      OutToTop(up, RotatedLeft(g));
      s := Plug(up, RotatedLeft(g));
    }

    /** A red sibling: one rotation gives the deficient side a black sibling and a red parent. */
    method LiftRight(parent: Entry, tmp: Entry, ghost p: Path, ghost t: Shape, ghost h: nat)
      returns (ghost q: Path)
      requires ShortAt(p, t, h) && BlackTop(t) && p.RightOf? && parent == p.node
      requires p.left.Fork? && p.left.color.Red? && tmp == p.left.node
      modifies this`root, this`turns, repr
      ensures q == LiftedRight(p) && ShortAt(q, t, h) && InOrder(Plug(q, t)) == InOrder(Plug(p, t))
      ensures BlackTop(q.left) && q.left.Fork?
      ensures turns == old(turns) + 1
    {
      hide At, Deficit, InOrder, Plug;
      LiftRightFits(p, t, h);
      Out(p, t);
      ghost var g := Around(p, t);
      PaintLeft(tmp, Black, p.up, g);
      ghost var g1 := g.(left := g.left.(color := Black));
      Paint(parent, Red, p.up, g1);
      ghost var g2 := g1.(color := Red);
      var turned := RotateRightAt(parent, p.up, g2);
      In(p.up, RotatedRight(g2));
      In(IntoRight(p.up, RotatedRight(g2)), RotatedRight(g2).right);
      q := LiftedRight(p);
    }

    /** A black sibling with a red child: the deficit ends with one or two rotations. */
    method CloseRight(parent: Entry, sibling: Entry, ghost p: Path, ghost t: Shape, ghost h: nat)
      returns (ghost s: Shape, ghost spins: nat)
      requires ShortAt(p, t, h) && BlackTop(t) && p.RightOf? && parent == p.node
      requires p.left.Fork? && p.left.color.Black? && sibling == p.left.node
      requires !BlackTop(p.left.right) || !BlackTop(p.left.left)
      modifies this`root, this`turns, repr
      ensures At(Top, s) && Balanced(s) && InOrder(s) == InOrder(Plug(p, t)) && spins <= 2
      ensures turns == old(turns) + spins
    {
      hide At, Deficit, InOrder, Plug, Balanced;
      CloseRightFits(p, t, h);
      ghost var up, g, w := p.up, Around(p, t), p.left;
      There(p, t);
      Out(p, t);
      In(up, g);
      Here(IntoLeft(up, g), w);
      Kids(IntoLeft(up, g), w);
      spins := 1;
      var tmp := sibling;
      if tmp.left == null || tmp.left.color == Black {
        var oright := tmp.right;
        if oright != null {
          PaintRight(oright, Black, IntoLeft(up, g), w);
        }
        w := w.(right := w.right.(color := Black));
        Paint(tmp, Red, IntoLeft(up, g), w);
        w := w.(color := Red);
        oright := RotateLeftAt(tmp, IntoLeft(up, g), w);
        w := RotatedLeft(w);
        Out(IntoLeft(up, g), w);
        g := g.(left := w);
        Here(up, g);
        tmp := parent.left;
        In(up, g);
        Here(IntoLeft(up, g), w);
        spins := 2;
      }
      Here(up, g);
      Paint(tmp, parent.color, IntoLeft(up, g), w);
      w := w.(color := p.color);
      Out(IntoLeft(up, g), w);
      g := g.(left := w);
      Paint(parent, Black, up, g);
      g := g.(color := Black);
      In(up, g);
      Here(IntoLeft(up, g), w);
      if tmp.left != null {
        PaintLeft(tmp.left, Black, IntoLeft(up, g), w);
      }
      w := w.(left := w.left.(color := Black));
      Out(IntoLeft(up, g), w);
      g := g.(left := w);
      tmp := RotateRightAt(parent, up, g);
      OutToTop(up, RotatedRight(g));
      s := Plug(up, RotatedRight(g));
    }

    lemma Standing(p: Path, t: Shape)
      requires At(p, t)
      ensures p.Top? <==> Root(t) == root
      ensures t.Fork? ==> t.node in repr && t.node.color == t.color
    {
      if t.Fork? { Here(p, t); }
      if !p.Top? {
        PlugRoot(p, t, t);
        RootAbove(p, t);
      }
    }

    /** The sibling of a deficient hole is there; what the heap says about it and its children. */
    lemma Sides(p: Path, t: Shape, h: nat)
      requires ShortAt(p, t, h) && !p.Top?
      ensures var w := Sibling(p);
        && w.Fork? && w.node in repr && w.node.color == w.color
        && w.node.left == Root(w.left) && w.node.right == Root(w.right)
        && (w.left.Fork? ==> w.left.node in repr && w.left.node.color == w.left.color)
        && (w.right.Fork? ==> w.right.node in repr && w.right.node.color == w.right.color)
    {
      hide At;
      Out(p, t);
      var g := Around(p, t);
      In(p.up, g);
      var q := if p.LeftOf? then IntoRight(p.up, g) else IntoLeft(p.up, g);
      assert Rb(Sibling(p), h + 1);
      Here(q, Sibling(p));
      Kids(q, Sibling(p));
    }

    /** One round of the loop of RB_REMOVE_COLOR on a left child; `done` stands for the break. */
    method MendLeft(elm: Entry?, parent: Entry, ghost p: Path, ghost t: Shape, ghost h: nat)
      returns (next: Entry?, up: Entry?, done: bool, ghost q: Path, ghost s: Shape, ghost k: nat, ghost spins: nat)
      requires ShortAt(p, t, h) && BlackTop(t) && p.LeftOf? && elm == Root(t) && parent == p.node
      modifies this`root, this`turns, repr
      ensures ShortAt(q, s, k) && next == Root(s) && up == Holder(q)
      ensures InOrder(Plug(q, s)) == InOrder(Plug(p, t))
      ensures if done then q.Top? else BlackTop(s) ==> Depth(q) < Depth(p)
      ensures spins <= 3 && (spins > 0 ==> q.Top? || !BlackTop(s))
      ensures turns == old(turns) + spins
    {
      hide At, Deficit, InOrder, Plug, Balanced, Depth;
      q, spins := p, 0;
      There(p, t);
      var tmp := parent.right;
      Sides(p, t, h);
      if tmp.color == Red {
        q := LiftLeft(parent, tmp, p, t, h);
        spins := 1;
        There(q, t);
        tmp := parent.right;
        Sides(q, t, h);
      }
      if (tmp.left == null || tmp.left.color == Black) && (tmp.right == null || tmp.right.color == Black) {
        FadeLeftFits(q, t, h);
        Out(q, t);
        ghost var g := Around(q, t);
        PaintRight(tmp, Red, q.up, g);
        s := g.(right := g.right.(color := Red));
        k := if q.color.Black? then h + 1 else h;
        q := q.up;
        Here(q, s);
        return parent, parent.parent, false, q, s, k, spins;
      }
      ghost var more;
      s, more := CloseLeft(parent, tmp, q, t, h);
      BalancedShort(s);
      RootIs(s);
      return root, null, true, Top, s, BlackHeight(s), spins + more;
    }

    /** One round of the loop of RB_REMOVE_COLOR on a right child; `done` stands for the break. */
    method MendRight(elm: Entry?, parent: Entry, ghost p: Path, ghost t: Shape, ghost h: nat)
      returns (next: Entry?, up: Entry?, done: bool, ghost q: Path, ghost s: Shape, ghost k: nat, ghost spins: nat)
      requires ShortAt(p, t, h) && BlackTop(t) && p.RightOf? && elm == Root(t) && parent == p.node
      modifies this`root, this`turns, repr
      ensures ShortAt(q, s, k) && next == Root(s) && up == Holder(q)
      ensures InOrder(Plug(q, s)) == InOrder(Plug(p, t))
      ensures if done then q.Top? else BlackTop(s) ==> Depth(q) < Depth(p)
      ensures spins <= 3 && (spins > 0 ==> q.Top? || !BlackTop(s))
      ensures turns == old(turns) + spins
    {
      hide At, Deficit, InOrder, Plug, Balanced, Depth;
      q, spins := p, 0;
      There(p, t);
      var tmp := parent.left;
      Sides(p, t, h);
      if tmp.color == Red {
        q := LiftRight(parent, tmp, p, t, h);
        spins := 1;
        There(q, t);
        tmp := parent.left;
        Sides(q, t, h);
      }
      if (tmp.left == null || tmp.left.color == Black) && (tmp.right == null || tmp.right.color == Black) {
        FadeRightFits(q, t, h);
        Out(q, t);
        ghost var g := Around(q, t);
        PaintLeft(tmp, Red, q.up, g);
        s := g.(left := g.left.(color := Red));
        k := if q.color.Black? then h + 1 else h;
        q := q.up;
        Here(q, s);
        return parent, parent.parent, false, q, s, k, spins;
      }
      ghost var more;
      s, more := CloseRight(parent, tmp, q, t, h);
      BalancedShort(s);
      RootIs(s);
      return root, null, true, Top, s, BlackHeight(s), spins + more;
    }

    /** RB_REMOVE_COLOR. */
    method RemoveColor(parent0: Entry?, elm0: Entry?, ghost p0: Path, ghost t0: Shape, ghost h0: nat)
      returns (ghost s: Shape)
      requires ShortAt(p0, t0, h0) && elm0 == Root(t0) && parent0 == Holder(p0)
      modifies this`root, this`turns, repr
      ensures At(Top, s) && Balanced(s) && InOrder(s) == InOrder(Plug(p0, t0))
      ensures turns <= old(turns) + 3
    {
      hide At, Deficit, InOrder, Plug, Balanced, Depth;
      var parent, elm := parent0, elm0;
      ghost var p, t, h := p0, t0, h0;
      ghost var spins: nat := 0;
      Standing(p, t);
      while (elm == null || elm.color == Black) && elm != root
        invariant ShortAt(p, t, h) && elm == Root(t) && parent == Holder(p)
        invariant InOrder(Plug(p, t)) == InOrder(Plug(p0, t0))
        invariant elm != null ==> elm in repr && elm.color == t.color
        invariant p.Top? <==> elm == root
        invariant turns == old(turns) + spins
        invariant spins <= 3 && (spins > 0 ==> p.Top? || !BlackTop(t))
        decreases if BlackTop(t) then 1 else 0, Depth(p)
      {
        There(p, t);
        Sides(p, t, h);
        var done;
        if parent.left == elm {
          elm, parent, done, p, t, h, spins := MendLeft(elm, parent, p, t, h);
        } else {
          elm, parent, done, p, t, h, spins := MendRight(elm, parent, p, t, h);
        }
        Standing(p, t);
        if done {
          break;
        }
      }
      DeficitEnds(p, t, h);
      if elm != null {
        Paint(elm, Black, p, t);
      }
      OutToTop(p, Dark(t));
      s := Plug(p, Dark(t));
      DarkInOrder(p, t);
    }

    lemma OutOf(i: Path, o: Path, t: Shape)
      requires At(Join(i, o), t)
      ensures At(o, Plug(i, t))
      decreases i
    {
      if !i.Top? {
        Out(Join(i, o), t);
        OutOf(i.up, o, Around(i, t));
      }
    }

    lemma InTo(i: Path, o: Path, t: Shape)
      requires At(o, Plug(i, t))
      ensures At(Join(i, o), t)
      decreases i
    {
      if !i.Top? {
        InTo(i.up, o, Around(i, t));
        In(Join(i.up, o), Around(i, t));
      }
    }

    /** `elm`, which has at most one child, makes way for it. */
    method Unlink(elm: Entry, child: Entry?, parent: Entry?, ghost p: Path, ghost t: Shape)
      requires At(p, t) && t.Fork? && t.node == elm && (t.left.Leaf? || t.right.Leaf?)
      requires child == Root(OnlyChild(t)) && parent == Holder(p)
      modifies this`root, this`repr, repr - {elm}
      ensures repr == old(repr) - {elm} && At(p, OnlyChild(t))
    {
      hide Linked, LinkedPath, Nodes, Above, Tidy, TidyPath, Plug, Sits;
      ghost var m := Snap();
      UnlinkedSits(m, p, t);
      if child != null {
        child.parent := parent;
      }
      assert Snap() == Reparented(m, child, parent);
      Replace(parent, elm, child);
      repr := repr - {elm};
      assert Snap() == Unlinked(m, p, t);
      PlugRoot(p, t, OnlyChild(t));
    }

    /** `next` takes over the whole link record of `elm`, and the links that led to `elm`. */
    method Supplant(elm: Entry, next: Entry, ghost p: Path, ghost t: Shape)
      requires At(p, t) && t.Fork? && t.node == elm && t.left.Fork? && next !in repr
      modifies this`root, this`repr, repr - {elm}, next
      ensures repr == old(repr) - {elm} + {next} && At(p, t.(node := next))
    {
      hide Linked, LinkedPath, Nodes, Above, Tidy, TidyPath, Plug, Sits;
      ghost var m := Snap();
      AroundFork(m, p, t);
      StoodInSits(m, p, t, next);
      CopyLinks(elm, next);
      repr := repr - {elm} + {next};
      assert Snap() == StoodIn(m, Holder(p), elm, Root(t.left), Root(t.right), next);
      PlugRoot(p, t, t.(node := next));
    }

    /** The field-by-field effect of the splice in RB_REMOVE. */
    method CopyLinks(elm: Entry, next: Entry)
      requires elm.left != null && Just(elm.left) !! Just(elm.right)
      requires Just(elm.parent) !! Just(elm.left) + Just(elm.right)
      requires {elm, next} !! Just(elm.left) + Just(elm.right) + Just(elm.parent) && elm != next
      modifies this`root, next`left, next`right, next`parent, next`color
      modifies elm.left`parent, Just(elm.right)`parent, Just(elm.parent)`left, Just(elm.parent)`right
      ensures next.left == elm.left && next.right == elm.right && next.parent == elm.parent && next.color == elm.color
      ensures elm.left.parent == next && (elm.right != null ==> elm.right.parent == next)
      ensures root == if elm.parent == null then next else old(root)
      ensures elm.parent != null ==>
        if old(elm.parent.left) == elm
        then elm.parent.left == next && elm.parent.right == old(elm.parent.right)
        else elm.parent.right == next && elm.parent.left == old(elm.parent.left)
    {
      next.left, next.right, next.parent, next.color := elm.left, elm.right, elm.parent, elm.color;
      if elm.parent != null {
        if elm.parent.left == elm {
          elm.parent.left := next;
        } else {
          elm.parent.right := next;
        }
      } else {
        root := next;
      }
      elm.left.parent := next;
      if elm.right != null {
        elm.right.parent := next;
      }
    }

    /** The leftmost entry below the right child: the loop of RB_REMOVE that finds the successor. */
    method Successor(start: Entry, ghost o: Path, ghost t: Shape) returns (elm: Entry, ghost i: Path, ghost u: Shape)
      requires At(o, t) && t.Fork? && start == t.node
      ensures At(Join(i, o), u) && u.Fork? && u.node == elm && u.left.Leaf?
      ensures Plug(i, u) == t && InOrder(t) == [elm] + InOrder(Plug(i, OnlyChild(u)))
    {
      hide At, InOrder, Plug, Join;
      elm, i, u := start, Top, t;
      JoinTop(o, t);
      Here(o, t);
      while elm.left != null
        invariant At(Join(i, o), u) && u.Fork? && u.node == elm && elm.left == Root(u.left)
        invariant Plug(i, u) == t && Leftmost(i)
        decreases u
      {
        In(Join(i, o), u);
        JoinIn(i, o, u);
        elm := elm.left;
        i, u := IntoLeft(i, u), u.left;
        Here(Join(i, o), u);
      }
      LeftmostFirst(i, u);
    }

    lemma InToTop(p: Path, t: Shape)
      requires At(Top, Plug(p, t))
      ensures At(p, t)
      decreases p
    {
      if !p.Top? {
        InToTop(p.up, Around(p, t));
        In(p.up, Around(p, t));
      }
    }

    /** What both ways of taking an entry out leave for the colour fix-up. */
    ghost predicate Loose(p: Path, t: Shape, k: nat, color: Color)
      reads this`root, this`repr, repr
    {
      At(p, t) && if color.Red? then RbFit(p, t, k) else Deficit(p, t, k)
    }

    /** RB_REMOVE of an entry with at most one child. */
    method TakeOut(elm: Entry, ghost p: Path, ghost t: Shape, ghost h: nat)
      returns (child: Entry?, parent: Entry?, color: Color, ghost kid: Shape, ghost k: nat)
      requires At(p, t) && RbFit(p, t, h) && t.Fork? && t.node == elm && (t.left.Leaf? || t.right.Leaf?)
      modifies this`root, this`repr, repr
      ensures repr == old(repr) - {elm} && Loose(p, kid, k, color)
      ensures child == Root(kid) && parent == Holder(p)
      ensures InOrder(Plug(p, kid)) == Without(InOrder(Plug(p, t)), Place(p, t))
    {
      hide At, InOrder, Plug, RbFit, Deficit, Place;
      Here(p, t);
      child := if elm.left == null then elm.right else elm.left;
      parent := elm.parent;
      color := elm.color;
      kid := OnlyChild(t);
      UnlinkFits(p, t, h);
      OnlyChildInOrder(p, t);
      Unlink(elm, child, parent, p, t);
      k := if color.Red? then h else h - 1;
    }

    /** RB_REMOVE of an entry with two children: its successor is unlinked and takes its place. */
    method Splice(old_: Entry, ghost p: Path, ghost t: Shape, ghost h: nat)
      returns (child: Entry?, parent: Entry?, color: Color, ghost q: Path, ghost kid: Shape, ghost k: nat)
      requires At(p, t) && RbFit(p, t, h) && t.Fork? && t.node == old_ && t.left.Fork? && t.right.Fork?
      modifies this`root, this`repr, repr
      ensures repr == old(repr) - {old_} && Loose(q, kid, k, color)
      ensures child == Root(kid) && parent == Holder(q)
      ensures InOrder(Plug(q, kid)) == Without(InOrder(Plug(p, t)), Place(p, t))
    {
      hide At, InOrder, Plug, RbFit, Deficit, Place, Join, BlackHeight;
      ghost var i, u, o := Top, t, IntoRight(p, t);
      Here(p, t);
      In(p, t);
      var elm;
      elm, i, u := Successor(old_.right, o, t.right);
      Here(Join(i, o), u);
      child := elm.right;
      parent := elm.parent;
      color := elm.color;
      kid := OnlyChild(u);
      k := SpliceFits(p, t, h, i, u);
      JoinHolder(i, o);
      TidyJoin(i, o, u);
      Unlink(elm, child, parent, Join(i, o), u);
      OutOf(i, o, kid);
      Out(o, Plug(i, kid));
      if elm.parent == old_ {
        parent := elm;
      }
      ghost var t1 := t.(right := Plug(i, kid));
      Supplant(old_, elm, p, t1);
      ghost var t2 := t1.(node := elm);
      In(p, t2);
      InTo(i, IntoRight(p, t2), kid);
      q := Join(i, IntoRight(p, t2));
      SpliceInOrder(p, t, i, u);
      JoinHolder(i, IntoRight(p, t2));
    }

    lemma TidyJoin(i: Path, o: Path, t: Shape)
      requires At(Join(i, o), t) && !o.Top?
      ensures !i.Top? ==> i.node != o.node
      ensures t.Fork? ==> t.node != o.node
    {
      JoinAbove(i, o);
      if !i.Top? { JoinAbove(i.up, o); }
    }

    /** RB_REMOVE. */
    method Remove(elm: Entry) returns (removed: Entry, ghost at: nat)
      requires Valid() && elm in repr
      modifies this, repr
      ensures Valid() && removed == elm && repr == old(repr) - {elm}
      ensures at < |old(Order())| && old(Order())[at] == elm
      ensures Order() == Without(old(Order()), at)
      ensures turns <= old(turns) + 3
    {
      hide At, InOrder, Plug, RbFit, Deficit, Balanced, Nodes, Sorted, Place;
      ghost var p, t := Locate(Top, shape, elm);
      Start(0);
      PlugTop(shape);
      InToTop(p, t);
      RbInto(p, t);
      Here(p, t);
      PlaceIs(p, t);
      at := Place(p, t);
      ghost var h, q, kid, k := BlackHeight(t), p, t, 0;
      var child, parent, color;
      if elm.left == null || elm.right == null {
        child, parent, color, kid, k := TakeOut(elm, p, t, h);
      } else {
        child, parent, color, q, kid, k := Splice(elm, p, t, h);
      }
      ghost var order := InOrder(Plug(q, kid));
      if color == Black {
        shape := RemoveColor(parent, child, q, kid, k);
      } else {
        OutToTop(q, kid);
        RbOut(q, kid, k);
        shape := Plug(q, kid);
      }
      WithoutSorted(old(Order()), at);
      InOrderNodes(shape);
      InOrderNodes(old(shape));
      return elm, at;
    }

    // Searching and iterating

    /** RB_FIND. */
    method Find(key: Pointer) returns (found: Entry?, ghost visits: nat)
      requires Valid()
      ensures found != null ==> found in Order() && found.key == key
      ensures found == null ==> forall x <- Order() :: x.key != key
      ensures visits <= Height(shape)
    {
      hide At, InOrder, Plug, Before, After, Nodes, Sorted, Height, AllBelow, AllAbove, Balanced;
      ghost var p, t := Top, shape;
      Start(key);
      visits := 0;
      var tmp := root;
      while tmp != null
        invariant At(p, t) && Plug(p, t) == shape && Sorted(InOrder(Plug(p, t))) && tmp == Root(t)
        invariant AllBelow(Before(p), key) && AllAbove(After(p), key)
        invariant visits + Height(t) <= Height(shape)
        decreases t
      {
        visits := visits + 1;
        var comp := Compare(key, tmp.key);
        Here(p, t);
        In(p, t);
        Split(p, t, key);
        Lower(t);
        if comp < 0 {
          tmp := tmp.left;
          p, t := IntoLeft(p, t), t.left;
        } else if comp > 0 {
          tmp := tmp.right;
          p, t := IntoRight(p, t), t.right;
        } else {
          Inside(p, t);
          return tmp, visits;
        }
      }
      Absent(p, key);
      return null, visits;
    }

    /** RB_NFIND: the first entry whose key is not below `key`. */
    method NFind(key: Pointer) returns (res: Entry?, ghost visits: nat)
      requires Valid()
      ensures res == null ==> forall x <- Order() :: x.key < key
      ensures res != null ==> res in Order() && key <= res.key && forall x <- Order() :: x.key < key || res.key <= x.key
      ensures visits <= Height(shape)
    {
      hide At, InOrder, Plug, Before, After, Nodes, Sorted, Height, AllBelow, AllAbove, Balanced;
      ghost var p, t := Top, shape;
      Start(key);
      visits, res := 0, null;
      AfterHead(Top);
      var tmp := root;
      while tmp != null
        invariant At(p, t) && Plug(p, t) == shape && Sorted(InOrder(Plug(p, t))) && tmp == Root(t)
        invariant AllBelow(Before(p), key) && AllAbove(After(p), key)
        invariant res == First(After(p))
        invariant visits + Height(t) <= Height(shape)
        decreases t
      {
        visits := visits + 1;
        var comp := Compare(key, tmp.key);
        Here(p, t);
        In(p, t);
        Split(p, t, key);
        Lower(t);
        if comp < 0 {
          res := tmp;
          tmp := tmp.left;
          p, t := IntoLeft(p, t), t.left;
          AfterHead(p);
        } else if comp > 0 {
          tmp := tmp.right;
          p, t := IntoRight(p, t), t.right;
        } else {
          LeastAbove(p, t, key);
          return tmp, visits;
        }
      }
      FirstAbove(p, key);
    }

    /** RB_MINMAX. */
    method MinMax(val: int) returns (parent: Entry?, ghost visits: nat)
      requires Valid()
      ensures parent == if val < 0 then First(Order()) else Last(Order())
      ensures visits <= Height(shape)
    {
      hide At, InOrder, Plug, Before, After, Nodes, Sorted, Height, Balanced;
      ghost var p, t := Top, shape;
      Start(0);
      visits := 0;
      parent := null;
      AtEnds(Top);
      var tmp := root;
      while tmp != null
        invariant At(p, t) && Plug(p, t) == shape && tmp == Root(t) && parent == Holder(p)
        invariant if val < 0 then Before(p) == [] && parent == First(After(p))
                  else After(p) == [] && parent == Last(Before(p))
        invariant visits + Height(t) <= Height(shape)
        decreases t
      {
        visits := visits + 1;
        parent := tmp;
        Here(p, t);
        In(p, t);
        PlugIn(p, t);
        Lower(t);
        if val < 0 {
          tmp := tmp.left;
          p, t := IntoLeft(p, t), t.left;
        } else {
          tmp := tmp.right;
          p, t := IntoRight(p, t), t.right;
        }
        AtEnds(p);
      }
      LeafInOrder(p);
    }

    /** The position of the entry at index `at` of the order. */
    lemma Focus(elm: Entry, at: nat) returns (p: Path, t: Shape)
      requires Valid() && at < |Order()| && Order()[at] == elm
      ensures At(p, t) && t.Fork? && t.node == elm && Plug(p, t) == shape && Place(p, t) == at
    {
      hide At, Balanced;
      InOrderNodes(shape);
      p, t := Locate(Top, shape, elm);
      InToTop(p, t);
      PlaceIs(p, t);
    }

    /** RB_NEXT. */
    method Next(start: Entry, ghost at: nat) returns (elm: Entry?)
      requires Valid() && at < |Order()| && Order()[at] == start
      ensures elm == if at + 1 < |Order()| then Order()[at + 1] else null
    {
      hide At, InOrder, Plug, Before, After, Nodes, Sorted, Place;
      ghost var p, t := Focus(start, at);
      Here(p, t);
      Counts(p, t);
      elm := start;
      if elm.right != null {
        In(p, t);
        PlugIn(p, t);
        elm := elm.right;
        p, t := IntoRight(p, t), t.right;
        Here(p, t);
        while elm.left != null
          invariant At(p, t) && t.Fork? && t.node == elm && elm.left == Root(t.left)
          invariant Plug(p, t) == shape && |Before(p)| == at + 1
          decreases t
        {
          In(p, t);
          PlugIn(p, t);
          Counts(p, t);
          elm := elm.left;
          p, t := IntoLeft(p, t), t.left;
          Here(p, t);
        }
        Counts(p, t);
        PlaceIs(p, t);
      } else {
        if !p.Top? { There(p, t); }
        if elm.parent != null && elm == elm.parent.left {
          elm := elm.parent;
        } else {
          while elm.parent != null && elm == elm.parent.right
            invariant At(p, t) && t.Fork? && t.node == elm && elm.parent == Holder(p)
            invariant Plug(p, t) == shape && |Before(p)| + |InOrder(t)| == at + 1
            decreases p
          {
            There(p, t);
            Out(p, t);
            CountsUp(p, t);
            p, t := p.up, Around(p, t);
            elm := elm.parent;
            Here(p, t);
          }
          if !p.Top? { There(p, t); }
          elm := elm.parent;
        }
        CountsUp(p, t);
      }
    }

    /** RB_PREV. */
    method Prev(start: Entry, ghost at: nat) returns (elm: Entry?)
      requires Valid() && at < |Order()| && Order()[at] == start
      ensures elm == if at > 0 then Order()[at - 1] else null
    {
      hide At, InOrder, Plug, Before, After, Nodes, Sorted, Place;
      ghost var p, t := Focus(start, at);
      Here(p, t);
      Counts(p, t);
      elm := start;
      if elm.left != null {
        In(p, t);
        PlugIn(p, t);
        elm := elm.left;
        p, t := IntoLeft(p, t), t.left;
        Here(p, t);
        while elm.right != null
          invariant At(p, t) && t.Fork? && t.node == elm && elm.right == Root(t.right)
          invariant Plug(p, t) == shape && |Before(p)| + |InOrder(t)| == at
          decreases t
        {
          In(p, t);
          PlugIn(p, t);
          Counts(p, t);
          elm := elm.right;
          p, t := IntoRight(p, t), t.right;
          Here(p, t);
        }
        Counts(p, t);
        PlaceIs(p, t);
      } else {
        if !p.Top? { There(p, t); }
        if elm.parent != null && elm == elm.parent.right {
          elm := elm.parent;
        } else {
          while elm.parent != null && elm == elm.parent.left
            invariant At(p, t) && t.Fork? && t.node == elm && elm.parent == Holder(p)
            invariant Plug(p, t) == shape && |Before(p)| == at
            decreases p
          {
            There(p, t);
            Out(p, t);
            CountsUp(p, t);
            p, t := p.up, Around(p, t);
            elm := elm.parent;
            Here(p, t);
          }
          if !p.Top? { There(p, t); }
          elm := elm.parent;
        }
        CountsUp(p, t);
      }
    }

    // What a valid tree looks like to someone who only follows links

    /** Child and parent links agree, the root is black and no red entry has a red child. */
    lemma LinksAgree(x: Entry)
      requires Valid() && x in repr
      ensures x.left != null ==> x.left in repr && x.left.parent == x
      ensures x.right != null ==> x.right in repr && x.right.parent == x
      ensures x.parent == null <==> x == root
      ensures x.parent != null ==> x.parent in repr && (x.parent.left == x <==> x.parent.right != x)
      ensures x == root ==> x.color == Black
      ensures x.color == Red ==>
        (x.left != null ==> x.left.color == Black) && (x.right != null ==> x.right.color == Black)
    {
      hide Sorted, At, Balanced, Plug, RbFit;
      var p, t := Locate(Top, shape, x);
      PlugTop(shape);
      Start(0);
      InToTop(p, t);
      RbInto(p, t);
      Here(p, t);
      Colours(p, t);
      In(p, t);
      if t.left.Fork? {
        Here(IntoLeft(p, t), t.left);
      }
      if t.right.Fork? {
        Here(IntoRight(p, t), t.right);
      }
      if !p.Top? {
        There(p, t);
        NotRoot(p, t);
      } else {
        PlugTop(t);
      }
    }

    lemma NotRoot(p: Path, t: Shape)
      requires At(p, t) && t.Fork? && !p.Top?
      ensures root != t.node
    {
      RootAbove(p, t);
    }

    lemma Colours(p: Path, t: Shape)
      requires t.Fork? && RbFit(p, t, BlackHeight(t))
      ensures p.Top? ==> t.color.Black?
      ensures t.color.Red? ==> BlackTop(t.left) && BlackTop(t.right)
    {
    }

    /** The header's promise: a search looks at no more than 2 lg (n + 1) entries. */
    lemma SearchBound(visits: nat)
      requires Valid() && visits <= Height(shape)
      ensures Pow2(visits) <= (|Order()| + 1) * (|Order()| + 1)
    {
      HeightBound(shape);
      Pow2Grows(visits, Height(shape));
    }
  }
}
