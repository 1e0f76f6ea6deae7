/** The top-down splay tree: the loop that takes the tree apart on the way down and assembles it again
    around the entry nearest to the key, and insertion, removal and search by it. */
module SplayTree {
  import RB = RedBlackShape
  import RO = RedBlackOrder
  import opened SplayShape

  ghost function Links(all: set<Node>): (m: Pairs)
    reads all
    ensures m.Keys == all
  {
    map x | x in all :: Pair(x.left, x.right)
  }

  ghost predicate Ascending(s: seq<Node>) {
    forall i, j :: 0 <= i < j < |s| ==> s[i].key < s[j].key
  }

  ghost predicate Below(s: seq<Node>, key: RB.Pointer) {
    forall z <- s :: z.key < key
  }

  ghost predicate Above(s: seq<Node>, key: RB.Pointer) {
    forall z <- s :: key < z.key
  }

  /** The root holds the key, or is the entry just above it or just below it in order. */
  ghost predicate Nearest(t: Bush, key: RB.Pointer) {
    && t.Twig?
    && (key < t.node.key ==> Below(InOrder(t.left), key))
    && (t.node.key < key ==> Above(InOrder(t.right), key))
  }

  ghost function Weight(t: Bush): nat {
    match t
    case Bare => 0
    case Twig(l, _, r) => Weight(l) + 1 + Weight(r)
  }

  /** What the order says around the root of a split. */
  lemma AroundRoot(a: Chain, t: Bush, b: Chain)
    requires t.Twig? && Ascending(Whole(a, t, b))
    ensures Below(InOrder(t.left), t.node.key) && Above(InOrder(t.right), t.node.key)
    ensures Below(InLeft(a), t.node.key) && Above(InRight(b), t.node.key)
  {
    var (p, q) := (InLeft(a) + InOrder(t.left), InOrder(t.right) + InRight(b));
    WholeAround(a, t, b);
    hide Whole, InOrder, InLeft, InRight, Ascending, Below, Above;
    Pivot(p, t.node, q);
    Parts(InLeft(a), InOrder(t.left), t.node.key);
    Parts(InOrder(t.right), InRight(b), t.node.key);
  }

  lemma WholeAround(a: Chain, t: Bush, b: Chain)
    requires t.Twig?
    ensures Whole(a, t, b) == (InLeft(a) + InOrder(t.left)) + [t.node] + (InOrder(t.right) + InRight(b))
  {
    assert InOrder(t) == InOrder(t.left) + [t.node] + InOrder(t.right);
    hide InOrder, InLeft, InRight;
  }

  lemma Parts(p: seq<Node>, q: seq<Node>, key: RB.Pointer)
    ensures Below(p + q, key) ==> Below(p, key) && Below(q, key)
    ensures Above(p + q, key) ==> Above(p, key) && Above(q, key)
  {
    assert forall z <- p :: z in p + q;
    assert forall z <- q :: z in p + q;
  }

  lemma Pivot(p: seq<Node>, x: Node, q: seq<Node>)
    requires Ascending(p + [x] + q)
    ensures Below(p, x.key) && Above(q, x.key)
  {
    var s := p + [x] + q;
    forall z | z in p ensures z.key < x.key {
      var i :| 0 <= i < |p| && p[i] == z;
      assert s[i] == z && s[|p|] == x;
    }
    forall z | z in q ensures x.key < z.key {
      var i :| 0 <= i < |q| && q[i] == z;
      assert s[|p| + 1 + i] == z && s[|p|] == x;
    }
  }

  class SplayTree {
    var root: Node?
    ghost var shape: Bush
    ghost var repr: set<Node>

    ghost predicate Valid()
      reads this, repr
    {
      && root == Top(shape) && repr == Of(shape) && Neat(shape) && Spells(Links(repr), shape)
      && Ascending(InOrder(shape))
    }

    ghost function Order(): seq<Node>
      reads this
    {
      InOrder(shape)
    }

    /** SPLAY_INIT */
    constructor ()
      ensures Valid() && shape == Bare
    {
      root, shape, repr := null, Bare, {};
    }

    /** A splay under way: `d` is the local node, `all` every node that takes part. */
    ghost predicate At(d: Node, all: set<Node>, a: Chain, t: Bush, b: Chain)
      reads this`root, all
    {
      && d in all && all == OfChain(a) + Of(t) + OfChain(b) + {d}
      && root == Top(t) && Splits(Links(all), d, a, t, b)
    }

    lemma Seen(d: Node, all: set<Node>, a: Chain, t: Bush, b: Chain)
      requires At(d, all, a, t, b) && t.Twig?
      ensures root == t.node && root in all && root.left == Top(t.left) && root.right == Top(t.right)
      ensures t.left.Twig? ==>
        t.left.node in all - {root} && t.left.node.left == Top(t.left.left)
        && t.left.node.right == Top(t.left.right)
      ensures t.right.Twig? ==>
        t.right.node in all - {root} && t.right.node.left == Top(t.right.left)
        && t.right.node.right == Top(t.right.right)
    {
      hide Splits;
      Inner(Links(all), d, a, t, b);
    }

    /** SPLAY_ROTATE_RIGHT */
    method RotateRight(tmp: Node, ghost d: Node, ghost all: set<Node>, ghost a: Chain, ghost t: Bush, ghost b: Chain)
      requires At(d, all, a, t, b) && t.Twig? && t.left.Twig? && tmp == t.left.node
      modifies this`root, all
      ensures At(d, all, a, TurnedRight(t), b)
    {
      hide Splits;
      ghost var m := Links(all);
      Seen(d, all, a, t, b);
      TurnRightSplits(m, d, a, t, b);
      TurnedRightInOrder(t);
      TurnRight(tmp, all);
    }

    /** SPLAY_ROTATE_LEFT */
    method RotateLeft(tmp: Node, ghost d: Node, ghost all: set<Node>, ghost a: Chain, ghost t: Bush, ghost b: Chain)
      requires At(d, all, a, t, b) && t.Twig? && t.right.Twig? && tmp == t.right.node
      modifies this`root, all
      ensures At(d, all, a, TurnedLeft(t), b)
    {
      hide Splits;
      ghost var m := Links(all);
      Seen(d, all, a, t, b);
      TurnLeftSplits(m, d, a, t, b);
      TurnedLeftInOrder(t);
      TurnLeft(tmp, all);
    }

    method TurnRight(tmp: Node, ghost all: set<Node>)
      requires root != null && root in all && tmp in all - {root}
      modifies this`root, all
      ensures root == tmp
      ensures Links(all) == old(Links(all))
        [old(root) := Pair(old(tmp.right), old(root.right))][tmp := Pair(old(tmp.left), old(root))]
    {
      root.left := tmp.right;
      tmp.right := root;
      root := tmp;
    }

    /** SPLAY_LINKLEFT: the root joins the right tree. */
    method LinkLeft(right: Node, ghost d: Node, ghost all: set<Node>, ghost a: Chain, ghost t: Bush, ghost b: Chain)
      returns (now: Node)
      requires At(d, all, a, t, b) && t.Twig? && right == Tip(b, d)
      modifies this`root, all
      ensures At(d, all, a, t.left, Link(b, t.node, t.right)) && now == t.node
    {
      hide Splits;
      ghost var m := Links(all);
      Seen(d, all, a, t, b);
      LinkLeftSplits(m, d, a, t, b);
      NotTip(m, d, a, t, b);
      now := root;
      PassLeft(right, all);
    }

    method TurnLeft(tmp: Node, ghost all: set<Node>)
      requires root != null && root in all && tmp in all - {root}
      modifies this`root, all
      ensures root == tmp
      ensures Links(all) == old(Links(all))
        [old(root) := Pair(old(root.left), old(tmp.left))][tmp := Pair(old(root), old(tmp.right))]
    {
      root.right := tmp.left;
      tmp.left := root;
      root := tmp;
    }

    /** SPLAY_LINKRIGHT: the root joins the left tree. */
    method LinkRight(left: Node, ghost d: Node, ghost all: set<Node>, ghost a: Chain, ghost t: Bush, ghost b: Chain)
      returns (now: Node)
      requires At(d, all, a, t, b) && t.Twig? && left == Tip(a, d)
      modifies this`root, all
      ensures At(d, all, Link(a, t.node, t.left), t.right, b) && now == t.node
    {
      hide Splits;
      ghost var m := Links(all);
      Seen(d, all, a, t, b);
      LinkRightSplits(m, d, a, t, b);
      NotTip(m, d, a, t, b);
      now := root;
      PassRight(left, all);
    }

    method PassLeft(tmp: Node, ghost all: set<Node>)
      requires root != null && root in all && tmp in all - {root}
      modifies this`root, tmp
      ensures root == old(root.left)
      ensures Links(all) == old(Links(all))[tmp := old(Links(all)[tmp]).(left := old(root))]
    {
      tmp.left := root;
      root := root.left;
    }

    method PassRight(tmp: Node, ghost all: set<Node>)
      requires root != null && root in all && tmp in all - {root}
      modifies this`root, tmp
      ensures root == old(root.right)
      ensures Links(all) == old(Links(all))[tmp := old(Links(all)[tmp]).(right := old(root))]
    {
      tmp.right := root;
      root := root.right;
    }

    /** SPLAY_ASSEMBLE */
    method Assemble(node: Node, left: Node, right: Node,
                    ghost all: set<Node>, ghost a: Chain, ghost t: Bush, ghost b: Chain)
      requires At(node, all, a, t, b) && t.Twig? && left == Tip(a, node) && right == Tip(b, node)
      requires all == repr + {node} && node !in repr && Ascending(Whole(a, t, b))
      modifies this`shape, all
      ensures Valid() && shape == Assembled(a, t, b) && Order() == Whole(a, t, b)
    {
      hide Spells, Neat, Ascending, InOrder, Whole, At, Assembled, Of;
      PartsReady(node, all, a, t, b);
      Fill(node, left, right, all);
      shape := Assembled(a, t, b);
      SpellsSome(all, repr, shape);
    }

    /** What the three parts are once the stores are made. */
    lemma PartsReady(node: Node, all: set<Node>, a: Chain, t: Bush, b: Chain)
      requires At(node, all, a, t, b) && t.Twig? && all == repr + {node} && node !in repr
      ensures root == t.node && root in all && {node, Tip(a, node), Tip(b, node)} <= all - {root}
      ensures Tip(a, node) == Tip(b, node) ==> Tip(a, node) == node
      ensures var s := Assembled(a, t, b);
        && root == Top(s) && Of(s) == repr && Neat(s) && InOrder(s) == Whole(a, t, b)
        && Spells(Filled(Links(all), node, Tip(a, node), Tip(b, node), root), s)
    {
      hide Spells, Neat, CloseLeft, CloseRight, InOrder, InLeft, InRight, Whole;
      var m := Links(all);
      Seen(node, all, a, t, b);
      AssembledIs(m, node, a, t, b);
      AssembleSpells(m, node, a, t, b);
      NotTip(m, node, a, t, b);
      hide Of, OfChain;
    }

    /** The key is below the root's: one round of the loop. `stop` says that the loop is left. */
    method GoLeft(key: RB.Pointer, right: Node, ghost d: Node, ghost all: set<Node>, ghost a: Chain,
                  ghost t0: Bush, ghost b0: Chain)
      returns (stop: bool, now: Node, ghost t: Bush, ghost b: Chain)
      requires At(d, all, a, t0, b0) && t0.Twig? && right == Tip(b0, d) && key < t0.node.key
      requires Ascending(Whole(a, t0, b0)) && Below(InLeft(a), key) && Above(InRight(b0), key)
      modifies this`root, all
      ensures At(d, all, a, t, b) && t.Twig? && root == t.node && now == Tip(b, d) && Whole(a, t, b) == Whole(a, t0, b0)
      ensures Above(InRight(b), key) && (stop ==> Stops(a, t, b, key)) && (!stop ==> Weight(t) < Weight(t0))
    {
      hide Splits, Neat, Spells, Whole, InOrder, InLeft, InRight, Ascending, Below, Above;
      t, b, now := t0, b0, right;
      Seen(d, all, a, t, b);
      var tmp := root.left;
      if tmp == null {
        return true, now, t, b;
      }
      if RO.Compare(key, tmp.key) < 0 {
        RotateRight(tmp, d, all, a, t, b);
        TurnedRightWhole(a, t, b);
        t := TurnedRight(t);
        Seen(d, all, a, t, b);
        if root.left == null {
          return true, now, t, b;
        }
      }
      AroundRoot(a, t, b);
      AboveLink(b, t, key);
      LinkLeftInOrder(a, t, b);
      now := LinkLeft(right, d, all, a, t, b);
      t, b := t.left, Link(b, t.node, t.right);
      stop := false;
    }

    /** The mirror image. */
    method GoRight(key: RB.Pointer, left: Node, ghost d: Node, ghost all: set<Node>, ghost a0: Chain,
                   ghost t0: Bush, ghost b: Chain)
      returns (stop: bool, now: Node, ghost a: Chain, ghost t: Bush)
      requires At(d, all, a0, t0, b) && t0.Twig? && left == Tip(a0, d) && t0.node.key < key
      requires Ascending(Whole(a0, t0, b)) && Below(InLeft(a0), key) && Above(InRight(b), key)
      modifies this`root, all
      ensures At(d, all, a, t, b) && t.Twig? && root == t.node && now == Tip(a, d) && Whole(a, t, b) == Whole(a0, t0, b)
      ensures Below(InLeft(a), key) && (stop ==> Stops(a, t, b, key)) && (!stop ==> Weight(t) < Weight(t0))
    {
      hide Splits, Neat, Spells, Whole, InOrder, InLeft, InRight, Ascending, Below, Above;
      t, a, now := t0, a0, left;
      Seen(d, all, a, t, b);
      var tmp := root.right;
      if tmp == null {
        return true, now, a, t;
      }
      if RO.Compare(key, tmp.key) > 0 {
        RotateLeft(tmp, d, all, a, t, b);
        TurnedLeftWhole(a, t, b);
        t := TurnedLeft(t);
        Seen(d, all, a, t, b);
        if root.right == null {
          return true, now, a, t;
        }
      }
      AroundRoot(a, t, b);
      BelowLink(a, t, key);
      LinkRightInOrder(a, t, b);
      now := LinkRight(left, d, all, a, t, b);
      a, t := Link(a, t.node, t.left), t.right;
      stop := false;
    }

    /** SPLAY: the entry nearest to the key comes to the root; nothing is lost and the order stays. */
    method Splay(key: RB.Pointer)
      requires Valid() && root != null
      modifies this`root, this`shape, repr
      ensures Valid() && root != null && repr == old(repr) && Order() == old(Order()) && Nearest(shape, key)
    {
      hide At, Splits, Neat, Spells, Whole, InOrder, InLeft, InRight, Ascending, Below, Above, Weight;
      var node := new Node(RB.NULL);
      var left, right, stop := node, node, false;
      ghost var a, t, b, all := End, shape, End, repr + {node};
      ghost var order := Order();
      Begun(node, all, shape, key);
      while RO.Compare(key, root.key) != 0
        invariant At(node, all, a, t, b) && t.Twig? && root == t.node
        invariant left == Tip(a, node) && right == Tip(b, node)
        invariant Whole(a, t, b) == order && Below(InLeft(a), key) && Above(InRight(b), key)
        decreases Weight(t)
      {
        if RO.Compare(key, root.key) < 0 {
          stop, right, t, b := GoLeft(key, right, node, all, a, t, b);
        } else {
          stop, left, a, t := GoRight(key, left, node, all, a, t, b);
        }
        if stop {
          break;
        }
      }
      StopsNearest(a, t, b, key);
      Assemble(node, left, right, all, a, t, b);
    }

    lemma Begun(d: Node, all: set<Node>, t: Bush, key: RB.Pointer)
      requires Valid() && t == shape && d !in repr && all == repr + {d}
      ensures At(d, all, End, t, End) && Whole(End, t, End) == InOrder(t) && Ascending(InOrder(t))
      ensures Below(InLeft(End), key) && Above(InRight(End), key)
    {
      SpellsIn(Links(repr), t);
      SpellsFrame(Links(repr), Links(all), t);
      assert [] + InOrder(t) + [] == InOrder(t);
    }

    /** Its pointer updates. */
    method Fill(node: Node, left: Node, right: Node, ghost all: set<Node>)
      requires root != null && {node, left, right} <= all - {root} && root in all && (left == right ==> left == node)
      modifies all
      ensures Links(all) == Filled(old(Links(all)), node, left, right, root)
    {
      left.right := root.left;
      right.left := root.right;
      root.left := node.right;
      root.right := node.left;
    }

    /** The root in order. */
    lemma RootInOrder()
      requires Valid() && root != null
      ensures shape.Twig? && root == shape.node && root in repr
      ensures Order() == InOrder(shape.left) + [root] + InOrder(shape.right)
      ensures root.left == Top(shape.left) && root.right == Top(shape.right)
      ensures Below(InOrder(shape.left), root.key) && Above(InOrder(shape.right), root.key)
    {
      assert Links(repr)[root] == Pair(root.left, root.right);
      Pivot(InOrder(shape.left), root, InOrder(shape.right));
    }

    /** In terms of keys: no entry lies strictly between the key and the root, and the key itself is in
        the tree only at the root. */
    lemma NearestKey(key: RB.Pointer)
      requires Valid() && root != null && Nearest(shape, key)
      ensures forall x <- Order() :: x.key == key <==> x == root && root.key == key
      ensures forall x <- Order() :: !(key < x.key < root.key) && !(root.key < x.key < key)
    {
      hide Neat, Spells;
      RootInOrder();
      forall x | x in Order() ensures x in InOrder(shape.left) || x == root || x in InOrder(shape.right) {
      }
    }

    /** SPLAY_FIND */
    method Find(key: RB.Pointer) returns (found: Node?)
      requires Valid()
      modifies this`root, this`shape, repr
      ensures Valid() && repr == old(repr) && Order() == old(Order())
      ensures found != null ==> found in Order() && found.key == key
      ensures found == null ==> forall x <- Order() :: x.key != key
    {
      hide Neat, Spells, Ascending;
      if root == null {
        return null;
      }
      Splay(key);
      RootInOrder();
      return if RO.Compare(key, root.key) == 0 then root else null;
    }

    /** The last step of an insertion: `elm` is the root, over two trees. */
    ghost method Plant(elm: Node, p: Bush, q: Bush)
      requires root == elm && elm !in repr && Neat(p) && Neat(q) && Of(p) !! Of(q) && Of(p) + Of(q) == repr
      requires elm.left == Top(p) && elm.right == Top(q) && Spells(Links(repr), p) && Spells(Links(repr), q)
      requires Ascending(InOrder(p) + InOrder(q)) && Below(InOrder(p), elm.key) && Above(InOrder(q), elm.key)
      modifies this`shape, this`repr
      ensures Valid() && repr == old(repr) + {elm} && Order() == InOrder(p) + [elm] + InOrder(q)
    {
      hide Ascending;
      Slot(InOrder(p), InOrder(q), elm);
      SpellsFrame(Links(repr), Links(repr + {elm}), p);
      SpellsFrame(Links(repr), Links(repr + {elm}), q);
      repr := repr + {elm};
      shape := Twig(p, elm, q);
      assert Links(repr)[elm] == Pair(elm.left, elm.right);
    }

    /** The key is below the root's and above all before it. */
    method InsertBefore(elm: Node)
      requires Valid() && root != null && elm !in repr && elm.key < root.key && Below(InOrder(shape.left), elm.key)
      modifies this, root`left, elm
      ensures Valid() && repr == old(repr) + {elm}
      ensures Order() == InOrder(old(shape).left) + [elm] + ([old(root)] + InOrder(old(shape).right))
    {
      hide Ascending, InOrder, Below, Above;
      RootInOrder();
      Around(InOrder(shape.left), root, InOrder(shape.right), elm.key);
      ghost var m, l, x, r := Links(repr), shape.left, root, shape.right;
      elm.left := root.left;
      elm.right := root;
      root.left := null;
      root := elm;
      SpellsFrame(m, Links(repr), l);
      SpellsFrame(m, Links(repr), r);
      assert Links(repr)[x] == Pair(null, m[x].right);
      Lone(l, x, r);
      Plant(elm, l, Twig(Bare, x, r));
    }

    method InsertAfter(elm: Node)
      requires Valid() && root != null && elm !in repr && root.key < elm.key && Above(InOrder(shape.right), elm.key)
      modifies this, root`right, elm
      ensures Valid() && repr == old(repr) + {elm}
      ensures Order() == (InOrder(old(shape).left) + [old(root)]) + [elm] + InOrder(old(shape).right)
    {
      hide Ascending, InOrder, Below, Above;
      RootInOrder();
      Around(InOrder(shape.left), root, InOrder(shape.right), elm.key);
      ghost var m, l, x, r := Links(repr), shape.left, root, shape.right;
      elm.right := root.right;
      elm.left := root;
      root.right := null;
      root := elm;
      SpellsFrame(m, Links(repr), l);
      SpellsFrame(m, Links(repr), r);
      assert Links(repr)[x] == Pair(m[x].left, null);
      Lone(l, x, r);
      Plant(elm, Twig(l, x, Bare), r);
    }

    method InsertFirst(elm: Node)
      requires Valid() && root == null
      modifies this, elm
      ensures Valid() && repr == old(repr) + {elm} && Order() == [elm] && old(Order()) == []
    {
      elm.left, elm.right := null, null;
      root := elm;
      Plant(elm, Bare, Bare);
    }

    /** SPLAY_INSERT: a new key goes to its place; a present one gives back its entry. */
    method Insert(elm: Node) returns (found: Node?, ghost at: nat)
      requires Valid()
      modifies this, repr, elm
      ensures Valid()
      ensures elm in old(repr) ==> found == elm
      ensures found != null ==>
        found in old(Order()) && found.key == elm.key && Order() == old(Order())
        && repr == old(repr)
      ensures found == null ==> repr == old(repr) + {elm} && forall x <- old(Order()) :: x.key != elm.key
      ensures found == null ==> at <= |old(Order())| && Order() == old(Order())[..at] + [elm] + old(Order())[at..]
    {
      hide Valid;
      if IsEmpty() {
        Bottom();
        InsertFirst(elm);
        return null, 0;
      }
      Splay(elm.key);
      RootInOrder();
      ghost var l, x, r := InOrder(shape.left), root, InOrder(shape.right);
      RootOnly(elm);
      var comp := RO.Compare(elm.key, root.key);
      found, at := null, 0;
      if comp < 0 {
        InsertBefore(elm);
        at := |l|;
        assert l + [x] + r == l + ([x] + r);
      } else if comp > 0 {
        InsertAfter(elm);
        at := |l| + 1;
      } else {
        found := root;
      }
    }

    /** After a splay for its key an entry of the tree is the root. */
    lemma RootOnly(elm: Node)
      requires Valid() && root != null && Nearest(shape, elm.key)
      ensures elm in repr ==> elm == root
    {
      NearestKey(elm.key);
      OfInOrder(shape);
      hide InOrder, Of, Neat, Spells;
    }

    /** SPLAY_EMPTY */
    predicate IsEmpty()
      reads this`root
    {
      root == null
    }

    lemma Bottom()
      requires Valid() && root == null
      ensures shape == Bare && repr == {} && Order() == []
    {
    }

    /** A part of the tree is a tree of its own. */
    lemma PartValid(t: Bush)
      requires Valid() && root != null && (t == shape.left || t == shape.right)
      ensures Neat(t) && Spells(Links(Of(t)), t) && Ascending(InOrder(t)) && Of(t) <= repr - {root}
      ensures Of(shape.left) !! Of(shape.right) && repr == Of(shape.left) + {root} + Of(shape.right)
    {
      hide Spells;
      Subtree(t);
      SpellsSome(repr, Of(t), t);
      var (l, r) := (InOrder(shape.left), InOrder(shape.right));
      forall i, j | 0 <= i < j < |InOrder(t)| ensures InOrder(t)[i].key < InOrder(t)[j].key {
        if t == shape.left {
          assert l[i] == Order()[i] && l[j] == Order()[j];
        } else {
          assert r[i] == Order()[|l| + 1 + i] && r[j] == Order()[|l| + 1 + j];
        }
      }
    }

    lemma Subtree(t: Bush)
      requires Valid() && root != null && (t == shape.left || t == shape.right)
      ensures Spells(Links(repr), t)
    {
    }

    /** The root, which has no right side, takes over a tree of larger keys. */
    method Adopt(tmp: Node?, ghost r: Bush)
      requires Valid() && root != null && shape.right.Bare? && tmp == Top(r) && Neat(r) && Of(r) !! repr
      requires Spells(Links(Of(r)), r) && Ascending(Order() + InOrder(r))
      modifies this`shape, this`repr, root`right
      ensures Valid() && repr == old(repr) + Of(r) && Order() == old(Order()) + InOrder(r)
    {
      hide Ascending, InOrder;
      RootInOrder();
      ghost var l, x, m, n := shape.left, root, Links(repr), Links(Of(r));
      PartValid(l);
      Lone(l, x, r);
      root.right := tmp;
      repr := repr + Of(r);
      shape := Twig(l, x, r);
      SpellsFrame(m, Links(repr), l);
      SpellsFrame(n, Links(repr), r);
      assert Links(repr)[x] == Pair(m[x].left, Top(r));
    }

    /** The root goes; its left subtree is splayed for the key just removed, and takes over the right one. */
    method JoinSides(key: RB.Pointer)
      requires Valid() && root != null && root.key == key && root.left != null
      modifies this, repr
      ensures Valid() && repr == old(repr) - {old(root)}
      ensures Order() == InOrder(old(shape).left) + InOrder(old(shape).right)
    {
      hide Spells, Neat, Ascending;
      RootInOrder();
      ghost var l, r := shape.left, shape.right;
      PartValid(l);
      PartValid(r);
      WithoutRoot(InOrder(l), root, InOrder(r));
      var tmp := root.right;
      root := root.left;
      shape, repr := l, Of(l);
      ghost var m := Links(Of(r));
      Splay(key);
      assert Links(Of(r)) == m;
      NoRight(shape, key, InOrder(l));
      Adopt(tmp, r);
    }

    method DropRoot()
      requires Valid() && root != null && root.left == null
      modifies this
      ensures Valid() && repr == old(repr) - {old(root)} && Order() == InOrder(old(shape).right)
      ensures old(shape).left.Bare?
    {
      hide Spells, Neat, Ascending;
      RootInOrder();
      PartValid(shape.right);
      root := root.right;
      shape, repr := shape.right, Of(shape.right);
    }

    /** SPLAY_REMOVE: the entry with the key of `elm` goes, and nothing else; what is returned is `elm`. */
    method Remove(elm: Node) returns (removed: Node?, ghost at: nat)
      requires Valid()
      modifies this, repr
      ensures Valid()
      ensures removed == null ==>
        Order() == old(Order()) && repr == old(repr)
        && forall x <- Order() :: x.key != elm.key
      ensures removed != null ==> removed == elm && at < |old(Order())| && old(Order())[at].key == elm.key
      ensures removed != null ==>
        Order() == old(Order())[..at] + old(Order())[at + 1..] && repr == old(repr) - {old(Order())[at]}
    {
      hide Valid;
      removed, at := null, 0;
      if IsEmpty() {
        Bottom();
        return;
      }
      Splay(elm.key);
      RootInOrder();
      if RO.Compare(elm.key, root.key) == 0 {
        at := |InOrder(shape.left)|;
        if root.left == null {
          DropRoot();
        } else {
          JoinSides(elm.key);
        }
        removed := elm;
      }
    }

    /** SPLAY_MINMAX: the first entry in order, or the last, comes to the root. */
    method MinMax(comp: int)
      requires Valid() && root != null && comp != 0
      modifies this`root, this`shape, repr
      ensures Valid() && repr == old(repr) && Order() == old(Order()) && root != null
      ensures root == if comp < 0 then Order()[0] else Order()[|Order()| - 1]
    {
      hide At, Splits, Neat, Spells, Whole, InOrder, Ascending, Weight;
      var node := new Node(RB.NULL);
      var left, right := node, node;
      ghost var a, t, b, all := End, shape, End, repr + {node};
      ghost var order := Order();
      Begun(node, all, shape, 0);
      while true
        invariant At(node, all, a, t, b) && t.Twig? && root == t.node
        invariant left == Tip(a, node) && right == Tip(b, node) && Whole(a, t, b) == order
        invariant if comp < 0 then a.End? else b.End?
        decreases Weight(t)
      {
        Seen(node, all, a, t, b);
        if comp < 0 {
          var tmp := root.left;
          if tmp == null {
            break;
          }
          RotateRight(tmp, node, all, a, t, b);
          TurnedRightWhole(a, t, b);
          t := TurnedRight(t);
          Seen(node, all, a, t, b);
          if root.left == null {
            break;
          }
          LinkLeftInOrder(a, t, b);
          Lighter(t);
          right := LinkLeft(right, node, all, a, t, b);
          t, b := t.left, Link(b, t.node, t.right);
          Seen(node, all, a, t, b);
        } else {
          var tmp := root.right;
          if tmp == null {
            break;
          }
          RotateLeft(tmp, node, all, a, t, b);
          TurnedLeftWhole(a, t, b);
          t := TurnedLeft(t);
          Seen(node, all, a, t, b);
          if root.right == null {
            break;
          }
          LinkRightInOrder(a, t, b);
          Lighter(t);
          left := LinkRight(left, node, all, a, t, b);
          a, t := Link(a, t.node, t.left), t.right;
          Seen(node, all, a, t, b);
        }
      }
      Extreme(a, t, b);
      Assemble(node, left, right, all, a, t, b);
    }

    /** SPLAY_NEXT: splay the entry itself, then go right once and left as far as it goes. */
    method Next(start: Node, ghost at: nat) returns (elm: Node?)
      requires Valid() && at < |Order()| && Order()[at] == start
      modifies this`root, this`shape, repr
      ensures Valid() && repr == old(repr) && Order() == old(Order())
      ensures elm == if at + 1 < |Order()| then Order()[at + 1] else null
    {
      hide Neat, Nearest;
      Splay(start.key);
      RootInOrder();
      IsRoot(shape, start, at);
      elm := start;
      if elm.right != null {
        elm := elm.right;
        ghost var t := shape.right;
        assert elm == t.node && elm in Of(t);
        while elm.left != null
          invariant t.Twig? && t.node == elm && Of(t) <= repr && Spells(Links(repr), t)
          invariant InOrder(t)[0] == InOrder(shape.right)[0]
          decreases t
          modifies {}
        {
          assert Links(repr)[elm] == Pair(elm.left, elm.right);
          elm := elm.left;
          t := t.left;
        }
        assert Links(repr)[elm] == Pair(elm.left, elm.right);
        assert Order()[at + 1] == InOrder(shape.right)[0];
      } else {
        elm := null;
      }
    }
  }

  /** A tree splayed for the key of one of its entries has that entry at the root. */
  lemma IsRoot(t: Bush, x: Node, at: nat)
    requires Nearest(t, x.key) && Ascending(InOrder(t)) && at < |InOrder(t)| && InOrder(t)[at] == x
    ensures t.node == x && at == |InOrder(t.left)|
  {
    Side(InOrder(t.left), t.node, InOrder(t.right), at);
  }

  lemma Side(l: seq<Node>, root: Node, r: seq<Node>, at: nat)
    requires Ascending(l + [root] + r) && at < |l + [root] + r|
    ensures var x := (l + [root] + r)[at];
      && (at < |l| ==> x in l && x.key < root.key) && (at > |l| ==> x in r && root.key < x.key)
      && (at == |l| ==> x == root)
  {
    var s := l + [root] + r;
    assert s[|l|] == root;
    assert at < |l| ==> s[at] == l[at];
    assert at > |l| ==> s[at] == r[at - |l| - 1];
  }

  lemma Lighter(t: Bush)
    requires t.Twig?
    ensures Weight(t.left) < Weight(t) && Weight(t.right) < Weight(t)
  {
  }

  lemma Extreme(a: Chain, t: Bush, b: Chain)
    requires t.Twig?
    ensures a.End? && t.left.Bare? ==> Whole(a, t, b) != [] && Whole(a, t, b)[0] == t.node
    ensures b.End? && t.right.Bare? ==> Whole(a, t, b) != [] && Whole(a, t, b)[|Whole(a, t, b)| - 1] == t.node
  {
    if a.End? && t.left.Bare? {
      assert InLeft(a) + InOrder(t) == [t.node] + InOrder(t.right);
    }
    if b.End? && t.right.Bare? {
      assert InOrder(t) + InRight(b) == InOrder(t.left) + [t.node];
    }
  }

  lemma WithoutRoot(l: seq<Node>, x: Node, r: seq<Node>)
    requires Ascending(l + [x] + r)
    ensures Ascending(l + r)
  {
    var (s, n) := (l + [x] + r, |l|);
    forall i, j | 0 <= i < j < |l + r| ensures (l + r)[i].key < (l + r)[j].key {
      assert (l + r)[i] == s[if i < n then i else i + 1] && (l + r)[j] == s[if j < n then j else j + 1];
    }
  }

  /** Splayed for a key above all, a tree has no right side left. */
  lemma NoRight(t: Bush, key: RB.Pointer, s: seq<Node>)
    requires Nearest(t, key) && s == InOrder(t) && Below(s, key)
    ensures t.right.Bare? && s == InOrder(t.left) + [t.node]
  {
    assert t.node in s;
    assert forall z <- InOrder(t.right) :: z in s;
    if t.right.Twig? {
      assert t.right.node in InOrder(t.right);
    }
    assert InOrder(t.left) + [t.node] + [] == InOrder(t.left) + [t.node];
  }

  /** A root that has lost one side. */
  lemma Lone(l: Bush, x: Node, r: Bush)
    ensures InOrder(Twig(Bare, x, r)) == [x] + InOrder(r) && InOrder(Twig(l, x, Bare)) == InOrder(l) + [x]
    ensures InOrder(l) + ([x] + InOrder(r)) == InOrder(Twig(l, x, r)) == (InOrder(l) + [x]) + InOrder(r)
  {
    assert InOrder(l) + [x] + [] == InOrder(l) + [x];
    assert [] + [x] + InOrder(r) == [x] + InOrder(r);
  }

  lemma Around(l: seq<Node>, x: Node, r: seq<Node>, key: RB.Pointer)
    requires Below(l, x.key) && Above(r, x.key)
    ensures key < x.key ==> Above([x] + r, key)
    ensures x.key < key ==> Below(l + [x], key)
  {
  }

  /** A new entry between those below it and those above it. */
  lemma Slot(p: seq<Node>, q: seq<Node>, e: Node)
    requires Ascending(p + q) && Below(p, e.key) && Above(q, e.key)
    ensures Ascending(p + [e] + q)
  {
    var (s, n) := (p + [e] + q, |p|);
    forall i, j | 0 <= i < j < |s| ensures s[i].key < s[j].key {
      if i < n && j > n {
        assert (p + q)[i] == s[i] && (p + q)[j - 1] == s[j];
      } else if j < n {
        assert (p + q)[i] == s[i] && (p + q)[j] == s[j];
      } else if i > n {
        assert (p + q)[i - 1] == s[i] && (p + q)[j - 1] == s[j];
      } else if i == n {
        assert s[j] in q;
      } else {
        assert s[i] in p;
      }
    }
  }

  /** The search may stop at the root of a split. */
  ghost predicate Stops(a: Chain, t: Bush, b: Chain, key: RB.Pointer) {
    && t.Twig?
    && (key < t.node.key ==> t.left.Bare?)
    && (t.node.key < key ==> t.right.Bare?)
    && Below(InLeft(a), key) && Above(InRight(b), key)
  }

  lemma TurnedRightWhole(a: Chain, t: Bush, b: Chain)
    requires t.Twig? && t.left.Twig?
    ensures Whole(a, TurnedRight(t), b) == Whole(a, t, b) && Weight(TurnedRight(t)) == Weight(t)
  {
    TurnedRightInOrder(t);
  }

  lemma TurnedLeftWhole(a: Chain, t: Bush, b: Chain)
    requires t.Twig? && t.right.Twig?
    ensures Whole(a, TurnedLeft(t), b) == Whole(a, t, b) && Weight(TurnedLeft(t)) == Weight(t)
  {
    TurnedLeftInOrder(t);
  }

  lemma StopsNearest(a: Chain, t: Bush, b: Chain, key: RB.Pointer)
    requires Stops(a, t, b, key)
    ensures Nearest(Assembled(a, t, b), key)
  {
    CloseLeftInOrder(a, t.left);
    CloseRightInOrder(b, t.right);
  }

  lemma SpellsSome(all: set<Node>, some: set<Node>, t: Bush)
    requires Spells(Links(all), t) && Of(t) <= some <= all
    ensures Spells(Links(some), t)
  {
    SpellsFrame(Links(all), Links(some), t);
  }

  lemma AboveLink(b: Chain, t: Bush, key: RB.Pointer)
    requires t.Twig? && key < t.node.key && Above(InOrder(t.right), t.node.key) && Above(InRight(b), key)
    ensures Above(InRight(Link(b, t.node, t.right)), key)
  {
  }

  lemma BelowLink(a: Chain, t: Bush, key: RB.Pointer)
    requires t.Twig? && t.node.key < key && Below(InOrder(t.left), t.node.key) && Below(InLeft(a), key)
    ensures Below(InLeft(Link(a, t.node, t.left)), key)
  {
  }

  lemma Inner(m: Pairs, d: Node, a: Chain, t: Bush, b: Chain)
    requires Splits(m, d, a, t, b) && t.Twig?
    ensures t.node in m && m[t.node] == Pair(Top(t.left), Top(t.right))
    ensures t.left.Twig? ==>
      t.left.node in m && m[t.left.node] == Pair(Top(t.left.left), Top(t.left.right))
      && t.left.node != t.node
    ensures t.right.Twig? ==>
      t.right.node in m && m[t.right.node] == Pair(Top(t.right.left), Top(t.right.right))
      && t.right.node != t.node
  {
    assert Spells(m, t.left) && Spells(m, t.right) && t.node !in Of(t.left) && t.node !in Of(t.right);
  }

  lemma NotTip(m: Pairs, d: Node, a: Chain, t: Bush, b: Chain)
    requires Splits(m, d, a, t, b) && t.Twig?
    ensures {d, Tip(a, d), Tip(b, d)} <= m.Keys - {t.node} && (Tip(a, d) == Tip(b, d) ==> Tip(a, d) == d)
  {
    ChainIn(m, d, a);
    ChainIn(m, d, b);
  }
}
