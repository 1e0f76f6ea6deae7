/** Splay trees as values: the subtree still to be searched, and the two trees that a top-down splay
    assembles from what it passes. Each is a chain of entries whose last link is still open. */
module SplayShape {
  import RB = RedBlackShape

  /** An entry; the local `__node` of a splay is one too. */
  class Node {
    const key: RB.Pointer
    var left: Node?
    var right: Node?

    constructor (key: RB.Pointer)
      ensures this.key == key && left == null && right == null
    {
      this.key := key;
      left, right := null, null;
    }
  }

  datatype Pair = Pair(left: Node?, right: Node?)

  type Pairs = map<Node, Pair>

  datatype Bush = Bare | Twig(left: Bush, node: Node, right: Bush)

  /** The left tree's open chain goes right, the right tree's goes left; `sub` hangs on the closed side. */
  datatype Chain = End | Link(up: Chain, node: Node, sub: Bush)

  ghost function Top(t: Bush): Node? {
    if t.Bare? then null else t.node
  }

  /** The entry with the open link; `d` stands for `__node`. */
  ghost function Tip(c: Chain, d: Node): Node {
    if c.End? then d else c.node
  }

  ghost function Of(t: Bush): set<Node> {
    match t
    case Bare => {}
    case Twig(l, x, r) => Of(l) + {x} + Of(r)
  }

  ghost function OfChain(c: Chain): set<Node> {
    match c
    case End => {}
    case Link(up, x, s) => OfChain(up) + {x} + Of(s)
  }

  ghost predicate Neat(t: Bush) {
    match t
    case Bare => true
    case Twig(l, x, r) => x !in Of(l) && x !in Of(r) && Of(l) !! Of(r) && Neat(l) && Neat(r)
  }

  ghost predicate NeatChain(c: Chain) {
    match c
    case End => true
    case Link(up, x, s) => x !in OfChain(up) && x !in Of(s) && OfChain(up) !! Of(s) && NeatChain(up) && Neat(s)
  }

  /** The links spell out the subtree. */
  ghost predicate Spells(m: Pairs, t: Bush) {
    match t
    case Bare => true
    case Twig(l, x, r) => x in m && m[x] == Pair(Top(l), Top(r)) && Spells(m, l) && Spells(m, r)
  }

  ghost predicate SpellsLeft(m: Pairs, d: Node, c: Chain) {
    match c
    case End => true
    case Link(up, x, s) =>
      && x in m && m[x].left == Top(s) && Spells(m, s)
      && Tip(up, d) in m && m[Tip(up, d)].right == x && SpellsLeft(m, d, up)
  }

  ghost predicate SpellsRight(m: Pairs, d: Node, c: Chain) {
    match c
    case End => true
    case Link(up, x, s) =>
      && x in m && m[x].right == Top(s) && Spells(m, s)
      && Tip(up, d) in m && m[Tip(up, d)].left == x && SpellsRight(m, d, up)
  }

  /** The state of a splay: left tree, subtree at the root, right tree, sharing nothing. */
  ghost predicate Splits(m: Pairs, d: Node, a: Chain, t: Bush, b: Chain) {
    && d in m && NeatChain(a) && Neat(t) && NeatChain(b)
    && d !in OfChain(a) + Of(t) + OfChain(b)
    && OfChain(a) !! Of(t) && OfChain(a) !! OfChain(b) && Of(t) !! OfChain(b)
    && SpellsLeft(m, d, a) && Spells(m, t) && SpellsRight(m, d, b)
  }

  // In-order sequences

  ghost function InOrder(t: Bush): seq<Node> {
    match t
    case Bare => []
    case Twig(l, x, r) => InOrder(l) + [x] + InOrder(r)
  }

  lemma OfInOrder(t: Bush)
    ensures Of(t) == set x | x in InOrder(t)
  {
  }

  ghost function InLeft(c: Chain): seq<Node> {
    match c
    case End => []
    case Link(up, x, s) => InLeft(up) + InOrder(s) + [x]
  }

  ghost function InRight(c: Chain): seq<Node> {
    match c
    case End => []
    case Link(up, x, s) => [x] + InOrder(s) + InRight(up)
  }

  /** The whole sequence of a split. */
  ghost function Whole(a: Chain, t: Bush, b: Chain): seq<Node> {
    InLeft(a) + InOrder(t) + InRight(b)
  }

  /** What the left tree becomes once `t` fills its open link. */
  ghost function CloseLeft(c: Chain, t: Bush): Bush {
    match c
    case End => t
    case Link(up, x, s) => CloseLeft(up, Twig(s, x, t))
  }

  ghost function CloseRight(c: Chain, t: Bush): Bush {
    match c
    case End => t
    case Link(up, x, s) => CloseRight(up, Twig(t, x, s))
  }

  lemma Regroup(a: seq<Node>, x: Node, b: seq<Node>, y: Node, c: seq<Node>)
    ensures (a + [x] + b) + [y] + c == a + [x] + (b + [y] + c)
  {
  }

  lemma RegroupLeft(a: seq<Node>, b: seq<Node>, x: Node, c: seq<Node>)
    ensures a + (b + [x] + c) == (a + b + [x]) + c
  {
  }

  lemma RegroupRight(a: seq<Node>, x: Node, b: seq<Node>, c: seq<Node>)
    ensures (a + [x] + b) + c == a + ([x] + b + c)
  {
  }

  lemma {:induction false} CloseLeftInOrder(c: Chain, t: Bush)
    ensures InOrder(CloseLeft(c, t)) == InLeft(c) + InOrder(t)
    ensures Of(CloseLeft(c, t)) == OfChain(c) + Of(t)
  {
    if c.Link? {
      CloseLeftInOrder(c.up, Twig(c.sub, c.node, t));
      RegroupLeft(InLeft(c.up), InOrder(c.sub), c.node, InOrder(t));
    }
  }

  lemma {:induction false} CloseRightInOrder(c: Chain, t: Bush)
    ensures InOrder(CloseRight(c, t)) == InOrder(t) + InRight(c)
    ensures Of(CloseRight(c, t)) == OfChain(c) + Of(t)
  {
    if c.Link? {
      CloseRightInOrder(c.up, Twig(t, c.node, c.sub));
      RegroupRight(InOrder(t), c.node, InOrder(c.sub), InRight(c.up));
    }
  }

  ghost function TurnedRight(t: Bush): Bush
    requires t.Twig? && t.left.Twig?
  {
    Twig(t.left.left, t.left.node, Twig(t.left.right, t.node, t.right))
  }

  ghost function TurnedLeft(t: Bush): Bush
    requires t.Twig? && t.right.Twig?
  {
    Twig(Twig(t.left, t.node, t.right.left), t.right.node, t.right.right)
  }

  lemma TurnedRightInOrder(t: Bush)
    requires t.Twig? && t.left.Twig?
    ensures InOrder(TurnedRight(t)) == InOrder(t) && Of(TurnedRight(t)) == Of(t)
  {
    Regroup(InOrder(t.left.left), t.left.node, InOrder(t.left.right), t.node, InOrder(t.right));
  }

  lemma TurnedLeftInOrder(t: Bush)
    requires t.Twig? && t.right.Twig?
    ensures InOrder(TurnedLeft(t)) == InOrder(t) && Of(TurnedLeft(t)) == Of(t)
  {
    Regroup(InOrder(t.left), t.node, InOrder(t.right.left), t.right.node, InOrder(t.right.right));
  }

  lemma LinkLeftInOrder(a: Chain, t: Bush, b: Chain)
    requires t.Twig?
    ensures Whole(a, t.left, Link(b, t.node, t.right)) == Whole(a, t, b)
  {
    RegroupRight(InOrder(t.left), t.node, InOrder(t.right), InRight(b));
    RegroupFar(InLeft(a), InOrder(t), InRight(b));
    RegroupFar(InLeft(a), InOrder(t.left), [t.node] + InOrder(t.right) + InRight(b));
  }

  lemma RegroupFar(a: seq<Node>, b: seq<Node>, c: seq<Node>)
    ensures a + b + c == a + (b + c)
  {
  }

  lemma LinkRightInOrder(a: Chain, t: Bush, b: Chain)
    requires t.Twig?
    ensures Whole(Link(a, t.node, t.left), t.right, b) == Whole(a, t, b)
  {
    RegroupLeft(InLeft(a), InOrder(t.left), t.node, InOrder(t.right));
  }

  // What the pointer updates do to the links

  lemma SpellsFrame(m: Pairs, m': Pairs, t: Bush)
    requires Spells(m, t) && forall z <- Of(t) :: z in m && z in m' && m'[z] == m[z]
    ensures Spells(m', t)
  {
  }

  lemma SpellsIn(m: Pairs, t: Bush)
    requires Spells(m, t)
    ensures Of(t) <= m.Keys
  {
  }

  lemma ChainIn(m: Pairs, d: Node, c: Chain)
    requires d in m && (SpellsLeft(m, d, c) || SpellsRight(m, d, c))
    ensures OfChain(c) <= m.Keys && Tip(c, d) in m
  {
    if c.Link? {
      SpellsIn(m, c.sub);
      ChainIn(m, d, c.up);
    }
  }

  /** The open link, and the other link of `d`, may change. */
  lemma LeftFrame(m: Pairs, m': Pairs, d: Node, c: Chain)
    requires NeatChain(c) && d !in OfChain(c) && d in m && d in m' && SpellsLeft(m, d, c)
    requires forall z <- OfChain(c) ::
      z in m && z in m' && m'[z].left == m[z].left && (m'[z].right == m[z].right || z == Tip(c, d))
    requires c.Link? ==> m'[d].right == m[d].right
    ensures SpellsLeft(m', d, c)
  {
    if c.Link? {
      SpellsFrame(m, m', c.sub);
      LeftFrame(m, m', d, c.up);
    }
  }

  lemma RightFrame(m: Pairs, m': Pairs, d: Node, c: Chain)
    requires NeatChain(c) && d !in OfChain(c) && d in m && d in m' && SpellsRight(m, d, c)
    requires forall z <- OfChain(c) ::
      z in m && z in m' && m'[z].right == m[z].right && (m'[z].left == m[z].left || z == Tip(c, d))
    requires c.Link? ==> m'[d].left == m[d].left
    ensures SpellsRight(m', d, c)
  {
    if c.Link? {
      SpellsFrame(m, m', c.sub);
      RightFrame(m, m', d, c.up);
    }
  }

  ghost function TurnRightLinks(m: Pairs, t: Bush): Pairs
    requires t.Twig? && t.left.Twig?
  {
    m[t.node := Pair(Top(t.left.right), Top(t.right))][t.left.node := Pair(Top(t.left.left), t.node)]
  }

  lemma TurnRightSplits(m: Pairs, d: Node, a: Chain, t: Bush, b: Chain)
    requires Splits(m, d, a, t, b) && t.Twig? && t.left.Twig?
    ensures Splits(TurnRightLinks(m, t), d, a, TurnedRight(t), b)
  {
    var m' := TurnRightLinks(m, t);
    ChainIn(m, d, a);
    ChainIn(m, d, b);
    SpellsIn(m, t);
    LeftFrame(m, m', d, a);
    RightFrame(m, m', d, b);
    var l := t.left;
    assert Spells(m, l) && Neat(l) && Of(t) == Of(l) + {t.node} + Of(t.right)
      && Of(l) == Of(l.left) + {l.node} + Of(l.right);
    SpellsFrame(m, m', l.left);
    SpellsFrame(m, m', l.right);
    SpellsFrame(m, m', t.right);
    TurnedRightInOrder(t);
  }

  ghost function TurnLeftLinks(m: Pairs, t: Bush): Pairs
    requires t.Twig? && t.right.Twig?
  {
    m[t.node := Pair(Top(t.left), Top(t.right.left))][t.right.node := Pair(t.node, Top(t.right.right))]
  }

  lemma TurnLeftSplits(m: Pairs, d: Node, a: Chain, t: Bush, b: Chain)
    requires Splits(m, d, a, t, b) && t.Twig? && t.right.Twig?
    ensures Splits(TurnLeftLinks(m, t), d, a, TurnedLeft(t), b)
  {
    var m' := TurnLeftLinks(m, t);
    ChainIn(m, d, a);
    ChainIn(m, d, b);
    SpellsIn(m, t);
    LeftFrame(m, m', d, a);
    RightFrame(m, m', d, b);
    var r := t.right;
    assert Spells(m, r) && Neat(r) && Of(t) == Of(t.left) + {t.node} + Of(r)
      && Of(r) == Of(r.left) + {r.node} + Of(r.right);
    SpellsFrame(m, m', t.left);
    SpellsFrame(m, m', r.left);
    SpellsFrame(m, m', r.right);
    TurnedLeftInOrder(t);
  }

  /** The root, with its right subtree, joins the right tree; the search goes on to its left. */
  lemma LinkLeftSplits(m: Pairs, d: Node, a: Chain, t: Bush, b: Chain)
    requires Splits(m, d, a, t, b) && t.Twig?
    ensures Tip(b, d) in m
    ensures Splits(m[Tip(b, d) := m[Tip(b, d)].(left := t.node)], d, a, t.left, Link(b, t.node, t.right))
  {
    ChainIn(m, d, a);
    ChainIn(m, d, b);
    SpellsIn(m, t);
    var m' := m[Tip(b, d) := m[Tip(b, d)].(left := t.node)];
    LeftFrame(m, m', d, a);
    RightFrame(m, m', d, b);
    SpellsFrame(m, m', t.left);
    SpellsFrame(m, m', t.right);
  }

  lemma LinkRightSplits(m: Pairs, d: Node, a: Chain, t: Bush, b: Chain)
    requires Splits(m, d, a, t, b) && t.Twig?
    ensures Tip(a, d) in m
    ensures Splits(m[Tip(a, d) := m[Tip(a, d)].(right := t.node)], d, Link(a, t.node, t.left), t.right, b)
  {
    ChainIn(m, d, a);
    ChainIn(m, d, b);
    SpellsIn(m, t);
    var m' := m[Tip(a, d) := m[Tip(a, d)].(right := t.node)];
    LeftFrame(m, m', d, a);
    RightFrame(m, m', d, b);
    SpellsFrame(m, m', t.left);
    SpellsFrame(m, m', t.right);
  }

  lemma {:induction false} CloseLeftSpells(m: Pairs, d: Node, c: Chain, t: Bush)
    requires d in m && SpellsLeft(m, d, c) && Spells(m, t) && Tip(c, d) in m && m[Tip(c, d)].right == Top(t)
    ensures Spells(m, CloseLeft(c, t)) && m[d].right == Top(CloseLeft(c, t))
  {
    if c.Link? {
      CloseLeftSpells(m, d, c.up, Twig(c.sub, c.node, t));
    }
  }

  lemma {:induction false} CloseRightSpells(m: Pairs, d: Node, c: Chain, t: Bush)
    requires d in m && SpellsRight(m, d, c) && Spells(m, t) && Tip(c, d) in m && m[Tip(c, d)].left == Top(t)
    ensures Spells(m, CloseRight(c, t)) && m[d].left == Top(CloseRight(c, t))
  {
    if c.Link? {
      CloseRightSpells(m, d, c.up, Twig(t, c.node, c.sub));
    }
  }

  lemma {:induction false} CloseLeftNeat(c: Chain, t: Bush)
    requires NeatChain(c) && Neat(t) && OfChain(c) !! Of(t)
    ensures Neat(CloseLeft(c, t))
  {
    if c.Link? {
      CloseLeftNeat(c.up, Twig(c.sub, c.node, t));
    }
  }

  lemma {:induction false} CloseRightNeat(c: Chain, t: Bush)
    requires NeatChain(c) && Neat(t) && OfChain(c) !! Of(t)
    ensures Neat(CloseRight(c, t))
  {
    if c.Link? {
      CloseRightNeat(c.up, Twig(t, c.node, c.sub));
    }
  }

  ghost function Assembled(a: Chain, t: Bush, b: Chain): Bush
    requires t.Twig?
  {
    Twig(CloseLeft(a, t.left), t.node, CloseRight(b, t.right))
  }

  /** SPLAY_ASSEMBLE on the links: `l` and `r` have the open ones, `x` is the root, `d` the local node. */
  ghost function Filled(m: Pairs, d: Node, l: Node, r: Node, x: Node): Pairs
    requires {d, l, r, x} <= m.Keys
  {
    map z | z in m ::
      if z == x then Pair(if d == l then m[x].left else m[d].right, if d == r then m[x].right else m[d].left)
      else Pair(if z == r then m[x].right else m[z].left, if z == l then m[x].left else m[z].right)
  }

  lemma AssembledIs(m: Pairs, d: Node, a: Chain, t: Bush, b: Chain)
    requires Splits(m, d, a, t, b) && t.Twig?
    ensures var s := Assembled(a, t, b);
      Neat(s) && Of(s) == OfChain(a) + Of(t) + OfChain(b) && InOrder(s) == Whole(a, t, b)
  {
    hide SpellsLeft, SpellsRight, Spells;
    assert Of(t) == Of(t.left) + {t.node} + Of(t.right);
    CloseLeftNeat(a, t.left);
    CloseRightNeat(b, t.right);
    CloseLeftInOrder(a, t.left);
    CloseRightInOrder(b, t.right);
    RegroupWhole(InLeft(a), InOrder(t.left), t.node, InOrder(t.right), InRight(b));
  }

  lemma AssembleSpells(m: Pairs, d: Node, a: Chain, t: Bush, b: Chain)
    requires Splits(m, d, a, t, b) && t.Twig?
    ensures {d, Tip(a, d), Tip(b, d), t.node} <= m.Keys
    ensures Spells(Filled(m, d, Tip(a, d), Tip(b, d), t.node), Assembled(a, t, b))
  {
    ChainIn(m, d, a);
    ChainIn(m, d, b);
    SpellsIn(m, t);
    var m' := Filled(m, d, Tip(a, d), Tip(b, d), t.node);
    LeftFrame(m, m', d, a);
    RightFrame(m, m', d, b);
    SpellsFrame(m, m', t.left);
    SpellsFrame(m, m', t.right);
    CloseLeftSpells(m', d, a, t.left);
    CloseRightSpells(m', d, b, t.right);
  }

  lemma RegroupWhole(a: seq<Node>, l: seq<Node>, x: Node, r: seq<Node>, b: seq<Node>)
    ensures (a + l) + [x] + (r + b) == a + (l + [x] + r) + b
  {
  }
}
