/** Every other client step keeps the invariant: starting a call, and running destroyAllEvents. */
module LifecycleClients {
  import opened Lifecycle
  import opened LifecycleInvariant

  lemma CreatePair(s: State, t: Tid, o: Obj, kind: Kind, err: bool, made: bool, closure: nat, s': State, u: Tid, x: Obj)
    requires Create(s, t, o, kind, err, made, closure, s') && Inv(s) && x in s'.objs
    ensures PairAt(s', u, x)
  {
    if x != o {
      assert PairAt(s, u, x);
    } else {
      assert SoloAt(s, u);
    }
  }

  lemma CreateInv(s: State, t: Tid, o: Obj, kind: Kind, err: bool, made: bool, closure: nat, s': State)
    requires Create(s, t, o, kind, err, made, closure, s') && Inv(s)
    ensures Inv(s')
  {
    forall u, x | x in s'.objs ensures PairAt(s', u, x) {
      CreatePair(s, t, o, kind, err, made, closure, s', u, x);
    }
    hide Pair, PairAt;
    forall x | x in s'.objs ensures ObjAt(s', x) {
      assert x != o ==> ObjAt(s, x);
    }
    forall u ensures SoloAt(s', u) {
      assert SoloAt(s, u);
    }
    forall k ensures MapOk(s', k) {
      assert MapOk(s, k);
    }
  }

  lemma CallPair(s: State, t: Tid, o: Obj, s': State, u: Tid, x: Obj)
    requires Call(s, t, o, s') && x in s'.objs && PairAt(s, u, x)
    ensures PairAt(s', u, x)
  {
  }

  lemma CallInv(s: State, t: Tid, o: Obj, s': State)
    requires Call(s, t, o, s') && Inv(s)
    ensures Inv(s')
  {
    hide Pair, DispPair, Self, QueueOk;
    forall u, x | x in s'.objs ensures PairAt(s', u, x) {
      CallPair(s, t, o, s', u, x);
    }
    forall x | x in s'.objs ensures ObjAt(s', x) {
      assert ObjAt(s, x);
    }
    forall u ensures SoloAt(s', u) {
      assert SoloAt(s, u);
    }
    forall k ensures MapOk(s', k) {
      assert MapOk(s, k);
    }
  }

  lemma AllStartPair(s: State, t: Tid, s': State, u: Tid, x: Obj)
    requires AllStart(s, t, s') && x in s'.objs && PairAt(s, u, x)
    ensures PairAt(s', u, x)
  {
  }

  /** No create call is under way, so every object's handle has been returned. */
  lemma AllStartObj(s: State, t: Tid, s': State, x: Obj)
    requires AllStart(s, t, s') && x in s'.objs && ObjAt(s, x) && PairAt(s, s.objs[x].maker, x)
    ensures ObjAt(s', x)
  {
    assert !Creating(Pos(s, s.objs[x].maker));
  }

  lemma AllStartInv(s: State, t: Tid, s': State)
    requires AllStart(s, t, s') && Inv(s)
    ensures Inv(s')
  {
    forall o | o in s'.objs ensures s'.objs[o].kind in [Inbox, Subscription, Timer] {
      match s'.objs[o].kind {
        case Inbox =>
        case Subscription =>
        case Timer =>
      }
    }
    forall u ensures SoloAt(s', u) {
      assert SoloAt(s, u);
    }
    hide Pair, DispPair, Self, Solo, QueueOk;
    forall u, x | x in s'.objs ensures PairAt(s', u, x) {
      AllStartPair(s, t, s', u, x);
    }
    forall x | x in s'.objs ensures ObjAt(s', x) {
      assert ObjAt(s, x) && PairAt(s, s.objs[x].maker, x);
      AllStartObj(s, t, s', x);
    }
    forall k ensures MapOk(s', k) {
      assert MapOk(s, k);
    }
  }

  lemma AllTurnPair(s: State, t: Tid, s': State, u: Tid, x: Obj)
    requires AllTurn(s, t, s') && x in s'.objs && PairAt(s, u, x)
    ensures PairAt(s', u, x)
  {
  }

  lemma AllTurnObj(s: State, t: Tid, s': State, x: Obj)
    requires AllTurn(s, t, s') && x in s'.objs && ObjAt(s, x) && SoloAt(s, t) && DrainOk(s)
    ensures ObjAt(s', x)
  {
  }

  lemma AllTurnSolo(s: State, t: Tid, s': State, u: Tid)
    requires AllTurn(s, t, s') && SoloAt(s, t) && SoloAt(s, u)
    ensures SoloAt(s', u)
  {
  }

  lemma AllTurnInv(s: State, t: Tid, s': State)
    requires AllTurn(s, t, s') && Inv(s)
    ensures Inv(s')
  {
    hide Solo;
    assert SoloAt(s, t);
    forall u ensures SoloAt(s', u) {
      assert SoloAt(s, u);
      AllTurnSolo(s, t, s', u);
    }
    hide Pair, DispPair, Self, Solo, QueueOk;
    forall u, x | x in s'.objs ensures PairAt(s', u, x) {
      AllTurnPair(s, t, s', u, x);
    }
    forall x | x in s'.objs ensures ObjAt(s', x) {
      assert ObjAt(s, x);
      AllTurnObj(s, t, s', x);
    }
    forall k ensures MapOk(s', k) {
      assert MapOk(s, k);
    }
  }

  lemma AllMapPair(s: State, t: Tid, s': State, u: Tid, x: Obj)
    requires AllMap(s, t, s') && x in s'.objs && PairAt(s, u, x)
    ensures PairAt(s', u, x)
  {
  }

  lemma AllMapInv(s: State, t: Tid, s': State)
    requires AllMap(s, t, s') && Inv(s)
    ensures Inv(s')
  {
    assert SoloAt(s, t);
    hide Pair, DispPair, Self, QueueOk;
    forall u, x | x in s'.objs ensures PairAt(s', u, x) {
      AllMapPair(s, t, s', u, x);
    }
    forall x | x in s'.objs ensures ObjAt(s', x) {
      assert ObjAt(s, x);
    }
    forall u ensures SoloAt(s', u) {
      assert SoloAt(s, u);
    }
    forall k ensures MapOk(s', k) {
      assert MapOk(s, k);
    }
  }

  lemma AllCountPair(s: State, t: Tid, s': State, u: Tid, x: Obj)
    requires AllCount(s, t, s') && x in s'.objs && PairAt(s, u, x)
    ensures PairAt(s', u, x)
  {
  }

  lemma AllCountInv(s: State, t: Tid, s': State)
    requires AllCount(s, t, s') && Inv(s)
    ensures Inv(s')
  {
    assert SoloAt(s, t);
    hide Pair, DispPair, Self, QueueOk;
    forall u, x | x in s'.objs ensures PairAt(s', u, x) {
      AllCountPair(s, t, s', u, x);
    }
    forall x | x in s'.objs ensures ObjAt(s', x) {
      assert ObjAt(s, x);
    }
    forall u ensures SoloAt(s', u) {
      assert SoloAt(s, u);
    }
    forall k ensures MapOk(s', k) {
      assert MapOk(s, k);
    }
  }

  /** A refused object is out of everyone's hands. */
  lemma RefusePair(s: State, t: Tid, s': State, u: Tid, x: Obj)
    requires Refuse(s, t, s') && x in s'.objs && PairAt(s, u, x) && PairAt(s, t, x) && SoloAt(s, t)
    ensures PairAt(s', u, x)
  {
  }

  lemma RefuseObj(s: State, t: Tid, s': State, x: Obj)
    requires Refuse(s, t, s') && x in s'.objs && ObjAt(s, x) && PairAt(s, t, x)
    ensures ObjAt(s', x)
  {
  }

  lemma RefuseQueue(s: State, t: Tid, s': State)
    requires Refuse(s, t, s') && QueueOk(s.queue, s.objs) && PairAt(s, t, Pos(s, t).o)
    ensures QueueOk(s'.queue, s'.objs)
  {
    assert s.objs[Pos(s, t).o].stage == Held(t);
  }

  lemma RefuseDrain(s: State, t: Tid, s': State)
    requires Refuse(s, t, s') && DrainOk(s) && SoloAt(s, t)
    ensures DrainOk(s')
  {
  }

  lemma RefuseSolo(s: State, t: Tid, s': State, u: Tid)
    requires Refuse(s, t, s') && SoloAt(s, t) && SoloAt(s, u)
    ensures SoloAt(s', u)
  {
    assert s'.objs.Keys == s.objs.Keys;
  }

  lemma RefuseInv(s: State, t: Tid, s': State)
    requires Refuse(s, t, s') && Inv(s)
    ensures Inv(s')
  {
    hide Pair, DispPair, Self, Solo, QueueOk, DrainOk;
    var o := Pos(s, t).o;
    assert SoloAt(s, t) && PairAt(s, t, o) && s'.objs.Keys == s.objs.Keys;
    RefuseQueue(s, t, s');
    RefuseDrain(s, t, s');
    forall u ensures SoloAt(s', u) {
      assert SoloAt(s, u);
      RefuseSolo(s, t, s', u);
    }
    forall u, x | x in s'.objs ensures PairAt(s', u, x) {
      assert PairAt(s, u, x) && PairAt(s, t, x);
      RefusePair(s, t, s', u, x);
    }
    forall x | x in s'.objs ensures ObjAt(s', x) {
      assert ObjAt(s, x) && PairAt(s, t, x);
      RefuseObj(s, t, s', x);
    }
    forall k ensures MapOk(s', k) {
      assert MapOk(s, k);
    }
  }

  /** The drainer holds the lock of the map, so no other thread is in the middle of a call in it. */
  lemma AllTakePair(s: State, t: Tid, left: set<Obj>, s': State, u: Tid, x: Obj)
    requires AllTake(s, t, left, s') && x in s'.objs && PairAt(s, u, x) && PairAt(s, t, x)
    requires SoloAt(s, t) && Self(s.objs[x], s.phase)
    ensures PairAt(s', u, x)
  {
    var k := Pos(s, t).kinds[0];
    var r := s.objs[x];
    if r.indexed && r.kind == k && u != t && Named(Pos(s, u)) && Pos(s, u).o == x {
      assert !InMap(Pos(s, u));
    }
  }

  lemma AllTakeObj(s: State, t: Tid, left: set<Obj>, s': State, x: Obj)
    requires AllTake(s, t, left, s') && x in s'.objs && ObjAt(s, x) && SoloAt(s, t)
    ensures ObjAt(s', x)
  {
  }

  lemma AllTakeDrain(s: State, t: Tid, left: set<Obj>, s': State)
    requires AllTake(s, t, left, s') && SoloAt(s, t) && DrainOk(s)
    ensures DrainOk(s')
  {
    var kinds := Pos(s, t).kinds;
    assert kinds == [kinds[0]] + kinds[1..];
    forall o | o in s'.objs && s'.objs[o].indexed ensures s'.objs[o].kind in kinds[1..] {
      assert s.objs[o].indexed && s.objs[o].kind in kinds && s.objs[o].kind != kinds[0];
    }
  }

  lemma AllTakeQueue(s: State, t: Tid, left: set<Obj>, s': State)
    requires AllTake(s, t, left, s') && QueueOk(s.queue, s.objs) && (forall o <- s.objs :: ObjAt(s, o))
    ensures QueueOk(s'.queue, s'.objs)
  {
    hide DispPair;
    forall o | o in s.objs ensures s'.objs[o].stage.Queued? <==> s.objs[o].stage.Queued? {
      assert ObjAt(s, o);
    }
  }

  lemma AllTakeSolo(s: State, t: Tid, left: set<Obj>, s': State, u: Tid)
    requires AllTake(s, t, left, s') && SoloAt(s, t) && SoloAt(s, u)
    ensures SoloAt(s', u)
  {
    assert s'.objs.Keys == s.objs.Keys;
  }

  lemma AllTakeMap(s: State, t: Tid, left: set<Obj>, s': State, k: Kind)
    requires AllTake(s, t, left, s') && MapOk(s, k)
    ensures MapOk(s', k)
  {
  }

  lemma AllTakeInv(s: State, t: Tid, left: set<Obj>, s': State)
    requires AllTake(s, t, left, s') && Inv(s)
    ensures Inv(s')
  {
    assert SoloAt(s, t);
    assert s'.objs.Keys == s.objs.Keys;
    AllTakeDrain(s, t, left, s');
    AllTakeQueue(s, t, left, s');
    hide Pair, DispPair, Self, Solo, MapOk, DrainOk, QueueOk;
    forall u, x | x in s'.objs ensures PairAt(s', u, x) {
      assert ObjAt(s, x) && PairAt(s, u, x) && PairAt(s, t, x);
      AllTakePair(s, t, left, s', u, x);
    }
    forall x | x in s'.objs ensures ObjAt(s', x) {
      assert ObjAt(s, x);
      AllTakeObj(s, t, left, s', x);
    }
    forall u ensures SoloAt(s', u) {
      assert SoloAt(s, u);
      AllTakeSolo(s, t, left, s', u);
    }
    forall k ensures MapOk(s', k) {
      assert MapOk(s, k);
      AllTakeMap(s, t, left, s', k);
    }
  }

  lemma AllPickPair(s: State, t: Tid, o: Obj, s': State, u: Tid, x: Obj)
    requires AllPick(s, t, o, s') && x in s'.objs && PairAt(s, u, x) && PairAt(s, t, x) && Self(s.objs[x], s.phase)
    ensures PairAt(s', u, x)
  {
  }

  lemma AllPickInv(s: State, t: Tid, o: Obj, s': State)
    requires AllPick(s, t, o, s') && Inv(s)
    ensures Inv(s')
  {
    assert SoloAt(s, t);
    hide Pair, DispPair, Self, QueueOk;
    forall u, x | x in s'.objs ensures PairAt(s', u, x) {
      assert ObjAt(s, x) && PairAt(s, u, x) && PairAt(s, t, x);
      AllPickPair(s, t, o, s', u, x);
    }
    forall x | x in s'.objs ensures ObjAt(s', x) {
      assert ObjAt(s, x);
    }
    forall u ensures SoloAt(s', u) {
      assert SoloAt(s, u);
    }
    forall k ensures MapOk(s', k) {
      assert MapOk(s, k);
    }
  }
}
