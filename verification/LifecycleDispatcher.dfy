/** Every dispatcher and tear-down step keeps the invariant, and so does every step of the system. */
module LifecycleDispatcher {
  import opened Lifecycle
  import opened LifecycleInvariant
  import opened LifecycleClients

  // A step inside one event, seen by a client thread, by the object and by any other object

  lemma DispMarks(o: Obj, d: Dpc, r: Rec, d': Dpc, r': Rec, t: Tid, pc: Pc, m: Holder, p: Phase)
    requires !d.Ready? && d.o == o && DispEnabled(d, r) && DispDo(o, d, r) == (d', r')
    requires DispPair(d, o, r) && Self(r, p) && Pair(t, pc, o, r, m)
    ensures Pair(t, pc, o, r', m)
  {
  }

  lemma DispActor(o: Obj, d: Dpc, r: Rec, d': Dpc, r': Rec, p: Phase)
    requires !d.Ready? && d.o == o && DispEnabled(d, r) && DispDo(o, d, r) == (d', r')
    requires DispPair(d, o, r) && Self(r, p)
    ensures DispPair(d', o, r') && Self(r', p)
  {
  }

  lemma DispElse(o: Obj, d: Dpc, r: Rec, d': Dpc, r': Rec, x: Obj, q: Rec)
    requires !d.Ready? && d.o == o && DispDo(o, d, r) == (d', r') && x != o && DispPair(d, x, q)
    ensures DispPair(d', x, q)
  {
  }

  /** The dispatcher's steps change one object, and neither its kind nor its map. */
  ghost predicate Reworks(s: State, s': State, o: Obj) {
    && o in s.objs && o in s'.objs && s'.objs == s.objs[o := s'.objs[o]]
    && s'.threads == s.threads && s'.maps == s.maps && s'.phase == s.phase
    && s'.objs[o].kind == s.objs[o].kind && s'.objs[o].indexed == s.objs[o].indexed
  }

  lemma ReworksInv(s: State, s': State, o: Obj)
    requires Reworks(s, s', o) && Inv(s)
    ensures forall t :: SoloAt(s', t)
    ensures forall k :: MapOk(s', k)
    ensures DrainOk(s')
  {
    hide Pair, DispPair, Self, Solo, QueueOk;
    assert s'.objs.Keys == s.objs.Keys;
    forall t ensures SoloAt(s', t) {
      assert SoloAt(s, t);
    }
    forall k ensures MapOk(s', k) {
      assert MapOk(s, k);
    }
  }

  lemma DispAdvancePair(s: State, s': State, t: Tid, x: Obj)
    requires DispAdvance(s, s') && x in s'.objs && x in s.objs && PairAt(s, t, x)
    requires ObjAt(s, s.disp.o)
    ensures PairAt(s', t, x)
  {
    var (o, d, r) := (s.disp.o, s.disp, s.objs[s.disp.o]);
    var (d', r') := DispDo(o, d, r);
    hide Pair, DispPair, Self, DispDo, DispEnabled;
    if x == o {
      DispMarks(o, d, r, d', r', t, Pos(s, t), s.maps.Of(r.kind), s.phase);
    }
  }

  lemma DispAdvanceObj(s: State, s': State, x: Obj)
    requires DispAdvance(s, s') && x in s'.objs && x in s.objs && ObjAt(s, x)
    ensures ObjAt(s', x)
  {
    var (o, d, r) := (s.disp.o, s.disp, s.objs[s.disp.o]);
    var (d', r') := DispDo(o, d, r);
    hide Pair, DispPair, Self, DispDo, DispEnabled;
    if x == o {
      DispActor(o, d, r, d', r', s.phase);
    } else {
      DispElse(o, d, r, d', r', x, s.objs[x]);
    }
  }

  lemma DispAdvanceInv(s: State, s': State)
    requires DispAdvance(s, s') && Inv(s)
    ensures Inv(s')
  {
    hide Pair, DispPair, Self, Solo, DispDo, DispEnabled, QueueOk, MapOk, DrainOk;
    assert ObjAt(s, s.disp.o) && s'.objs.Keys == s.objs.Keys;
    DispQueue(s, s');
    ReworksInv(s, s', s.disp.o);
    forall t, x | x in s'.objs ensures PairAt(s', t, x) {
      assert PairAt(s, t, x);
      DispAdvancePair(s, s', t, x);
    }
    forall x | x in s'.objs ensures ObjAt(s', x) {
      assert ObjAt(s, x);
      DispAdvanceObj(s, s', x);
    }
  }

  lemma DispQueue(s: State, s': State)
    requires DispAdvance(s, s') && ObjAt(s, s.disp.o) && QueueOk(s.queue, s.objs)
    requires DispOk(s.disp, s.objs.Keys, s.phase)
    ensures QueueOk(s'.queue, s'.objs) && DispOk(s'.disp, s'.objs.Keys, s'.phase)
  {
    var (o, r) := (s.disp.o, s.objs[s.disp.o]);
    assert DispDo(o, s.disp, r).1.stage.Queued? <==> r.stage.Queued?;
  }

  lemma DeliverInv(s: State, o: Obj, n: Notice, s': State)
    requires Deliver(s, o, n, s') && Inv(s)
    ensures Inv(s')
  {
    hide Pair, Solo, QueueOk;
    forall t, x | x in s'.objs ensures PairAt(s', t, x) {
      assert PairAt(s, t, x);
    }
    forall x | x in s'.objs ensures ObjAt(s', x) {
      assert ObjAt(s, x);
    }
    forall t ensures SoloAt(s', t) {
      assert SoloAt(s, t);
    }
    forall k ensures MapOk(s', k) {
      assert MapOk(s, k);
    }
  }

  lemma DequeueQueue(s: State, s': State)
    requires Dequeue(s, s') && QueueOk(s.queue, s.objs)
    ensures QueueOk(s'.queue, s'.objs)
  {
    assert s.queue == [s.queue[0]] + s'.queue;
  }

  lemma DequeueObj(s: State, s': State, x: Obj)
    requires Dequeue(s, s') && QueueOk(s.queue, s.objs) && x in s'.objs && ObjAt(s, x)
    ensures ObjAt(s', x)
  {
  }

  lemma DequeueInv(s: State, s': State)
    requires Dequeue(s, s') && Inv(s)
    ensures Inv(s')
  {
    DequeueQueue(s, s');
    ReworksInv(s, s', s.queue[0]);
    assert s.objs[s.queue[0]].stage.Queued?;
    hide Owns, Makes, Creates, HoldsLock, HoldsGate, DispPair, Self, Solo, QueueOk, MapOk, DrainOk;
    forall t, x | x in s'.objs ensures PairAt(s', t, x) {
      assert PairAt(s, t, x);
    }
    forall x | x in s'.objs ensures ObjAt(s', x) {
      assert ObjAt(s, x);
      DequeueObj(s, s', x);
    }
  }

  lemma OnDestroyObj(s: State, o: Obj, s': State, x: Obj)
    requires OnDestroy(s, o, s') && x in s'.objs && ObjAt(s, x)
    ensures ObjAt(s', x)
  {
  }

  lemma OnDestroyInv(s: State, o: Obj, s': State)
    requires OnDestroy(s, o, s') && Inv(s)
    ensures Inv(s')
  {
    ReworksInv(s, s', o);
    assert QueueOk(s'.queue, s'.objs);
    hide Owns, Makes, Creates, HoldsLock, HoldsGate, DispPair, Self, Solo, QueueOk, MapOk, DrainOk;
    forall t, x | x in s'.objs ensures PairAt(s', t, x) {
      assert PairAt(s, t, x);
    }
    forall x | x in s'.objs ensures ObjAt(s', x) {
      assert ObjAt(s, x);
      OnDestroyObj(s, o, s', x);
    }
  }

  lemma TeardownInv(s: State, s': State)
    requires TeardownNext(s, s') && Inv(s)
    ensures Inv(s')
  {
    hide Pair, QueueOk;
    forall t, x | x in s'.objs ensures PairAt(s', t, x) {
      assert PairAt(s, t, x);
    }
    forall x | x in s'.objs ensures ObjAt(s', x) {
      assert ObjAt(s, x);
    }
    forall t ensures SoloAt(s', t) {
      assert SoloAt(s, t);
    }
    forall k ensures MapOk(s', k) {
      assert MapOk(s, k);
    }
  }

  /** Every step of the system, in every interleaving, keeps the invariant. */
  lemma NextInv(s: State, s': State)
    requires Next(s, s') && Inv(s)
    ensures Inv(s')
  {
    hide Inv;
    if TeardownNext(s, s') {
      TeardownInv(s, s');
    } else if DispatcherNext(s, s') {
      if DispAdvance(s, s') {
        DispAdvanceInv(s, s');
      } else if Dequeue(s, s') {
        DequeueInv(s, s');
      } else if o, n :| Deliver(s, o, n, s') {
        DeliverInv(s, o, n, s');
      } else {
        var o :| OnDestroy(s, o, s');
        OnDestroyInv(s, o, s');
      }
    } else {
      var t :| ClientNext(s, t, s');
      ClientInv(s, t, s');
    }
  }

  lemma ClientInv(s: State, t: Tid, s': State)
    requires ClientNext(s, t, s') && Inv(s)
    ensures Inv(s')
  {
    hide Inv, Advance, Refuse, AllStart, AllTurn, AllMap, AllCount, AllTake, AllPick, Create, Call;
    if Advance(s, t, s') {
      AdvanceInv(s, t, s');
    } else if Refuse(s, t, s') {
      RefuseInv(s, t, s');
    } else if AllStart(s, t, s') {
      AllStartInv(s, t, s');
    } else if AllTurn(s, t, s') {
      AllTurnInv(s, t, s');
    } else if AllMap(s, t, s') {
      AllMapInv(s, t, s');
    } else if AllCount(s, t, s') {
      AllCountInv(s, t, s');
    } else if left :| AllTake(s, t, left, s') {
      AllTakeInv(s, t, left, s');
    } else if o :| AllPick(s, t, o, s') {
      AllPickInv(s, t, o, s');
    } else if o :| Call(s, t, o, s') {
      CallInv(s, t, o, s');
    } else {
      var o, kind, err, made, closure :| Create(s, t, o, kind, err, made, closure, s');
      CreateInv(s, t, o, kind, err, made, closure, s');
    }
  }
}
