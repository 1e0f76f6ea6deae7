/** Whole calls, from their first step to their return: what a shutdown, a destroy, a create and a
    destroySession call have done by then, in every interleaving, and that the callbacks a created object was
    given do get called. */
module LifecycleCalls {
  import opened Lifecycle
  import opened LifecycleInvariant
  import opened LifecycleDispatcher
  import opened LifecycleSafety
  import opened LifecycleReach
  import opened LifecycleLimits

  // A thread and the steps of the others

  /** Only a thread's own steps move it. */
  lemma Stands(s: State, t: Tid, s': State)
    requires Next(s, s') && !ClientNext(s, t, s')
    ensures Pos(s', t) == Pos(s, t)
  {
    if DispatcherNext(s, s') || TeardownNext(s, s') {
      assert s'.threads == s.threads;
    } else {
      hide DispatcherNext, TeardownNext;
      var u :| ClientNext(s, u, s');
      ElseStands(s, u, s', t);
    }
  }

  lemma ElseStands(s: State, u: Tid, s': State, t: Tid)
    requires ClientNext(s, u, s') && u != t
    ensures Pos(s', t) == Pos(s, t)
  {
  }

  /** A thread in a call on one object takes the next step of the call, or its event is refused. */
  lemma NamedSteps(s: State, t: Tid, s': State)
    requires ClientNext(s, t, s') && Named(Pos(s, t))
    ensures Advance(s, t, s') || Refuse(s, t, s')
  {
    hide Advance, Refuse;
  }

  /** The callbacks, the closure and the place in the map stay. */
  ghost predicate Same(r: Rec, r': Rec) {
    Kept(r, r') && r'.closure == r.closure
  }

  lemma DoLocked(u: Tid, o: Obj, v: View, v': View, t: Tid)
    requires Named(v.pc) && v.pc.o == o && v' == Do(u, o, v) && Pair(u, v.pc, o, v.r, v.m)
    requires u != t && v.m == Client(t) && v.r.indexed && v.r.stage.Indexed?
    ensures Same(v.r, v'.r)
  {
  }

  lemma LockedAdvance(s: State, u: Tid, s': State, t: Tid, o: Obj)
    requires Advance(s, u, s') && Inv(s) && u != t
    requires o in s.objs && s.objs[o].indexed && s.maps.Of(s.objs[o].kind) == Client(t)
    ensures o in s'.objs && Same(s.objs[o], s'.objs[o])
  {
    var x := Pos(s, u).o;
    assert PairAt(s, u, x) && ObjAt(s, x);
    hide Inv, Do, Enabled, Pair, DispPair;
    if x == o {
      DoLocked(u, o, Look(s, u, o), Do(u, o, Look(s, u, o)), t);
    }
  }

  lemma LockedTake(s: State, u: Tid, left: set<Obj>, s': State, t: Tid, o: Obj)
    requires AllTake(s, u, left, s') && Inv(s) && u != t
    requires o in s.objs && s.objs[o].indexed && s.maps.Of(s.objs[o].kind) == Client(t)
    ensures o in s'.objs && Same(s.objs[o], s'.objs[o])
  {
    assert SoloAt(s, u);
    hide Inv;
  }

  lemma LockedElse(s: State, u: Tid, s': State, o: Obj)
    requires ClientNext(s, u, s') && !Advance(s, u, s') && !(exists left :: AllTake(s, u, left, s')) && o in s.objs
    ensures o in s'.objs && Same(s.objs[o], s'.objs[o])
  {
    hide Advance, AllTake;
  }

  lemma WorkedSame(o: Obj, d: Dpc, r: Rec)
    ensures Same(r, DispDo(o, d, r).1)
  {
  }

  lemma ServedSame(s: State, s': State, o: Obj)
    requires (DispatcherNext(s, s') || TeardownNext(s, s')) && o in s.objs
    ensures o in s'.objs && Same(s.objs[o], s'.objs[o])
  {
    if DispAdvance(s, s') {
      WorkedSame(s.disp.o, s.disp, s.objs[s.disp.o]);
      hide DispDo, DispEnabled, CanDestroy;
    } else {
      hide DispAdvance, CanDestroy;
    }
  }

  /** While a thread holds the lock of its map, an object in there stays as it is but for that thread. */
  lemma LockedStays(s: State, t: Tid, s': State, o: Obj)
    requires Next(s, s') && Inv(s) && !ClientNext(s, t, s')
    requires o in s.objs && s.objs[o].indexed && s.maps.Of(s.objs[o].kind) == Client(t)
    ensures o in s'.objs && Same(s.objs[o], s'.objs[o])
  {
    hide Inv, Same, Advance, AllTake, ClientNext, DispatcherNext, TeardownNext;
    if DispatcherNext(s, s') || TeardownNext(s, s') {
      ServedSame(s, s', o);
    } else {
      var u :| ClientNext(s, u, s');
      if Advance(s, u, s') {
        LockedAdvance(s, u, s', t, o);
      } else if left :| AllTake(s, u, left, s') {
        LockedTake(s, u, left, s', t, o);
      } else {
        LockedElse(s, u, s', o);
      }
    }
  }

  /** The step with which a thread leaves a position. */
  lemma {:induction false} Leaves(run: seq<State>, i: nat, j: nat, t: Tid) returns (k: nat)
    requires i < j < |run| && Pos(run[j], t) != Pos(run[i], t)
    ensures i <= k < j && (forall m :: i <= m <= k ==> Pos(run[m], t) == Pos(run[i], t))
    ensures Pos(run[k + 1], t) != Pos(run[i], t)
    decreases j
  {
    if k0 :| i < k0 < j && Pos(run[k0], t) != Pos(run[i], t) {
      k := Leaves(run, i, k0, t);
    } else {
      k := j - 1;
    }
  }

  /** From state `i` to state `j` thread `t` is inside one call, which returns at `j`. */
  ghost predicate OneCall(run: seq<State>, i: nat, j: nat, t: Tid)
    requires j < |run|
  {
    i < j && (forall k :: i <= k < j ==> !Pos(run[k], t).Idle?) && Pos(run[j], t).Idle?
  }

  lemma StepOf(run: seq<State>, k: nat)
    requires Run(run) && k + 1 < |run|
    ensures Next(run[k], run[k + 1]) && Inv(run[k])
  {
    RunInv(run, k);
    hide Next, Inv;
  }

  // A shutdown

  /** A shutdown that is going to find its object, or has found it. */
  ghost predicate Shuts(s: State, t: Tid, o: Obj) {
    && o in s.objs && s.objs[o].indexed
    && Shutdown(Pos(s, t)) && !Pos(s, t).ShutWait? && Pos(s, t).o == o
  }

  /** What a shutdown does not touch. */
  ghost predicate Beside(r: Rec, r': Rec) {
    r'.indexed == r.indexed && r'.err == r.err && r'.made == r.made && r'.closure == r.closure
  }

  lemma ShutsAdvance(s: State, t: Tid, s': State, o: Obj)
    requires Advance(s, t, s') && Inv(s) && Shuts(s, t, o)
    ensures o in s'.objs && Beside(s.objs[o], s'.objs[o])
    ensures Shuts(s', t, o) || (Pos(s, t) == ShutDone(o) && Pos(s', t).Idle? && !s'.objs[o].msg)
  {
    assert PairAt(s, t, o);
    hide Inv, Marks;
  }

  lemma ShutsStep(s: State, t: Tid, s': State, o: Obj)
    requires Next(s, s') && Inv(s) && Shuts(s, t, o)
    ensures o in s'.objs && Beside(s.objs[o], s'.objs[o])
    ensures Shuts(s', t, o) || (Pos(s, t) == ShutDone(o) && Pos(s', t).Idle? && !s'.objs[o].msg)
  {
    assert PairAt(s, t, o);
    hide Inv, Marks, Advance, Next, ClientNext;
    if ClientNext(s, t, s') {
      NamedSteps(s, t, s');
      ShutsAdvance(s, t, s', o);
    } else {
      Stands(s, t, s');
      LockedStays(s, t, s', o);
    }
  }

  lemma {:induction false} ShutsOn(run: seq<State>, i: nat, j: nat, t: Tid, o: Obj)
    requires Run(run) && i <= j < |run| && Shuts(run[i], t, o) && (forall k :: i <= k <= j ==> !Pos(run[k], t).Idle?)
    ensures Shuts(run[j], t, o) && Beside(run[i].objs[o], run[j].objs[o])
  {
    hide Run, Next, Inv;
    if i < j {
      ShutsOn(run, i, j - 1, t, o);
      StepOf(run, j - 1);
      ShutsStep(run[j - 1], t, run[j], o);
    }
  }

  /** A shutdown whose look into the map finds the object returns only after it has cleared the tick or message
      callbacks, and it leaves everything else of the object: for objects of every kind. */
  lemma FoundShutdown(run: seq<State>, i: nat, j: nat, t: Tid, o: Obj)
    requires Run(run) && j < |run| && OneCall(run, i, j, t)
    requires Pos(run[i], t) == ShutLook(o) && o in run[i].objs && run[i].objs[o].indexed
    ensures Pos(run[j - 1], t) == ShutDone(o)
    ensures o in run[j].objs && !run[j].objs[o].msg && Beside(run[i].objs[o], run[j].objs[o])
  {
    hide Run, Next, Inv;
    ShutsOn(run, i, j - 1, t, o);
    StepOf(run, j - 1);
    ShutsStep(run[j - 1], t, run[j], o);
  }

  // A call that looks its object up

  ghost function Lookup(pc: Pc): Pc {
    match pc
    case ShutWait(o) => ShutLook(o)
    case DestWait(o) => DestLook(o)
    case _ => pc
  }

  lemma WaitAdvance(s: State, t: Tid, s': State)
    requires Advance(s, t, s')
    ensures Pos(s, t).ShutWait? || Pos(s, t).DestWait? ==> Pos(s', t) == Lookup(Pos(s, t))
    ensures (Pos(s, t).ShutLook? || Pos(s, t).DestLook?) && !s.objs[Pos(s, t).o].indexed ==> Pos(s', t).Idle?
  {
  }

  lemma WaitStep(s: State, t: Tid, s': State)
    requires Next(s, s') && Inv(s) && Pos(s', t) != Pos(s, t)
    ensures Pos(s, t).ShutWait? || Pos(s, t).DestWait? ==> Pos(s', t) == Lookup(Pos(s, t))
    ensures Pos(s, t).ShutLook? || Pos(s, t).DestLook? ==>
      Pos(s, t).o in s.objs && (!s.objs[Pos(s, t).o].indexed ==> Pos(s', t).Idle?)
  {
    assert SoloAt(s, t);
    hide Inv, Advance, Next, ClientNext, Lookup;
    if !ClientNext(s, t, s') {
      Stands(s, t, s');
    } else if Named(Pos(s, t)) {
      NamedSteps(s, t, s');
      if Advance(s, t, s') {
        WaitAdvance(s, t, s');
      }
    }
  }

  lemma NamedIn(s: State, t: Tid)
    requires Inv(s) && Named(Pos(s, t))
    ensures Pos(s, t).o in s.objs
  {
    assert SoloAt(s, t);
  }

  lemma Missed(run: seq<State>, i: nat, j: nat, t: Tid, o: Obj)
    requires Run(run) && i <= j < |run| && (Pos(run[i], t) == ShutLook(o) || Pos(run[i], t) == DestLook(o))
    requires o in run[i].objs && !run[i].objs[o].indexed
    ensures o in run[j].objs && !run[j].objs[o].indexed
  {
    hide Run;
    RunInv(run, i);
    RunInv(run, j);
    RunOnward(run, i, j, o);
    assert PairAt(run[i], t, o) && ObjAt(run[i], o) && ObjAt(run[j], o);
    hide Inv, DispPair;
  }

  /** It gets to its look into the map; if that finds nothing, the call returns in its next step. */
  lemma LooksUp(run: seq<State>, i: nat, j: nat, t: Tid) returns (k: nat)
    requires Run(run) && j < |run| && OneCall(run, i, j, t) && (Pos(run[i], t).ShutWait? || Pos(run[i], t).DestWait?)
    ensures i < k < j && Pos(run[k], t) == Lookup(Pos(run[i], t)) && Pos(run[i], t).o in run[k].objs
    ensures !run[k].objs[Pos(run[i], t).o].indexed ==> forall m :: k <= m < j ==> Pos(run[m], t) == Pos(run[k], t)
  {
    hide Run, Next, Inv;
    k := Leaves(run, i, j, t);
    StepOf(run, k);
    WaitStep(run[k], t, run[k + 1]);
    k := k + 1;
    var n := Leaves(run, k, j, t);
    StepOf(run, n);
    WaitStep(run[n], t, run[n + 1]);
    var o := Pos(run[i], t).o;
    StepOf(run, k);
    NamedIn(run[k], t);
    if !run[k].objs[o].indexed {
      Missed(run, k, n, t, o);
    }
  }

  /** A whole shutdown. One whose look into the map finds the object has cleared the tick or message callbacks
      when it returns, of an object of any kind, and nothing else of it; from then on no such callback runs. */
  lemma ShutdownCall(run: seq<State>, i: nat, j: nat, t: Tid, o: Obj) returns (k: nat)
    requires Run(run) && j < |run| && OneCall(run, i, j, t) && Pos(run[i], t) == ShutWait(o)
    ensures i < k < j && Pos(run[k], t) == ShutLook(o) && o in run[k].objs
    ensures run[k].objs[o].indexed ==>
      && Pos(run[j - 1], t) == ShutDone(o)
      && o in run[j].objs && !run[j].objs[o].msg && Beside(run[k].objs[o], run[j].objs[o])
    ensures run[k].objs[o].indexed ==>
      forall m :: j <= m < |run| && InCallback(run[m], o) ==> !run[m].disp.n.Message?
    ensures !run[k].objs[o].indexed ==> forall m :: k <= m < j ==> Pos(run[m], t) == ShutLook(o)
  {
    hide Run, Beside;
    k := LooksUp(run, i, j, t);
    if run[k].objs[o].indexed {
      FoundShutdown(run, k, j, t, o);
      forall m | j <= m < |run| && InCallback(run[m], o) ensures !run[m].disp.n.Message? {
        SilentAfterShutdown(run, j - 1, m, t, o);
      }
    }
  }

  // A destroy call

  /** A destroy call that is going to find its object, or has taken it out of its map. */
  ghost predicate Destroys(s: State, t: Tid, o: Obj) {
    || (Pos(s, t) == DestLook(o) && o in s.objs && s.objs[o].indexed)
    || (Detached(Pos(s, t)) && Pos(s, t).o == o && Pos(s, t).next.Return?)
  }

  /** The object's events are over: it is silent and its destroy event is posted, or was refused for good. */
  ghost predicate Given(s: State, o: Obj, refused: bool) {
    && o in s.objs && Silent(s.objs[o]) && s.objs[o].closure == 0
    && (if refused then s.objs[o].stage.Stranded? else s.objs[o].stage.Queued? && o in s.queue)
  }

  lemma DestroysAdvance(s: State, t: Tid, s': State, o: Obj)
    requires Advance(s, t, s') && Inv(s) && Destroys(s, t, o)
    ensures Destroys(s', t, o)
         || (Pos(s, t) == Post(o, Return) && Pos(s', t).Idle? && Posts(s, s', o) && Given(s', o, false))
  {
    assert PairAt(s, t, o) && SoloAt(s, t);
    hide Inv, Marks;
    if Pos(s, t).Post? {
      assert s'.queue[|s.queue|] == o;
    }
  }

  lemma DestroysRefused(s: State, t: Tid, s': State, o: Obj)
    requires Refuse(s, t, s') && Inv(s) && Destroys(s, t, o)
    ensures Pos(s', t).Idle? && Given(s', o, true)
  {
    assert PairAt(s, t, o);
    hide Inv, Marks;
  }

  lemma DestroysStep(s: State, t: Tid, s': State, o: Obj)
    requires Next(s, s') && Inv(s) && Destroys(s, t, o)
    ensures Destroys(s', t, o) || (Pos(s, t) == Post(o, Return) && Pos(s', t).Idle? && Given(s', o, Refuse(s, t, s'))
                                   && (!Refuse(s, t, s') ==> Posts(s, s', o)))
  {
    assert SoloAt(s, t) && PairAt(s, t, o);
    hide Inv, Marks, Advance, Next, ClientNext, Given;
    if ClientNext(s, t, s') {
      NamedSteps(s, t, s');
      if Refuse(s, t, s') {
        DestroysRefused(s, t, s', o);
      } else {
        DestroysAdvance(s, t, s', o);
      }
    } else {
      Stands(s, t, s');
      if Pos(s, t).DestLook? {
        LockedStays(s, t, s', o);
      }
    }
  }

  lemma {:induction false} DestroysOn(run: seq<State>, i: nat, j: nat, t: Tid, o: Obj)
    requires Run(run) && i <= j < |run| && Destroys(run[i], t, o) && (forall k :: i <= k <= j ==> !Pos(run[k], t).Idle?)
    ensures Destroys(run[j], t, o)
  {
    hide Run, Next, Inv, Given;
    if i < j {
      DestroysOn(run, i, j - 1, t, o);
      StepOf(run, j - 1);
      DestroysStep(run[j - 1], t, run[j], o);
    }
  }

  /** A whole destroy call: if its look into the map finds the object, then when it returns the object is silent,
      its closure is gone, and its destroy event was enqueued in the call's last step, or refused then. */
  lemma DestroyCall(run: seq<State>, i: nat, j: nat, t: Tid, o: Obj) returns (k: nat)
    requires Run(run) && j < |run| && OneCall(run, i, j, t) && Pos(run[i], t) == DestWait(o)
    ensures i < k < j && Pos(run[k], t) == DestLook(o) && o in run[k].objs
    ensures run[k].objs[o].indexed ==> var refused := Refuse(run[j - 1], t, run[j]);
      Given(run[j], o, refused) && (!refused ==> Posts(run[j - 1], run[j], o))
    ensures !run[k].objs[o].indexed ==> forall m :: k <= m < j ==> Pos(run[m], t) == DestLook(o)
  {
    hide Run, Inv, Given, Next;
    k := LooksUp(run, i, j, t);
    if run[k].objs[o].indexed {
      DestroysOn(run, k, j - 1, t, o);
      StepOf(run, j - 1);
      DestroysStep(run[j - 1], t, run[j], o);
    }
  }

  // A create call

  /** The object is as it was created: nobody has cleared anything yet. */
  ghost predicate Intact(s: State, o: Obj, kind: Kind, err: bool, made: bool, closure: nat) {
    && o in s.objs && s.objs[o].kind == kind && s.objs[o].given == closure
    && s.objs[o].msg && s.objs[o].err == err && s.objs[o].made == made && s.objs[o].closure == closure
  }

  /** No shutdown or destroy call has got to the object. */
  ghost predicate Untouched(s: State, o: Obj) {
    && o in s.objs && (s.objs[o].stage.Making? || s.objs[o].stage.Indexed?)
    && (forall u :: Pos(s, u) != ShutClear(o))
  }

  lemma DoIntact(u: Tid, o: Obj, v: View, v': View)
    requires Named(v.pc) && v.pc.o == o && v' == Do(u, o, v) && Pair(u, v.pc, o, v.r, v.m)
    requires v.pc != ShutClear(o) && (v.r.stage.Making? || v.r.stage.Indexed?)
    ensures v'.r.msg == v.r.msg && v'.r.err == v.r.err && v'.r.made == v.r.made && v'.r.closure == v.r.closure
  {
    assert !v.pc.ShutClear? && !v.pc.Clear?;
    hide Pair;
  }

  lemma AdvanceIntact(s: State, u: Tid, s': State, o: Obj, kind: Kind, err: bool, made: bool, closure: nat)
    requires Advance(s, u, s') && Inv(s) && Intact(s, o, kind, err, made, closure) && Untouched(s, o)
    ensures Intact(s', o, kind, err, made, closure)
  {
    var x := Pos(s, u).o;
    assert PairAt(s, u, x);
    hide Inv, Do, Enabled, Pair;
    if x == o {
      DoIntact(u, o, Look(s, u, o), Do(u, o, Look(s, u, o)));
    }
  }

  lemma ClientIntact(s: State, u: Tid, s': State, o: Obj, kind: Kind, err: bool, made: bool, closure: nat)
    requires ClientNext(s, u, s') && !Advance(s, u, s') && Intact(s, o, kind, err, made, closure)
    ensures Intact(s', o, kind, err, made, closure)
  {
    hide Advance, AllTake;
    if left :| AllTake(s, u, left, s') {
      TakeIntact(s, u, left, s', o, kind, err, made, closure);
    }
  }

  lemma TakeIntact(s: State, u: Tid, left: set<Obj>, s': State, o: Obj, kind: Kind, err: bool, made: bool, closure: nat)
    requires AllTake(s, u, left, s') && Intact(s, o, kind, err, made, closure)
    ensures Intact(s', o, kind, err, made, closure)
  {
  }

  lemma ServedIntact(s: State, s': State, o: Obj, kind: Kind, err: bool, made: bool, closure: nat)
    requires (DispatcherNext(s, s') || TeardownNext(s, s')) && Intact(s, o, kind, err, made, closure)
    ensures Intact(s', o, kind, err, made, closure)
  {
    if DispAdvance(s, s') {
      WorkedSame(s.disp.o, s.disp, s.objs[s.disp.o]);
      hide DispTo, DispRec, DispEnabled, CanDestroy;
    } else {
      hide DispAdvance, CanDestroy;
    }
  }

  lemma IntactStep(s: State, s': State, o: Obj, kind: Kind, err: bool, made: bool, closure: nat)
    requires Next(s, s') && Inv(s) && Intact(s, o, kind, err, made, closure) && Untouched(s, o)
    ensures Intact(s', o, kind, err, made, closure)
  {
    hide Inv, Intact, Untouched, Advance, ClientNext, DispatcherNext, TeardownNext;
    if DispatcherNext(s, s') || TeardownNext(s, s') {
      ServedIntact(s, s', o, kind, err, made, closure);
    } else {
      var u :| ClientNext(s, u, s');
      if Advance(s, u, s') {
        AdvanceIntact(s, u, s', o, kind, err, made, closure);
      } else {
        ClientIntact(s, u, s', o, kind, err, made, closure);
      }
    }
  }

  lemma {:induction false} StaysIntact(run: seq<State>, i: nat, j: nat, o: Obj, kind: Kind, err: bool, made: bool,
                                       closure: nat)
    requires Run(run) && i <= j < |run| && Intact(run[i], o, kind, err, made, closure)
    requires forall k :: i <= k < j ==> Untouched(run[k], o)
    ensures Intact(run[j], o, kind, err, made, closure)
  {
    hide Run, Next, Inv, Intact, Untouched;
    if i < j {
      StaysIntact(run, i, j - 1, o, kind, err, made, closure);
      StepOf(run, j - 1);
      IntactStep(run[j - 1], run[j], o, kind, err, made, closure);
    }
  }

  /** A thread on its way from the native creation to the end of its create call. */
  ghost predicate Adds(s: State, t: Tid, o: Obj) {
    Creating(Pos(s, t)) && Pos(s, t).o == o
  }

  lemma AddsUntouched(s: State, t: Tid, o: Obj)
    requires Inv(s) && Adds(s, t, o)
    ensures Untouched(s, o) && (Pos(s, t) == Inserted(o) ==> s.objs[o].indexed)
  {
    assert SoloAt(s, t) && PairAt(s, t, o) && ObjAt(s, o);
    forall u ensures Pos(s, u) != ShutClear(o) {
      assert PairAt(s, u, o);
    }
  }

  lemma AddsAdvance(s: State, t: Tid, s': State, o: Obj)
    requires Advance(s, t, s') && Adds(s, t, o)
    ensures Adds(s', t, o) || (Pos(s, t) == Inserted(o) && Pos(s', t).Idle?
                               && o in s'.objs && o in s.objs && s'.objs[o] == s.objs[o].(known := true))
  {
  }

  lemma AddsStep(s: State, t: Tid, s': State, o: Obj)
    requires Next(s, s') && Adds(s, t, o)
    ensures Adds(s', t, o) || (Pos(s, t) == Inserted(o) && Pos(s', t).Idle?
                               && o in s'.objs && o in s.objs && s'.objs[o] == s.objs[o].(known := true))
  {
    hide Advance, Next, ClientNext;
    if ClientNext(s, t, s') {
      NamedSteps(s, t, s');
      AddsAdvance(s, t, s', o);
    } else {
      Stands(s, t, s');
    }
  }

  lemma {:induction false} AddsOn(run: seq<State>, i: nat, j: nat, t: Tid, o: Obj)
    requires Run(run) && i <= j < |run| && Adds(run[i], t, o) && (forall k :: i <= k <= j ==> !Pos(run[k], t).Idle?)
    ensures forall k :: i <= k <= j ==> Adds(run[k], t, o) && Untouched(run[k], o)
  {
    hide Run, Next, Inv, Untouched, Adds;
    if i < j {
      AddsOn(run, i, j - 1, t, o);
      StepOf(run, j - 1);
      AddsStep(run[j - 1], t, run[j], o);
    }
    RunInv(run, j);
    AddsUntouched(run[j], t, o);
  }

  lemma CreateAdds(s: State, t: Tid, o: Obj, kind: Kind, err: bool, made: bool, closure: nat, s': State)
    requires Create(s, t, o, kind, err, made, closure, s')
    ensures Adds(s', t, o) && Intact(s', o, kind, err, made, closure)
  {
  }

  /** A whole create call, from the native creation on: when it returns, the object is in its map with every
      callback and the closure it was given, and the caller has its handle. */
  lemma CreateCall(run: seq<State>, i: nat, j: nat, t: Tid, o: Obj, kind: Kind, err: bool, made: bool, closure: nat)
    requires Run(run) && j < |run| && i + 1 < j && Create(run[i], t, o, kind, err, made, closure, run[i + 1])
    requires OneCall(run, i + 1, j, t)
    ensures Intact(run[j], o, kind, err, made, closure) && run[j].objs[o].indexed && run[j].objs[o].known
  {
    hide Run, Next, Inv, Create, Untouched;
    CreateAdds(run[i], t, o, kind, err, made, closure, run[i + 1]);
    AddsOn(run, i + 1, j - 1, t, o);
    StaysIntact(run, i + 1, j - 1, o, kind, err, made, closure);
    StepOf(run, j - 1);
    AddsStep(run[j - 1], t, run[j], o);
    AddsUntouched(run[j - 1], t, o);
  }

  // destroySession

  /** A destroy event of the drained session is refused. */
  ghost predicate Refused(run: seq<State>, i: nat, j: nat, t: Tid)
    requires j < |run|
  {
    exists k: nat :: i <= k < j && Refuse(run[k], t, run[k + 1])
  }

  ghost predicate DrainsOn(s: State, t: Tid, ok: bool) {
    Drains(Pos(s, t)) && s.phase == Draining(t, ok)
  }

  lemma DrainsAdvance(s: State, t: Tid, s': State, ok: bool)
    requires Advance(s, t, s') && DrainsOn(s, t, ok)
    ensures DrainsOn(s', t, ok) && !Refuse(s, t, s')
  {
    var o := Pos(s, t).o;
    if Pos(s, t).Post? {
      assert s'.objs[o].stage.Queued?;
    }
  }

  lemma DrainsTurn(s: State, t: Tid, s': State, ok: bool)
    requires ClientNext(s, t, s') && !Advance(s, t, s') && DrainsOn(s, t, ok)
    ensures if Pos(s', t).Idle? then s'.phase == (if ok then Listed else Abandoned) && !Refuse(s, t, s')
            else DrainsOn(s', t, ok && !Refuse(s, t, s'))
  {
    hide Advance;
  }

  lemma DrainsElse(s: State, u: Tid, s': State, t: Tid, ok: bool)
    requires ClientNext(s, u, s') && u != t && Inv(s) && DrainsOn(s, t, ok)
    ensures s'.phase == s.phase
  {
    assert SoloAt(s, u);
    hide Inv, Advance;
  }

  lemma DrainsServed(s: State, s': State, t: Tid, ok: bool)
    requires (DispatcherNext(s, s') || TeardownNext(s, s')) && DrainsOn(s, t, ok)
    ensures s'.phase == s.phase
  {
  }

  lemma DrainsStep(s: State, t: Tid, s': State, ok: bool)
    requires Next(s, s') && Inv(s) && DrainsOn(s, t, ok)
    ensures if Pos(s', t).Idle? then s'.phase == (if ok then Listed else Abandoned) && !Refuse(s, t, s')
            else DrainsOn(s', t, ok && !Refuse(s, t, s'))
  {
    hide Inv, Advance, Refuse, DispatcherNext, TeardownNext;
    if ClientNext(s, t, s') {
      hide ClientNext;
      if Advance(s, t, s') {
        DrainsAdvance(s, t, s', ok);
      } else {
        DrainsTurn(s, t, s', ok);
      }
    } else {
      assert !Refuse(s, t, s');
      hide ClientNext;
      Stands(s, t, s');
      if DispatcherNext(s, s') || TeardownNext(s, s') {
        DrainsServed(s, s', t, ok);
      } else {
        var u :| ClientNext(s, u, s');
        DrainsElse(s, u, s', t, ok);
      }
    }
  }

  lemma {:induction false} StaysDraining(run: seq<State>, i: nat, j: nat, t: Tid)
    requires Run(run) && i <= j < |run| && DrainsOn(run[i], t, true)
    requires forall k :: i <= k <= j ==> !Pos(run[k], t).Idle?
    ensures DrainsOn(run[j], t, !Refused(run, i, j, t))
  {
    hide Run, Next, Inv, Refuse, DrainsOn;
    if i < j {
      StaysDraining(run, i, j - 1, t);
      StepOf(run, j - 1);
      DrainsStep(run[j - 1], t, run[j], !Refused(run, i, j - 1, t));
      RefusedMore(run, i, j, t);
    }
  }

  lemma RefusedMore(run: seq<State>, i: nat, j: nat, t: Tid)
    requires i < j < |run|
    ensures Refused(run, i, j, t) <==> Refused(run, i, j - 1, t) || Refuse(run[j - 1], t, run[j])
  {
    hide Refuse;
    if Refuse(run[j - 1], t, run[j]) {
      assert Refuse(run[j - 1], t, run[j - 1 + 1]);
    }
  }

  lemma AllStartDrains(s: State, t: Tid, s': State)
    requires AllStart(s, t, s')
    ensures DrainsOn(s', t, true)
  {
  }

  /** A whole destroySession call: when it returns no object is in a map, it holds none itself, and the session
      goes into the list of destroyed ones exactly if no destroy event of its objects was refused meanwhile. */
  lemma DestroySessionCall(run: seq<State>, i: nat, j: nat, t: Tid)
    requires Run(run) && i + 1 < j < |run| && AllStart(run[i], t, run[i + 1]) && OneCall(run, i + 1, j, t)
    ensures run[j].phase == if Refused(run, i + 1, j, t) then Abandoned else Listed
    ensures forall o <- run[j].objs ::
      !run[j].objs[o].indexed && run[j].objs[o].known && run[j].objs[o].stage != Held(t)
  {
    hide Run, Next, Inv, AllStart, Refuse, Refused;
    AllStartDrains(run[i], t, run[i + 1]);
    StaysDraining(run, i + 1, j - 1, t);
    StepOf(run, j - 1);
    DrainsStep(run[j - 1], t, run[j], !Refused(run, i + 1, j - 1, t));
    RefusedMore(run, i + 1, j, t);
    RunInv(run, j);
    forall o <- run[j].objs
      ensures !run[j].objs[o].indexed && run[j].objs[o].known && run[j].objs[o].stage != Held(t) {
      OutOfMaps(run[j], t, o);
    }
  }

  lemma OutOfMaps(s: State, t: Tid, o: Obj)
    requires Inv(s) && Pos(s, t).Idle? && !s.phase.Running? && !s.phase.Draining? && o in s.objs
    ensures !s.objs[o].indexed && s.objs[o].known && s.objs[o].stage != Held(t)
  {
    assert PairAt(s, t, o) && ObjAt(s, o);
  }
}
