/** What every run of the life cycle promises: no use of freed memory, one destroy event and one free
    per object, silence after destroy and shutdown, the timer's hand-off, no deadlock, nothing dropped. */
module LifecycleSafety {
  import opened Lifecycle
  import opened LifecycleInvariant
  import opened LifecycleDispatcher

  ghost predicate Run(run: seq<State>) {
    && run != [] && Init(run[0])
    && (forall i :: 0 <= i < |run| - 1 ==> Next(run[i], run[i + 1]))
  }

  lemma {:induction false} RunInv(run: seq<State>, i: nat)
    requires Run(run) && i < |run|
    ensures Inv(run[i])
  {
    if i == 0 {
      InitInv(run[0]);
    } else {
      RunInv(run, i - 1);
      NextInv(run[i - 1], run[i]);
    }
  }

  // Memory safety

  /** The thread is about to read or write the object, holds one of its locks, or waits for one. A call
      that still has to look its handle up in a map touches nothing but the map. */
  ghost predicate Touches(pc: Pc, o: Obj) {
    || (Named(pc) && pc.o == o && !pc.ShutWait? && !pc.ShutLook? && !pc.DestWait? && !pc.DestLook?)
    || o in Left(pc)
  }

  ghost predicate DispTouches(d: Dpc, o: Obj) {
    !d.Ready? && d.o == o
  }

  /** In every interleaving no thread touches freed memory, and no destroy event refers to it. An object
      that is in its map is alive, has no destroy event pending, and no thread is destroying it. */
  lemma NoUseAfterFree(run: seq<State>, i: nat, o: Obj)
    requires Run(run) && i < |run|
    ensures forall t :: Touches(Pos(run[i], t), o) ==> o in run[i].objs && !run[i].objs[o].freed
    ensures DispTouches(run[i].disp, o) ==> o in run[i].objs && !run[i].objs[o].freed
    ensures o in run[i].queue ==> o in run[i].objs && !run[i].objs[o].freed
    ensures o in run[i].objs && run[i].objs[o].indexed ==>
              && !run[i].objs[o].freed && run[i].objs[o].native && o !in run[i].queue
              && (forall t :: !Owns(Pos(run[i], t), o)) && !Ending(run[i].disp, o)
  {
    var s := run[i];
    RunInv(run, i);
    forall t ensures Touches(Pos(s, t), o) ==> o in s.objs && !s.objs[o].freed
                     ensures o in s.objs && s.objs[o].indexed ==> !Owns(Pos(s, t), o)
    {
      assert SoloAt(s, t);
      if o in s.objs {
        assert PairAt(s, t, o) && ObjAt(s, o);
        TouchedAlive(s, t, o);
      }
    }
    if o in s.objs {
      assert ObjAt(s, o);
      hide Pair;
    }
  }

  lemma TouchedAlive(s: State, t: Tid, o: Obj)
    requires o in s.objs && PairAt(s, t, o) && Self(s.objs[o], s.phase)
    ensures Touches(Pos(s, t), o) ==> !s.objs[o].freed
    ensures s.objs[o].indexed ==> !Owns(Pos(s, t), o)
  {
  }

  // An object only moves forward

  /** The destroy event has been enqueued. */
  ghost predicate Posted(s: State, o: Obj) {
    o in s.objs && Late(s.objs[o])
  }

  ghost predicate Late(r: Rec) {
    r.stage.Queued? || Finished(r)
  }

  ghost predicate Freed(s: State, o: Obj) {
    o in s.objs && s.objs[o].freed
  }

  ghost function Rank(stage: Stage): nat {
    match stage
    case Making(_) => 0
    case Indexed => 1
    case Held(_) => 2
    case Queued => 3
    case Dying => 4
    case Ended => 5
    case Stranded => 6
  }

  ghost predicate Onward(r: Rec, r': Rec) {
    && SameIdentity(r, r') && Rank(r.stage) <= Rank(r'.stage)
    && (Late(r) ==> Late(r')) && (r.stage.Stranded? ==> r'.stage.Stranded?)
    && (r'.msg ==> r.msg) && (r'.err ==> r.err) && (r'.made ==> r.made)
    && (r.known ==> r'.known) && (r.freed ==> r'.freed)
  }

  /** One step appends this object to the queue. */
  ghost predicate Posts(s: State, s': State, o: Obj) {
    s'.queue == s.queue + [o]
  }

  /** One step frees this object. */
  ghost predicate Frees(s: State, s': State, o: Obj) {
    s.disp == EndFree(o) && DispAdvance(s, s')
  }

  /** What one step does to an object it may or may not be about. */
  ghost predicate StepOk(s: State, s': State, o: Obj) {
    && (o in s.objs ==> o in s'.objs && Onward(s.objs[o], s'.objs[o]))
    && (Posted(s, o) ==> Posted(s', o)) && (Posts(s, s', o) <==> !Posted(s, o) && Posted(s', o))
    && (Freed(s, o) ==> Freed(s', o)) && (Frees(s, s', o) <==> !Freed(s, o) && Freed(s', o))
  }

  lemma DoStep(t: Tid, o: Obj, v: View, v': View, p: Phase)
    requires Named(v.pc) && v.pc.o == o && v' == Do(t, o, v) && Pair(t, v.pc, o, v.r, v.m) && Self(v.r, p)
    ensures Onward(v.r, v'.r) && v'.r.freed == v.r.freed
    ensures Late(v'.r) <==> Late(v.r) || v.pc.Post?
    ensures v.pc.Post? ==> !Late(v.r) && v'.queue == v.queue + [o]
    ensures !v.pc.Post? ==> v'.queue == v.queue
  {
  }

  lemma AdvanceStep(s: State, t: Tid, s': State, o: Obj)
    requires Advance(s, t, s') && Inv(s)
    ensures StepOk(s, s', o)
  {
    var x := Pos(s, t).o;
    var v := Look(s, t, x);
    assert PairAt(s, t, x) && ObjAt(s, x);
    DoStep(t, x, v, Do(t, x, v), s.phase);
    assert o in s.objs ==> Onward(s.objs[o], s.objs[o]);
    hide Inv, Pair, DispPair, Self, Do, Enabled, Onward;
    if Posts(s, s', o) {
      assert s'.queue[|s.queue|] == o;
    }
  }

  lemma DispAdvanceStep(s: State, s': State, o: Obj)
    requires DispAdvance(s, s') && Inv(s)
    ensures StepOk(s, s', o)
  {
    assert ObjAt(s, s.disp.o);
    hide Inv, Pair;
  }

  lemma DequeueStep(s: State, s': State, o: Obj)
    requires Dequeue(s, s') && Inv(s)
    ensures StepOk(s, s', o)
  {
    assert ObjAt(s, s.queue[0]);
    assert s.objs[s.queue[0]].stage.Queued?;
    hide Inv, Pair, DispAdvance;
    assert |s'.queue| < |s.queue|;
  }

  lemma DispatcherStep(s: State, s': State, o: Obj)
    requires DispatcherNext(s, s') && Inv(s) && !DispAdvance(s, s')
    ensures StepOk(s, s', o)
  {
    if x :| OnDestroy(s, x, s') {
      assert ObjAt(s, x);
      hide Inv, Pair, DispAdvance;
    } else if Dequeue(s, s') {
      hide Inv, StepOk, Dequeue;
      DequeueStep(s, s', o);
    } else {
      hide Inv, Dequeue, OnDestroy, DispAdvance;
    }
  }

  lemma RefuseStep(s: State, t: Tid, s': State, o: Obj)
    requires Refuse(s, t, s') && Inv(s)
    ensures StepOk(s, s', o)
  {
    assert SoloAt(s, t) && PairAt(s, t, Pos(s, t).o);
    assert s.objs[Pos(s, t).o].stage == Held(t);
    hide Inv, Pair, Solo;
    assert s'.queue == s.queue;
  }

  lemma TakeStep(s: State, t: Tid, left: set<Obj>, s': State, o: Obj)
    requires AllTake(s, t, left, s') && Inv(s)
    ensures StepOk(s, s', o)
  {
    if o in s.objs {
      assert ObjAt(s, o);
    }
    hide Inv, Pair;
    assert |s'.queue| == |s.queue|;
  }

  lemma OtherStep(s: State, t: Tid, s': State, o: Obj)
    requires ClientNext(s, t, s') && !Advance(s, t, s') && !Refuse(s, t, s')
      && !(exists left :: AllTake(s, t, left, s'))
    ensures StepOk(s, s', o)
  {
    hide Advance, Refuse, AllTake;
    assert s'.queue == s.queue;
  }

  lemma Step(s: State, s': State, o: Obj)
    requires Next(s, s') && Inv(s)
    ensures StepOk(s, s', o)
  {
    hide Inv, StepOk, Advance, Refuse, AllTake;
    if TeardownNext(s, s') {
      assert StepOk(s, s', o) by { TeardownStep(s, s', o); }
    } else if DispAdvance(s, s') {
      DispAdvanceStep(s, s', o);
    } else if DispatcherNext(s, s') {
      DispatcherStep(s, s', o);
    } else {
      var t :| ClientNext(s, t, s');
      if Advance(s, t, s') {
        AdvanceStep(s, t, s', o);
      } else if Refuse(s, t, s') {
        RefuseStep(s, t, s', o);
      } else if left :| AllTake(s, t, left, s') {
        TakeStep(s, t, left, s', o);
      } else {
        OtherStep(s, t, s', o);
      }
    }
  }

  lemma TeardownStep(s: State, s': State, o: Obj)
    requires TeardownNext(s, s') && Inv(s)
    ensures StepOk(s, s', o)
  {
    hide Inv;
  }

  // At most one destroy event and one free per object

  /** How many steps of the run enqueue a destroy event for the object. */
  ghost function PostCount(run: seq<State>, o: Obj): nat {
    if |run| < 2 then 0
    else PostCount(run[..|run| - 1], o) + if Posts(run[|run| - 2], run[|run| - 1], o) then 1 else 0
  }

  /** How many steps of the run free the object. */
  ghost function FreeCount(run: seq<State>, o: Obj): nat {
    if |run| < 2 then 0
    else FreeCount(run[..|run| - 1], o) + if Frees(run[|run| - 2], run[|run| - 1], o) then 1 else 0
  }

  lemma FreedWasPosted(s: State, o: Obj)
    requires Inv(s)
    ensures Freed(s, o) ==> Posted(s, o)
  {
    if o in s.objs {
      assert ObjAt(s, o);
    }
  }

  lemma RunPrefix(run: seq<State>)
    requires Run(run) && |run| > 1
    ensures Run(run[..|run| - 1]) && Next(run[|run| - 2], run[|run| - 1])
  {
    hide Next;
    assert Next(run[|run| - 2], run[|run| - 2 + 1]);
  }

  /** Over any run an object gets at most one destroy event and is freed at most once, and the counts
      say exactly how far it is. */
  lemma {:induction false} OnceEach(run: seq<State>, o: Obj)
    requires Run(run)
    ensures PostCount(run, o) == if Posted(run[|run| - 1], o) then 1 else 0
    ensures FreeCount(run, o) == if Freed(run[|run| - 1], o) then 1 else 0
    ensures FreeCount(run, o) <= PostCount(run, o)
  {
    hide Next, Inv, Posts, Frees, Onward;
    RunInv(run, |run| - 1);
    FreedWasPosted(run[|run| - 1], o);
    if |run| > 1 {
      RunPrefix(run);
      RunInv(run, |run| - 2);
      Step(run[|run| - 2], run[|run| - 1], o);
      hide Run, Posted, Freed;
      var before := run[..|run| - 1];
      OnceEach(before, o);
      assert before[|before| - 1] == run[|run| - 2];
    }
  }

  /** The creation closure, the kind and every step already taken stay; cleared callbacks stay cleared. */
  lemma {:induction false} RunOnward(run: seq<State>, i: nat, j: nat, o: Obj)
    requires Run(run) && i <= j < |run| && o in run[i].objs
    ensures o in run[j].objs && Onward(run[i].objs[o], run[j].objs[o])
  {
    hide Next, Inv;
    if i < j {
      RunOnward(run, i, j - 1, o);
      RunInv(run, j - 1);
      assert Next(run[j - 1], run[j - 1 + 1]);
      Step(run[j - 1], run[j], o);
    }
  }

  // Silence

  /** A user callback on the object is running. */
  ghost predicate InCallback(s: State, o: Obj) {
    s.disp.CbUser? && s.disp.o == o
  }

  /** A destroyer that has cleared the callbacks, or has returned: from then on no user callback on the
      object is running, and none ever starts. */
  lemma SilentAfterDestroy(run: seq<State>, i: nat, j: nat, t: Tid, o: Obj)
    requires Run(run) && i <= j < |run|
    requires (Cleared(Pos(run[i], t)) && Pos(run[i], t).o == o) || Posted(run[i], o)
    ensures !InCallback(run[j], o)
  {
    RunInv(run, i);
    assert SoloAt(run[i], t) && PairAt(run[i], t, o) && ObjAt(run[i], o);
    assert Silent(run[i].objs[o]);
    RunOnward(run, i, j, o);
    RunInv(run, j);
    assert ObjAt(run[j], o);
  }

  /** The call that enqueued the destroy event has done so when it returns. */
  lemma DestroyReturns(s: State, t: Tid, s': State)
    requires Advance(s, t, s') && Inv(s) && Pos(s, t).Post?
    ensures Posted(s', Pos(s, t).o)
    ensures Pos(s', t) == (match Pos(s, t).next case Return => Idle case Rest(l, k) => AllNext(l, k))
    ensures s'.queue == s.queue + [Pos(s, t).o]
  {
  }

  /** An object whose destroy event has been enqueued. */
  lemma QuietOncePosted(run: seq<State>, i: nat, j: nat, o: Obj)
    requires Run(run) && i <= j < |run| && Posted(run[i], o)
    ensures !InCallback(run[j], o) && Posted(run[j], o) && PostCount(run[..j + 1], o) == 1
  {
    hide Run, PostCount, FreeCount, Posted, InCallback, Cleared, Frees, Posts;
    SilentAfterDestroy(run, i, j, 0, o);
    PostedStays(run, i, j, o);
    RunTake(run, j + 1);
    OnceEach(run[..j + 1], o);
    assert run[..j + 1][j] == run[j];
  }

  /** After the step with which a destroyer posts the object, and so at any time after its call returned,
      the destroy event is the object's only one and no user callback on the object runs. */
  lemma QuietAfterReturn(run: seq<State>, i: nat, j: nat, t: Tid)
    requires Run(run) && i < j < |run| && Pos(run[i], t).Post? && Advance(run[i], t, run[i + 1])
    ensures run[i + 1].queue == run[i].queue + [Pos(run[i], t).o]
    ensures !InCallback(run[j], Pos(run[i], t).o) && PostCount(run[..j + 1], Pos(run[i], t).o) == 1
  {
    hide Run, PostCount, Posted, InCallback;
    RunInv(run, i);
    DestroyReturns(run[i], t, run[i + 1]);
    QuietOncePosted(run, i + 1, j, Pos(run[i], t).o);
  }

  lemma PostedStays(run: seq<State>, i: nat, j: nat, o: Obj)
    requires Run(run) && i <= j < |run| && Posted(run[i], o)
    ensures Posted(run[j], o)
  {
    hide Run;
    RunOnward(run, i, j, o);
  }

  lemma RunTake(run: seq<State>, n: nat)
    requires Run(run) && 0 < n <= |run|
    ensures Run(run[..n])
  {
    hide Next;
    var now := run[..n];
    forall k | 0 <= k < |now| - 1 ensures Next(now[k], now[k + 1]) {
      assert Next(run[k], run[k + 1]);
    }
  }

  /** The same after a shutdown that found the object, for tick and message callbacks. */
  lemma SilentAfterShutdown(run: seq<State>, i: nat, j: nat, t: Tid, o: Obj)
    requires Run(run) && i <= j < |run| && Pos(run[i], t) == ShutDone(o)
    ensures InCallback(run[j], o) ==> !run[j].disp.n.Message?
  {
    RunInv(run, i);
    assert SoloAt(run[i], t) && PairAt(run[i], t, o);
    RunOnward(run, i, j, o);
    RunInv(run, j);
    assert ObjAt(run[j], o);
  }

  /** A user callback is passed the closure its object was created with. */
  lemma CreationClosure(run: seq<State>, i: nat, j: nat, t: Tid, o: Obj, kind: Kind, err: bool, made: bool,
                       closure: nat)
    requires Run(run) && i < j < |run| && Create(run[i], t, o, kind, err, made, closure, run[i + 1])
      && InCallback(run[j], o)
    ensures run[j].disp.closure == closure
  {
    RunOnward(run, i + 1, j, o);
    RunInv(run, j);
    assert run[i + 1].objs[o].given == closure;
    hide Run, Create;
    assert ObjAt(run[j], o);
    hide Inv, Pair;
  }

  // The timer's two-lock hand-off

  /** The thread has the timer's m_destroyLock and waits for its m_lock. */
  ghost predicate AtLock(s: State, t: Tid, o: Obj) {
    o in s.objs && s.objs[o].kind.Timer? && Pos(s, t).Lock? && Pos(s, t).o == o
  }

  ghost predicate CallbackStarts(s: State, s': State, o: Obj) {
    !InCallback(s, o) && InCallback(s', o)
  }

  ghost function Starts(run: seq<State>, i: nat, j: nat, o: Obj): nat
    requires i <= j < |run|
  {
    if i == j then 0 else Starts(run, i, j - 1, o) + if CallbackStarts(run[j - 1], run[j], o) then 1 else 0
  }

  /** A tick past its test of the callback has to go through m_destroyLock before the next tick. */
  ghost function Budget(d: Dpc, o: Obj): nat {
    if (d.CbUser? || d.CbUnlock? || d.CbGate? || d.CbUngate?) && d.o == o then 0 else 1
  }

  lemma HandOffDisp(o: Obj, d: Dpc, r: Rec, d': Dpc, r': Rec)
    requires !d.Ready? && d.o == o && DispEnabled(d, r) && DispDo(o, d, r) == (d', r')
    requires r.kind.Timer? && r.gate.Client? && DispPair(d, o, r)
    ensures (if d'.CbUser? && !d.CbUser? then 1 else 0) + Budget(d', o) <= Budget(d, o)
  {
  }

  lemma HandOffStep(s: State, s': State, t: Tid, o: Obj)
    requires Next(s, s') && Inv(s) && AtLock(s, t, o)
    ensures (if CallbackStarts(s, s', o) then 1 else 0) + Budget(s'.disp, o) <= Budget(s.disp, o)
  {
    assert PairAt(s, t, o) && ObjAt(s, o);
    assert s.objs[o].gate == Client(t);
    hide Inv, PairAt, DispPair, Self, ClientNext;
    if DispAdvance(s, s') {
      if s.disp.o == o {
        var (d', r') := DispDo(o, s.disp, s.objs[o]);
        HandOffDisp(o, s.disp, s.objs[o], d', r');
      }
    } else if !DispatcherNext(s, s') {
      assert s'.disp == s.disp by {
        DispKept(s, s');
      }
    }
  }

  /** Only the dispatcher moves the dispatcher. */
  lemma DispKept(s: State, s': State)
    requires Next(s, s') && !DispatcherNext(s, s')
    ensures s'.disp == s.disp
  {
    hide DispatcherNext;
  }

  /** While a destroyer holds m_destroyLock and waits for m_lock, at most one tick callback starts,
      however many ticks are pending; none, if one was already running. */
  lemma {:induction false} HandOff(run: seq<State>, i: nat, j: nat, t: Tid, o: Obj)
    requires Run(run) && i <= j < |run| && (forall k :: i <= k <= j ==> AtLock(run[k], t, o))
    ensures Starts(run, i, j, o) + Budget(run[j].disp, o) <= Budget(run[i].disp, o)
    ensures Starts(run, i, j, o) <= 1
    ensures InCallback(run[i], o) ==> Starts(run, i, j, o) == 0
  {
    hide Next, Inv, AtLock, CallbackStarts;
    if i < j {
      HandOff(run, i, j - 1, t, o);
      RunInv(run, j - 1);
      assert AtLock(run[j - 1], t, o) && Next(run[j - 1], run[j - 1 + 1]);
      HandOffStep(run[j - 1], run[j], t, o);
    }
  }

  // Tear-down

  /** Once the dispatcher is being destroyed no destroy event is pending and every object is closed;
      when it is gone, so when the queue and the maps go, each object ever created has had exactly one
      destroy event and has been freed exactly once. */
  lemma NothingDropped(run: seq<State>, o: Obj)
    requires Run(run)
    requires var p := run[|run| - 1].phase; p.Stopping? || p.Stopped? || p.Gone?
    ensures run[|run| - 1].queue == []
    ensures o in run[|run| - 1].objs ==> PostCount(run, o) == 1 && !run[|run| - 1].objs[o].open
    ensures o in run[|run| - 1].objs && !run[|run| - 1].phase.Stopping? ==> FreeCount(run, o) == 1
  {
    var s := run[|run| - 1];
    RunInv(run, |run| - 1);
    OnceEach(run, o);
    assert |s.queue| > 0 ==> ObjAt(s, s.queue[0]);
    if o in s.objs {
      assert ObjAt(s, o);
    }
  }

  // What a refused enqueue and a counter that is too small do

  /** An object that its destroyer could not post, or that removeAll left over, is never destroyed: no
      destroy event for it is ever pending, it stays open and allocated, and its session never stops. */
  lemma StrandedForGood(run: seq<State>, i: nat, j: nat, o: Obj)
    requires Run(run) && i <= j < |run| && o in run[i].objs && run[i].objs[o].stage.Stranded?
    ensures o in run[j].objs && run[j].objs[o].stage.Stranded? && run[j].objs[o].open && !run[j].objs[o].freed
    ensures o !in run[j].queue && PostCount(run[..j + 1], o) == 0
    ensures var p := run[j].phase; !p.Stopping? && !p.Stopped? && !p.Gone?
  {
    hide Run, PostCount;
    RunOnward(run, i, j, o);
    RunInv(run, j);
    StrandedIs(run[j], o);
    RunTake(run, j + 1);
    OnceEach(run[..j + 1], o);
    hide Inv;
    assert run[..j + 1][j] == run[j];
  }

  lemma StrandedIs(s: State, o: Obj)
    requires Inv(s) && o in s.objs && s.objs[o].stage.Stranded?
    ensures s.objs[o].open && !s.objs[o].freed && o !in s.queue && !Posted(s, o)
    ensures !s.phase.Stopping? && !s.phase.Stopped? && !s.phase.Gone?
  {
    assert ObjAt(s, o);
    hide Pair;
  }

  // In what order, and after what, objects are destroyed

  ghost function Added(s: State, s': State): seq<Obj> {
    if |s'.queue| > |s.queue| then s'.queue[|s.queue|..] else []
  }

  ghost function TakenUp(s: State, s': State): seq<Obj> {
    if Dequeue(s, s') then [s'.disp.o] else []
  }

  /** The objects whose destroy events the run enqueues, in that order. */
  ghost function PostLog(run: seq<State>): seq<Obj> {
    if |run| < 2 then [] else PostLog(run[..|run| - 1]) + Added(run[|run| - 2], run[|run| - 1])
  }

  /** The objects whose destruction the dispatcher takes up, in that order. */
  ghost function EndLog(run: seq<State>): seq<Obj> {
    if |run| < 2 then [] else EndLog(run[..|run| - 1]) + TakenUp(run[|run| - 2], run[|run| - 1])
  }

  lemma QueueAdvance(s: State, t: Tid, s': State)
    requires Advance(s, t, s')
    ensures s'.queue == s.queue || exists o :: s'.queue == s.queue + [o]
  {
  }

  lemma QueueStep(s: State, s': State)
    requires Next(s, s')
    ensures s.queue + Added(s, s') == TakenUp(s, s') + s'.queue
  {
    hide Advance, DispAdvance;
    if t :| ClientNext(s, t, s') {
      if Advance(s, t, s') {
        QueueAdvance(s, t, s');
      } else {
        assert s'.queue == s.queue;
      }
    } else if DispAdvance(s, s') {
      QueueServed(s, s');
    }
  }

  lemma QueueServed(s: State, s': State)
    requires DispAdvance(s, s')
    ensures s'.queue == s.queue
  {
  }

  lemma RunBegins(run: seq<State>)
    requires Run(run)
    ensures run != [] && run[0].queue == []
  {
  }

  /** Destroy events are taken up in the order in which they were enqueued, and none is lost on the way. */
  lemma {:induction false} FirstInFirstOut(run: seq<State>)
    requires Run(run)
    ensures PostLog(run) == EndLog(run) + run[|run| - 1].queue
  {
    hide Next, Added, TakenUp, Run;
    if |run| > 1 {
      RunPrefix(run);
      var (before, s, s') := (run[..|run| - 1], run[|run| - 2], run[|run| - 1]);
      FirstInFirstOut(before);
      QueueStep(s, s');
      assert EndLog(before) + s.queue + Added(s, s') == EndLog(before) + (s.queue + Added(s, s'));
      assert EndLog(before) + (TakenUp(s, s') + s'.queue) == EndLog(before) + TakenUp(s, s') + s'.queue;
    } else {
      RunBegins(run);
    }
  }

  lemma EndStep(s: State, s': State, o: Obj)
    requires Next(s, s') && s.disp != EndFree(o) && s'.disp == EndFree(o)
    requires o in s'.objs && s'.objs[o].kind.Subscription?
    ensures OnDestroy(s, o, s')
  {
    hide ClientNext, DispAdvance;
    if !DispatcherNext(s, s') {
      DispKept(s, s');
    } else if DispAdvance(s, s') {
      EndAdvance(s, s', o);
    }
  }

  /** A step of the dispatcher inside one event goes on to free timers and inboxes only. */
  lemma EndAdvance(s: State, s': State, o: Obj)
    requires DispAdvance(s, s') && s'.disp == EndFree(o) && o in s'.objs
    ensures !s'.objs[o].kind.Subscription?
  {
    hide DispEnabled, DispRec;
  }

  lemma EndFreeIn(s: State, o: Obj)
    requires Inv(s) && s.disp == EndFree(o)
    ensures o in s.objs
  {
  }

  /** A subscription is freed only after its onDestroy callback. */
  lemma {:induction false} FreedByOnDestroy(run: seq<State>, j: nat, o: Obj) returns (i: nat)
    requires Run(run) && j < |run| && o in run[j].objs && run[j].objs[o].kind.Subscription?
    requires Freed(run[j], o) || run[j].disp == EndFree(o)
    ensures i < j && OnDestroy(run[i], o, run[i + 1])
  {
    hide Next, OnDestroy, Inv, DispAdvance;
    assert j > 0;
    var (s, s') := (run[j - 1], run[j]);
    assert Next(run[j - 1], run[j - 1 + 1]);
    RunInv(run, j - 1);
    if Freed(s, o) || s.disp == EndFree(o) || s'.disp != EndFree(o) {
      Step(s, s', o);
      if s.disp == EndFree(o) {
        EndFreeIn(s, o);
      }
      i := FreedByOnDestroy(run, j - 1, o);
    } else {
      EndStep(s, s', o);
      i := j - 1;
    }
  }

  ghost predicate MapsUnused(s: State) {
    s.phase.Gone? ==> forall t :: !UsesMap(Pos(s, t))
  }

  lemma UnusedClient(s: State, t: Tid, s': State)
    requires ClientNext(s, t, s') && Inv(s) && MapsUnused(s)
    ensures MapsUnused(s')
  {
    assert SoloAt(s, t);
    if Named(Pos(s, t)) && Pos(s, t).o in s.objs {
      assert ObjAt(s, Pos(s, t).o) && PairAt(s, t, Pos(s, t).o);
    }
    hide Inv;
    if s'.phase.Gone? {
      UnusedStep(s, t, s');
    }
  }

  lemma UnusedStep(s: State, t: Tid, s': State)
    requires ClientNext(s, t, s') && s'.phase.Gone?
    ensures s.phase.Gone? && forall u :: u != t ==> Pos(s', u) == Pos(s, u)
    ensures !UsesMap(Pos(s, t)) && !Drains(Pos(s, t)) ==> !UsesMap(Pos(s', t))
  {
    hide Enabled;
  }

  /** When the maps are gone no thread is in one, and none gets into one. */
  lemma {:induction false} MapsGoUnused(run: seq<State>, i: nat)
    requires Run(run) && i < |run|
    ensures MapsUnused(run[i])
  {
    hide Next, Inv, MapsUnused;
    if i == 0 {
      UnusedInit(run[0]);
    } else {
      MapsGoUnused(run, i - 1);
      RunInv(run, i - 1);
      assert Next(run[i - 1], run[i - 1 + 1]);
      MapsUnusedStep(run[i - 1], run[i]);
    }
  }

  lemma UnusedInit(s: State)
    requires Init(s)
    ensures MapsUnused(s)
  {
  }

  lemma MapsUnusedStep(s: State, s': State)
    requires Next(s, s') && Inv(s) && MapsUnused(s)
    ensures MapsUnused(s')
  {
    hide Inv, ClientNext;
    if t :| ClientNext(s, t, s') {
      UnusedClient(s, t, s');
    } else {
      assert forall t :: Pos(s', t) == Pos(s, t);
      hide CanDestroy, DispTo, DispRec, DispEnabled, UsesMap;
    }
  }
}
