/** Calls, events and the tear-down come to an end: a measure that every step but the start of new work
    decreases, and the states in which no such step is left. */
module LifecycleRest {
  import opened Lifecycle
  import opened LifecycleInvariant
  import opened LifecycleDispatcher
  import opened LifecycleSafety
  import opened LifecycleProgress
  import opened LifecycleCounter

  /** A step that ends something. What is left out starts something: a create, shutdown or destroy call, the
      destruction of the session, or a native event. */
  ghost predicate Settles(s: State, s': State) {
    || Works(s, s') || (exists t :: Refuse(s, t, s'))
    || Dequeue(s, s') || (exists o :: OnDestroy(s, o, s')) || TeardownNext(s, s')
  }

  // The measure

  ghost function NextWeight(next: Cont): nat {
    match next
    case Return => 0
    case Rest(left, kinds) => 20 * |left| + 4 * |kinds| + 1
  }

  /** The steps a client thread may still make, with those it leaves to the dispatcher. */
  ghost function Weight(pc: Pc): nat {
    match pc
    case Idle => 0
    case Made(_) => 25
    case Inserting(_) => 24
    case Counting(_) => 3
    case Storing(_, _) => 2
    case Inserted(_) => 1
    case ShutWait(_) => 6
    case ShutLook(_) => 5
    case ShutLock(_) => 4
    case ShutClear(_) => 3
    case ShutUnlock(_) => 2
    case ShutDone(_) => 1
    case DestWait(_) => 16
    case DestLook(_) => 15
    case Uncount(_, next) => 14 + NextWeight(next)
    case Uncounted(_, next, _) => 13 + NextWeight(next)
    case Gate(_, next) => 12 + NextWeight(next)
    case Lock(_, next) => 11 + NextWeight(next)
    case Clear(_, next) => 10 + NextWeight(next)
    case Unlock(_, next) => 9 + NextWeight(next)
    case Ungate(_, next) => 8 + NextWeight(next)
    case Post(_, next) => 7 + NextWeight(next)
    case AllWait(kinds) => 4 * |kinds|
    case AllLook(kinds) => if kinds == [] then 0 else 4 * |kinds| - 1
    case AllCounted(kinds, _) => if kinds == [] then 0 else 4 * |kinds| - 2
    case AllNext(left, kinds) => NextWeight(Rest(left, kinds))
  }

  ghost function DispWeight(d: Dpc): nat {
    match d
    case Ready => 0
    case CbLock(_, _) => 6
    case CbTest(_, _) => 5
    case CbUser(_, _, _) => 4
    case CbUnlock(_) => 3
    case CbGate(_) => 2
    case CbUngate(_) => 1
    case EndGate(_) => 5
    case EndLock(_) => 4
    case EndNative(_) => 3
    case EndFree(_) => 1
  }

  ghost function PhaseWeight(p: Phase): nat {
    match p
    case Running => 5
    case Draining(_, _) => 4
    case Listed => 3
    case Stopping => 2
    case Stopped => 1
    case Abandoned => 0
    case Gone => 0
  }

  ghost function Sum(threads: map<Tid, Pc>): nat
    decreases |threads|
  {
    if threads == map[] then 0 else
      var t :| t in threads;
      Less(threads, t);
      Weight(threads[t]) + Sum(threads - {t})
  }

  lemma Less(threads: map<Tid, Pc>, t: Tid)
    requires t in threads
    ensures |threads - {t}| < |threads|
  {
    assert (threads - {t}).Keys == threads.Keys - {t};
  }

  ghost function InMaps(s: State): set<Obj> {
    set o | o in s.objs && s.objs[o].indexed
  }

  ghost function Closing(s: State): set<Obj> {
    set o | o in s.objs && Awaiting(s.objs[o])
  }

  ghost function Measure(s: State): nat {
    Sum(s.threads) + DispWeight(s.disp) + 6 * |s.queue| + 20 * |InMaps(s)| + 2 * |Closing(s)| + PhaseWeight(s.phase)
  }

  lemma {:induction false} SumWithout(threads: map<Tid, Pc>, t: Tid)
    requires t in threads
    ensures Sum(threads) == Weight(threads[t]) + Sum(threads - {t})
    decreases |threads|
  {
    var u :| u in threads && Sum(threads) == Weight(threads[u]) + Sum(threads - {u});
    if u != t {
      var (a, b) := (threads - {u}, threads - {t});
      Less(threads, u);
      Less(threads, t);
      SumWithout(a, t);
      SumWithout(b, u);
      assert a - {t} == b - {u};
    }
  }

  lemma SumUpdate(s: State, t: Tid, pc: Pc)
    ensures Sum(s.threads[t := pc]) == Sum(s.threads) - Weight(Pos(s, t)) + Weight(pc)
  {
    var more := s.threads[t := pc];
    SumWithout(more, t);
    if t in s.threads {
      SumWithout(s.threads, t);
      assert more - {t} == s.threads - {t};
    } else {
      assert more - {t} == s.threads;
    }
  }

  // Every such step decreases it

  ghost predicate Falls(v: View, v': View) {
    && Weight(v'.pc) + 6 * |v'.queue| + (if v'.r.indexed then 20 else 0)
         < Weight(v.pc) + 6 * |v.queue| + (if v.r.indexed then 20 else 0)
    && (Awaiting(v'.r) <==> Awaiting(v.r))
  }

  lemma CreateFalls(t: Tid, o: Obj, v: View, v': View)
    requires Creating(v.pc) && v' == DoCreate(t, o, v)
    ensures Falls(v, v')
  {
  }

  lemma ShutdownFalls(t: Tid, o: Obj, v: View, v': View)
    requires Shutdown(v.pc) && v' == DoShutdown(t, o, v)
    ensures Falls(v, v')
  {
  }

  lemma RemoveFalls(t: Tid, o: Obj, v: View, v': View)
    requires Removing(v.pc) && v' == DoRemove(t, o, v)
    ensures Falls(v, v')
  {
  }

  lemma DestroyFalls(t: Tid, o: Obj, v: View, v': View)
    requires Detached(v.pc) && !Removing(v.pc) && v' == DoDestroy(t, o, v)
    ensures Falls(v, v')
  {
  }

  lemma DoFalls(t: Tid, o: Obj, v: View, v': View)
    requires Named(v.pc) && v' == Do(t, o, v)
    ensures Falls(v, v')
  {
    hide Falls, DoCreate, DoShutdown, DoRemove, DoDestroy;
    if Creating(v.pc) {
      CreateFalls(t, o, v, v');
    } else if Shutdown(v.pc) {
      ShutdownFalls(t, o, v, v');
    } else if Removing(v.pc) {
      RemoveFalls(t, o, v, v');
    } else {
      DestroyFalls(t, o, v, v');
    }
  }

  lemma AdvanceLess(s: State, t: Tid, s': State)
    requires Advance(s, t, s')
    ensures Measure(s') < Measure(s)
  {
    var o := Pos(s, t).o;
    var v := Look(s, t, o);
    var v' := Do(t, o, v);
    DoFalls(t, o, v, v');
    SumUpdate(s, t, v'.pc);
    hide Do, Enabled, Awaiting, Sum, Weight;
    assert InMaps(s') == if v'.r.indexed then InMaps(s) + {o} else InMaps(s) - {o};
    assert Closing(s') == Closing(s);
    Resize(InMaps(s), o);
  }

  /** A step that changes neither maps nor what awaits its onDestroy. */
  ghost predicate Still(s: State, s': State) {
    InMaps(s') == InMaps(s) && Closing(s') == Closing(s) && s'.disp == s.disp && s'.queue == s.queue
  }

  lemma RefuseLess(s: State, t: Tid, s': State)
    requires Refuse(s, t, s')
    ensures Measure(s') < Measure(s)
  {
    SumUpdate(s, t, Pos(s', t));
    hide Sum;
    assert Still(s, s');
  }

  lemma TurnLess(s: State, t: Tid, s': State)
    requires AllTurn(s, t, s') && SoloAt(s, t)
    ensures Measure(s') < Measure(s)
  {
    SumUpdate(s, t, Pos(s', t));
    hide Sum;
    assert Still(s, s');
  }

  lemma MapLess(s: State, t: Tid, s': State)
    requires AllMap(s, t, s') || AllCount(s, t, s')
    ensures Measure(s') < Measure(s)
  {
    SumUpdate(s, t, Pos(s', t));
    hide Sum;
    assert Still(s, s');
  }

  lemma PickLess(s: State, t: Tid, o: Obj, s': State)
    requires AllPick(s, t, o, s')
    ensures Measure(s') < Measure(s)
  {
    SumUpdate(s, t, Pos(s', t));
    hide Sum;
    assert Still(s, s');
    Resize(Pos(s, t).left, o);
  }

  lemma TakeMaps(s: State, t: Tid, left: set<Obj>, s': State)
    requires AllTake(s, t, left, s')
    ensures var all := Taken(s, Pos(s, t).kinds[0]);
      InMaps(s') == InMaps(s) - all && all <= InMaps(s) && left <= all && Closing(s') == Closing(s)
  {
  }

  lemma TakeLess(s: State, t: Tid, left: set<Obj>, s': State)
    requires AllTake(s, t, left, s')
    ensures Measure(s') < Measure(s)
  {
    SumUpdate(s, t, Pos(s', t));
    TakeMaps(s, t, left, s');
    var all := Taken(s, Pos(s, t).kinds[0]);
    Fewer(left, all);
    Part(InMaps(s), all);
    assert Weight(Pos(s', t)) < Weight(Pos(s, t)) + 20 * |left|;
    assert s'.threads == s.threads[t := Pos(s', t)] && s'.disp == s.disp && s'.queue == s.queue && s'.phase == s.phase;
    hide Sum, InMaps, Closing, Taken, AllTake, Weight;
  }

  lemma Part(b: set<Obj>, a: set<Obj>)
    requires a <= b
    ensures |b - a| == |b| - |a|
  {
    assert b == a + (b - a);
  }

  lemma Fewer(a: set<Obj>, b: set<Obj>)
    requires a <= b
    ensures |a| <= |b|
  {
    assert b == a + (b - a);
  }

  lemma DispDoLess(o: Obj, d: Dpc, r: Rec, d': Dpc, r': Rec)
    requires !d.Ready? && d.o == o && DispDo(o, d, r) == (d', r') && DispPair(d, o, r)
    ensures DispWeight(d') + (if Awaiting(r') then 2 else 0) < DispWeight(d) + (if Awaiting(r) then 2 else 0)
  {
  }

  lemma DispAdvanceLess(s: State, s': State)
    requires DispAdvance(s, s') && ObjAt(s, s.disp.o)
    ensures Measure(s') < Measure(s)
  {
    var (o, d, r) := (s.disp.o, s.disp, s.objs[s.disp.o]);
    var (d', r') := DispDo(o, d, r);
    DispDoLess(o, d, r, d', r');
    hide DispDo, DispEnabled, DispPair, Self, Awaiting;
    assert InMaps(s') == InMaps(s);
    assert Closing(s') == if Awaiting(r') then Closing(s) + {o} else Closing(s) - {o};
    Resize(Closing(s), o);
  }

  lemma DequeueLess(s: State, s': State)
    requires Dequeue(s, s')
    ensures Measure(s') < Measure(s)
  {
    assert InMaps(s') == InMaps(s) && Closing(s') == Closing(s);
  }

  lemma OnDestroyLess(s: State, o: Obj, s': State)
    requires OnDestroy(s, o, s')
    ensures Measure(s') < Measure(s)
  {
    assert InMaps(s') == InMaps(s) && Closing(s') == Closing(s) - {o};
    Resize(Closing(s), o);
  }

  lemma TeardownLess(s: State, s': State)
    requires TeardownNext(s, s')
    ensures Measure(s') < Measure(s)
  {
    assert InMaps(s') == InMaps(s) && Closing(s') == Closing(s);
  }

  lemma SettlesLess(s: State, s': State)
    requires Settles(s, s') && Inv(s)
    ensures Measure(s') < Measure(s)
  {
    hide Inv, Measure, Advance, Refuse, AllTurn, AllMap, AllCount, AllTake, AllPick, Dequeue, OnDestroy, TeardownNext;
    if DispAdvance(s, s') {
      assert ObjAt(s, s.disp.o) by { AtDisp(s); }
      DispAdvanceLess(s, s');
    } else if Dequeue(s, s') {
      DequeueLess(s, s');
    } else if TeardownNext(s, s') {
      TeardownLess(s, s');
    } else if o :| OnDestroy(s, o, s') {
      OnDestroyLess(s, o, s');
    } else {
      HasClient(s, s');
      ClientLess(s, s');
    }
  }

  lemma HasClient(s: State, s': State)
    requires Settles(s, s') && !DispAdvance(s, s') && !Dequeue(s, s') && !TeardownNext(s, s')
    requires forall o :: !OnDestroy(s, o, s')
    ensures exists t :: ClientSettles(s, t, s')
  {
    hide DispAdvance, Advance, Refuse, AllTurn, AllMap, AllCount, AllTake, AllPick, Dequeue, OnDestroy, TeardownNext;
    if t :| Refuse(s, t, s') {
      assert ClientSettles(s, t, s');
    } else if t :| Advance(s, t, s') || AllTurn(s, t, s') || AllMap(s, t, s') || AllCount(s, t, s') {
      assert ClientSettles(s, t, s');
    } else if t, left :| AllTake(s, t, left, s') {
      assert ClientSettles(s, t, s');
    } else {
      var t, o :| AllPick(s, t, o, s');
      assert ClientSettles(s, t, s');
    }
  }

  lemma AtDisp(s: State)
    requires Inv(s) && !s.disp.Ready?
    ensures s.disp.o in s.objs && ObjAt(s, s.disp.o)
  {
  }

  ghost predicate ClientSettles(s: State, t: Tid, s': State) {
    || Advance(s, t, s') || Refuse(s, t, s') || AllTurn(s, t, s') || AllMap(s, t, s') || AllCount(s, t, s')
    || (exists left :: AllTake(s, t, left, s')) || (exists o :: AllPick(s, t, o, s'))
  }

  lemma ClientLess(s: State, s': State)
    requires Inv(s) && exists t :: ClientSettles(s, t, s')
    ensures Measure(s') < Measure(s)
  {
    var t :| ClientSettles(s, t, s');
    assert SoloAt(s, t);
    hide Inv, Measure, Advance, Refuse, AllTurn, AllMap, AllCount, AllTake, AllPick, Solo;
    if Advance(s, t, s') {
      AdvanceLess(s, t, s');
    } else if Refuse(s, t, s') {
      RefuseLess(s, t, s');
    } else if AllTurn(s, t, s') {
      TurnLess(s, t, s');
    } else if left :| AllTake(s, t, left, s') {
      TakeLess(s, t, left, s');
    } else if o :| AllPick(s, t, o, s') {
      PickLess(s, t, o, s');
    } else {
      MapLess(s, t, s');
    }
  }

  // Runs in which nothing new is started

  lemma SettlesNext(s: State, s': State)
    requires Settles(s, s')
    ensures Next(s, s')
  {
    hide DispAdvance, Advance, Refuse, AllTurn, AllMap, AllCount, AllTake, AllPick, Dequeue, OnDestroy, TeardownNext;
    if t :| Refuse(s, t, s') {
      assert ClientNext(s, t, s');
    } else if t :| Advance(s, t, s') || AllTurn(s, t, s') || AllMap(s, t, s') || AllCount(s, t, s') {
      assert ClientNext(s, t, s');
    } else if t, left :| AllTake(s, t, left, s') {
      assert ClientNext(s, t, s');
    } else if t, o :| AllPick(s, t, o, s') {
      assert ClientNext(s, t, s');
    }
  }

  /** From step `i` on nothing new is started. */
  ghost predicate Settling(run: seq<State>, i: nat) {
    forall j :: i <= j < |run| - 1 ==> Settles(run[j], run[j + 1])
  }

  /** However calls, events and the tear-down interleave, once nothing new is started they are at an end within
      as many steps as the measure said. */
  lemma {:induction false} SettlingEnds(run: seq<State>, i: nat, j: nat)
    requires Run(run) && Settling(run, i) && i <= j < |run|
    ensures Measure(run[j]) + (j - i) <= Measure(run[i])
  {
    hide Run, Measure, Settles;
    if i < j {
      SettlingEnds(run, i, j - 1);
      RunInv(run, j - 1);
      assert Settles(run[j - 1], run[j - 1 + 1]);
      SettlesLess(run[j - 1], run[j]);
    }
  }

  ghost predicate AtRest(s: State) {
    forall s' :: !Settles(s, s')
  }

  lemma {:induction false} RestPath(s: State) returns (path: seq<State>)
    requires Inv(s)
    ensures path != [] && path[0] == s && Settling(path, 0) && AtRest(path[|path| - 1])
    decreases Measure(s)
  {
    hide Inv, Measure, Settles, Settling, Next;
    if AtRest(s) {
      path := [s];
      SettlingOne(s);
    } else {
      var s' :| Settles(s, s');
      SettlesNext(s, s');
      SettlesLess(s, s');
      NextInv(s, s');
      hide AtRest;
      var rest := RestPath(s');
      path := [s] + rest;
      SettlingMore(s, rest);
    }
  }

  lemma SettlingOne(s: State)
    ensures Settling([s], 0)
  {
  }

  lemma SettlingMore(s: State, rest: seq<State>)
    requires rest != [] && Settles(s, rest[0]) && Settling(rest, 0)
    ensures Settling([s] + rest, 0)
  {
    hide Settles;
    var path := [s] + rest;
    forall j | 0 <= j < |path| - 1 ensures Settles(path[j], path[j + 1]) {
      if j > 0 {
        assert Settles(rest[j - 1], rest[j - 1 + 1]);
      }
    }
  }

  /** And every run can be brought to such an end. */
  lemma ComesToRest(run: seq<State>) returns (whole: seq<State>)
    requires Run(run)
    ensures Run(whole) && run <= whole && Settling(whole, |run| - 1) && AtRest(whole[|whole| - 1])
  {
    RunInv(run, |run| - 1);
    var path := RestPath(run[|run| - 1]);
    whole := run + path[1..];
    hide Next, Settles, AtRest, Inv, Init;
    assert forall k :: 0 <= k < |path| ==> whole[|run| - 1 + k] == path[k];
    forall j | |run| - 1 <= j < |whole| - 1 ensures Settles(whole[j], whole[j + 1]) && Next(whole[j], whole[j + 1]) {
      var k := j - (|run| - 1);
      assert Settles(path[k], path[k + 1]);
      assert whole[|run| - 1 + k] == path[k] && whole[|run| - 1 + (k + 1)] == path[k + 1];
      SettlesNext(path[k], path[k + 1]);
    }
    forall j | 0 <= j < |whole| - 1 ensures Next(whole[j], whole[j + 1]) {
      if j < |run| - 1 {
        assert Next(run[j], run[j + 1]);
      }
    }
  }

  // What is left then

  lemma NotAtRest(s: State)
    requires Inv(s) && Outstanding(s)
    ensures !AtRest(s)
  {
    hide Inv, Outstanding, Works, Dequeue, OnDestroy, TeardownNext;
    var s' := MovesOn(s);
    assert Settles(s, s');
  }

  lemma RestIs(s: State)
    requires Inv(s) && AtRest(s)
    ensures !Outstanding(s) && forall s' :: !TeardownNext(s, s')
  {
    hide Inv, Outstanding, Works, Dequeue, OnDestroy, TeardownNext;
    forall s' ensures !TeardownNext(s, s') {
      assert !Settles(s, s');
    }
    if Outstanding(s) {
      NotAtRest(s);
    }
  }

  lemma AllIdle(s: State)
    requires !Outstanding(s)
    ensures s.disp.Ready? && s.queue == [] && (forall t :: Pos(s, t).Idle?)
    ensures forall o :: o in s.objs ==> !Awaiting(s.objs[o])
  {
    assert !Busy(s, Dispatcher);
    forall t ensures Pos(s, t).Idle? {
      assert !Busy(s, Client(t));
    }
  }

  /** The tear-down has gone as far as it can. */
  lemma RestPhase(s: State)
    requires Inv(s) && AtRest(s) && !s.phase.Running?
    ensures s.phase.Listed? || s.phase.Abandoned? || s.phase.Gone?
    ensures s.phase.Listed? ==> !CanDestroy(s)
  {
    RestIs(s);
    AllIdle(s);
    hide Pair, DispPair, Self, Solo, MapOk, QueueOk, Outstanding, AtRest;
    var (stopping, stopped, gone) := (s.(phase := Stopping), s.(phase := Stopped), s.(phase := Gone));
    assert !TeardownNext(s, stopping) && !TeardownNext(s, stopped) && !TeardownNext(s, gone);
  }

  lemma RestStage(s: State, o: Obj)
    requires Inv(s) && AtRest(s) && !s.phase.Running? && o in s.objs
    ensures s.objs[o].freed || s.objs[o].stage.Stranded?
    ensures s.objs[o].open <==> s.objs[o].stage.Stranded?
  {
    var r := s.objs[o];
    RestIs(s);
    RestPhase(s);
    AllIdle(s);
    var t := if r.stage.Held? then r.stage.t else r.maker;
    assert ObjAt(s, o) && PairAt(s, t, o);
    hide AtRest, Outstanding, TeardownNext, Solo, MapOk;
    assert !Owns(Pos(s, t), o);
  }

  /** The session goes into no list only when some object of it is stranded. */
  ghost predicate Refused(p: Phase) {
    p.Abandoned? || (p.Draining? && !p.ok)
  }

  ghost predicate SomeStranded(s: State) {
    exists o :: o in s.objs && s.objs[o].stage.Stranded?
  }

  lemma RefusedTurns(s: State, t: Tid, s': State)
    requires ClientNext(s, t, s') && SoloAt(s, t) && Refused(s'.phase) && !Refused(s.phase)
    ensures Refuse(s, t, s')
  {
    hide Advance, AllTake;
    if Advance(s, t, s') {
      AdvancePhase(s, t, s');
    } else if left :| AllTake(s, t, left, s') {
      TakePhase(s, t, left, s');
    }
  }

  lemma AdvancePhase(s: State, t: Tid, s': State)
    requires Advance(s, t, s')
    ensures s'.phase == s.phase
  {
    hide Do, Enabled;
  }

  lemma TakePhase(s: State, t: Tid, left: set<Obj>, s': State)
    requires AllTake(s, t, left, s')
    ensures s'.phase == s.phase
  {
  }

  lemma StrandedStep(s: State, s': State)
    requires Next(s, s') && Inv(s) && (Refused(s.phase) ==> SomeStranded(s))
    ensures Refused(s'.phase) ==> SomeStranded(s')
  {
    if o :| o in s.objs && s.objs[o].stage.Stranded? {
      hide Inv, Next;
      Step(s, s', o);
    } else if Refused(s'.phase) {
      if DispatcherNext(s, s') || TeardownNext(s, s') {
        PhaseKept(s, s');
      } else {
        var t :| ClientNext(s, t, s');
        assert SoloAt(s, t);
        hide Inv, ClientNext;
        RefusedTurns(s, t, s');
        assert s'.objs[Pos(s, t).o].stage.Stranded?;
      }
    }
  }

  lemma PhaseKept(s: State, s': State)
    requires DispatcherNext(s, s') || TeardownNext(s, s')
    ensures Refused(s'.phase) ==> Refused(s.phase)
  {
  }

  lemma {:induction false} RunStranded(run: seq<State>, i: nat)
    requires Run(run) && i < |run|
    ensures Refused(run[i].phase) ==> SomeStranded(run[i])
  {
    hide Next, Refused, SomeStranded;
    if i > 0 {
      RunStranded(run, i - 1);
      RunInv(run, i - 1);
      assert Next(run[i - 1], run[i - 1 + 1]);
      StrandedStep(run[i - 1], run[i]);
    } else {
      NotRefused(run[0]);
    }
  }

  lemma NotRefused(s: State)
    requires Init(s)
    ensures !Refused(s.phase)
  {
  }

  /** When a session whose destruction has begun has come to rest, each of its objects has been freed or is
      stranded, and the session is gone exactly if none is stranded. */
  lemma RestIsGone(run: seq<State>)
    requires Run(run) && AtRest(run[|run| - 1]) && !run[|run| - 1].phase.Running?
    ensures var s := run[|run| - 1];
      && (forall o :: o in s.objs ==> s.objs[o].freed || s.objs[o].stage.Stranded?)
      && (s.phase.Gone? <==> !SomeStranded(s))
  {
    var s := run[|run| - 1];
    RunInv(run, |run| - 1);
    RunStranded(run, |run| - 1);
    hide Run, Inv, AtRest, TeardownNext;
    forall o | o in s.objs
      ensures s.objs[o].freed || s.objs[o].stage.Stranded?
      ensures s.objs[o].open <==> s.objs[o].stage.Stranded?
    {
      RestStage(s, o);
    }
    RestPhase(s);
    if s.phase.Gone? {
      forall o | o in s.objs ensures !s.objs[o].open {
        GoneClosed(s, o);
      }
    }
  }

  lemma GoneClosed(s: State, o: Obj)
    requires Inv(s) && s.phase.Gone? && o in s.objs
    ensures !s.objs[o].open
  {
    assert ObjAt(s, o);
  }
}
