/** The counter of a map. Inserts count under the map's lock, removes after they have released it, so a
    store can overwrite another thread's. removeAll trusts the counter; here is when it may. */
module LifecycleCounter {
  import opened Lifecycle
  import opened LifecycleInvariant
  import opened LifecycleDispatcher
  import opened LifecycleSafety

  ghost function KindAt(s: State, o: Obj): Kind {
    if o in s.objs then s.objs[o].kind else Timer
  }

  ghost predicate UncountsAt(s: State, t: Tid, k: Kind) {
    (Pos(s, t).Uncount? || Pos(s, t).Uncounted?) && KindAt(s, Pos(s, t).o) == k
  }

  /** The threads that have taken an entry out of the map and not yet stored the smaller count. */
  ghost function Uncounting(s: State, k: Kind): set<Tid> {
    set t | t in s.threads && UncountsAt(s, t, k)
  }

  /** 1 while a thread has put an entry into the map and not yet stored the larger count. */
  ghost function InsertPending(s: State, k: Kind): nat {
    var h := s.maps.Of(k);
    if h.Client? && (Pos(s, h.t).Counting? || Pos(s, h.t).Storing?) then 1 else 0
  }

  /** How far the counter is off, apart from the stores still to come. */
  ghost function Drift(s: State, k: Kind): int {
    s.counts.Of(k) - |Taken(s, k)| + InsertPending(s, k) - |Uncounting(s, k)|
  }

  /** A store into the counter of map `k`. */
  ghost predicate Stores(s: State, t: Tid, s': State, k: Kind) {
    Advance(s, t, s') && (Pos(s, t).Storing? || Pos(s, t).Uncounted?) && KindAt(s, Pos(s, t).o) == k
  }

  ghost predicate SameCount(s: State, s': State, k: Kind) {
    && s'.counts.Of(k) == s.counts.Of(k) && Taken(s', k) == Taken(s, k)
    && Uncounting(s', k) == Uncounting(s, k) && InsertPending(s', k) == InsertPending(s, k)
  }

  /** A step that changes no object's map and no thread's part in the counting. */
  lemma QuietStep(s: State, s': State, k: Kind)
    requires s'.counts.Of(k) == s.counts.Of(k)
    requires forall o :: o in s'.objs && s'.objs[o].indexed && s'.objs[o].kind == k
                    <==> o in s.objs && s.objs[o].indexed && s.objs[o].kind == k
    requires forall t :: UncountsAt(s', t, k) <==> UncountsAt(s, t, k)
    requires InsertPending(s', k) == InsertPending(s, k)
    ensures SameCount(s, s', k)
  {
    assert forall t :: t in Uncounting(s', k) <==> UncountsAt(s', t, k);
    assert forall t :: t in Uncounting(s, k) <==> UncountsAt(s, t, k);
  }

  // Steps of a call

  /** A call on an object of another kind. */
  lemma AdvanceElsewhere(s: State, t: Tid, s': State, k: Kind)
    requires Advance(s, t, s') && MapOk(s, k) && s.objs[Pos(s, t).o].kind != k
    ensures SameCount(s, s', k)
  {
    var o := Pos(s, t).o;
    var v' := Do(t, o, Look(s, t, o));
    DoKeeps(t, o, Look(s, t, o));
    hide Do, Enabled;
    assert s'.maps.Of(k) == s.maps.Of(k) && s'.counts.Of(k) == s.counts.Of(k);
    forall u ensures UncountsAt(s', u, k) <==> UncountsAt(s, u, k) {
    }
    assert InsertPending(s', k) == InsertPending(s, k);
    hide UncountsAt, InsertPending, MapOk;
    QuietStep(s, s', k);
  }

  lemma DoKeeps(t: Tid, o: Obj, v: View)
    requires Named(v.pc)
    ensures Named(Do(t, o, v).pc) ==> Do(t, o, v).pc.o == o
  {
  }

  /** What a step of a call does to the count of the object's own map. */
  lemma DoCounts(t: Tid, o: Obj, v: View, v': View)
    requires Named(v.pc) && v' == Do(t, o, v)
    ensures v'.n == if v.pc.Storing? then v.pc.n + 1 else if v.pc.Uncounted? then v.pc.n - 1 else v.n
    ensures v'.r.indexed == if v.pc.Inserting? then true else if v.pc.DestLook? then false else v.r.indexed
    ensures v'.pc.Uncount? || v'.pc.Uncounted? <==> (v.pc.DestLook? && v.r.indexed) || v.pc.Uncount?
    ensures v'.pc.Counting? || v'.pc.Storing? <==> v.pc.Inserting? || v.pc.Counting?
    ensures v.pc.Storing? ==> v'.m.Nobody?
    ensures v.pc.Inserting? || v.pc.Counting? ==> v'.m == v.m
  {
  }

  /** The entries, and the threads at the counter, after a step of a call on an object of kind `k`. */
  lemma AdvanceTaken(s: State, t: Tid, s': State, k: Kind)
    requires Advance(s, t, s') && s.objs[Pos(s, t).o].kind == k
    ensures var o := Pos(s, t).o;
      var v' := Do(t, o, Look(s, t, o));
      Taken(s', k) == (if v'.r.indexed then Taken(s, k) + {o} else Taken(s, k) - {o}) && s'.counts.Of(k) == v'.n
  {
    hide Do, Enabled;
  }

  lemma AdvanceUncounting(s: State, t: Tid, s': State, k: Kind)
    requires Advance(s, t, s') && s.objs[Pos(s, t).o].kind == k
    ensures var pc := Do(t, Pos(s, t).o, Look(s, t, Pos(s, t).o)).pc;
      Uncounting(s', k) == if pc.Uncount? || pc.Uncounted? then Uncounting(s, k) + {t} else Uncounting(s, k) - {t}
  {
    var o := Pos(s, t).o;
    DoKeeps(t, o, Look(s, t, o));
    hide Do, Enabled;
    forall u ensures u != t ==> (UncountsAt(s', u, k) <==> UncountsAt(s, u, k)) {
    }
    Uncounters(s, k);
    Uncounters(s', k);
    hide UncountsAt, Uncounting;
  }

  lemma Uncounters(s: State, k: Kind)
    ensures forall t :: t in Uncounting(s, k) <==> UncountsAt(s, t, k)
  {
  }

  lemma AdvancePending(s: State, t: Tid, s': State, k: Kind)
    requires Advance(s, t, s') && s.objs[Pos(s, t).o].kind == k && PairAt(s, t, Pos(s, t).o) && MapOk(s, k)
    ensures InsertPending(s, k) == (if Pos(s, t).Counting? || Pos(s, t).Storing? then 1 else InsertPending(s, k))
    ensures InsertPending(s', k) ==
      if Pos(s, t).Inserting? then 1 else if Pos(s, t).Storing? then 0 else InsertPending(s, k)
    ensures Pos(s, t).Inserting? ==> InsertPending(s, k) == 0
  {
    var o := Pos(s, t).o;
    var v := Look(s, t, o);
    var v' := Do(t, o, v);
    DoCounts(t, o, v, v');
    DoLock(t, o, v, v');
    hide Do, Enabled, Marks;
    assert s'.maps.Of(k) == v'.m;
  }

  lemma AdvanceHere(s: State, t: Tid, s': State, k: Kind)
    requires Advance(s, t, s') && s.objs[Pos(s, t).o].kind == k && PairAt(s, t, Pos(s, t).o) && MapOk(s, k)
    requires Self(s.objs[Pos(s, t).o], s.phase)
    ensures Drift(s', k) == Drift(s, k) + if Stores(s, t, s', k) then Pos(s, t).n - s.counts.Of(k) else 0
  {
    var o := Pos(s, t).o;
    var v := Look(s, t, o);
    var v' := Do(t, o, v);
    DoCounts(t, o, v, v');
    AdvanceTaken(s, t, s', k);
    AdvanceUncounting(s, t, s', k);
    AdvancePending(s, t, s', k);
    assert o in Taken(s, k) <==> v.r.indexed;
    assert t in Uncounting(s, k) <==> v.pc.Uncount? || v.pc.Uncounted?;
    assert v.pc.Inserting? ==> v.r.stage == Making(t);
    assert v.r.indexed <==> v.r.stage.Indexed?;
    hide Do, Enabled, Pair, MapOk, Taken, Uncounting, InsertPending, Self;
    Resize(Taken(s, k), o);
    Resize(Uncounting(s, k), t);
  }

  lemma Resize<T>(a: set<T>, x: T)
    ensures |a + {x}| == |a| + if x in a then 0 else 1
    ensures |a - {x}| == |a| - if x in a then 1 else 0
  {
    if x in a {
      assert a + {x} == a;
    } else {
      assert a - {x} == a;
    }
  }

  // All other steps

  /** removeAll resets the counter. */
  ghost predicate Resets(s: State, s': State, k: Kind) {
    exists t, left :: AllTake(s, t, left, s') && Pos(s, t).kinds[0] == k
  }

  lemma ResetDrift(s: State, t: Tid, left: set<Obj>, s': State, k: Kind)
    requires AllTake(s, t, left, s') && Pos(s, t).kinds[0] == k
    ensures Drift(s', k) == -|Uncounting(s', k)|
  {
    assert Taken(s', k) == {};
  }

  /** A thread that puts an entry in or has taken one out, and has the counter still to write. */
  ghost predicate AtCounter(pc: Pc) {
    pc.Counting? || pc.Storing? || pc.Uncount? || pc.Uncounted?
  }

  /** A step of a thread that has nothing to do with any counter. */
  ghost predicate Aside(s: State, t: Tid, s': State, k: Kind) {
    && s'.counts.Of(k) == s.counts.Of(k) && !AtCounter(Pos(s, t)) && !AtCounter(Pos(s', t))
    && (forall u :: u != t ==> Pos(s', u) == Pos(s, u))
    && (forall o :: o in s.objs ==>
          && o in s'.objs && s'.objs[o].kind == s.objs[o].kind
          && (s.objs[o].kind == k ==> s'.objs[o].indexed == s.objs[o].indexed))
    && (forall o :: o in s'.objs && o !in s.objs ==> !s'.objs[o].indexed)
    && (s'.maps.Of(k) == s.maps.Of(k) || (s.maps.Of(k).Nobody? && s'.maps.Of(k) == Client(t)))
  }

  lemma AsideCount(s: State, t: Tid, s': State, k: Kind)
    requires Aside(s, t, s', k) && Inv(s)
    ensures SameCount(s, s', k)
  {
    forall u ensures UncountsAt(s', u, k) <==> UncountsAt(s, u, k) {
      assert SoloAt(s, u);
    }
    QuietStep(s, s', k);
  }

  lemma CallAside(s: State, t: Tid, s': State, k: Kind)
    requires Refuse(s, t, s') || (exists o :: Call(s, t, o, s'))
          || (exists o, kind, err, made, closure :: Create(s, t, o, kind, err, made, closure, s'))
    ensures Aside(s, t, s', k)
  {
  }

  lemma AllAside(s: State, t: Tid, s': State, k: Kind)
    requires AllStart(s, t, s') || AllTurn(s, t, s') || AllMap(s, t, s') || AllCount(s, t, s')
          || (exists o :: AllPick(s, t, o, s'))
    ensures Aside(s, t, s', k)
  {
  }

  /** removeAll on another map. */
  lemma TakeAside(s: State, t: Tid, left: set<Obj>, s': State, k: Kind)
    requires AllTake(s, t, left, s') && Pos(s, t).kinds[0] != k
    ensures Aside(s, t, s', k)
  {
    assert s'.maps.Of(k) == s.maps.Of(k) && s'.counts.Of(k) == s.counts.Of(k);
    forall o | o in s.objs
      ensures o in s'.objs && s'.objs[o].kind == s.objs[o].kind
      ensures s.objs[o].kind == k ==> s'.objs[o].indexed == s.objs[o].indexed
    {
      assert s'.objs[o] == Detach(o, s.objs[o], left, Pos(s, t).kinds[0], t);
    }
    assert forall u :: u != t ==> Pos(s', u) == Pos(s, u);
  }

  lemma ClientElsewhere(s: State, t: Tid, s': State, k: Kind)
    requires ClientNext(s, t, s') && !Advance(s, t, s') && !Resets(s, s', k) && Inv(s)
    ensures SameCount(s, s', k)
  {
    if left :| AllTake(s, t, left, s') {
      TakeAside(s, t, left, s', k);
      hide AllTake, Aside, Inv, SameCount;
      AsideCount(s, t, s', k);
      return;
    }
    hide Advance, AllTake, Refuse, Call, Create, AllStart, AllTurn, AllMap, AllCount, AllPick, Aside, Inv, SameCount;
    if Refuse(s, t, s') || (exists o :: Call(s, t, o, s'))
      || (exists o, kind, err, made, closure :: Create(s, t, o, kind, err, made, closure, s')) {
      CallAside(s, t, s', k);
    } else {
      AllAside(s, t, s', k);
    }
    AsideCount(s, t, s', k);
  }

  /** The dispatcher and the tear-down touch neither maps nor counters. */
  ghost predicate Apart(s: State, s': State) {
    && s'.threads == s.threads && s'.maps == s.maps && s'.counts == s.counts && s'.objs.Keys == s.objs.Keys
    && (forall o <- s.objs :: s'.objs[o].kind == s.objs[o].kind && s'.objs[o].indexed == s.objs[o].indexed)
  }

  lemma ApartCount(s: State, s': State, k: Kind)
    requires Apart(s, s')
    ensures SameCount(s, s', k)
  {
    QuietStep(s, s', k);
  }

  lemma DispAdvanceApart(s: State, s': State)
    requires DispAdvance(s, s')
    ensures Apart(s, s')
  {
    hide DispDo, DispEnabled;
  }

  lemma DispatcherElsewhere(s: State, s': State, k: Kind)
    requires DispatcherNext(s, s') || TeardownNext(s, s')
    ensures SameCount(s, s', k)
  {
    assert Apart(s, s') by {
      if DispAdvance(s, s') {
        DispAdvanceApart(s, s');
      } else {
        hide DispAdvance;
      }
    }
    hide Apart, DispatcherNext, TeardownNext;
    ApartCount(s, s', k);
  }

  // The counter over a run

  /** How far the count a thread stores is from the one it replaces: not 0 only after another thread's store. */
  ghost function Stale(s: State, s': State, k: Kind): int {
    if exists t :: Stores(s, t, s', k) then
      var t :| Stores(s, t, s', k); Pos(s, t).n - s.counts.Of(k)
    else 0
  }

  lemma StoreUnique(s: State, t: Tid, u: Tid, s': State, k: Kind)
    requires Stores(s, t, s', k) && Stores(s, u, s', k)
    ensures t == u
  {
    var o := Pos(s, t).o;
    var v := Look(s, t, o);
    DoCounts(t, o, v, Do(t, o, v));
    assert Pos(s', t) == Do(t, o, v).pc;
    hide Do, Enabled;
    assert t != u ==> Pos(s', t) == Pos(s, t);
  }

  lemma DriftStep(s: State, s': State, k: Kind)
    requires Next(s, s') && Inv(s) && !Resets(s, s', k)
    ensures Drift(s', k) == Drift(s, k) + Stale(s, s', k)
  {
    if t :| Advance(s, t, s') {
      AdvanceDrift(s, t, s', k);
    } else {
      hide Advance, Inv, Drift, Resets, DispatcherNext, TeardownNext, ClientNext, SameCount;
      if DispatcherNext(s, s') || TeardownNext(s, s') {
        DispatcherElsewhere(s, s', k);
      } else {
        var t :| ClientNext(s, t, s');
        ClientElsewhere(s, t, s', k);
      }
      SameDrift(s, s', k);
    }
  }

  lemma SameDrift(s: State, s': State, k: Kind)
    requires SameCount(s, s', k)
    ensures Drift(s', k) == Drift(s, k)
  {
  }

  lemma AdvanceDrift(s: State, t: Tid, s': State, k: Kind)
    requires Advance(s, t, s') && Inv(s)
    ensures Drift(s', k) == Drift(s, k) + Stale(s, s', k)
  {
    var u := t;
    if v :| Stores(s, v, s', k) {
      u := v;
    }
    AdvanceHas(s, u, s', k);
    hide Inv, Drift, Advance;
    forall w | Stores(s, w, s', k) ensures w == u {
      StoreUnique(s, w, u, s', k);
    }
    AdvanceStores(s, u, s', k);
  }

  lemma AdvanceHas(s: State, t: Tid, s': State, k: Kind)
    requires Advance(s, t, s') && Inv(s)
    ensures PairAt(s, t, Pos(s, t).o) && MapOk(s, k) && Self(s.objs[Pos(s, t).o], s.phase)
  {
    assert ObjAt(s, Pos(s, t).o);
    hide Pair, MapOk, Self;
  }

  lemma AdvanceStores(s: State, t: Tid, s': State, k: Kind)
    requires Advance(s, t, s') && PairAt(s, t, Pos(s, t).o) && MapOk(s, k) && Self(s.objs[Pos(s, t).o], s.phase)
    ensures Drift(s', k) == Drift(s, k) + if Stores(s, t, s', k) then Pos(s, t).n - s.counts.Of(k) else 0
  {
    hide Pair, MapOk, Self, Drift, SameCount, Do, Enabled;
    if s.objs[Pos(s, t).o].kind == k {
      AdvanceHere(s, t, s', k);
    } else {
      AdvanceElsewhere(s, t, s', k);
      SameDrift(s, s', k);
    }
  }

  // Each map is emptied once

  ghost predicate Distinct(kinds: seq<Kind>) {
    forall i, j :: 0 <= i < j < |kinds| ==> kinds[i] != kinds[j]
  }

  ghost predicate DrainOnce(s: State) {
    s.phase.Draining? ==> Drains(Pos(s, s.phase.drainer)) && Distinct(Todo(Pos(s, s.phase.drainer)))
  }

  /** destroyAllEvents has not come to map `k` yet. */
  ghost predicate Pending(s: State, k: Kind) {
    || s.phase.Running?
    || (s.phase.Draining? && Drains(Pos(s, s.phase.drainer)) && k in Todo(Pos(s, s.phase.drainer)))
  }

  lemma DoTodo(t: Tid, o: Obj, v: View, v': View)
    requires Named(v.pc) && v' == Do(t, o, v)
    ensures Drains(v.pc) ==> Drains(v'.pc) && Todo(v'.pc) == Todo(v.pc)
  {
  }

  lemma AdvanceOnce(s: State, t: Tid, s': State, k: Kind)
    requires Advance(s, t, s') && DrainOnce(s)
    ensures DrainOnce(s') && (Pending(s', k) ==> Pending(s, k))
  {
    DoTodo(t, Pos(s, t).o, Look(s, t, Pos(s, t).o), Do(t, Pos(s, t).o, Look(s, t, Pos(s, t).o)));
    hide Do, Enabled;
  }

  lemma TakeOnce(s: State, t: Tid, left: set<Obj>, s': State, k: Kind)
    requires AllTake(s, t, left, s') && DrainOnce(s) && SoloAt(s, t)
    ensures DrainOnce(s') && (Pending(s', k) ==> Pending(s, k) && Pos(s, t).kinds[0] != k)
  {
    var kinds := Pos(s, t).kinds;
    assert kinds == [kinds[0]] + kinds[1..];
  }

  lemma OtherOnce(s: State, t: Tid, s': State, k: Kind)
    requires ClientNext(s, t, s') && !Advance(s, t, s') && !(exists left :: AllTake(s, t, left, s'))
    requires DrainOnce(s) && SoloAt(s, t)
    ensures DrainOnce(s') && (Pending(s', k) ==> Pending(s, k))
  {
    hide Advance, AllTake;
  }

  lemma StepOnce(s: State, s': State, k: Kind)
    requires Next(s, s') && DrainOnce(s) && Inv(s)
    ensures DrainOnce(s') && (Pending(s', k) ==> Pending(s, k) && !Resets(s, s', k))
  {
    assert forall t :: SoloAt(s, t);
    hide Inv, Advance, Solo, AllTake, DispatcherNext, TeardownNext, ClientNext, DrainOnce, Pending;
    if DispatcherNext(s, s') || TeardownNext(s, s') {
      DispatcherOnce(s, s', k);
    } else {
      var t :| ClientNext(s, t, s');
      if Advance(s, t, s') {
        AdvanceOnce(s, t, s', k);
      } else if left :| AllTake(s, t, left, s') {
        TakeOnce(s, t, left, s', k);
      } else {
        OtherOnce(s, t, s', k);
      }
    }
    forall u, left | AllTake(s, u, left, s') && Pending(s', k) ensures Pos(s, u).kinds[0] != k {
      TakeOnce(s, u, left, s', k);
    }
  }

  lemma DispatcherOnce(s: State, s': State, k: Kind)
    requires DispatcherNext(s, s') || TeardownNext(s, s')
    requires DrainOnce(s)
    ensures DrainOnce(s') && (Pending(s', k) ==> Pending(s, k))
  {
  }

  ghost function StaleSum(run: seq<State>, k: Kind): int {
    if |run| < 2 then 0
    else StaleSum(run[..|run| - 1], k) + Stale(run[|run| - 2], run[|run| - 1], k)
  }

  lemma InitDrift(s: State, k: Kind)
    requires Init(s)
    ensures Drift(s, k) == 0 && DrainOnce(s)
  {
    assert Taken(s, k) == {} && Uncounting(s, k) == {};
  }

  lemma {:induction false} RunOnce(run: seq<State>, i: nat)
    requires Run(run) && i < |run|
    ensures DrainOnce(run[i])
  {
    hide Next, DrainOnce;
    if i == 0 {
      InitDrift(run[0], Timer);
    } else {
      RunOnce(run, i - 1);
      RunInv(run, i - 1);
      assert Next(run[i - 1], run[i - 1 + 1]);
      StepOnce(run[i - 1], run[i], Timer);
    }
  }

  /** Until removeAll comes to a map, its counter is the number of entries, less the insert under way, plus
      the removes under way, plus what stale stores have added and lost. */
  lemma {:induction false} CounterExact(run: seq<State>, k: Kind)
    requires Run(run) && Pending(run[|run| - 1], k)
    ensures var s := run[|run| - 1];
      s.counts.Of(k) == |Taken(s, k)| - InsertPending(s, k) + |Uncounting(s, k)| + StaleSum(run, k)
  {
    DriftExact(run, k);
  }

  lemma {:induction false} DriftExact(run: seq<State>, k: Kind)
    requires Run(run) && Pending(run[|run| - 1], k)
    ensures Drift(run[|run| - 1], k) == StaleSum(run, k)
  {
    hide Next, Drift, Stale, Pending, DrainOnce, Inv;
    var n := |run| - 1;
    if n == 0 {
      InitDrift(run[0], k);
    } else {
      RunInv(run, n - 1);
      RunOnce(run, n - 1);
      assert Next(run[n - 1], run[n - 1 + 1]);
      StepOnce(run[n - 1], run[n], k);
      RunTake(run, n);
      DriftExact(run[..n], k);
      DriftStep(run[n - 1], run[n], k);
    }
  }

  // When removeAll takes everything

  /** The thread has read the counter of map `k` and holds the map's lock. */
  ghost predicate HasCount(s: State, t: Tid, k: Kind, n: int) {
    Pos(s, t).AllCounted? && Pos(s, t).n == n && Pos(s, t).kinds != [] && Pos(s, t).kinds[0] == k
  }

  /** A step of a call on an object of the map, made by a thread that does not hold its lock. */
  lemma DoOutside(t: Tid, o: Obj, v: View, v': View)
    requires Named(v.pc) && v' == Do(t, o, v) && !InMap(v.pc)
    ensures v'.r.indexed == v.r.indexed
  {
    DoCounts(t, o, v, v');
    hide Do;
  }

  lemma HeldAdvance(s: State, u: Tid, s': State, t: Tid, k: Kind)
    requires Advance(s, u, s') && s.maps.Of(k) == Client(t) && !Named(Pos(s, t))
    requires PairAt(s, u, Pos(s, u).o)
    ensures Taken(s', k) == Taken(s, k) && Pos(s', t) == Pos(s, t)
  {
    var o := Pos(s, u).o;
    var v := Look(s, u, o);
    var v' := Do(u, o, v);
    if v.r.kind == k {
      assert !InMap(v.pc);
      DoOutside(u, o, v, v');
    }
    hide Do, Enabled, Pair, InMap;
  }

  lemma HeldStep(s: State, s': State, t: Tid, k: Kind, n: int)
    requires Next(s, s') && Inv(s) && HasCount(s, t, k, n) && Pos(s', t).AllCounted?
    ensures HasCount(s', t, k, n) && Taken(s', k) == Taken(s, k)
  {
    assert SoloAt(s, t);
    if u :| Advance(s, u, s') {
      assert PairAt(s, u, Pos(s, u).o);
      hide Inv, Pair, Solo, Advance;
      HeldAdvance(s, u, s', t, k);
    } else if DispatcherNext(s, s') || TeardownNext(s, s') {
      hide Inv, Solo, Advance, ClientNext, DispatcherNext, TeardownNext;
      HeldApart(s, s', t);
      DispatcherElsewhere(s, s', k);
    } else {
      var u :| ClientNext(s, u, s');
      assert !Resets(s, s', k) by {
        forall w, left | AllTake(s, w, left, s') ensures Pos(s, w).kinds[0] != k {
          assert SoloAt(s, w);
        }
      }
      hide Inv, Solo, Advance, Resets, DispatcherNext, TeardownNext;
      HeldOther(s, u, s', t);
      hide ClientNext;
      ClientElsewhere(s, u, s', k);
    }
  }

  lemma HeldApart(s: State, s': State, t: Tid)
    requires DispatcherNext(s, s') || TeardownNext(s, s')
    ensures Pos(s', t) == Pos(s, t)
  {
  }

  lemma HeldOther(s: State, u: Tid, s': State, t: Tid)
    requires ClientNext(s, u, s') && !Advance(s, u, s') && Pos(s, t).AllCounted? && Pos(s', t).AllCounted?
    ensures Pos(s', t) == Pos(s, t)
  {
    hide Advance;
  }

  lemma {:induction false} TakenKept(run: seq<State>, i: nat, j: nat, t: Tid, k: Kind, n: int)
    requires Run(run) && i <= j < |run| && HasCount(run[i], t, k, n)
    requires forall m :: i <= m <= j ==> Pos(run[m], t).AllCounted?
    ensures HasCount(run[j], t, k, n) && Taken(run[j], k) == Taken(run[i], k)
  {
    hide Next, HasCount, Inv;
    if i < j {
      TakenKept(run, i, j - 1, t, k, n);
      RunInv(run, j - 1);
      assert Next(run[j - 1], run[j - 1 + 1]);
      HeldStep(run[j - 1], run[j], t, k, n);
    }
  }

  lemma AllOrFewer(left: set<Obj>, all: set<Obj>)
    requires left <= all
    ensures left == all <==> |left| == |all|
  {
    assert all == left + (all - left);
  }

  lemma Reads(s: State, t: Tid, s': State)
    requires Inv(s) && AllCount(s, t, s')
    ensures var k := Pos(s, t).kinds[0];
      && HasCount(s', t, k, s.counts.Of(k)) && Taken(s', k) == Taken(s, k)
      && Pending(s, k) && InsertPending(s, k) == 0
  {
    assert SoloAt(s, t);
  }

  lemma Takes(s: State, t: Tid, left: set<Obj>, s': State, k: Kind, n: int)
    requires AllTake(s, t, left, s') && HasCount(s, t, k, n)
    ensures left == Taken(s, k) <==> Taken(s, k) == {} || n >= |Taken(s, k)|
  {
    hide Taken;
    AllOrFewer(left, Taken(s, k));
  }

  /** removeAll under way in thread `t`: it reads the counter in step `i` and empties the map in step `j`. */
  ghost predicate Empties(run: seq<State>, i: nat, j: nat, t: Tid, left: set<Obj>) {
    && Run(run) && i < j < |run| - 1
    && AllCount(run[i], t, run[i + 1]) && AllTake(run[j], t, left, run[j + 1])
    && (forall m :: i < m <= j ==> Pos(run[m], t).AllCounted?)
  }

  /** removeAll takes every entry of its map exactly when the removes under way as it reads the counter make
      up for what stale stores have lost. */
  lemma TakesAllIff(run: seq<State>, i: nat, j: nat, t: Tid, left: set<Obj>)
    requires Empties(run, i, j, t, left)
    ensures var k := Pos(run[i], t).kinds[0];
      left == Taken(run[j], k) <==> Taken(run[j], k) == {} || |Uncounting(run[i], k)| + StaleSum(run[..i + 1], k) >= 0
  {
    var k := Pos(run[i], t).kinds[0];
    var s := run[i];
    hide Next, Inv, AllTake, StaleSum, Uncounting, Taken, InsertPending, Pending, HasCount, Init;
    RunInv(run, i);
    Reads(s, t, run[i + 1]);
    RunTake(run, i + 1);
    var front := run[..i + 1];
    assert front[|front| - 1] == s;
    CounterExact(front, k);
    TakenKept(run, i + 1, j, t, k, s.counts.Of(k));
    Takes(run[j], t, left, run[j + 1], k, s.counts.Of(k));
  }

  /** A step that stores no count worked out from an older one. */
  ghost predicate Prompt(s: State, s': State, k: Kind) {
    forall t :: Stores(s, t, s', k) ==> Pos(s, t).n == s.counts.Of(k)
  }

  ghost predicate AllPrompt(run: seq<State>, k: Kind) {
    forall i :: 0 <= i < |run| - 1 ==> Prompt(run[i], run[i + 1], k)
  }

  lemma {:induction false} PromptExact(run: seq<State>, k: Kind)
    requires AllPrompt(run, k)
    ensures StaleSum(run, k) == 0
  {
    hide Stores;
    var n := |run|;
    if n >= 2 {
      var front := run[..n - 1];
      forall i | 0 <= i < |front| - 1 ensures Prompt(front[i], front[i + 1], k) {
        assert Prompt(run[i], run[i + 1], k);
      }
      PromptExact(front, k);
      assert Prompt(run[n - 2], run[n - 2 + 1], k);
    }
  }

  /** So removeAll takes everything unless two threads were at the counter at once. */
  lemma PromptTakesAll(run: seq<State>, i: nat, j: nat, t: Tid, left: set<Obj>)
    requires Empties(run, i, j, t, left) && AllPrompt(run[..i + 1], Pos(run[i], t).kinds[0])
    ensures left == Taken(run[j], Pos(run[i], t).kinds[0])
  {
    hide AllPrompt, Run, Next;
    TakesAllIff(run, i, j, t, left);
    PromptExact(run[..i + 1], Pos(run[i], t).kinds[0]);
  }

  // What removeAll finds in the counter at its end

  /** A map that has been emptied stays empty, and nobody puts anything in. */
  lemma SpentEmpty(s: State, k: Kind)
    requires Inv(s) && !Pending(s, k)
    ensures Taken(s, k) == {} && InsertPending(s, k) == 0
  {
    forall o ensures o !in Taken(s, k) {
      if o in s.objs {
        assert ObjAt(s, o);
      }
    }
    NoneCreating(s);
  }

  lemma NoneCreating(s: State)
    requires Inv(s)
    ensures s.phase.Running? || forall t :: !Creating(Pos(s, t))
  {
    forall t ensures Creating(Pos(s, t)) ==> s.phase.Running? {
      assert SoloAt(s, t);
      if Named(Pos(s, t)) {
        assert PairAt(s, t, Pos(s, t).o) && ObjAt(s, Pos(s, t).o);
      }
    }
  }

  lemma SpentAdvance(s: State, t: Tid, s': State, k: Kind)
    requires Advance(s, t, s') && Inv(s) && Taken(s, k) == {}
    ensures Uncounting(s', k) <= Uncounting(s, k)
  {
    AdvanceHas(s, t, s', k);
    var o := Pos(s, t).o;
    hide Inv, Pair, MapOk, Self, SameCount;
    if s.objs[o].kind == k {
      assert o !in Taken(s, k);
      DoCounts(t, o, Look(s, t, o), Do(t, o, Look(s, t, o)));
      AdvanceUncounting(s, t, s', k);
      Uncounters(s, k);
      hide Do, Enabled, Uncounting;
    } else {
      AdvanceElsewhere(s, t, s', k);
      SameUncounting(s, s', k);
    }
  }

  lemma SameUncounting(s: State, s': State, k: Kind)
    requires SameCount(s, s', k)
    ensures Uncounting(s', k) == Uncounting(s, k)
  {
  }

  lemma SpentStep(s: State, s': State, k: Kind)
    requires Next(s, s') && Inv(s) && DrainOnce(s) && !Pending(s, k)
    ensures !Pending(s', k) && !Resets(s, s', k) && Uncounting(s', k) <= Uncounting(s, k)
  {
    SpentEmpty(s, k);
    assert !Resets(s, s', k) by {
      forall t, left | AllTake(s, t, left, s') ensures Pos(s, t).kinds[0] != k {
        assert SoloAt(s, t);
      }
    }
    hide Inv, DrainOnce, Pending, Resets, SameCount, Advance, Taken, Uncounting, DispatcherNext, TeardownNext,
      ClientNext;
    StepOnce(s, s', k);
    if t :| Advance(s, t, s') {
      SpentAdvance(s, t, s', k);
    } else if DispatcherNext(s, s') || TeardownNext(s, s') {
      DispatcherElsewhere(s, s', k);
      SameUncounting(s, s', k);
    } else {
      var t :| ClientNext(s, t, s');
      ClientElsewhere(s, t, s', k);
      SameUncounting(s, s', k);
    }
  }

  lemma {:induction false} SpentDrift(run: seq<State>, i: nat, j: nat, k: Kind)
    requires Run(run) && i <= j < |run| && !Pending(run[i], k)
    ensures !Pending(run[j], k) && Uncounting(run[j], k) <= Uncounting(run[i], k)
    ensures Drift(run[j], k) == Drift(run[i], k) + StaleSum(run[i..j + 1], k)
  {
    hide Next, Drift, Stale, Pending, DrainOnce, Inv, Uncounting, Resets;
    if i < j {
      SpentDrift(run, i, j - 1, k);
      RunInv(run, j - 1);
      RunOnce(run, j - 1);
      assert Next(run[j - 1], run[j - 1 + 1]);
      SpentStep(run[j - 1], run[j], k);
      DriftStep(run[j - 1], run[j], k);
      var part := run[i..j + 1];
      assert part[|part| - 2] == run[j - 1] && part[|part| - 1] == run[j];
      assert part[..|part| - 1] == run[i..j - 1 + 1];
    }
  }

  /** removeAll ends with an assertion that the counter is still 0. It reads it without the lock, any time
      after it has reset it: the assertion holds exactly if what stale stores have added since is the number
      of removes then under way that have counted down since. */
  lemma FinalCheckIff(run: seq<State>, i: nat, j: nat, t: Tid, left: set<Obj>)
    requires Run(run) && i < j < |run| && AllTake(run[i], t, left, run[i + 1])
    ensures var k := Pos(run[i], t).kinds[0];
      && Uncounting(run[j], k) <= Uncounting(run[i + 1], k)
      && (run[j].counts.Of(k) == 0 <==>
            StaleSum(run[i + 1..j + 1], k) == |Uncounting(run[i + 1], k) - Uncounting(run[j], k)|)
  {
    var k := Pos(run[i], t).kinds[0];
    RunInv(run, i);
    RunInv(run, j);
    RunOnce(run, i);
    assert SoloAt(run[i], t);
    hide Inv, Run, DrainOnce, Solo, StaleSum, Uncounting, Pending;
    TakeOnce(run[i], t, left, run[i + 1], k);
    ResetDrift(run[i], t, left, run[i + 1], k);
    SpentDrift(run, i + 1, j, k);
    hide AllTake, Taken, InsertPending;
    SpentEmpty(run[j], k);
    var (before, now) := (Uncounting(run[i + 1], k), Uncounting(run[j], k));
    assert before == now + (before - now);
  }

  /** So, unless two threads were at the counter at once, it fails exactly if a remove that was under way at the
      reset has counted down since. */
  lemma PromptFinalCheck(run: seq<State>, i: nat, j: nat, t: Tid, left: set<Obj>)
    requires Run(run) && i < j < |run| && AllTake(run[i], t, left, run[i + 1])
    requires AllPrompt(run[i + 1..j + 1], Pos(run[i], t).kinds[0])
    ensures var k := Pos(run[i], t).kinds[0];
      run[j].counts.Of(k) == 0 <==> Uncounting(run[j], k) == Uncounting(run[i + 1], k)
  {
    var k := Pos(run[i], t).kinds[0];
    hide Run, AllTake, AllPrompt, Uncounting;
    FinalCheckIff(run, i, j, t, left);
    PromptExact(run[i + 1..j + 1], k);
    var (before, now) := (Uncounting(run[i + 1], k), Uncounting(run[j], k));
    assert before == now + (before - now);
  }
}
