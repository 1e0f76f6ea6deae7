/** No reachable state of the life cycle is stuck. The locks have ranks, map lock below m_destroyLock
    below m_lock, and whoever holds a lock that another actor waits for asks only for higher ones. The
    user callbacks are taken to return and not to call back into the session. */
module LifecycleProgress {
  import opened Lifecycle
  import opened LifecycleInvariant
  import opened LifecycleSafety

  datatype LockId = MapLock(k: Kind) | GateLock(o: Obj) | MainLock(o: Obj)

  ghost function KindOf(s: State, o: Obj): Kind {
    if o in s.objs then s.objs[o].kind else Timer
  }

  /** Actor `a`, a client or the dispatcher, asks for lock `l` next. */
  ghost predicate Wants(s: State, a: Holder, l: LockId) {
    match a
    case Nobody => false
    case Client(t) =>
      var pc := Pos(s, t);
      match l {
        case MapLock(k) =>
          || ((pc.Made? || pc.ShutWait? || pc.DestWait?) && KindOf(s, pc.o) == k)
          || (pc.AllWait? && pc.kinds != [] && pc.kinds[0] == k)
        case GateLock(o) => pc.Gate? && pc.o == o
        case MainLock(o) => (pc.Lock? || pc.ShutLock?) && pc.o == o
      }
    case Dispatcher =>
      match l {
        case MapLock(_) => false
        case GateLock(o) => (s.disp.CbGate? || s.disp.EndGate?) && s.disp.o == o
        case MainLock(o) => (s.disp.CbLock? || s.disp.EndLock?) && s.disp.o == o
      }
  }

  ghost function HolderOf(s: State, l: LockId): Holder {
    match l
    case MapLock(k) => s.maps.Of(k)
    case GateLock(o) => if o in s.objs then s.objs[o].gate else Nobody
    case MainLock(o) => if o in s.objs then s.objs[o].lock else Nobody
  }

  /** Actor `a` waits for a lock that actor `b` holds. */
  ghost predicate WaitsFor(s: State, a: Holder, b: Holder) {
    exists l :: Wants(s, a, l) && HolderOf(s, l) == b && !b.Nobody?
  }

  ghost function RankOf(l: LockId): nat {
    match l
    case MapLock(_) => 0
    case GateLock(_) => 1
    case MainLock(_) => 2
  }

  /** The rank of the lock an actor asks for, above all locks when it asks for none. */
  ghost function Level(s: State, a: Holder): nat {
    match a
    case Nobody => 3
    case Client(t) =>
      var pc := Pos(s, t);
      if pc.Made? || pc.ShutWait? || pc.DestWait? || pc.AllWait? then 0
      else if pc.Gate? then 1
      else if pc.Lock? || pc.ShutLock? then 2 else 3
    case Dispatcher =>
      if s.disp.CbGate? || s.disp.EndGate? then 1 else if s.disp.CbLock? || s.disp.EndLock? then 2 else 3
  }

  lemma WantsLevel(s: State, a: Holder, l: LockId)
    requires Wants(s, a, l)
    ensures Level(s, a) == RankOf(l)
  {
  }

  /** The holder of a lock someone waits for asks for a higher one, or for none. */
  lemma HolderAbove(s: State, a: Holder, l: LockId)
    requires Inv(s) && Wants(s, a, l) && !HolderOf(s, l).Nobody?
    ensures Level(s, HolderOf(s, l)) > RankOf(l)
  {
    match l
    case MapLock(k) =>
      assert MapOk(s, k);
    case GateLock(o) =>
      assert ObjAt(s, o);
      if HolderOf(s, l).Client? {
        assert PairAt(s, HolderOf(s, l).t, o);
      }
    case MainLock(o) =>
      WantedNotAwaiting(s, a, o);
      assert ObjAt(s, o);
      if HolderOf(s, l).Client? {
        assert PairAt(s, HolderOf(s, l).t, o);
      }
  }

  /** Nobody waits for the m_lock of a subscription that is waiting for its onDestroy callback. */
  lemma WantedNotAwaiting(s: State, a: Holder, o: Obj)
    requires Inv(s) && Wants(s, a, MainLock(o)) && o in s.objs
    ensures !Awaiting(s.objs[o])
  {
    assert ObjAt(s, o);
    if a.Client? {
      assert PairAt(s, a.t, o);
    }
  }

  lemma WaitsForAbove(s: State, a: Holder, b: Holder)
    requires Inv(s) && WaitsFor(s, a, b)
    ensures Level(s, a) < Level(s, b)
  {
    var l :| Wants(s, a, l) && HolderOf(s, l) == b && !b.Nobody?;
    WantsLevel(s, a, l);
    HolderAbove(s, a, l);
  }

  ghost predicate Chain(s: State, actors: seq<Holder>) {
    forall i :: 0 <= i < |actors| - 1 ==> WaitsFor(s, actors[i], actors[i + 1])
  }

  lemma {:induction false} ChainRises(s: State, actors: seq<Holder>)
    requires Inv(s) && |actors| > 1 && Chain(s, actors)
    ensures Level(s, actors[0]) < Level(s, actors[|actors| - 1])
  {
    var n := |actors|;
    WaitsForAbove(s, actors[n - 2], actors[n - 2 + 1]);
    if n > 2 {
      var init := actors[..n - 1];
      assert Chain(s, init) by {
        forall i | 0 <= i < n - 2 ensures WaitsFor(s, init[i], init[i + 1]) {
          assert WaitsFor(s, actors[i], actors[i + 1]);
        }
      }
      ChainRises(s, init);
    }
  }

  /** No reachable state has a circular wait, whatever the number of actors in the circle. */
  lemma NoCircularWait(run: seq<State>, i: nat, actors: seq<Holder>)
    requires Run(run) && i < |run| && |actors| > 1 && Chain(run[i], actors)
    ensures actors[0] != actors[|actors| - 1]
  {
    RunInv(run, i);
    ChainRises(run[i], actors);
  }

  // Something can always move

  /** A step of a call or event that is already under way. */
  ghost predicate Works(s: State, s': State) {
    || DispAdvance(s, s')
    || (exists t :: Advance(s, t, s') || AllTurn(s, t, s') || AllMap(s, t, s') || AllCount(s, t, s'))
    || (exists t, left :: AllTake(s, t, left, s')) || (exists t, o :: AllPick(s, t, o, s'))
  }

  ghost predicate Busy(s: State, a: Holder) {
    match a
    case Nobody => false
    case Client(t) => !Pos(s, t).Idle?
    case Dispatcher => !s.disp.Ready?
  }

  /** An actor whose lock is free takes its next step. */
  lemma FreeToMove(s: State, a: Holder) returns (s': State)
    requires Inv(s) && Busy(s, a) && (forall l :: Wants(s, a, l) ==> HolderOf(s, l).Nobody?)
    ensures Works(s, s')
  {
    match a
    case Dispatcher =>
      var (o, d) := (s.disp.o, s.disp);
      assert Wants(s, a, MainLock(o)) <==> d.CbLock? || d.EndLock?;
      assert Wants(s, a, GateLock(o)) <==> d.CbGate? || d.EndGate?;
      var (d', r) := DispDo(o, d, s.objs[o]);
      s' := s.(disp := d', objs := s.objs[o := r]);
    case Client(t) =>
      s' := ClientMoves(s, t);
  }

  lemma {:induction false} SomeOf(s: set<Obj>, n: nat) returns (r: set<Obj>)
    requires n <= |s|
    ensures r <= s && |r| == n
  {
    if n == |s| {
      r := s;
    } else {
      var x :| x in s;
      r := SomeOf(s - {x}, n);
    }
  }

  lemma ClientMoves(s: State, t: Tid) returns (s': State)
    requires Inv(s) && Busy(s, Client(t)) && (forall l :: Wants(s, Client(t), l) ==> HolderOf(s, l).Nobody?)
    ensures Works(s, s')
  {
    var pc := Pos(s, t);
    assert SoloAt(s, t);
    if Named(pc) {
      var (a, o) := (Client(t), pc.o);
      var v := Look(s, t, o);
      assert Enabled(v) by {
        assert Wants(s, a, MainLock(o)) ==> HolderOf(s, MainLock(o)).Nobody?;
        assert Wants(s, a, GateLock(o)) ==> HolderOf(s, GateLock(o)).Nobody?;
        assert Wants(s, a, MapLock(v.r.kind)) ==> HolderOf(s, MapLock(v.r.kind)).Nobody?;
      }
      s' := Put(s, t, o, Do(t, o, v));
      assert Advance(s, t, s');
    } else if pc.AllWait? {
      assert Wants(s, Client(t), MapLock(pc.kinds[0]));
      s' := Goto(s, t, AllLook(pc.kinds)).(maps := s.maps.With(pc.kinds[0], Client(t)));
      assert AllMap(s, t, s');
    } else if pc.AllLook? {
      s' := Goto(s, t, AllCounted(pc.kinds, s.counts.Of(pc.kinds[0])));
      assert AllCount(s, t, s');
    } else if pc.AllCounted? {
      var k := pc.kinds[0];
      var left := SomeOf(Taken(s, k), Share(pc.n, |Taken(s, k)|));
      s' := Goto(s, t, AllNext(left, pc.kinds[1..])).(
        maps := s.maps.With(k, Nobody), counts := s.counts.With(k, 0),
        objs := map o | o in s.objs :: Detach(o, s.objs[o], left, k, t));
      assert AllTake(s, t, left, s');
    } else if pc.left == {} {
      var phase := if s.phase.Draining? && s.phase.ok then Listed else Abandoned;
      s' := if pc.kinds == [] then Goto(s, t, Idle).(phase := phase)
            else Goto(s, t, AllWait(pc.kinds));
      assert AllTurn(s, t, s');
    } else {
      var o :| o in pc.left;
      s' := Goto(s, t, First(s.objs[o].kind, o, Rest(pc.left - {o}, pc.kinds)));
      assert AllPick(s, t, o, s');
    }
  }

  /** Follow the locks from any busy actor: within three hops there is one that can move. */
  lemma {:induction false} Unblock(s: State, a: Holder) returns (s': State)
    requires Inv(s) && Busy(s, a)
    ensures Works(s, s')
    decreases 3 - Level(s, a)
  {
    if l :| Wants(s, a, l) && !HolderOf(s, l).Nobody? {
      WantsLevel(s, a, l);
      HolderAbove(s, a, l);
      HolderBusy(s, a, l);
      s' := Unblock(s, HolderOf(s, l));
    } else {
      s' := FreeToMove(s, a);
    }
  }

  lemma HolderBusy(s: State, a: Holder, l: LockId)
    requires Inv(s) && Wants(s, a, l) && !HolderOf(s, l).Nobody?
    ensures Busy(s, HolderOf(s, l))
    ensures Level(s, HolderOf(s, l)) <= 3
  {
    match l
    case MapLock(k) =>
      assert MapOk(s, k);
    case GateLock(o) =>
      assert ObjAt(s, o);
      if HolderOf(s, l).Client? {
        assert PairAt(s, HolderOf(s, l).t, o);
      }
    case MainLock(o) =>
      WantedNotAwaiting(s, a, o);
      assert ObjAt(s, o);
      if HolderOf(s, l).Client? {
        assert PairAt(s, HolderOf(s, l).t, o);
      }
  }

  /** A call or an event is under way, a destroy event is pending, or a subscription awaits its onDestroy. */
  ghost predicate Outstanding(s: State) {
    || (exists a :: Busy(s, a)) || s.queue != [] || (exists o :: o in s.objs && Awaiting(s.objs[o]))
  }

  lemma MovesOn(s: State) returns (s': State)
    requires Inv(s) && Outstanding(s)
    ensures Works(s, s') || Dequeue(s, s') || (exists o :: OnDestroy(s, o, s'))
  {
    if a :| Busy(s, a) {
      s' := Unblock(s, a);
    } else {
      assert s.disp.Ready? by {
        assert !Busy(s, Dispatcher);
      }
      if s.queue != [] {
        var o := s.queue[0];
        assert ObjAt(s, o);
        s' := s.(queue := s.queue[1..], disp := if s.objs[o].kind.Timer? then EndGate(o) else EndLock(o),
                 objs := s.objs[o := s.objs[o].(stage := Dying)]);
        assert Dequeue(s, s');
      } else {
        var o :| o in s.objs && Awaiting(s.objs[o]);
        assert ObjAt(s, o);
        s' := s.(disp := EndFree(o), objs := s.objs[o := s.objs[o].(open := false)]);
        assert OnDestroy(s, o, s');
      }
    }
  }

  /** In every reachable state in which anything is outstanding, some step other than starting new work can be
      taken. */
  lemma NeverStuck(run: seq<State>, i: nat) returns (s': State)
    requires Run(run) && i < |run| && Outstanding(run[i])
    ensures Works(run[i], s') || Dequeue(run[i], s') || (exists o :: OnDestroy(run[i], o, s'))
  {
    RunInv(run, i);
    s' := MovesOn(run[i]);
  }
}
