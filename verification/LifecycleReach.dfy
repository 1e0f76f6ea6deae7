/** Reaching one state of the life cycle from another, and how a user callback on an object can be brought
    about from every state in which nothing rules it out. */
module LifecycleReach {
  import opened Lifecycle
  import opened LifecycleInvariant
  import opened LifecycleDispatcher
  import opened LifecycleSafety

  // Reaching a state

  ghost predicate Steps(run: seq<State>) {
    forall i :: 0 <= i < |run| - 1 ==> Next(run[i], run[i + 1])
  }

  ghost predicate Reaches(a: State, s: State) {
    exists run: seq<State> :: run != [] && run[0] == a && run[|run| - 1] == s && Steps(run)
  }

  ghost function Start(): State {
    State(map[], Ready, Maps(Nobody, Nobody, Nobody), Counts(0, 0, 0), [], map[], Running)
  }

  ghost predicate Reachable(s: State) {
    Reaches(Start(), s)
  }

  lemma Stay(s: State)
    ensures Reaches(s, s)
  {
    assert Steps([s]) && [s][|[s]| - 1] == s;
  }

  lemma Extend(a: State, s: State, s': State)
    requires Reaches(a, s) && Next(s, s')
    ensures Reaches(a, s')
  {
    var run :| run != [] && run[0] == a && run[|run| - 1] == s && Steps(run);
    var next := run + [s'];
    forall i | 0 <= i < |next| - 1 ensures Next(next[i], next[i + 1]) {
      if i < |run| - 1 {
        assert Next(run[i], run[i + 1]);
      }
    }
    assert Steps(next) && next[|next| - 1] == s';
  }

  /** A state reached from a reachable state is a later state of one run. */
  lemma Join(s: State, s': State) returns (run: seq<State>, i: nat)
    requires Reachable(s) && Reaches(s, s')
    ensures Run(run) && i < |run| && run[i] == s && run[|run| - 1] == s'
  {
    var before :| before != [] && before[0] == Start() && before[|before| - 1] == s && Steps(before);
    var after :| after != [] && after[0] == s && after[|after| - 1] == s' && Steps(after);
    i := |before| - 1;
    run := before + after[1..];
    assert forall k :: 0 <= k < |after| ==> run[i + k] == after[k];
    hide Next;
    forall k | 0 <= k < |run| - 1 ensures Next(run[k], run[k + 1]) {
      if k < i {
        assert Next(before[k], before[k + 1]);
      } else {
        assert Next(after[k - i], after[k - i + 1]);
        assert run[i + (k - i)] == after[k - i] && run[i + (k - i + 1)] == after[k - i + 1];
      }
    }
  }

  lemma ReachableInv(s: State)
    requires Reachable(s)
    ensures Inv(s)
  {
    Stay(s);
    var run, i := Join(s, s);
    RunInv(run, i);
  }

  /** One step of thread `t` in its call. */
  lemma Go(a: State, s: State, t: Tid) returns (s': State)
    requires Reaches(a, s) && Named(Pos(s, t)) && Pos(s, t).o in s.objs && Enabled(Look(s, t, Pos(s, t).o))
    ensures Reaches(a, s') && Advance(s, t, s')
    ensures s' == Put(s, t, Pos(s, t).o, Do(t, Pos(s, t).o, Look(s, t, Pos(s, t).o)))
  {
    s' := Put(s, t, Pos(s, t).o, Do(t, Pos(s, t).o, Look(s, t, Pos(s, t).o)));
    assert Advance(s, t, s');
    assert ClientNext(s, t, s');
    hide Do, Enabled, Put, Look;
    Extend(a, s, s');
  }

  lemma DispGo(a: State, s: State) returns (s': State)
    requires Reaches(a, s) && !s.disp.Ready? && s.disp.o in s.objs && DispEnabled(s.disp, s.objs[s.disp.o])
    ensures Reaches(a, s') && DispAdvance(s, s')
  {
    var (d, r) := DispDo(s.disp.o, s.disp, s.objs[s.disp.o]);
    s' := s.(disp := d, objs := s.objs[s.disp.o := r]);
    assert DispAdvance(s, s');
    Extend(a, s, s');
  }

  // Bringing a callback about

  /** A user callback on the object is running, about `n`. */
  ghost predicate InCallbackOn(s: State, o: Obj, n: Notice) {
    InCallback(s, o) && s.disp.n == n
  }

  /** How many more steps of its own the dispatcher needs to be in a callback on `o`, told of `n`. */
  ghost function ToCallback(d: Dpc, o: Obj, n: Notice): nat {
    match d
    case CbUser(x, m, _) => if x == o && m == n then 0 else 7
    case CbTest(x, m) => if x == o && m == n then 1 else 8
    case CbLock(x, m) => if x == o && m == n then 2 else 9
    case Ready => 3
    case CbUngate(_) => 4
    case EndFree(_) => 4
    case CbGate(_) => 5
    case EndNative(_) => 5
    case CbUnlock(_) => 6
    case EndLock(_) => 6
    case EndGate(_) => 7
  }

  /** How many more steps a client needs to give up the locks of its object. */
  ghost function ToRelease(pc: Pc): nat {
    match pc
    case Lock(_, _) => 4
    case ShutClear(_) => 3
    case Clear(_, _) => 3
    case ShutUnlock(_) => 2
    case Unlock(_, _) => 2
    case Ungate(_, _) => 1
    case _ => 0
  }

  /** The steps of the client the dispatcher waits for. */
  ghost function Wait(s: State): nat {
    if s.disp.Ready? || s.disp.o !in s.objs then 0
    else if s.disp.CbLock? && s.objs[s.disp.o].lock.Client? then ToRelease(Pos(s, s.objs[s.disp.o].lock.t))
    else if s.disp.CbGate? && s.objs[s.disp.o].gate.Client? then ToRelease(Pos(s, s.objs[s.disp.o].gate.t))
    else 0
  }

  /** The object's destroyer has m_lock, or it has m_destroyLock and a tick is on its way through there. */
  ghost predicate Barred(d: Dpc, o: Obj, r: Rec) {
    r.lock.Client? || (r.gate.Client? && (d == CbUnlock(o) || d == CbGate(o)))
  }

  /** A callback about `n` can be brought about. */
  ghost predicate Open(d: Dpc, o: Obj, r: Rec, n: Notice) {
    Armed(r, n) && !Barred(d, o, r) && !Finished(r)
  }

  /** The dispatcher waits for a client's lock only at the beginning and at the end of a callback. */
  lemma WaitsAt(o: Obj, d: Dpc, r: Rec, p: Phase)
    requires !d.Ready? && d.o == o && DispPair(d, o, r) && Self(r, p) && !DispEnabled(d, r)
    requires r.lock.Client? || r.gate.Client? ==> !Finished(r)
    ensures if d.CbLock? then r.lock.Client? else d.CbGate? && r.gate.Client? && !r.lock.Dispatcher?
  {
  }

  /** A thread that holds one of its object's locks. */
  ghost predicate Holding(pc: Pc) {
    pc.ShutClear? || pc.ShutUnlock? || pc.Lock? || pc.Clear? || pc.Unlock? || pc.Ungate?
  }

  /** Threads that hold no object's locks stay where they are. */
  ghost predicate OthersStay(s: State, s': State) {
    forall t :: !Holding(Pos(s, t)) ==> Pos(s', t) == Pos(s, t)
  }

  /** A client thread that keeps the dispatcher waiting can always move, and is on an object of its own. */
  lemma Blocker(s: State) returns (v: Tid)
    requires Inv(s) && !s.disp.Ready? && s.disp.o in s.objs && !DispEnabled(s.disp, s.objs[s.disp.o])
    ensures Named(Pos(s, v)) && Pos(s, v).o == s.disp.o && Enabled(Look(s, v, s.disp.o))
    ensures HoldsLock(Pos(s, v), s.disp.o) || HoldsGate(Pos(s, v), s.disp.o)
    ensures forall s' :: Advance(s, v, s') ==> Wait(s') < Wait(s)
    ensures if s.disp.CbLock? then s.objs[s.disp.o].lock.Client? else s.disp.CbGate? && s.objs[s.disp.o].gate.Client?
  {
    var x := s.disp.o;
    var r := s.objs[x];
    assert ObjAt(s, x);
    var l := if r.lock.Client? then r.lock.t else r.maker;
    var g := if r.gate.Client? then r.gate.t else r.maker;
    assert PairAt(s, l, x) && PairAt(s, g, x);
    HeldIsLive(r, x, l, Pos(s, l), s.maps.Of(r.kind));
    HeldIsLive(r, x, g, Pos(s, g), s.maps.Of(r.kind));
    WaitsAt(x, s.disp, r, s.phase);
    v := if s.disp.CbLock? then l else g;
    assert Enabled(Look(s, v, x));
    hide Inv, Self, DispPair, Pair, Enabled;
    ReleaseStep(v, x, Look(s, v, x), Do(v, x, Look(s, v, x)));
    hide Do, ToRelease;
    forall s' | Advance(s, v, s') ensures Wait(s') < Wait(s) {
      assert s'.disp == s.disp;
    }
  }

  lemma ReleaseStep(t: Tid, o: Obj, v: View, v': View)
    requires Named(v.pc) && v.pc.o == o && v' == Do(t, o, v) && (HoldsLock(v.pc, o) || HoldsGate(v.pc, o))
    ensures ToRelease(v'.pc) < ToRelease(v.pc)
    ensures v'.r.lock == v.r.lock || v'.r.lock.Nobody? || v'.r.lock == Client(t)
    ensures v'.r.gate == v.r.gate || v'.r.gate.Nobody? || v'.r.gate == Client(t)
  {
  }

  /** An object one of whose locks a client holds is not being destroyed yet. */
  lemma HeldIsLive(r: Rec, o: Obj, t: Tid, pc: Pc, m: Holder)
    requires Pair(t, pc, o, r, m)
    ensures r.lock == Client(t) || r.gate == Client(t) ==> !Finished(r)
  {
  }

  /** What bringing a callback about leaves of an object that is not the dispatcher's or a blocker's. */
  ghost predicate Kept(r: Rec, r': Rec) {
    r'.indexed == r.indexed && r'.kind == r.kind && r'.msg == r.msg && r'.err == r.err && r'.made == r.made
  }

  lemma OpenHere(o: Obj, d: Dpc, r: Rec, d': Dpc, r': Rec, n: Notice, p: Phase)
    requires !d.Ready? && !(d.CbUser? && d.n == n) && d.o == o && DispEnabled(d, r) && DispDo(o, d, r) == (d', r')
    requires DispPair(d, o, r) && Self(r, p) && Open(d, o, r, n) && (r.gate.Client? ==> r.kind.Timer?)
    ensures Open(d', o, r', n) && ToCallback(d', o, n) < ToCallback(d, o, n) && Kept(r, r')
  {
  }

  lemma OpenElsewhere(x: Obj, d: Dpc, q: Rec, d': Dpc, q': Rec, o: Obj, r: Rec, n: Notice)
    requires !d.Ready? && d.o == x && x != o && DispDo(x, d, q) == (d', q') && Open(d, o, r, n)
    ensures Open(d', o, r, n) && ToCallback(d', o, n) < ToCallback(d, o, n)
  {
  }

  lemma OpenDisp(s: State, s': State, o: Obj, n: Notice)
    requires DispAdvance(s, s') && Inv(s) && o in s.objs && Open(s.disp, o, s.objs[o], n)
    requires !InCallbackOn(s, o, n)
    ensures o in s'.objs && Open(s'.disp, o, s'.objs[o], n) && Kept(s.objs[o], s'.objs[o])
    ensures ToCallback(s'.disp, o, n) < ToCallback(s.disp, o, n) && s'.threads == s.threads
  {
    var (x, d, r) := (s.disp.o, s.disp, s.objs[s.disp.o]);
    assert ObjAt(s, o);
    if s.objs[o].gate.Client? {
      assert PairAt(s, s.objs[o].gate.t, o);
    }
    hide Inv, Open, DispDo, DispEnabled, DispPair, Self, Owns, Makes, Creates, ToCallback;
    if x == o {
      OpenHere(o, d, r, s'.disp, s'.objs[o], n, s.phase);
    } else {
      OpenElsewhere(x, d, r, s'.disp, s'.objs[x], o, s.objs[o], n);
    }
  }

  lemma OpenReady(a: State, s: State, o: Obj, n: Notice) returns (s': State)
    requires Reaches(a, s) && Inv(s) && s.disp.Ready? && o in s.objs && Open(s.disp, o, s.objs[o], n)
    ensures Reaches(a, s') && Next(s, s') && s' == s.(disp := CbLock(o, n)) && Open(s'.disp, o, s'.objs[o], n)
  {
    assert ObjAt(s, o);
    s' := s.(disp := CbLock(o, n));
    assert Deliver(s, o, n, s');
    Extend(a, s, s');
  }

  /** The dispatcher waits for a client: it takes a step, on another object. */
  lemma OpenWait(a: State, s: State, o: Obj, n: Notice) returns (s': State)
    requires Reaches(a, s) && Inv(s) && !s.disp.Ready? && s.disp.o in s.objs
    requires !DispEnabled(s.disp, s.objs[s.disp.o])
    requires o in s.objs && Open(s.disp, o, s.objs[o], n)
    ensures Reaches(a, s') && Next(s, s') && OthersStay(s, s') && s'.disp == s.disp
    ensures o in s'.objs && s'.objs[o] == s.objs[o] && Wait(s') < Wait(s)
  {
    var v := Blocker(s);
    assert s.disp.o != o && Holding(Pos(s, v));
    hide Inv, Open, Wait, DispEnabled;
    s' := Go(a, s, v);
    assert ClientNext(s, v, s');
  }

  /** From any state in which it can be, a callback on `o` about `n` is brought about, while every thread that
      holds no object's locks stays put. */
  lemma Bring(a: State, s: State, o: Obj, n: Notice) returns (s': State)
    requires Reaches(a, s) && Inv(s) && o in s.objs && Open(s.disp, o, s.objs[o], n)
    ensures Reaches(a, s') && Inv(s') && InCallbackOn(s', o, n) && OthersStay(s, s')
    ensures o in s'.objs && Kept(s.objs[o], s'.objs[o])
    decreases ToCallback(s.disp, o, n), Wait(s)
  {
    hide Inv, Open, DispEnabled, DispAdvance, Next;
    if InCallbackOn(s, o, n) {
      s' := s;
    } else if s.disp.Ready? {
      s' := OpenReady(a, s, o, n);
      NextInv(s, s');
      s' := Bring(a, s', o, n);
    } else {
      DispIn(s);
      if DispEnabled(s.disp, s.objs[s.disp.o]) {
        s' := DispGo(a, s);
        OpenDisp(s, s', o, n);
        DispNext(s, s');
        s' := Bring(a, s', o, n);
      } else {
        s' := OpenWait(a, s, o, n);
        NextInv(s, s');
        s' := Bring(a, s', o, n);
      }
    }
  }

  lemma DispIn(s: State)
    requires Inv(s) && !s.disp.Ready?
    ensures s.disp.o in s.objs
  {
  }

  lemma DispNext(s: State, s': State)
    requires DispAdvance(s, s') && Inv(s)
    ensures Inv(s')
  {
    DispAdvanceInv(s, s');
  }

  /** The thread's call ends in its next step. */
  lemma Leave(a: State, s: State, t: Tid, o: Obj) returns (s': State)
    requires Reaches(a, s) && Inv(s) && o in s.objs
    requires Pos(s, t) == ShutDone(o) || (Pos(s, t) == DestLook(o) && !s.objs[o].indexed)
    ensures Reaches(a, s') && Pos(s', t).Idle? && s'.disp == s.disp
  {
    hide Inv;
    s' := Go(a, s, t);
  }
}
