/** What can still come of an object: which of its callbacks run after its creation, which after a shutdown
    that finds it, and how a destroy call that finds it can end. For each, from every state of that kind. */
module LifecycleOutcomes {
  import opened Lifecycle
  import opened LifecycleInvariant
  import opened LifecycleDispatcher
  import opened LifecycleSafety
  import opened LifecycleReach
  import opened LifecycleLimits
  import opened LifecycleCalls

  // Runs and reaching

  lemma RunReaches(run: seq<State>, i: nat, j: nat)
    requires Run(run) && i <= j < |run|
    ensures Reaches(run[i], run[j])
  {
    hide Next;
    var part := run[i..j + 1];
    forall k | 0 <= k < |part| - 1 ensures Next(part[k], part[k + 1]) {
      assert Next(run[i + k], run[i + k + 1]);
    }
    assert Steps(part) && part[0] == run[i] && part[|part| - 1] == run[j];
  }

  lemma RunReachable(run: seq<State>, i: nat)
    requires Run(run) && i < |run|
    ensures Reachable(run[i])
  {
    assert run[0] == Start();
    hide Run, Reaches;
    RunReaches(run, 0, i);
  }

  lemma Follow(s: State, s': State, s'': State)
    requires Reaches(s, s') && Reaches(s', s'')
    ensures Reaches(s, s'')
  {
    var before :| before != [] && before[0] == s && before[|before| - 1] == s' && Steps(before);
    var after :| after != [] && after[0] == s' && after[|after| - 1] == s'' && Steps(after);
    var i := |before| - 1;
    var run := before + after[1..];
    assert forall k :: 0 <= k < |after| ==> run[i + k] == after[k];
    hide Next;
    forall k | 0 <= k < |run| - 1 ensures Next(run[k], run[k + 1]) {
      if k < i {
        assert Next(before[k], before[k + 1]);
      } else {
        assert Next(after[k - i], after[k - i + 1]);
        assert run[i + (k - i)] == after[k - i] && run[i + (k - i + 1)] == after[k - i + 1];
      }
    }
    assert Steps(run) && run[|run| - 1] == s'';
  }

  // The dispatcher gives up an object's lock in steps of its own

  /** How many more steps the dispatcher needs to give up the locks it has in a callback. */
  ghost function ToLetGo(d: Dpc): nat {
    match d
    case CbTest(_, _) => 3
    case CbUser(_, _, _) => 2
    case CbUnlock(_) => 1
    case CbUngate(_) => 1
    case _ => 0
  }

  /** A thread that waits for a lock of an object it has found waits for the dispatcher alone, which can move. */
  lemma LetsGo(s: State, t: Tid, o: Obj)
    requires Inv(s) && (Shuts(s, t, o) || Destroys(s, t, o)) && o in s.objs && !Enabled(Look(s, t, o))
    ensures !s.disp.Ready? && s.disp.o == o && DispEnabled(s.disp, s.objs[o])
    ensures forall s' :: DispAdvance(s, s') ==> ToLetGo(s'.disp) < ToLetGo(s.disp)
  {
    var r := s.objs[o];
    var l := if r.lock.Client? then r.lock.t else t;
    var g := if r.gate.Client? then r.gate.t else t;
    assert SoloAt(s, t) && PairAt(s, t, o) && PairAt(s, l, o) && PairAt(s, g, o) && ObjAt(s, o);
    hide Inv;
    assert !r.lock.Client? && (Pos(s, t).Gate? ==> !r.gate.Client?);
  }

  // A shutdown that finds its object

  ghost function ToShutDone(pc: Pc): nat {
    match pc
    case ShutLook(_) => 4
    case ShutLock(_) => 3
    case ShutClear(_) => 2
    case ShutUnlock(_) => 1
    case _ => 0
  }

  lemma ShutsNearer(t: Tid, o: Obj, v: View, v': View)
    requires Shutdown(v.pc) && v.pc.o == o && v' == Do(t, o, v) && v.r.indexed && !v.pc.ShutDone? && !v.pc.ShutWait?
    ensures ToShutDone(v'.pc) < ToShutDone(v.pc)
  {
  }

  /** It can always be brought to its end. */
  lemma BringShutDone(a: State, s: State, t: Tid, o: Obj) returns (s': State)
    requires Reaches(a, s) && Inv(s) && Shuts(s, t, o)
    ensures Reaches(a, s') && Pos(s', t) == ShutDone(o) && o in s'.objs && Beside(s.objs[o], s'.objs[o])
    decreases ToShutDone(Pos(s, t)), ToLetGo(s.disp)
  {
    hide Inv, Reaches, DispAdvance, Enabled, Do, Next;
    if Pos(s, t) == ShutDone(o) {
      s' := s;
    } else if Enabled(Look(s, t, o)) {
      s' := Go(a, s, t);
      ShutsNearer(t, o, Look(s, t, o), Do(t, o, Look(s, t, o)));
      ShutsAdvance(s, t, s', o);
      AdvanceInv(s, t, s');
      s' := BringShutDone(a, s', t, o);
    } else {
      LetsGo(s, t, o);
      s' := DispGo(a, s);
      DispNext(s, s');
      ServedSame(s, s', o);
      DispThreads(s, s');
      s' := BringShutDone(a, s', t, o);
    }
  }

  lemma DispThreads(s: State, s': State)
    requires DispAdvance(s, s')
    ensures s'.threads == s.threads
  {
  }

  /** The first moment at which a call has returned. */
  lemma {:induction false} Returned(run: seq<State>, i: nat, j: nat, t: Tid) returns (k: nat)
    requires i <= j < |run| && !Pos(run[i], t).Idle? && Pos(run[j], t).Idle?
    ensures i < k <= j && OneCall(run, i, k, t)
    decreases j
  {
    if k0 :| i < k0 < j && Pos(run[k0], t).Idle? {
      k := Returned(run, i, k0, t);
    } else {
      k := j;
    }
  }

  /** What can run after a shutdown that finds its object: a callback that is set now and is not about ticks or
      messages. */
  lemma FoundLimit(s: State, t: Tid, o: Obj, n: Notice)
    requires Reachable(s) && Pos(s, t) == ShutLook(o) && o in s.objs && s.objs[o].indexed
    ensures CallbackAfter(s, t, o, n) <==> !n.Message? && Armed(s.objs[o], n)
  {
    hide Inv, Reaches, Run, Start;
    ReachableInv(s);
    if s' :| Reaches(s, s') && Pos(s', t).Idle? && InCallbackOn(s', o, n) {
      ArmedBefore(s, s', o, n);
      var run, i := Join(s, s');
      var k := Returned(run, i, |run| - 1, t);
      FoundShutdown(run, i, k, t, o);
      SilentAfterShutdown(run, k - 1, |run| - 1, t, o);
    }
    if !n.Message? && Armed(s.objs[o], n) {
      Stay(s);
      var d := BringShutDone(s, s, t, o);
      Follow(Start(), s, d);
      ShutdownLimit(d, t, o, n);
      var s' :| Reaches(d, s') && Pos(s', t).Idle? && InCallbackOn(s', o, n);
      Follow(s, d, s');
    }
  }

  // The callbacks of a created object

  /** A user callback on the object about `n`, with this closure, can be brought about. */
  ghost predicate CalledBack(s: State, o: Obj, n: Notice, closure: nat) {
    exists s' :: Reaches(s, s') && InCallbackOn(s', o, n) && s'.disp.closure == closure
  }

  lemma StillUntouched(s: State, s': State, o: Obj)
    requires o in s.objs && o in s'.objs && Onward(s.objs[o], s'.objs[o])
    requires Untouched(s', o) && (forall u :: Pos(s, u) != ShutClear(o))
    ensures Untouched(s, o)
  {
  }

  lemma IntactOpen(s: State, o: Obj, n: Notice)
    requires Inv(s) && Untouched(s, o) && s.objs[o].msg && Armed(s.objs[o], n)
    ensures Open(s.disp, o, s.objs[o], n)
  {
    var r := s.objs[o];
    var l := if r.lock.Client? then r.lock.t else 0;
    var g := if r.gate.Client? then r.gate.t else 0;
    assert PairAt(s, l, o) && PairAt(s, g, o) && ObjAt(s, o);
    hide Inv;
  }

  lemma CalledWith(s: State, o: Obj, n: Notice)
    requires Inv(s) && InCallbackOn(s, o, n) && o in s.objs
    ensures s.disp.closure == s.objs[o].given
  {
    assert ObjAt(s, o);
  }

  /** Of an object as it was created, exactly the callbacks it was given can run, with the closure it was given. */
  lemma IntactCallbacks(s: State, o: Obj, kind: Kind, err: bool, made: bool, closure: nat, n: Notice, c: nat)
    requires Reachable(s) && Intact(s, o, kind, err, made, closure) && Untouched(s, o)
    ensures CalledBack(s, o, n, c) <==> c == closure && Armed(s.objs[o], n)
  {
    hide Inv, Reaches, Run, Start, Onward, Untouched, Armed, Open;
    ReachableInv(s);
    if s' :| Reaches(s, s') && InCallbackOn(s', o, n) && s'.disp.closure == c {
      ArmedBefore(s, s', o, n);
      GivenLater(s, s', o, n);
    }
    if Armed(s.objs[o], n) {
      IntactOpen(s, o, n);
      Stay(s);
      var s' := Bring(s, s, o, n);
      GivenLater(s, s', o, n);
    }
  }

  lemma GivenLater(s: State, s': State, o: Obj, n: Notice)
    requires Reachable(s) && Reaches(s, s') && o in s.objs && InCallbackOn(s', o, n)
    ensures s'.disp.closure == s.objs[o].given
  {
    hide Inv, Reaches, Run, Start, InCallbackOn;
    var run, i := Join(s, s');
    RunOnward(run, i, |run| - 1, o);
    RunInv(run, |run| - 1);
    CalledWith(s', o, n);
  }

  /** From every moment after its creation at which no shutdown or destroy call has got to an object, a callback
      about ticks or messages can run with the closure it was created with, one about errors exactly if it was
      created with one, one about its creation exactly if it was created with one, and none with another closure. */
  lemma CreatedCallbacks(run: seq<State>, i: nat, j: nat, t: Tid, o: Obj, kind: Kind, err: bool, made: bool,
                         closure: nat, n: Notice, c: nat)
    requires Run(run) && i < j < |run| && Create(run[i], t, o, kind, err, made, closure, run[i + 1])
    requires o in run[j].objs ==> run[j].objs[o].stage.Making? || run[j].objs[o].stage.Indexed?
    requires forall k, u :: i < k <= j ==> Pos(run[k], u) != ShutClear(o)
    ensures CalledBack(run[j], o, n, c) <==>
      c == closure && (n.Message? || (n.Trouble? && err) || (n.Creation? && made))
  {
    hide Run, Onward, Untouched, Create, CalledBack;
    CreateAdds(run[i], t, o, kind, err, made, closure, run[i + 1]);
    RunOnward(run, i + 1, j, o);
    UntouchedNow(run[j], o);
    forall k | i < k < j ensures Untouched(run[k], o) {
      RunOnward(run, i + 1, k, o);
      RunOnward(run, k, j, o);
      StillUntouched(run[k], run[j], o);
    }
    StaysIntact(run, i + 1, j, o, kind, err, made, closure);
    RunReachable(run, j);
    IntactCallbacks(run[j], o, kind, err, made, closure, n, c);
  }

  lemma UntouchedNow(s: State, o: Obj)
    requires o in s.objs && (s.objs[o].stage.Making? || s.objs[o].stage.Indexed?)
    requires forall u :: Pos(s, u) != ShutClear(o)
    ensures Untouched(s, o)
  {
  }

  // A destroy call that finds its object

  ghost function ToPost(pc: Pc): nat {
    match pc
    case DestLook(_) => 8
    case Uncount(_, _) => 7
    case Uncounted(_, _, _) => 6
    case Gate(_, _) => 5
    case Lock(_, _) => 4
    case Clear(_, _) => 3
    case Unlock(_, _) => 2
    case Ungate(_, _) => 1
    case _ => 0
  }

  lemma DestroysNearer(t: Tid, o: Obj, v: View, v': View)
    requires Named(v.pc) && v' == Do(t, o, v) && ((v.pc.DestLook? && v.r.indexed) || Detached(v.pc)) && !v.pc.Post?
    ensures ToPost(v'.pc) < ToPost(v.pc)
  {
  }

  lemma DestroyedIn(s: State, t: Tid, o: Obj)
    requires Inv(s) && Destroys(s, t, o)
    ensures o in s.objs
  {
    assert SoloAt(s, t);
  }

  /** It can always be brought to the point where it posts the destroy event. */
  lemma BringPost(a: State, s: State, t: Tid, o: Obj) returns (s': State)
    requires Reaches(a, s) && Inv(s) && Destroys(s, t, o)
    ensures Reaches(a, s') && Inv(s') && Pos(s', t) == Post(o, Return)
    decreases ToPost(Pos(s, t)), ToLetGo(s.disp)
  {
    hide Inv, Reaches, DispAdvance, Enabled, Do, Next, Given;
    DestroyedIn(s, t, o);
    if Pos(s, t) == Post(o, Return) {
      s' := s;
    } else if Enabled(Look(s, t, o)) {
      s' := Go(a, s, t);
      DestroysNearer(t, o, Look(s, t, o), Do(t, o, Look(s, t, o)));
      DestroysAdvance(s, t, s', o);
      AdvanceInv(s, t, s');
      s' := BringPost(a, s', t, o);
    } else {
      LetsGo(s, t, o);
      s' := DispGo(a, s);
      DispNext(s, s');
      ServedSame(s, s', o);
      DispThreads(s, s');
      s' := BringPost(a, s', t, o);
    }
  }

  lemma RefuseGo(a: State, s: State, t: Tid, o: Obj) returns (s': State)
    requires Reaches(a, s) && Inv(s) && Pos(s, t) == Post(o, Return)
    ensures Reaches(a, s') && Pos(s', t).Idle? && Given(s', o, true)
  {
    assert SoloAt(s, t);
    s' := Goto(s, t, Idle).(objs := s.objs[o := s.objs[o].(stage := Stranded)]);
    assert Refuse(s, t, s');
    assert ClientNext(s, t, s');
    hide Reaches, Given;
    Extend(a, s, s');
    DestroysRefused(s, t, s', o);
  }

  lemma AcceptGo(a: State, s: State, t: Tid, o: Obj) returns (s': State)
    requires Reaches(a, s) && Inv(s) && Pos(s, t) == Post(o, Return)
    ensures Reaches(a, s') && Pos(s', t).Idle? && Given(s', o, false)
  {
    hide Inv, Reaches, Given;
    DestroyedIn(s, t, o);
    s' := Go(a, s, t);
    DestroysAdvance(s, t, s', o);
  }

  /** It has returned, and the queue has taken or refused the object's destroy event. */
  ghost predicate EndsWith(s: State, t: Tid, o: Obj, refused: bool) {
    exists s' :: Reaches(s, s') && Pos(s', t).Idle? && Given(s', o, refused)
  }

  /** A destroy call that finds its object can be brought to its end, with either answer of the queue. */
  lemma DestroyEnds(s: State, t: Tid, o: Obj)
    requires Reachable(s) && Pos(s, t) == DestLook(o) && o in s.objs && s.objs[o].indexed
    ensures EndsWith(s, t, o, false) && EndsWith(s, t, o, true)
  {
    hide Inv, Reaches, Given;
    ReachableInv(s);
    Stay(s);
    var p := BringPost(s, s, t, o);
    var s1 := AcceptGo(s, p, t, o);
    var s2 := RefuseGo(s, p, t, o);
  }
}
