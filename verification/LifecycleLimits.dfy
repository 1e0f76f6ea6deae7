/** Where the life cycle promises less than it may seem to: after a shutdown, after a destroy call that came
    second, and when a count has been lost. For each, exactly when, and a run from the start that shows it. */
module LifecycleLimits {
  import opened Lifecycle
  import opened LifecycleInvariant
  import opened LifecycleSafety
  import opened LifecycleCounter
  import opened LifecycleReach

  // A shutdown clears the tick or message callbacks only

  ghost predicate CallbackAfter(s: State, t: Tid, o: Obj, n: Notice) {
    exists s' :: Reaches(s, s') && Pos(s', t).Idle? && InCallbackOn(s', o, n)
  }

  /** After a shutdown a callback can still start exactly if it is set: one for errors or for the creation, and
      never one for ticks or messages. */
  lemma ShutdownLimit(s: State, t: Tid, o: Obj, n: Notice)
    requires Reachable(s) && Pos(s, t) == ShutDone(o)
    ensures o in s.objs && (CallbackAfter(s, t, o, n) <==> Armed(s.objs[o], n)) && !Armed(s.objs[o], Message)
  {
    ReachableInv(s);
    assert SoloAt(s, t) && PairAt(s, t, o) && ObjAt(s, o);
    if s' :| Reaches(s, s') && Pos(s', t).Idle? && InCallbackOn(s', o, n) {
      ArmedBefore(s, s', o, n);
    }
    if Armed(s.objs[o], n) {
      ShutdownOpen(s, t, o, n);
      Stay(s);
      hide Inv, Open;
      var c := Bring(s, s, o, n);
      var s' := Leave(s, c, t, o);
    }
  }

  /** A callback that runs was set all along. */
  lemma ArmedBefore(s: State, s': State, o: Obj, n: Notice)
    requires Reachable(s) && Reaches(s, s') && o in s.objs && InCallbackOn(s', o, n)
    ensures Armed(s.objs[o], n)
  {
    hide Run, Onward, Inv, Reaches, Start;
    var run, i := Join(s, s');
    RunOnward(run, i, |run| - 1, o);
    RunInv(run, |run| - 1);
    ArmedNow(s.objs[o], s', o, n);
  }

  lemma ArmedNow(r: Rec, s': State, o: Obj, n: Notice)
    requires Inv(s') && o in s'.objs && Onward(r, s'.objs[o]) && InCallbackOn(s', o, n)
    ensures Armed(r, n)
  {
    assert ObjAt(s', o);
  }

  lemma ShutdownOpen(s: State, t: Tid, o: Obj, n: Notice)
    requires Inv(s) && o in s.objs && Pos(s, t) == ShutDone(o) && Armed(s.objs[o], n)
    ensures Open(s.disp, o, s.objs[o], n)
  {
    var r := s.objs[o];
    assert PairAt(s, t, o) && ObjAt(s, o);
    assert r.stage.Indexed?;
    var u := if r.lock.Client? then r.lock.t else t;
    var w := if r.gate.Client? then r.gate.t else t;
    assert PairAt(s, u, o) && PairAt(s, w, o);
  }

  // A destroy call that comes second returns at once

  /** No callback on the object can start any more. */
  ghost predicate Over(d: Dpc, o: Obj, r: Rec) {
    Silent(r) || Barred(d, o, r)
  }

  /** The object is out of its map, and no callback on it can start. */
  ghost predicate Done(s: State, o: Obj) {
    o in s.objs && s.objs[o].known && !s.objs[o].indexed && Over(s.disp, o, s.objs[o])
  }

  lemma DoOver(t: Tid, o: Obj, v: View, v': View, d: Dpc)
    requires Named(v.pc) && v.pc.o == o && v' == Do(t, o, v) && Enabled(v) && Pair(t, v.pc, o, v.r, v.m)
    requires v.r.known && !v.r.indexed && (v.r.indexed <==> v.r.stage.Indexed?) && Over(d, o, v.r)
    ensures v'.r.known && !v'.r.indexed && Over(d, o, v'.r)
  {
    assert !Creating(v.pc) && (Shutdown(v.pc) ==> v.pc.ShutWait? || v.pc.ShutLook?);
    assert v.pc.Unlock? || v.pc.Ungate? || v.pc.Post? ==> Silent(v.r);
    assert Removing(v.pc) ==> v'.r == v.r by {
      assert v.pc.DestLook? ==> !v.r.indexed;
    }
    hide Pair, Enabled, DoCreate;
    if Detached(v.pc) && !Removing(v.pc) {
      DestroyOver(t, o, v, v', d);
    }
  }

  lemma DestroyOver(t: Tid, o: Obj, v: View, v': View, d: Dpc)
    requires Detached(v.pc) && !Removing(v.pc) && v' == DoDestroy(t, o, v) && Over(d, o, v.r)
    requires v.pc.Unlock? || v.pc.Ungate? || v.pc.Post? ==> Silent(v.r)
    ensures Over(d, o, v'.r)
  {
  }

  lemma AdvanceOver(s: State, t: Tid, s': State, o: Obj)
    requires Advance(s, t, s') && Inv(s) && Done(s, o)
    ensures Done(s', o)
  {
    var x := Pos(s, t).o;
    assert PairAt(s, t, x) && ObjAt(s, x);
    hide Inv, Over, Do, Enabled, Pair, DispPair;
    if x == o {
      DoOver(t, o, Look(s, t, o), Do(t, o, Look(s, t, o)), s.disp);
    }
  }

  lemma DispOver(s: State, s': State, o: Obj)
    requires DispAdvance(s, s') && Inv(s) && Done(s, o)
    ensures Done(s', o)
  {
    assert ObjAt(s, o);
    if s.objs[o].gate.Client? {
      assert PairAt(s, s.objs[o].gate.t, o);
    }
    hide Inv, Owns, Makes, Creates, HoldsLock, Place;
  }

  lemma OverSame(d: Dpc, o: Obj, r: Rec, r': Rec)
    requires Over(d, o, r) && Kept(r, r') && r'.lock == r.lock && r'.gate == r.gate
    ensures Over(d, o, r')
  {
  }

  lemma ClientOver(s: State, t: Tid, s': State, o: Obj)
    requires ClientNext(s, t, s') && !Advance(s, t, s') && Done(s, o)
    ensures Done(s', o)
  {
    hide Advance, Over;
    OverSame(s.disp, o, s.objs[o], s'.objs[o]);
  }

  lemma OtherOver(s: State, s': State, o: Obj)
    requires (DispatcherNext(s, s') && !DispAdvance(s, s')) || TeardownNext(s, s')
    requires Done(s, o)
    ensures Done(s', o)
  {
    hide DispAdvance;
  }

  lemma OverStep(s: State, s': State, o: Obj)
    requires Next(s, s') && Inv(s) && Done(s, o)
    ensures Done(s', o)
  {
    hide Inv, Done, DispAdvance, Advance, DispatcherNext, TeardownNext, ClientNext;
    if DispAdvance(s, s') {
      DispOver(s, s', o);
    } else if DispatcherNext(s, s') || TeardownNext(s, s') {
      OtherOver(s, s', o);
    } else {
      var t :| ClientNext(s, t, s');
      if Advance(s, t, s') {
        AdvanceOver(s, t, s', o);
      } else {
        ClientOver(s, t, s', o);
      }
    }
  }

  lemma {:induction false} OverStays(run: seq<State>, i: nat, j: nat, o: Obj)
    requires Run(run) && i <= j < |run| && Done(run[i], o)
    ensures Done(run[j], o)
  {
    hide Next, Done;
    if i < j {
      OverStays(run, i, j - 1, o);
      RunInv(run, j - 1);
      assert Next(run[j - 1], run[j - 1 + 1]);
      OverStep(run[j - 1], run[j], o);
    }
  }

  lemma OverThen(s: State, s': State, o: Obj)
    requires Reachable(s) && Reaches(s, s') && Done(s, o)
    ensures !InCallback(s', o)
  {
    hide Run, Inv, Done, Reaches, Start;
    var run, i := Join(s, s');
    OverStays(run, i, |run| - 1, o);
    RunInv(run, |run| - 1);
    OverSilent(s', o);
  }

  lemma OverSilent(s: State, o: Obj)
    requires Inv(s) && Done(s, o)
    ensures !InCallback(s, o)
  {
    assert ObjAt(s, o);
  }

  /** After a destroy call that did not find its object, a callback can still run exactly if it is set and the
      object's destroyer has not got to where it keeps the dispatcher out. */
  lemma MissedLimit(s: State, t: Tid, o: Obj, n: Notice)
    requires Reachable(s) && Pos(s, t) == DestLook(o) && o in s.objs && !s.objs[o].indexed
    ensures CallbackAfter(s, t, o, n) <==> Armed(s.objs[o], n) && !Barred(s.disp, o, s.objs[o])
  {
    ReachableInv(s);
    assert PairAt(s, t, o) && ObjAt(s, o);
    var r := s.objs[o];
    if s' :| Reaches(s, s') && Pos(s', t).Idle? && InCallbackOn(s', o, n) {
      ArmedBefore(s, s', o, n);
      if Over(s.disp, o, r) {
        OverThen(s, s', o);
      }
    }
    if Armed(r, n) && !Barred(s.disp, o, r) {
      assert Open(s.disp, o, r, n);
      Stay(s);
      hide Inv, Open, Barred;
      var c := Bring(s, s, o, n);
      var s' := Leave(s, c, t, o);
    }
  }

  // The three limits from the start

  lemma Called(a: State, s: State, t: Tid, pc: Pc) returns (s': State)
    requires Reaches(a, s) && (pc.ShutWait? || pc.DestWait?) && pc.o in s.objs
    requires Pos(s, t).Idle? && s.objs[pc.o].known && s.phase != Gone
    ensures Reaches(a, s') && s' == Goto(s, t, pc)
  {
    s' := Goto(s, t, pc);
    assert Call(s, t, pc.o, s');
    assert ClientNext(s, t, s');
    Extend(a, s, s');
  }

  /** A client has made an object, and nothing has happened to it since. */
  ghost function WithNew(s: State, o: Obj, t: Tid, kind: Kind, err: bool, made: bool, closure: nat): State {
    s.(threads := s.threads[t := Idle], counts := s.counts.With(kind, s.counts.Of(kind) + 1),
       objs := s.objs[o :=
         Rec(kind, true, err, made, closure, Nobody, Nobody, true, true, true, false, true, closure, t, Indexed)])
  }

  lemma NewCreated(a: State, s: State, o: Obj, t: Tid, kind: Kind, err: bool, made: bool, closure: nat)
    returns (s': State)
    requires Reaches(a, s) && Pos(s, t).Idle? && s.phase == Running && o !in s.objs
    requires (kind.Timer? ==> !err) && (made ==> kind.Subscription?)
    ensures Reaches(a, s') && s' == Goto(s, t, Made(o)).(objs := s.objs[o :=
      Rec(kind, true, err, made, closure, Nobody, Nobody, false, true, true, false, false, closure, t, Making(t))])
  {
    s' := Goto(s, t, Made(o)).(objs := s.objs[o :=
      Rec(kind, true, err, made, closure, Nobody, Nobody, false, true, true, false, false, closure, t, Making(t))]);
    assert Create(s, t, o, kind, err, made, closure, s');
    assert ClientNext(s, t, s');
    hide Reaches;
    Extend(a, s, s');
  }

  lemma NewIndexed(a: State, s: State, o: Obj, t: Tid) returns (s': State)
    requires Reaches(a, s) && Pos(s, t) == Made(o) && o in s.objs && s.maps.Of(s.objs[o].kind).Nobody?
    ensures Reaches(a, s')
    ensures s' == s.(threads := s.threads[t := Counting(o)], maps := s.maps.With(s.objs[o].kind, Client(t)),
                     objs := s.objs[o := s.objs[o].(indexed := true, stage := Indexed)])
  {
    hide Next, Reaches;
    s' := Go(a, s, t);
    s' := Go(a, s', t);
  }

  lemma NewEnded(a: State, s: State, o: Obj, t: Tid) returns (s': State)
    requires Reaches(a, s) && Pos(s, t) == Counting(o) && o in s.objs
    ensures Reaches(a, s')
    ensures var kind := s.objs[o].kind;
      s' == s.(threads := s.threads[t := Idle], counts := s.counts.With(kind, s.counts.Of(kind) + 1),
               maps := s.maps.With(kind, Nobody), objs := s.objs[o := s.objs[o].(known := true)])
  {
    hide Next, Reaches;
    s' := Go(a, s, t);
    s' := Go(a, s', t);
    s' := Go(a, s', t);
  }

  /** A create call of any kind can be run to its end when the lock of its map is free. */
  lemma NewMade(a: State, s: State, o: Obj, t: Tid, kind: Kind, err: bool, made: bool, closure: nat)
    returns (s': State)
    requires Reaches(a, s) && Pos(s, t).Idle? && s.phase == Running && o !in s.objs && s.maps.Of(kind).Nobody?
    requires (kind.Timer? ==> !err) && (made ==> kind.Subscription?)
    ensures Reaches(a, s') && s' == WithNew(s, o, t, kind, err, made, closure)
  {
    hide Reaches;
    s' := NewCreated(a, s, o, t, kind, err, made, closure);
    s' := NewIndexed(a, s', o, t);
    s' := NewEnded(a, s', o, t);
  }

  /** A destroy call that finds the inbox takes it out of its map. */
  lemma RemoveFinds(a: State, s: State, t: Tid, o: Obj) returns (s': State)
    requires Reaches(a, s) && Pos(s, t) == DestWait(o) && o in s.objs
    requires s.objs[o].indexed && s.objs[o].kind.Inbox? && s.maps.inboxes.Nobody?
    ensures Reaches(a, s')
    ensures s' == Goto(s, t, Uncount(o, Return)).(objs := s.objs[o := s.objs[o].(indexed := false, stage := Held(t))])
  {
    s' := Go(a, s, t);
    s' := Go(a, s', t);
  }

  /** Thread 2 has taken object 0 out of its map, and is at the counter. */
  ghost function Remover(): State {
    var s := WithNew(Start(), 0, 1, Inbox, true, false, 7);
    Goto(s, 2, Uncount(0, Return)).(objs := s.objs[0 := s.objs[0].(indexed := false, stage := Held(2))])
  }

  lemma RemoverAt()
    ensures Reachable(Remover())
  {
    hide Reaches;
    Stay(Start());
    var s := NewMade(Start(), Start(), 0, 1, Inbox, true, false, 7);
    s := Called(Start(), s, 2, DestWait(0));
    s := RemoveFinds(Start(), s, 2, 0);
    assert s.threads == Remover().threads && s.objs == Remover().objs;
  }

  /** A destroy call that finds its key already removed returns OK at once: thread 3's call is about to, while
      thread 2, which removed the key, has cleared nothing; a callback runs after thread 3's call returned. */
  lemma LateDestroyReturnsDuringCallback() returns (s: State)
    ensures Reachable(s) && Pos(s, 3) == DestLook(0) && Pos(s, 2) == Uncount(0, Return)
      && CallbackAfter(s, 3, 0, Message)
  {
    hide Reaches;
    RemoverAt();
    s := Called(Start(), Remover(), 3, DestWait(0));
    s := Go(Start(), s, 3);
    MissedLimit(s, 3, 0, Message);
  }

  lemma ShutdownLocked(a: State, s: State, t: Tid, o: Obj) returns (s': State)
    requires Reaches(a, s) && Pos(s, t) == ShutWait(o) && o in s.objs && s.objs[o].kind.Inbox?
    requires s.objs[o].indexed && s.objs[o].lock.Nobody? && s.maps.inboxes.Nobody?
    ensures Reaches(a, s') && Pos(s', t) == ShutClear(o) && o in s'.objs && s'.objs[o] == s.objs[o].(lock := Client(t))
  {
    hide Reaches, Next;
    s' := Go(a, s, t);
    s' := Go(a, s', t);
    s' := Go(a, s', t);
  }

  /** A shutdown that finds the inbox and every lock free. */
  lemma ShutdownMade(a: State, s: State, t: Tid, o: Obj) returns (s': State)
    requires Reaches(a, s) && Pos(s, t) == ShutWait(o) && o in s.objs && s.objs[o].kind.Inbox?
    requires s.objs[o].indexed && s.objs[o].lock.Nobody? && s.maps.inboxes.Nobody?
    ensures Reaches(a, s') && Pos(s', t) == ShutDone(o) && o in s'.objs && s'.objs[o].err == s.objs[o].err
  {
    hide Reaches, Next;
    s' := ShutdownLocked(a, s, t, o);
    s' := Go(a, s', t);
    s' := Go(a, s', t);
  }

  /** A shutdown clears only the message callbacks: an error callback runs after it returned. */
  lemma ErrorCallbackAfterShutdown() returns (s: State)
    ensures Reachable(s) && Pos(s, 2) == ShutDone(0) && CallbackAfter(s, 2, 0, Trouble)
  {
    hide Reaches;
    Stay(Start());
    s := NewMade(Start(), Start(), 0, 1, Inbox, true, false, 7);
    s := Called(Start(), s, 2, ShutWait(0));
    s := ShutdownMade(Start(), s, 2, 0);
    ShutdownLimit(s, 2, 0, Trouble);
  }

  // A lost count

  /** One step of thread `t`, which is running destroyAllEvents. */
  lemma AllGo(a: State, s: State, t: Tid, s': State)
    requires Reaches(a, s) && (AllStart(s, t, s') || AllTurn(s, t, s') || AllMap(s, t, s') || AllCount(s, t, s')
                               || exists left :: AllTake(s, t, left, s'))
    ensures Reaches(a, s')
  {
    assert ClientNext(s, t, s');
    hide ClientNext;
    assert Next(s, s');
    Extend(a, s, s');
  }

  /** destroyAllEvents up to the moment at which the inboxes are all taken out of their map; none gets a
      destroy event of its own yet. */
  ghost function Emptied(s: State, t: Tid): State {
    Goto(s, t, AllNext({}, [Subscription, Timer])).(
      phase := Draining(t, true), counts := s.counts.With(Inbox, 0),
      objs := map o | o in s.objs :: Detach(o, s.objs[o], {}, Inbox, t))
  }

  /** destroyAllEvents, begun with no inbox or with a counter of inboxes that is 0, takes none. */
  lemma InboxesLeft(a: State, s: State, t: Tid) returns (s': State)
    requires Reaches(a, s) && Pos(s, t).Idle? && s.phase == Running && (forall u :: !Creating(Pos(s, u)))
    requires s.maps.inboxes.Nobody? && (s.counts.inboxes == 0 || Taken(s, Inbox) == {})
    ensures Reaches(a, s') && s' == Emptied(s, t)
  {
    hide Reaches;
    var s4 := InboxesCounted(a, s, t);
    var kinds := [Inbox, Subscription, Timer];
    assert kinds[1..] == [Subscription, Timer] && Taken(s4, Inbox) == Taken(s, Inbox);
    s' := Emptied(s, t);
    assert s'.threads == s4.threads[t := AllNext({}, kinds[1..])];
    assert AllTake(s4, t, {}, s');
    AllGo(a, s4, t, s');
  }

  lemma InboxesCounted(a: State, s: State, t: Tid) returns (s': State)
    requires Reaches(a, s) && Pos(s, t).Idle? && s.phase == Running && (forall u :: !Creating(Pos(s, u)))
    requires s.maps.inboxes.Nobody?
    ensures Reaches(a, s')
    ensures s' == Goto(s, t, AllCounted([Inbox, Subscription, Timer], s.counts.inboxes)).(
                    phase := Draining(t, true), maps := s.maps.With(Inbox, Client(t)))
  {
    hide Reaches;
    var kinds := [Inbox, Subscription, Timer];
    var s1 := Goto(s, t, AllNext({}, kinds)).(phase := Draining(t, true));
    AllGo(a, s, t, s1);
    var s2 := Goto(s1, t, AllWait(kinds));
    AllGo(a, s1, t, s2);
    var s3 := Goto(s2, t, AllLook(kinds)).(maps := s2.maps.With(Inbox, Client(t)));
    AllGo(a, s2, t, s3);
    s' := Goto(s3, t, AllCounted(kinds, s.counts.inboxes));
    AllGo(a, s3, t, s');
    assert s'.threads == s.threads[t := AllCounted(kinds, s.counts.inboxes)];
  }

  lemma RemoverReads()
    ensures Reachable(Goto(Remover(), 2, Uncounted(0, Return, 1)))
  {
    hide Reaches;
    RemoverAt();
    var s := Go(Start(), Remover(), 2);
    assert s == Goto(Remover(), 2, Uncounted(0, Return, 1));
  }

  /** A remove that has read the counter, while an insert counts, stores over the larger count. */
  lemma LostCount() returns (s: State)
    ensures Reachable(s) && s.counts.inboxes == 0 && s.maps.inboxes.Nobody? && s.phase == Running
    ensures Pos(s, 3).Idle? && (forall u :: !Creating(Pos(s, u)))
    ensures 1 in s.objs && s.objs[1].indexed && s.objs[1].kind == Inbox
  {
    hide Reaches;
    RemoverReads();
    s := NewMade(Start(), Goto(Remover(), 2, Uncounted(0, Return, 1)), 1, 1, Inbox, true, false, 8);
    s := Go(Start(), s, 2);
  }

  /** Then object 1 is in its map and the counter is 0, and destroyAllEvents leaves the object for good. */
  lemma LostCountStrands() returns (s: State, s': State)
    ensures Reachable(s) && s.counts.inboxes == 0 && 1 in Taken(s, Inbox)
    ensures Reaches(s, s') && 1 in s'.objs && s'.objs[1].stage == Stranded
  {
    hide Reaches;
    s := LostCount();
    Stay(s);
    s' := InboxesLeft(s, s, 3);
  }

  /** A remove counts down, whatever it finds. */
  lemma CountsDown(a: State, s: State, t: Tid, o: Obj, u: Tid) returns (s': State)
    requires Reaches(a, s) && Pos(s, t) == Uncount(o, Return) && o in s.objs && s.objs[o].kind == Inbox && u != t
    ensures Reaches(a, s') && s'.counts.inboxes == s.counts.inboxes - 1 && Pos(s', u) == Pos(s, u)
  {
    hide Reaches;
    s' := Go(a, s, t);
    s' := Go(a, s', t);
  }

  /** The assertion at the end of removeAll fails: the only inbox is being removed, and that call counts down
      after removeAll has reset the counter. */
  lemma FinalCheckFails() returns (s: State)
    ensures Reachable(s) && Pos(s, 3) == AllNext({}, [Subscription, Timer]) && s.counts.inboxes == -1
  {
    hide Reaches;
    RemoverAt();
    s := InboxesLeft(Start(), Remover(), 3);
    s := CountsDown(Start(), s, 2, 0, 3);
  }
}
