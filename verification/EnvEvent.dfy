/** The synchronization event on POSIX: a mutex, a condition and m_state. Any number of threads set it,
    reset it and wait for it; a step is what happens between two mutex or condition operations. */
module EnvEvent {

  type Tid = nat

  datatype Pc =
    | Idle
    | SetLock                 // asks for the mutex
    | SetWake                 // about to broadcast
    | SetMark                 // about to store 1 in m_state
    | SetUnlock
    | ResetLock               // asks for the mutex
    | ResetMark
    | ResetUnlock
    | WaitLock                // asks for the mutex
    | WaitTest
    | WaitSleep               // m_state was 0: about to release the mutex and join the wait set, in one go
    | Asleep                  // in the condition's wait set
    | Woken                   // out of the wait set, asks for the mutex
    | WaitUnlock

  datatype Mutex = Free | Taken(t: Tid)

  datatype State = State(
    threads: map<Tid, Pc>,    // a thread that is not in here is idle
    mutex: Mutex,
    m_state: bool)

  ghost function Pos(s: State, t: Tid): Pc {
    if t in s.threads then s.threads[t] else Idle
  }

  ghost function Goto(s: State, t: Tid, pc: Pc): State {
    s.(threads := s.threads[t := pc])
  }

  /** mamaEnv_createEvent clears the structure, so the event starts out reset. */
  ghost predicate Init(s: State) {
    s == State(map[], Free, false)
  }

  /** The three positions a call can start at. */
  ghost predicate Call(s: State, t: Tid, s': State) {
    Pos(s, t).Idle? && (s' == Goto(s, t, SetLock) || s' == Goto(s, t, ResetLock) || s' == Goto(s, t, WaitLock))
  }

  ghost predicate AsksMutex(pc: Pc) {
    pc.SetLock? || pc.ResetLock? || pc.WaitLock? || pc.Woken?
  }

  /** pthread_cond_broadcast: everyone in the wait set leaves it. */
  ghost function WakeAll(threads: map<Tid, Pc>): map<Tid, Pc> {
    map t | t in threads :: if threads[t].Asleep? then Woken else threads[t]
  }

  /** The next step of a thread inside a call; a thread in the wait set has none of its own. */
  ghost function Do(s: State, t: Tid): State {
    match Pos(s, t)
    case SetLock => Goto(s, t, SetWake).(mutex := Taken(t))
    case SetWake => s.(threads := WakeAll(s.threads)[t := SetMark])
    case SetMark => Goto(s, t, SetUnlock).(m_state := true)
    case SetUnlock => Goto(s, t, Idle).(mutex := Free)
    case ResetLock => Goto(s, t, ResetMark).(mutex := Taken(t))
    case ResetMark => Goto(s, t, ResetUnlock).(m_state := false)
    case ResetUnlock => Goto(s, t, Idle).(mutex := Free)
    case WaitLock => Goto(s, t, WaitTest).(mutex := Taken(t))
    case WaitTest => Goto(s, t, if s.m_state then WaitUnlock else WaitSleep)
    case WaitSleep => Goto(s, t, Asleep).(mutex := Free)
    case Woken => Goto(s, t, WaitUnlock).(mutex := Taken(t))
    case WaitUnlock => Goto(s, t, Idle).(mutex := Free)
    case _ => s
  }

  ghost predicate Enabled(s: State, t: Tid) {
    !Pos(s, t).Idle? && !Pos(s, t).Asleep? && (AsksMutex(Pos(s, t)) ==> s.mutex.Free?)
  }

  ghost predicate Advance(s: State, t: Tid, s': State) {
    Enabled(s, t) && s' == Do(s, t)
  }

  /** A wake-up without a broadcast, which POSIX allows. */
  ghost predicate Spurious(s: State, t: Tid, s': State) {
    Pos(s, t).Asleep? && s' == Goto(s, t, Woken)
  }

  /** A step of the system when no wake-up is spurious. */
  ghost predicate Next(s: State, s': State) {
    exists t :: Call(s, t, s') || Advance(s, t, s')
  }

  // The invariant

  ghost predicate Holds(pc: Pc) {
    !pc.Idle? && !pc.Asleep? && !AsksMutex(pc)
  }

  /** A setter has broadcast and not yet stored 1. */
  ghost predicate AboutToMark(s: State) {
    s.mutex.Taken? && Pos(s, s.mutex.t).SetMark?
  }

  ghost predicate ThreadOk(s: State, t: Tid) {
    var pc := Pos(s, t);
    && (Holds(pc) <==> s.mutex == Taken(t))
    && (pc.Asleep? ==> !s.m_state && !AboutToMark(s))
    && (pc.WaitSleep? || pc.ResetUnlock? ==> !s.m_state)
    && (pc.SetUnlock? ==> s.m_state)
  }

  ghost predicate Inv(s: State) {
    forall t :: ThreadOk(s, t)
  }

  lemma StepOk(s: State, t: Tid, s': State, u: Tid)
    requires Call(s, t, s') || Advance(s, t, s')
    requires ThreadOk(s, t) && ThreadOk(s, u) && (s.mutex.Taken? ==> ThreadOk(s, s.mutex.t))
    ensures ThreadOk(s', u)
  {
  }

  lemma NextInv(s: State, s': State)
    requires Next(s, s') && Inv(s)
    ensures Inv(s')
  {
    hide ThreadOk;
    var t :| Call(s, t, s') || Advance(s, t, s');
    forall u ensures ThreadOk(s', u) {
      assert ThreadOk(s, t) && ThreadOk(s, u);
      StepOk(s, t, s', u);
    }
  }

  ghost predicate Run(run: seq<State>) {
    && run != [] && Init(run[0])
    && (forall i :: 0 <= i < |run| - 1 ==> Next(run[i], run[i + 1]))
  }

  lemma {:induction false} RunInv(run: seq<State>, i: nat)
    requires Run(run) && i < |run|
    ensures Inv(run[i])
  {
    if i > 0 {
      RunInv(run, i - 1);
      NextInv(run[i - 1], run[i - 1 + 1]);
    }
  }

  /** No lost wake-up: in every interleaving, while m_state is 1 no thread is in the wait set. */
  lemma NoLostWakeUp(run: seq<State>, i: nat, t: Tid)
    requires Run(run) && i < |run| && run[i].m_state
    ensures !Pos(run[i], t).Asleep?
  {
    RunInv(run, i);
    assert ThreadOk(run[i], t);
  }

  // A wait returns only for an event that was set while it waited

  ghost predicate Waiting(pc: Pc) {
    pc.WaitLock? || pc.WaitTest? || pc.WaitSleep? || pc.Asleep? || pc.Woken? || pc.WaitUnlock?
  }

  /** m_state was 1 at some moment from state `i` to state `j`. */
  ghost predicate Lit(run: seq<State>, i: nat, j: nat)
    requires j < |run|
  {
    exists k: nat :: i <= k <= j && run[k].m_state
  }

  lemma WaitStep(s: State, s': State, t: Tid)
    requires Next(s, s') && Inv(s)
    ensures Pos(s', t).Woken? ==>
      (Pos(s, t).Woken? && (AboutToMark(s) ==> AboutToMark(s') || s'.m_state)) || AboutToMark(s')
    ensures Pos(s', t).WaitUnlock? ==> Pos(s, t).WaitUnlock? || s.m_state || (Pos(s, t).Woken? && !AboutToMark(s))
  {
    var u :| Call(s, u, s') || Advance(s, u, s');
    assert ThreadOk(s, u) && ThreadOk(s, t);
    if s.mutex.Taken? {
      assert ThreadOk(s, s.mutex.t);
    }
  }

  /** While one call of thread `t` to wait goes on, from state `i` to state `j`: once the wait is over
      m_state has been 1 at some moment of the call; a thread that has been woken has been, or is just
      about to be, told so by a setter. */
  lemma {:induction false} WaitSeesSet(run: seq<State>, i: nat, j: nat, t: Tid)
    requires Run(run) && i <= j < |run|
    requires Pos(run[i], t).WaitLock? && (forall k :: i <= k <= j ==> Waiting(Pos(run[k], t)))
    ensures Pos(run[j], t).WaitUnlock? ==> Lit(run, i, j)
    ensures Pos(run[j], t).Woken? ==> Lit(run, i, j) || AboutToMark(run[j])
  {
    hide Next, Inv;
    if i < j {
      WaitSeesSet(run, i, j - 1, t);
      RunInv(run, j - 1);
      assert Next(run[j - 1], run[j - 1 + 1]);
      WaitStep(run[j - 1], run[j], t);
      assert Lit(run, i, j - 1) ==> Lit(run, i, j);
      assert run[j - 1].m_state || run[j].m_state ==> Lit(run, i, j);
    }
  }

  // What a set and a reset mean for the waits that begin after them

  /** No thread is about to store this value in m_state. */
  ghost predicate NoStore(s: State, value: bool) {
    forall u :: Pos(s, u) != if value then SetMark else ResetMark
  }

  lemma StoreStep(s: State, s': State, value: bool)
    requires Next(s, s') && s.m_state != value && NoStore(s, value)
    ensures s'.m_state != value
  {
    var u :| Call(s, u, s') || Advance(s, u, s');
    assert Pos(s, u) != if value then SetMark else ResetMark;
  }

  lemma {:induction false} StateStays(run: seq<State>, i: nat, j: nat, value: bool)
    requires Run(run) && i <= j < |run| && run[i].m_state != value
    requires forall k :: i <= k < j ==> NoStore(run[k], value)
    ensures run[j].m_state != value
  {
    hide Next, NoStore;
    if i < j {
      StateStays(run, i, j - 1, value);
      assert Next(run[j - 1], run[j - 1 + 1]);
      StoreStep(run[j - 1], run[j], value);
    }
  }

  /** A wait that has not seen m_state at 1, and has not been woken. */
  ghost predicate StillWaiting(pc: Pc) {
    pc.WaitLock? || pc.WaitTest? || pc.WaitSleep? || pc.Asleep?
  }

  lemma UnsetStep(s: State, s': State, t: Tid)
    requires Next(s, s') && Inv(s) && !s.m_state && NoStore(s', true) && StillWaiting(Pos(s, t))
    ensures StillWaiting(Pos(s', t))
  {
    var u :| Call(s, u, s') || Advance(s, u, s');
    assert ThreadOk(s, u) && ThreadOk(s, t);
    assert Pos(s', u) != SetMark;
  }

  /** A wait that begins after a reset has returned goes on for as long as nobody sets the event. */
  lemma {:induction false} WaitAfterReset(run: seq<State>, i: nat, j: nat, k: nat, u: Tid, t: Tid)
    requires Run(run) && i < j <= k < |run| && Pos(run[i], u).ResetUnlock? && Pos(run[j], t).WaitLock?
    requires forall m :: i <= m <= k ==> NoStore(run[m], true)
    ensures StillWaiting(Pos(run[k], t))
  {
    hide Next, Inv, NoStore;
    if j < k {
      WaitAfterReset(run, i, j, k - 1, u, t);
      RunInv(run, i);
      UnlockState(run[i], u);
      StateStays(run, i, k - 1, true);
      RunInv(run, k - 1);
      assert Next(run[k - 1], run[k - 1 + 1]);
      UnsetStep(run[k - 1], run[k], t);
    }
  }

  lemma UnlockState(s: State, u: Tid)
    requires Inv(s)
    ensures Pos(s, u).ResetUnlock? ==> !s.m_state
    ensures Pos(s, u).SetUnlock? ==> s.m_state
  {
    assert ThreadOk(s, u);
  }

  lemma SetStep(s: State, s': State, t: Tid)
    requires Next(s, s') && s.m_state && (Pos(s, t).WaitLock? || Pos(s, t).WaitTest? || Pos(s, t).WaitUnlock?)
    ensures Pos(s', t).WaitLock? || Pos(s', t).WaitTest? || Pos(s', t).WaitUnlock? || Pos(s', t).Idle?
  {
  }

  /** A wait that begins after a set has returned does not sleep if nobody resets the event. */
  lemma {:induction false} WaitAfterSet(run: seq<State>, i: nat, j: nat, k: nat, u: Tid, t: Tid)
    requires Run(run) && i < j <= k < |run| && Pos(run[i], u).SetUnlock? && Pos(run[j], t).WaitLock?
    requires forall m :: j <= m <= k ==> !Pos(run[m], t).Idle?
    requires forall m :: i <= m <= k ==> NoStore(run[m], false)
    ensures Pos(run[k], t).WaitLock? || Pos(run[k], t).WaitTest? || Pos(run[k], t).WaitUnlock?
  {
    hide Next, Inv, NoStore;
    if j < k {
      WaitAfterSet(run, i, j, k - 1, u, t);
      RunInv(run, i);
      UnlockState(run[i], u);
      StateStays(run, i, k - 1, false);
      assert Next(run[k - 1], run[k - 1 + 1]);
      SetStep(run[k - 1], run[k], t);
    }
  }

  // Nothing is stuck but threads that wait for a reset event

  /** If any thread is inside a call, some thread can take its next step, unless every thread inside a
      call is in the wait set, and then the event is reset. */
  lemma NeverStuck(run: seq<State>, i: nat, t: Tid)
    requires Run(run) && i < |run| && !Pos(run[i], t).Idle?
    ensures (exists u :: Enabled(run[i], u))
         || (!run[i].m_state && forall u :: Pos(run[i], u).Idle? || Pos(run[i], u).Asleep?)
  {
    var s := run[i];
    RunInv(run, i);
    assert ThreadOk(s, t);
    if s.mutex.Taken? {
      assert ThreadOk(s, s.mutex.t);
      assert Enabled(s, s.mutex.t);
    } else if u :| !Pos(s, u).Idle? && !Pos(s, u).Asleep? {
      assert ThreadOk(s, u);
      assert Enabled(s, u);
    }
  }
}
