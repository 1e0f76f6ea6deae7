/** createSession and onSessionCreate: the creating thread posts a structure on its own stack to the
    object queue, waits on the event in it, reads the status out of it and destroys the event; the
    dispatcher of the object queue stores the status and sets the event. */
module SessionHandshake {
  import opened EnvEvent
  import MapSpec

  type Status = MapSpec.Status

  const OK: Status := MapSpec.OK
  const CREATOR: Tid := 0
  const OBJECTS: Tid := 1

  /** The creating thread; after Reading it destroys the event. */
  datatype Creator = Starting | Posted | InWait | Reading | Returned(status: Status)

  /** The dispatcher's event: `result` is what mamaEnvSession_create returned. */
  datatype Objects = Listening | Created(result: Status) | InSet(result: Status) | Finished(result: Status)

  /** `status` is utility.m_status. */
  datatype Shake = Shake(creator: Creator, objects: Objects, status: Status, event: State)

  ghost predicate Begin(h: Shake) {
    h.creator == Starting && h.objects == Listening && h.status == OK && Init(h.event)
  }

  ghost predicate CreatorNext(h: Shake, h': Shake) {
    match h.creator
    case Starting => h' == h.(creator := Posted)
    case Posted => h' == h.(creator := InWait, event := Goto(h.event, CREATOR, WaitLock))
    case InWait =>
      && Enabled(h.event, CREATOR)
      && h' == h.(event := Do(h.event, CREATOR),
                  creator := if Pos(h.event, CREATOR).WaitUnlock? then Reading else InWait)
    case Reading => h' == h.(creator := Returned(h.status))
    case Returned(_) => false
  }

  ghost predicate ObjectsNext(h: Shake, result: Status, h': Shake) {
    match h.objects
    case Listening => !h.creator.Starting? && h' == h.(status := result, objects := Created(result))
    case Created(r) => h' == h.(objects := InSet(r), event := Goto(h.event, OBJECTS, SetLock))
    case InSet(r) =>
      && Enabled(h.event, OBJECTS)
      && h' == h.(event := Do(h.event, OBJECTS),
                  objects := if Pos(h.event, OBJECTS).SetUnlock? then Finished(r) else InSet(r))
    case Finished(_) => false
  }

  ghost predicate ShakeNext(h: Shake, h': Shake) {
    CreatorNext(h, h') || (exists result :: ObjectsNext(h, result, h'))
  }

  ghost predicate ShakeInv(h: Shake) {
    var (c, d) := (Pos(h.event, CREATOR), Pos(h.event, OBJECTS));
    && Inv(h.event) && (h.event.mutex.Taken? ==> h.event.mutex.t == CREATOR || h.event.mutex.t == OBJECTS)
    && (if h.creator.InWait? then Waiting(c) else c.Idle?)
    && (if h.objects.InSet? then d.SetLock? || d.SetWake? || d.SetMark? || d.SetUnlock? else d.Idle?)
    && (h.creator.Starting? ==> h.objects.Listening?)
    && (!h.objects.Listening? ==> h.status == h.objects.result)
    && (h.event.m_state ==> h.objects.Finished? || (h.objects.InSet? && d.SetUnlock?))
    && (h.objects.Finished? || d.SetUnlock? ==> h.event.m_state)
    && (c.Woken? ==> h.objects.Finished? || (h.objects.InSet? && (d.SetWake? || d.SetMark? || d.SetUnlock?)))
    && (c.WaitUnlock? || h.creator.Reading? || h.creator.Returned? ==> h.objects.Finished?)
    && (h.creator.Returned? ==> h.creator.status == h.status)
  }

  lemma ShakeNextInv(h: Shake, h': Shake)
    requires ShakeNext(h, h') && ShakeInv(h)
    ensures ShakeInv(h')
  {
    assert ThreadOk(h.event, CREATOR) && ThreadOk(h.event, OBJECTS);
    if h'.event != h.event {
      if CreatorNext(h, h') {
        assert Call(h.event, CREATOR, h'.event) || Advance(h.event, CREATOR, h'.event);
      } else {
        assert Call(h.event, OBJECTS, h'.event) || Advance(h.event, OBJECTS, h'.event);
      }
      NextInv(h.event, h'.event);
    }
    hide Inv, Next, Call;
  }

  /** The creating thread wakes up though nobody has broadcast. */
  ghost predicate WakesUp(h: Shake, h': Shake) {
    Spurious(h.event, CREATOR, h'.event) && h' == h.(event := h'.event)
  }

  /** Such a wake-up while the event's mutex is held: by the dispatcher's thread, about to broadcast. */
  ghost predicate Harmless(h: Shake, h': Shake) {
    WakesUp(h, h') && h.event.mutex.Taken?
  }

  lemma HarmlessInv(h: Shake, h': Shake)
    requires Harmless(h, h') && ShakeInv(h)
    ensures ShakeInv(h')
  {
    assert ThreadOk(h.event, CREATOR) && ThreadOk(h.event, OBJECTS);
    forall t ensures ThreadOk(h'.event, t) {
      assert ThreadOk(h.event, t);
    }
  }

  ghost predicate ShakeSteps(run: seq<Shake>) {
    && run != []
    && (forall i :: 0 <= i < |run| - 1 ==> ShakeNext(run[i], run[i + 1]) || Harmless(run[i], run[i + 1]))
  }

  ghost predicate ShakeRun(run: seq<Shake>) {
    ShakeSteps(run) && Begin(run[0])
  }

  lemma {:induction false} ShakeStepsInv(run: seq<Shake>, i: nat)
    requires ShakeSteps(run) && ShakeInv(run[0]) && i < |run|
    ensures ShakeInv(run[i])
  {
    hide ShakeNext, ShakeInv;
    if i > 0 {
      ShakeStepsInv(run, i - 1);
      if Harmless(run[i - 1], run[i - 1 + 1]) {
        HarmlessInv(run[i - 1], run[i]);
      } else {
        ShakeNextInv(run[i - 1], run[i]);
      }
    }
  }

  lemma ShakeRunInv(run: seq<Shake>, i: nat)
    requires ShakeRun(run) && i < |run|
    ensures ShakeInv(run[i])
  {
    ShakeStepsInv(run, i);
  }

  /** With no spurious wake-up, or none but harmless ones, createSession reads m_status only after
      onSessionCreate wrote it, returns what mamaEnvSession_create returned, and destroys the event, and
      leaves its stack frame, only when the dispatcher has done with them. */
  lemma ReadsWhatWasWritten(run: seq<Shake>, i: nat)
    requires ShakeRun(run) && i < |run| && (run[i].creator.Reading? || run[i].creator.Returned?)
    ensures run[i].objects.Finished? && Pos(run[i].event, OBJECTS).Idle?
    ensures run[i].creator.Returned? ==> run[i].creator.status == run[i].objects.result
  {
    ShakeRunInv(run, i);
  }

  /** The handshake cannot get stuck before createSession has its answer. */
  lemma ShakeNeverStuck(run: seq<Shake>, i: nat) returns (h': Shake)
    requires ShakeRun(run) && i < |run| && !run[i].creator.Returned?
    ensures ShakeNext(run[i], h')
  {
    var h := run[i];
    ShakeRunInv(run, i);
    assert ThreadOk(h.event, CREATOR) && ThreadOk(h.event, OBJECTS);
    if h.creator.Starting? {
      h' := h.(creator := Posted);
    } else if h.creator.Posted? {
      h' := h.(creator := InWait, event := Goto(h.event, CREATOR, WaitLock));
    } else if h.creator.Reading? {
      h' := h.(creator := Returned(h.status));
    } else if Enabled(h.event, CREATOR) {
      h' := h.(event := Do(h.event, CREATOR), creator := if Pos(h.event, CREATOR).WaitUnlock? then Reading else InWait);
    } else if h.objects.Listening? {
      h' := h.(status := OK, objects := Created(OK));
      assert ObjectsNext(h, OK, h');
    } else if h.objects.Created? {
      h' := h.(objects := InSet(h.objects.result), event := Goto(h.event, OBJECTS, SetLock));
      assert ObjectsNext(h, OK, h');
    } else {
      var r := h.objects.result;
      h' := h.(event := Do(h.event, OBJECTS),
               objects := if Pos(h.event, OBJECTS).SetUnlock? then Finished(r) else InSet(r));
      assert ObjectsNext(h, OK, h');
    }
  }

  /** createSession has its answer, and destroyed the event, before the dispatcher was done with them. */
  ghost predicate TooEarly(h: Shake) {
    h.creator.Returned? && !h.objects.Finished?
  }

  ghost predicate CanBeTooEarly(h: Shake) {
    exists run :: ShakeSteps(run) && run[0] == h && TooEarly(run[|run| - 1])
  }

  /** The three steps of a creating thread that wakes up while nobody holds the mutex. */
  lemma ThreeSteps(h: Shake, woken: Shake) returns (run: seq<Shake>)
    requires ShakeInv(h) && WakesUp(h, woken) && h.event.mutex.Free?
    ensures ShakeSteps(run) && |run| == 4 && run[0] == woken
    ensures run[3].creator == Returned(h.status) && run[3].objects == h.objects && !h.objects.Finished?
  {
    assert ThreadOk(h.event, CREATOR);
    var h1 := woken.(event := Do(woken.event, CREATOR));
    var h2 := h1.(event := Do(h1.event, CREATOR), creator := Reading);
    var h3 := h2.(creator := Returned(h2.status));
    run := [woken, h1, h2, h3];
    assert CreatorNext(woken, h1) && CreatorNext(h1, h2) && CreatorNext(h2, h3);
  }

  /** The wait is not in a loop. From any state of the handshake, a spurious wake-up can make createSession
      return, and destroy the event, before the dispatcher is done with it exactly if nobody holds the
      event's mutex. */
  lemma SpuriousWakeUpBreaksIff(h: Shake, woken: Shake)
    requires ShakeInv(h) && WakesUp(h, woken)
    ensures CanBeTooEarly(woken) <==> h.event.mutex.Free?
  {
    if h.event.mutex.Free? {
      var run := ThreeSteps(h, woken);
      assert TooEarly(run[|run| - 1]);
    } else {
      HarmlessInv(h, woken);
      hide ShakeSteps;
      forall run | ShakeSteps(run) && run[0] == woken ensures !TooEarly(run[|run| - 1]) {
        EndsInv(run);
      }
    }
  }

  /** createSession has an answer that nobody gave. */
  ghost predicate Unwritten(h: Shake) {
    h.creator.Returned? && h.objects.Listening?
  }

  ghost predicate CanBeUnwritten(h: Shake) {
    exists run :: ShakeSteps(run) && run[0] == h && Unwritten(run[|run| - 1])
  }

  /** Whether the status it returns is one that was never written is decided earlier: it can be exactly if the
      dispatcher has not stored it yet when the spurious wake-up comes. */
  lemma UnwrittenIff(h: Shake, woken: Shake)
    requires ShakeInv(h) && WakesUp(h, woken)
    ensures CanBeUnwritten(woken) <==> h.objects.Listening?
  {
    if h.objects.Listening? {
      NobodyHolds(h, woken);
      var run := ThreeSteps(h, woken);
      assert Unwritten(run[|run| - 1]);
    } else {
      hide ShakeSteps;
      forall run | ShakeSteps(run) && run[0] == woken ensures !Unwritten(run[|run| - 1]) {
        WrittenStays(run, |run| - 1);
      }
    }
  }

  lemma NobodyHolds(h: Shake, woken: Shake)
    requires ShakeInv(h) && WakesUp(h, woken) && h.objects.Listening?
    ensures h.event.mutex.Free?
  {
    assert ThreadOk(h.event, CREATOR) && ThreadOk(h.event, OBJECTS);
  }

  lemma {:induction false} WrittenStays(run: seq<Shake>, i: nat)
    requires ShakeSteps(run) && !run[0].objects.Listening? && i < |run|
    ensures !run[i].objects.Listening?
  {
    if i > 0 {
      WrittenStays(run, i - 1);
      assert ShakeNext(run[i - 1], run[i - 1 + 1]) || Harmless(run[i - 1], run[i - 1 + 1]);
    }
  }

  lemma EndsInv(run: seq<Shake>)
    requires ShakeSteps(run) && ShakeInv(run[0])
    ensures !TooEarly(run[|run| - 1])
  {
    ShakeStepsInv(run, |run| - 1);
  }

  /** Such a state is reached, and then createSession returns OK although the session is not created yet. */
  lemma SpuriousWakeUpBreaksIt() returns (run: seq<Shake>, woken: Shake, rest: seq<Shake>)
    ensures ShakeRun(run) && WakesUp(run[|run| - 1], woken)
    ensures ShakeSteps(rest) && rest[0] == woken
    ensures rest[|rest| - 1].creator == Returned(OK) && rest[|rest| - 1].objects == Listening
  {
    var e0 := State(map[], Free, false);
    var h0 := Shake(Starting, Listening, OK, e0);
    var h1 := h0.(creator := Posted);
    var h2 := h1.(creator := InWait, event := Goto(e0, CREATOR, WaitLock));
    var h3 := h2.(event := Do(h2.event, CREATOR));
    var h4 := h3.(event := Do(h3.event, CREATOR));
    var h5 := h4.(event := Do(h4.event, CREATOR));
    run := [h0, h1, h2, h3, h4, h5];
    assert ShakeRun(run);
    ShakeRunInv(run, 5);
    woken := h5.(event := Goto(h5.event, CREATOR, Woken));
    rest := ThreeSteps(h5, woken);
  }
}
