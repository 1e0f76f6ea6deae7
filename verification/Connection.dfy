/** The connection's side of session tear-down, one call at a time: the two session lists, the sweep of
    the destroyed ones by the timer's tick, and the loop that drains them for destroyConnection. */
module Connection {
  import opened RedBlackShape
  import opened RedBlackTree
  import opened MapSpec
  import opened SynchronizedMap
  import opened Posting
  import opened Session
  import L = SessionLedger

  /** The sessions of the list with no native object open. */
  ghost function Closed(list: seq<Session>): set<Session>
    reads list
  {
    set s | s in list && s.open == 0
  }

  ghost function Failing(list: seq<Session>, destroys: Session -> Status): set<Session> {
    set s | s in list && destroys(s) != OK
  }

  /** No native object is open on any of the sessions. */
  ghost predicate AllClosed(list: seq<Session>)
    reads list
  {
    forall s <- list :: s.open == 0
  }

  /** Every session that has left the list was freed or given up on, by what destroying it reported. */
  ghost predicate Settled(list: seq<Session>, now: seq<Session>, destroys: Session -> Status, b: L.Books<Session>) {
    forall s <- list :: s in now || if destroys(s) == OK then s in b.freed else s in b.leaked
  }

  lemma SweepSettles(b: L.Books<Session>, closed: set<Session>, failing: set<Session>, destroys: Session -> Status)
    requires failing == Failing(b.doomed, destroys)
    ensures Settled(b.doomed, L.Stay(b.doomed, closed), destroys, L.Sweep(b, closed, failing))
  {
    forall s | s in b.doomed
      ensures s in L.Stay(b.doomed, closed) || s in L.Pick(b.doomed, closed - failing)
        || s in L.Pick(b.doomed, closed * failing)
      ensures s in failing <==> destroys(s) != OK
      ensures s in L.Pick(b.doomed, closed - failing) ==> s !in failing
      ensures s in L.Pick(b.doomed, closed * failing) ==> s in failing
    {
      L.StayHas(b.doomed, closed, s);
      L.StayHas(b.doomed, closed - failing, s);
      L.StayHas(b.doomed, closed * failing, s);
    }
    hide L.Stay, L.Pick;
  }

  /** From `b` to `b'` passes have taken some sessions of the list out, leaving `now`. */
  ghost predicate Sweeps(b: L.Books<Session>, b': L.Books<Session>,
                         list: seq<Session>, now: seq<Session>, destroys: Session -> Status) {
    && b'.created == b.created && b'.active == b.active && b.freed <= b'.freed && b.leaked <= b'.leaked
    && (Failing(list, destroys) == {} ==> b'.leaked == b.leaked)
    && (forall s <- now :: s in list) && Settled(list, now, destroys, b')
  }

  lemma SweepsNone(b: L.Books<Session>, list: seq<Session>, destroys: Session -> Status)
    ensures Sweeps(b, b, list, list, destroys)
  {
  }

  lemma SweepsHas(b: L.Books<Session>, b': L.Books<Session>,
                  list: seq<Session>, now: seq<Session>, destroys: Session -> Status)
    requires Sweeps(b, b', list, now, destroys)
    ensures b'.created == b.created && b'.active == b.active && b.freed <= b'.freed && b.leaked <= b'.leaked
    ensures Failing(list, destroys) == {} ==> b'.leaked == b.leaked
    ensures (forall s <- now :: s in list) && Settled(list, now, destroys, b')
  {
  }

  /** Two passes, one after the other; the wait between them may change the phase. */
  lemma SweepsMore(b0: L.Books<Session>, b: L.Books<Session>, b': L.Books<Session>, phase: L.Phase,
                   all: seq<Session>, list: seq<Session>, now: seq<Session>, destroys: Session -> Status)
    requires Sweeps(b0, b, all, list, destroys) && Sweeps(b, b', list, now, destroys)
    ensures Sweeps(b0, b'.(phase := phase), all, now, destroys)
  {
    FailingFewer(list, all, destroys);
    hide Failing;
  }

  /** The sessions destroyed with OK are in the list of destroyed ones, the others were given up on. */
  ghost predicate Sorted(list: seq<Session>, stats: seq<Status>, destroyed: seq<Session>, leaked: seq<Session>) {
    && |stats| <= |list|
    && (forall i :: 0 <= i < |stats| ==> (stats[i] == OK <==> list[i] in destroyed))
    && (forall i :: 0 <= i < |stats| ==> (stats[i] != OK <==> list[i] in leaked))
  }

  /** What the first sessions of the list added to the two lists. */
  ghost predicate Moved(list: seq<Session>, stats: seq<Status>, was: L.Books<Session>, now: L.Books<Session>) {
    && Sorted(list, stats, now.doomed, now.leaked)
    && now.created == was.created && now.freed == was.freed && now.phase == was.phase
    && ((forall i :: 0 <= i < |stats| ==> stats[i] == OK) ==>
          now.doomed == was.doomed + list[..|stats|] && now.leaked == was.leaked)
  }

  /** Each status is what the session's queue said of what it held. */
  ghost predicate AllAnswer(list: seq<Session>, stats: seq<Status>,
                            enqueues: Session -> Kind -> (nat, Pointer) -> Status,
                            held: map<Session, map<Kind, seq<Entry>>>) {
    && |stats| <= |list| && (forall s <- list :: s in held)
    && forall i :: 0 <= i < |stats| ==> Answers(enqueues(list[i]), held[list[i]], stats[i])
  }

  lemma AnswerMore(list: seq<Session>, stats: seq<Status>, enqueues: Session -> Kind -> (nat, Pointer) -> Status,
                   held: map<Session, map<Kind, seq<Entry>>>, ret: Status)
    requires AllAnswer(list, stats, enqueues, held) && |stats| < |list|
    requires list[|stats|] in held && Answers(enqueues(list[|stats|]), held[list[|stats|]], ret)
    ensures AllAnswer(list, stats + [ret], enqueues, held)
  {
    hide Answers;
  }

  lemma EachAnswer(list: seq<Session>, stats: seq<Status>, enqueues: Session -> Kind -> (nat, Pointer) -> Status,
                   held: map<Session, map<Kind, seq<Entry>>>)
    requires AllAnswer(list, stats, enqueues, held)
    ensures forall i :: 0 <= i < |stats| ==> Answers(enqueues(list[i]), held[list[i]], stats[i])
  {
  }

  lemma AllAccepted(list: seq<Session>, stats: seq<Status>, enqueues: Session -> Kind -> (nat, Pointer) -> Status,
                    held: map<Session, map<Kind, seq<Entry>>>)
    requires AllAnswer(list, stats, enqueues, held)
    ensures (forall s <- list :: Accepts(enqueues(s))) ==> forall i :: 0 <= i < |stats| ==> stats[i] == OK
  {
    hide Answers, Accepts;
    if forall s <- list :: Accepts(enqueues(s)) {
      forall i | 0 <= i < |stats| ensures stats[i] == OK {
        assert list[i] in list;
        AcceptsAnswers(enqueues(list[i]), held[list[i]], stats[i]);
      }
    }
  }

  lemma MovedNone(list: seq<Session>, was: L.Books<Session>)
    ensures Moved(list, [], was, was)
  {
  }

  lemma MovedMore(list: seq<Session>, stats: seq<Status>, ret: Status, was: L.Books<Session>,
                  b: L.Books<Session>, b': L.Books<Session>)
    requires Moved(list, stats, was, b) && |stats| < |list| && L.Distinct(list)
    requires list[|stats|] !in b.doomed && list[|stats|] !in b.leaked
    requires b'.created == b.created && b'.freed == b.freed && b'.phase == b.phase
    requires b'.doomed == b.doomed + if ret == OK then [list[|stats|]] else []
    requires b'.leaked == b.leaked + if ret == OK then [] else [list[|stats|]]
    ensures Moved(list, stats + [ret], was, b')
  {
    var more := stats + [ret];
    assert forall i :: 0 <= i < |stats| ==> more[i] == stats[i];
    assert list[..|more|] == list[..|stats|] + [list[|stats|]];
    if forall i :: 0 <= i < |more| ==> more[i] == OK {
      assert more[|stats|] == OK;
      assert forall i :: 0 <= i < |stats| ==> stats[i] == OK;
    }
  }

  lemma MovedAll(list: seq<Session>, stats: seq<Status>, was: L.Books<Session>, now: L.Books<Session>)
    requires Moved(list, stats, was, now) && |stats| == |list|
    ensures Sorted(list, stats, now.doomed, now.leaked)
    ensures now.created == was.created && now.freed == was.freed && now.phase == was.phase
    ensures list != [] ==> (stats[|stats| - 1] == OK <==> list[|list| - 1] in now.doomed)
    ensures (forall i :: 0 <= i < |stats| ==> stats[i] == OK) ==>
      now.doomed == was.doomed + list && now.leaked == was.leaked
  {
    assert list[..|stats|] == list;
  }

  lemma EmptyClosed(list: seq<Session>)
    ensures list == [] ==> AllClosed(list) && NoneLost(list)
  {
  }

  /** The status of the last callback of a pass. */
  ghost function LastStatus(list: seq<Session>, destroys: Session -> Status): Status
    reads list
  {
    if list == [] then OK
    else var last := list[|list| - 1]; if last.open == 0 then destroys(last) else OK
  }

  lemma FailingFewer(some: seq<Session>, all: seq<Session>, destroys: Session -> Status)
    requires forall s <- some :: s in all
    ensures Failing(all, destroys) == {} ==> Failing(some, destroys) == {}
  {
    assert forall s <- some :: s !in Failing(all, destroys) ==> destroys(s) == OK;
  }

  /** The status of the last of `waits` waits. */
  ghost function LastWait(dispatches: nat -> Status, waits: nat): Status {
    if waits == 0 then OK else dispatches(waits - 1)
  }

  /** No two sessions share an object: `parts` gives the objects of each. */
  ghost predicate Separate(list: seq<Session>, parts: map<Session, set<object>>) {
    && (forall s <- list :: s in parts && s !in parts[s])
    && (forall s <- list, t <- list :: s != t ==> s !in parts[t] && parts[s] !! parts[t])
  }

  /** The sessions are well formed, and their objects are in `repr`. */
  ghost predicate Sound(list: seq<Session>, parts: map<Session, set<object>>, repr: set<object>)
    reads list, repr
  {
    && Separate(list, parts)
    && (forall s <- list :: s in repr && parts[s] <= repr)
    && (forall s <- list :: s.repr == parts[s] && s.Valid())
  }

  /** One more session, sharing nothing with the others. */
  lemma SoundMore(list: seq<Session>, parts: map<Session, set<object>>, repr: set<object>, x: Session)
    requires Sound(list, parts, repr) && x.Valid() && x !in x.repr && x !in repr && x.repr !! repr && x !in list
    ensures Sound(list + [x], parts[x := x.repr], repr + {x} + x.repr)
  {
    hide Session.Valid;
  }

  lemma SoundReprs(list: seq<Session>, parts: map<Session, set<object>>, repr: set<object>)
    requires Sound(list, parts, repr)
    ensures forall s <- list :: s.repr <= repr
  {
  }

  /** mamaEnvSession_destroyAllEvents on one session leaves the others alone. */
  method DestroyEvents(session: Session, enqueue: Kind -> (nat, Pointer) -> Status,
                       ghost list: seq<Session>, ghost parts: map<Session, set<object>>, ghost repr: set<object>)
      returns (ret: Status, ghost gone: map<Kind, seq<Entry>>)
    requires Sound(list, parts, repr) && session in list
    modifies session, session.repr
    ensures Sound(list, parts, repr) && session.Drained()
    ensures forall s <- list :: old(s.Drained()) ==> s.Drained()
    ensures forall s <- list :: s.open == old(s.open)
    ensures forall s <- list :: s != session ==> s.lost == old(s.lost) && s.Held() == old(s.Held())
    ensures TakenFrom(gone, old(session.Held())) && (ret == OK <==> NoneRefused(enqueue, gone))
    ensures ret != OK ==> FirstRefused(enqueue, gone, ret)
    ensures ret == OK <==> session.lost == old(session.lost)
  {
    hide Session.Valid, Session.Drained, Session.Held, NoneRefused, FirstRefused, TakenFrom, EventsOf, Accepts;
    SoundTrees(list, parts, repr);
    ghost var posted;
    ret, gone, posted := session.DestroyAllEvents(enqueue);
  }

  lemma SoundTrees(list: seq<Session>, parts: map<Session, set<object>>, repr: set<object>)
    requires Sound(list, parts, repr)
    ensures forall s <- list :: {s.inboxes.tree, s.subscriptions.tree, s.timers.tree} <= parts[s]
  {
  }

  /** mamaEnv_createTimer on one session leaves the others alone. */
  method AddTimer(session: Session, data: Pointer, key: Pointer,
                  ghost list: seq<Session>, ghost parts: map<Session, set<object>>, ghost repr: set<object>)
    requires Sound(list, parts, repr) && session in list && key !in session.timers.Abs().entries
    modifies session, session.repr
    ensures fresh(session.repr - old(session.repr))
    ensures Sound(list, parts[session := session.repr], repr + session.repr)
    ensures forall s <- list :: s != session && old(s.Drained()) ==> s.Drained()
    ensures session.timers.Abs().entries == old(session.timers.Abs().entries)[key := data]
    ensures session.open == old(session.open) + 1 && session.lost == old(session.lost)
  {
    hide Session.Valid, Session.Drained;
    session.CreateTimer(data, key);
    SeparateGrow(list, parts, session, session.repr);
  }

  /** mamaEnv_destroyTimer on one session leaves the others alone. */
  method RemoveTimer(session: Session, key: Pointer, enqueued: Status,
                     ghost list: seq<Session>, ghost parts: map<Session, set<object>>, ghost repr: set<object>)
      returns (ret: Status)
    requires Sound(list, parts, repr) && session in list
    modifies session, session.repr
    ensures Sound(list, parts, repr) && session.open == old(session.open)
    ensures forall s <- list :: s != session && old(s.Drained()) ==> s.Drained()
    ensures session.timers.Abs().entries == old(session.timers.Abs().entries) - {key}
    ensures ret == if key in old(session.timers.Abs().entries) then enqueued else OK
    ensures session.lost == old(session.lost) + if ret != OK then 1 else 0
  {
    hide Session.Valid, Session.Drained;
    ret := session.DestroyTimer(key, enqueued);
  }

  /** What the dispatcher of a session still has to do before the session closes. */
  ghost function Load(s: Session): nat
    reads s
  {
    2 * |s.queue| + s.closing
  }

  ghost function Loads(list: seq<Session>): (loads: seq<nat>)
    reads list
    ensures |loads| == |list| && forall i :: 0 <= i < |list| ==> loads[i] == Load(list[i])
  {
    if list == [] then [] else Loads(list[..|list| - 1]) + [Load(list[|list| - 1])]
  }

  ghost function Sum(loads: seq<nat>): nat {
    if loads == [] then 0 else Sum(loads[..|loads| - 1]) + loads[|loads| - 1]
  }

  lemma {:induction false} SumDrops(a: seq<nat>, b: seq<nat>, i: nat)
    requires |a| == |b| && i < |a| && b[i] < a[i] && forall j :: 0 <= j < |a| ==> b[j] <= a[j]
    ensures Sum(b) < Sum(a)
  {
    var n := |a| - 1;
    if i < n {
      SumDrops(a[..n], b[..n], i);
    } else {
      SumBelow(a[..n], b[..n]);
    }
  }

  lemma {:induction false} SumBelow(a: seq<nat>, b: seq<nat>)
    requires |a| == |b| && forall j :: 0 <= j < |a| ==> b[j] <= a[j]
    ensures Sum(b) <= Sum(a)
  {
    if a != [] {
      SumBelow(a[..|a| - 1], b[..|b| - 1]);
    }
  }

  /** What the dispatchers of the listed sessions still have to do. */
  ghost function Work(list: seq<Session>): nat
    reads list
  {
    Sum(Loads(list))
  }

  lemma WorkPush(list: seq<Session>, x: Session)
    ensures Work(list + [x]) == Work(list) + Load(x)
  {
    assert (list + [x])[..|list|] == list;
    assert (Loads(list) + [Load(x)])[..|list|] == Loads(list);
  }

  lemma {:induction false} WorkStay(list: seq<Session>, out: set<Session>)
    ensures Work(L.Stay(list, out)) <= Work(list)
  {
    assert L.Stay([], out) == [];
    if list != [] {
      hide Work, L.Stay;
      var (rest, last) := (list[..|list| - 1], list[|list| - 1]);
      assert list == rest + [last];
      WorkStay(rest, out);
      L.StayPush(rest, last, out);
      WorkPush(rest, last);
      WorkPush(L.Stay(rest, out), last);
      assert L.Stay(rest, out) + [] == L.Stay(rest, out);
    }
  }

  predicate Busy(s: Session)
    reads s
  {
    s.queue != [] || s.closing > 0
  }

  lemma {:induction false} NoWork(list: seq<Session>)
    ensures Work(list) == 0 <==> forall s <- list :: !Busy(s)
  {
    if list != [] {
      var (rest, last) := (list[..|list| - 1], list[|list| - 1]);
      assert list == rest + [last];
      NoWork(rest);
      WorkPush(rest, last);
      assert Load(last) == 0 <==> !Busy(last);
      assert forall s <- list :: s in rest || s == last;
      assert last in list && forall s <- rest :: s in list;
    }
  }

  /** No destroy event of a listed session was refused by its queue. */
  ghost predicate NoneLost(list: seq<Session>)
    reads list
  {
    forall s <- list :: s.lost == 0
  }

  /** What a pass leaves: no more to do than before, and something to do if it left any session and no event
      was lost. A session that lost an event is always left. */
  lemma AfterTick(list: seq<Session>, closed: set<Session>, now: seq<Session>)
    requires now == L.Stay(list, closed) && closed == Closed(list)
    requires forall s <- list :: s.Drained()
    ensures Work(now) <= Work(list) && (NoneLost(list) && now != [] ==> Work(now) > 0)
    ensures NoneLost(now) <==> NoneLost(list)
    ensures forall s <- now :: s in list
  {
    WorkStay(list, closed);
    forall s | s in list ensures s in now <==> s.open > 0 {
      L.StayHas(list, closed, s);
    }
    forall s | s in now ensures s in list && (s.lost == 0 ==> Busy(s)) {
      L.StayHas(list, closed, s);
    }
    NoWork(now);
    if now != [] {
      assert now[0] in now;
    }
  }

  /** The dispatcher of one busy session takes one event; the others are left alone. */
  method Serve(session: Session, ghost list: seq<Session>, ghost parts: map<Session, set<object>>,
               ghost repr: set<object>)
    requires Sound(list, parts, repr) && session in list && Busy(session) && session.Drained()
    modifies session
    ensures Sound(list, parts, repr) && session.Drained() && session.lost == old(session.lost)
    ensures Load(session) < old(Load(session))
    ensures forall s <- list :: old(s.Drained()) ==> s.Drained()
  {
    hide Session.Valid;
    var first: bool := *;
    if session.queue != [] && (first || session.closing == 0) {
      session.Dispatch();
    } else {
      session.OnDestroy();
    }
  }

  /** The same, seen in the list of destroyed sessions: there is less left to do. */
  method ServeOne(i: nat, doomed: seq<Session>,
                  ghost list: seq<Session>, ghost parts: map<Session, set<object>>, ghost repr: set<object>)
    requires i < |doomed| && L.Distinct(doomed) && Busy(doomed[i])
    requires Sound(list, parts, repr) && forall s <- doomed :: s in list && s.Drained()
    modifies doomed[i]
    ensures Sound(list, parts, repr) && forall s <- doomed :: s.Drained() && s.lost == old(s.lost)
    ensures Work(doomed) < old(Work(doomed))
  {
    hide Sound, Session.Drained, Sum, Busy;
    ghost var before := Loads(doomed);
    Serve(doomed[i], list, parts, repr);
    SumDrops(before, Loads(doomed), i);
  }

  lemma SeparateGrow(list: seq<Session>, parts: map<Session, set<object>>, x: Session, more: set<object>)
    requires Separate(list, parts) && x in list && x !in more
    requires forall s <- list :: s != x ==> s !in more && parts[s] !! more
    ensures Separate(list, parts[x := more])
  {
  }

  /** What the calls outside this model report while a connection is destroyed: destroying its timer, posting
      the last event, waiting for it, and destroying the object dispatcher, the object queue and the event. */
  datatype Teardown = Teardown(
    timer: Status, posted: Status, waited: Status, dispatcher: Status, queue: Status, event: Status)

  class Connection {
    var sessions: seq<Session>          // m_sessions
    var destroyed: seq<Session>         // m_destroyedSessions
    var memory: set<Session>         // the sessions whose memory has not been freed
    var synch: bool                     // the state of m_destroySynch
    ghost var books: L.Books<Session>
    ghost var log: seq<L.Books<Session>>
    ghost var parts: map<Session, set<object>>
    ghost var repr: set<object>

    /** The lists and the memory are as the books say, and the books are the last of a run of the ledger. */
    ghost predicate Kept()
      reads this
    {
      && L.Run(log) && log[|log| - 1] == books && L.Inv(books)
      && books.active == sessions && books.doomed == destroyed && (forall s <- memory :: s in books.created)
      && (forall s <- books.created :: s in memory <==> s !in books.freed)
    }

    ghost predicate Valid()
      reads this, repr
    {
      && this !in repr && Kept() && books.flying == []
      && (forall s <- books.created :: s in repr) && Sound(books.created, parts, repr)
      && (forall s <- destroyed :: s in books.created && s.Drained())
    }

    constructor ()
      ensures Valid() && fresh(repr) && books == L.New() && log == [books] && !synch
    {
      sessions, destroyed, memory, synch := [], [], {}, false;
      books, log := L.New(), [L.New()];
      parts, repr := map[], {};
    }

    /** One step of the ledger. */
    ghost method Note(b: L.Books<Session>)
      requires L.Run(log) && log[|log| - 1] == books && L.Inv(books) && L.Next(books, b)
      modifies this`books, this`log
      ensures L.Run(log) && books == b && L.Inv(books) && log == old(log) + [b]
    {
      hide L.Run, L.Next, L.Inv;
      L.RunPush(log, b);
      L.NextInv(books, b);
      books, log := b, log + [b];
    }

    /** mamaEnvConnection_addSessionToList for a new session, which shares nothing with the others. */
    method AddSessionToList(session: Session)
      requires Valid() && books.phase.Serving? && session.Valid() && this !in session.repr
      requires session !in session.repr && session !in repr && session.repr !! repr && session !in memory
      modifies this`sessions, this`memory, this`books, this`log, this`parts, this`repr
      ensures Valid() && repr == old(repr) + {session} + session.repr
      ensures books == L.Open(old(books), session) && memory == old(memory) + {session}
    {
      hide Session.Valid, Session.Drained, L.Inv, L.Run, L.Next, Sound;
      L.Unlisted(books, session);
      SoundMore(books.created, parts, repr, session);
      SoundReprs(books.created, parts, repr);
      L.OpenNext(books, session);
      sessions, memory := sessions + [session], memory + {session};
      Note(L.Open(books, session));
      parts := parts[session := session.repr];
      repr := repr + {session} + session.repr;
    }

    /** mamaEnv_createSession, where `status` is what the object queue's thread reports back. */
    method CreateSession(status: Status) returns (ret: Status, session: Session?)
      requires Valid() && books.phase.Serving?
      modifies this
      ensures Valid() && fresh(repr - old(repr)) && ret == status && (ret == OK <==> session != null)
      ensures ret == OK ==> session !in old(books.created) && books == L.Open(old(books), session)
      ensures ret == OK ==> session !in old(memory) && memory == old(memory) + {session}
      ensures sessions == old(sessions) + (if ret == OK then [session] else []) && destroyed == old(destroyed)
      ensures ret == OK ==> session.open == 0 && session.lost == 0
      ensures ret != OK ==> books == old(books) && memory == old(memory)
    {
      hide Session.Valid, Session.Drained, Sound, L.Inv, L.Run;
      var local := new Session();
      ret, session := status, null;
      if ret == OK {
        AddSessionToList(local);
        session := local;
      }
    }

    /** mamaEnv_createTimer on one of the connection's sessions. */
    method CreateTimer(session: Session, data: Pointer, key: Pointer)
      requires Valid() && session in sessions && key !in session.timers.Abs().entries
      modifies this`parts, this`repr, session, session.repr
      ensures Valid() && fresh(repr - old(repr)) && books == old(books)
      ensures session.timers.Abs().entries == old(session.timers.Abs().entries)[key := data]
      ensures session.open == old(session.open) + 1 && session.lost == old(session.lost)
      ensures sessions == old(sessions) && destroyed == old(destroyed)
    {
      hide Session.Drained, Sound, L.Run;
      SoundReprs(books.created, parts, repr);
      L.OnePlace(books, session);
      hide L.Inv;
      AddTimer(session, data, key, books.created, parts, repr);
      SoundReprs(books.created, parts[session := session.repr], repr + session.repr);
      parts := parts[session := session.repr];
      repr := repr + session.repr;
    }

    /** mamaEnv_destroyTimer on one of the connection's sessions. */
    method DestroyTimer(session: Session, key: Pointer, enqueued: Status) returns (ret: Status)
      requires Valid() && session in sessions
      modifies session, session.repr
      ensures Valid() && session.timers.Abs().entries == old(session.timers.Abs().entries) - {key}
      ensures session.open == old(session.open)
      ensures ret == if key in old(session.timers.Abs().entries) then enqueued else OK
      ensures session.lost == old(session.lost) + if ret != OK then 1 else 0
    {
      hide Session.Drained, Sound, L.Run;
      SoundReprs(books.created, parts, repr);
      L.OnePlace(books, session);
      hide L.Inv;
      ret := RemoveTimer(session, key, enqueued, books.created, parts, repr);
      SoundReprs(books.created, parts, repr);
    }

    /** mamaEnv_destroySession, for a session still in the list. */
    method DestroySession(session: Session, enqueue: Kind -> (nat, Pointer) -> Status)
        returns (ret: Status, ghost gone: map<Kind, seq<Entry>>)
      requires Valid() && session in sessions
      modifies this`sessions, this`destroyed, this`books, this`log, session, session.repr
      ensures Valid() && log == old(log) + [L.Detach(old(books), session), books]
      ensures books == if ret == OK then L.Doom(L.Detach(old(books), session), session)
                       else L.Drop(L.Detach(old(books), session), session)
      ensures destroyed == old(destroyed) + if ret == OK then [session] else []
      ensures forall s <- books.created :: s.open == old(s.open)
      ensures forall s <- books.created :: s != session ==> s.lost == old(s.lost) && s.Held() == old(s.Held())
      // the first refusal is returned, in the order inboxes, subscriptions, timers; `gone` is what they held
      ensures TakenFrom(gone, old(session.Held())) && (ret == OK <==> NoneRefused(enqueue, gone))
      ensures ret != OK ==> FirstRefused(enqueue, gone, ret)
      ensures ret == OK <==> session.lost == old(session.lost)
      ensures Answers(enqueue, old(session.Held()), ret)
    {
      hide Session.Drained, Session.Held, Sound, L.Stay, L.Conserved, L.Run, L.Next, L.Turns;
      hide TakenFrom, NoneRefused, FirstRefused, Answers;
      SoundReprs(books.created, parts, repr);
      L.OnePlace(books, session);
      sessions := L.Stay(sessions, {session});
      ret, gone := DestroyEvents(session, enqueue, books.created, parts, repr);
      HeldAnswers(enqueue, gone, old(session.Held()), ret);
      SoundReprs(books.created, parts, repr);
      if ret == OK {
        destroyed := destroyed + [session];
      }
      NoteFlight(session, ret == OK);
    }

    /** The two steps of a destroySession call with no other session in flight. */
    ghost method NoteFlight(session: Session, done: bool)
      requires L.Run(log) && log[|log| - 1] == books && L.Inv(books) && session in books.active && books.flying == []
      modifies this`books, this`log
      ensures L.Run(log) && L.Inv(books) && log == old(log) + [L.Detach(old(books), session), books]
      ensures books == if done then L.Doom(L.Detach(old(books), session), session)
                       else L.Drop(L.Detach(old(books), session), session)
      ensures books.flying == []
    {
      hide L.Run, L.Next, L.Inv, L.Stay;
      L.DetachNext(books, session);
      L.LandNext(L.Detach(books, session), session);
      L.StayOnly(session);
      Note(L.Detach(books, session));
      assert books.flying == [session];
      Note(if done then L.Doom(books, session) else L.Drop(books, session));
    }

    /** mamaEnvSession_deallocate. */
    method Deallocate(session: Session)
      requires session in memory
      modifies this`memory
      ensures memory == old(memory) - {session}
    {
      memory := memory - {session};
    }

    /** mamaEnvConnection_onSessionDestroyListEnumerate on one element; the session is read out of it
        once. `destroys` gives the status of destroying a session's dispatcher and queue; a session that
        can be destroyed leaves the list whatever that is, and is freed if it is OK. */
    method OnSessionDestroyListEnumerate(session: Session, destroys: Session -> Status) returns (ret: Status)
      requires Kept() && L.Sweeping(books.phase) && session in destroyed
      modifies this`destroyed, this`memory, this`books, this`log
      ensures Kept() && old(session in memory)
      ensures ret == if session.open == 0 then destroys(session) else OK
      ensures books == if session.open != 0 then old(books)
                       else if destroys(session) == OK then L.Free(old(books), session) else L.Fail(old(books), session)
    {
      hide L.Stay, L.Conserved, L.Run;
      L.DoomedOnce(books, session);
      ret := session.CanDestroy();
      if ret == OK {
        destroyed := L.Stay(destroyed, {session});
        ret := destroys(session);
        if ret == OK {
          Deallocate(session);
          Note(L.Free(books, session));
        } else {
          Note(L.Fail(books, session));
        }
      } else if ret == QUEUE_OPEN_OBJECTS {
        ret := OK;
      }
    }

    /** mamaEnvConnection_enumerateList over the destroyed sessions. Exactly the closed ones leave the list,
        and of them exactly those whose destruction is OK are freed; the last callback's status wins. */
    method EnumerateDestroyed(destroys: Session -> Status) returns (ret: Status)
      requires Kept() && L.Sweeping(books.phase)
      modifies this`destroyed, this`memory, this`books, this`log
      ensures Kept()
      ensures books == L.Sweep(old(books), Closed(old(destroyed)), Failing(old(destroyed), destroys))
      ensures old(destroyed) == [] ==> ret == OK
      ensures old(destroyed) != [] ==>
        ret == if old(destroyed[|destroyed| - 1].open) == 0 then destroys(old(destroyed)[|old(destroyed)| - 1]) else OK
    {
      var list := destroyed;
      ghost var (was, closed, failing) := (books, Closed(list), Failing(list, destroys));
      hide L.Conserved, L.Distinct, L.Swept, L.Sweep, L.Run;
      L.ListedDistinct(was);
      L.SweptAll(was, closed, failing);
      ret := OK;
      for i := 0 to |list|
        invariant Kept() && books == L.Swept(was, i, closed, failing) && books.phase == was.phase
        invariant ret == LastStatus(list[..i], destroys)
      {
        L.SweptNext(was, i, closed, failing);
        assert list[..i + 1][i] == list[i];
        ret := OnSessionDestroyListEnumerate(list[i], destroys);
      }
      assert list[..|list|] == list;
    }

    /** mamaEnvConnection_onSessionTimerTick: one pass. */
    method OnSessionTimerTick(destroys: Session -> Status) returns (ret: Status)
      requires Valid() && L.Sweeping(books.phase)
      modifies this`destroyed, this`memory, this`books, this`log
      ensures Valid()
      ensures books == L.Sweep(old(books), Closed(old(destroyed)), Failing(old(destroyed), destroys))
      ensures old(destroyed) == [] ==> ret == OK
      ensures old(destroyed) != [] ==>
        ret == if old(destroyed[|destroyed| - 1].open) == 0 then destroys(old(destroyed)[|old(destroyed)| - 1]) else OK
    {
      hide Sound, Session.Drained, L.Conserved, L.Distinct, L.Stay, L.Run;
      SoundReprs(books.created, parts, repr);
      ret := EnumerateDestroyed(destroys);
      forall s | s in destroyed ensures s in old(destroyed) {
        L.StayHas(old(destroyed), Closed(old(destroyed)), s);
      }
    }

    /** What the dispatchers of the destroyed sessions do while mamaQueue_timedDispatch sleeps: fairness
        is that they do at least one event if there is one. */
    method OtherThreads()
      requires Valid()
      modifies set s | s in destroyed
      ensures Valid() && NoneLost(destroyed) == old(NoneLost(destroyed))
      ensures Work(destroyed) <= old(Work(destroyed))
      ensures old(Work(destroyed)) > 0 ==> Work(destroyed) < old(Work(destroyed))
    {
      hide Sound, Session.Drained, L.Conserved, L.Distinct, L.Run, Work;
      L.ListedDistinct(books);
      SoundReprs(books.created, parts, repr);
      var more := true;
      while more && exists i | 0 <= i < |destroyed| :: Busy(destroyed[i])
        invariant Sound(books.created, parts, repr)
        invariant forall s <- destroyed :: s.Drained() && s.lost == old(s.lost)
        invariant Work(destroyed) < old(Work(destroyed)) || (more && Work(destroyed) == old(Work(destroyed)))
        decreases Work(destroyed)
      {
        var i :| 0 <= i < |destroyed| && Busy(destroyed[i]);
        ServeOne(i, destroyed, books.created, parts, repr);
        more := *;
      }
      NoWork(destroyed);
    }

    /** A pass of the loop that drains the list: it ends the list exactly if every session is closed, which a
        session that lost a destroy event never is. */
    method Pass(destroys: Session -> Status) returns (ret: Status)
      requires Valid() && books.phase == L.Draining(true)
      modifies this`destroyed, this`memory, this`books, this`log
      ensures Valid() && NoneLost(destroyed) == old(NoneLost(destroyed)) && books.phase == L.Draining(true)
      ensures Sweeps(old(books), books, old(destroyed), destroyed, destroys)
      ensures destroyed == [] <==> AllClosed(old(destroyed))
      ensures !old(NoneLost(destroyed)) ==> destroyed != []
      ensures Work(destroyed) <= old(Work(destroyed))
      ensures NoneLost(destroyed) && destroyed != [] ==> Work(destroyed) > 0
    {
      hide Sound, Session.Drained, Session.Valid, L.Conserved, L.Stay, L.Pick, L.Run, Work, Busy;
      ghost var (list, closed, failing) := (destroyed, Closed(destroyed), Failing(destroyed, destroys));
      SoundReprs(books.created, parts, repr);
      ret := OnSessionTimerTick(destroys);
      AfterTick(list, closed, destroyed);
      L.PickNone(list, closed * failing);
      L.StayEmpty(list, closed);
      SweepSettles(old(books), closed, failing, destroys);
    }

    /** The wait between two passes. */
    method Wait(status: Status)
      requires Valid() && books.phase == L.Draining(true) && destroyed != []
      modifies this`books, this`log, set s | s in destroyed
      ensures Valid() && NoneLost(destroyed) == old(NoneLost(destroyed))
      ensures Work(destroyed) <= old(Work(destroyed))
      ensures old(Work(destroyed)) > 0 ==> Work(destroyed) < old(Work(destroyed))
      ensures books == old(books).(phase := L.Draining(status == OK))
    {
      hide Sound, Session.Drained, Session.Valid, L.Conserved, L.Run, Work;
      OtherThreads();
      NoWork(destroyed);
      SoundReprs(books.created, parts, repr);
      if status != OK {
        Note(books.(phase := L.Draining(false)));
      }
    }

    /** A pass and, if it leaves any session, the wait after it. */
    method PassAndWait(destroys: Session -> Status, wait: Status) returns (ret: Status)
      requires Valid() && books.phase == L.Draining(true)
      modifies this`destroyed, this`memory, this`books, this`log, set s | s in destroyed
      ensures Valid() && NoneLost(destroyed) == old(NoneLost(destroyed))
      ensures Sweeps(old(books), books, old(destroyed), destroyed, destroys)
      ensures destroyed == [] <==> old(AllClosed(destroyed))
      ensures !old(NoneLost(destroyed)) ==> destroyed != []
      ensures destroyed != [] ==> ret == wait
      ensures books.phase == L.Draining(destroyed == [] || wait == OK)
      ensures Work(destroyed) <= old(Work(destroyed))
      ensures NoneLost(destroyed) && destroyed != [] ==> Work(destroyed) < old(Work(destroyed))
    {
      hide Valid, NoneLost, Work, Failing, AllClosed, Sweeps;
      ghost var (was, list) := (books, destroyed);
      ret := Pass(destroys);
      if destroyed != [] {
        ghost var after := books;
        SweepsHas(was, after, list, destroyed, destroys);
        Wait(wait);
        ret := wait;
        SweepsNone(was, list, destroys);
        SweepsMore(was, was, after, books.phase, list, list, destroyed, destroys);
      }
    }

    /** mamaEnv_setEvent on the event that destroyConnection waits for. */
    method SetEvent()
      requires Valid()
      modifies this`synch
      ensures Valid() && synch
    {
      hide Sound, Session.Drained, L.Run, L.Inv;
      SoundReprs(books.created, parts, repr);
      synch := true;
    }

    /** mamaEnvConnection_onDestroyAllSessions. `dispatches(k)` is the status of the k-th wait between two
        passes, of which there are `waits`. The loop ends if no listed session lost a destroy event, or else
        if some wait goes wrong; without either it does not, as Pass says. It waits at all exactly if not
        every session is closed as it begins; destroyed sessions are left exactly if the last wait went
        wrong, whatever destroying sessions reports. Every session that leaves the list is freed, or given up
        on if destroying it fails. Then the event that destroyConnection waits for is set. */
    method OnDestroyAllSessions(destroys: Session -> Status, dispatches: nat -> Status) returns (ghost waits: nat)
      requires Valid() && books.phase == L.Draining(true)
      requires NoneLost(destroyed) || exists k :: dispatches(k) != OK
      modifies this`destroyed, this`memory, this`books, this`log, this`synch, set s | s in destroyed
      ensures Valid() && synch
      ensures books.created == old(books.created) && books.active == old(books.active)
      ensures old(books.freed) <= books.freed && old(books.leaked) <= books.leaked
      ensures waits == 0 <==> old(AllClosed(destroyed))
      ensures forall k :: 0 <= k < waits - 1 ==> dispatches(k) == OK
      ensures destroyed == [] <==> LastWait(dispatches, waits) == OK
      ensures !old(NoneLost(destroyed)) ==> destroyed != []
      ensures books.phase == L.Draining(LastWait(dispatches, waits) == OK)
      ensures Failing(old(destroyed), destroys) == {} ==> books.leaked == old(books.leaked)
      ensures Settled(old(destroyed), destroyed, destroys, books)
    {
      hide Valid, NoneLost, Work, Failing, Kept, Sound, AllClosed;
      hide Sweeps, Settled;
      EmptyClosed(destroyed);
      ghost var (all, was) := (destroyed, books);
      SweepsNone(was, all, destroys);
      ghost var (closed, lossless) := (AllClosed(all), NoneLost(all));
      ghost var bad: nat := 0;
      if !lossless {
        bad :| dispatches(bad) != OK;
      }
      var numberSessions := |destroyed|;
      var round := 0;
      var ret := OK;
      while ret == OK && numberSessions > 0
        invariant Valid() && NoneLost(destroyed) == lossless && numberSessions == |destroyed|
        invariant !lossless ==> destroyed != []
        invariant Sweeps(was, books, all, destroyed, destroys) && forall s <- destroyed :: s in all
        invariant forall k :: 0 <= k < round - 1 ==> dispatches(k) == OK
        invariant books.phase == L.Draining(LastWait(dispatches, round) == OK)
        invariant if numberSessions > 0 then ret == LastWait(dispatches, round) else LastWait(dispatches, round) == OK
        invariant round > 0 ==> !closed
        invariant round == 0 && destroyed == [] ==> closed
        invariant round == 0 && destroyed != [] ==> destroyed == all && closed == AllClosed(all)
        decreases if ret == OK then 1 else 0, if lossless then Work(destroyed) else bad - round, numberSessions
      {
        ghost var (list, before) := (destroyed, books);
        ret := PassAndWait(destroys, dispatches(round));
        numberSessions := |destroyed|;
        if numberSessions > 0 {
          round := round + 1;
        }
        SweepsHas(before, books, list, destroyed, destroys);
        SweepsMore(was, before, books, books.phase, all, list, destroyed, destroys);
      }
      SweepsHas(was, books, all, destroyed, destroys);
      SetEvent();
      waits := round;
    }

    /** mamaEnvConnection_onSessionListEnumerate on the first session left. */
    method DestroyFirst(enqueue: Kind -> (nat, Pointer) -> Status) returns (ret: Status)
      requires Valid() && sessions != []
      modifies this`sessions, this`destroyed, this`books, this`log, repr
      ensures Valid() && sessions == old(sessions[1..])
      ensures old(NoneLost(sessions) && NoneLost(destroyed)) ==> NoneLost(sessions) && NoneLost(destroyed)
      ensures books.created == old(books.created) && books.freed == old(books.freed) && books.phase == old(books.phase)
      ensures (forall s <- books.created :: s.open == old(s.open)) && forall s <- sessions :: s.Held() == old(s.Held())
      ensures destroyed == old(destroyed) + if ret == OK then [old(sessions[0])] else []
      ensures books.leaked == old(books.leaked) + if ret == OK then [] else [old(sessions[0])]
      ensures Answers(enqueue, old(sessions[0].Held()), ret)
    {
      hide Valid, Session.Held, L.Stay, TakenFrom, NoneRefused, FirstRefused, Answers;
      ValidHas();
      FirstLeaves();
      ghost var gone;
      ret, gone := DestroySession(sessions[0], enqueue);
      ValidHas();
    }

    /** The first session, without which the list is what comes after it. */
    lemma FirstLeaves()
      requires Valid() && sessions != []
      ensures L.Stay(sessions, {sessions[0]}) == sessions[1..] && sessions[0] !in sessions[1..]
      ensures sessions[0] !in destroyed && sessions[0] in repr && sessions[0].repr <= repr
    {
      ghost var (first, rest) := (sessions[0], sessions[1..]);
      ValidHas();
      L.ListedDistinct(books);
      assert [] + [first] + rest == sessions && first !in rest;
      L.StayMid([], first, rest);
      L.OnePlace(books, first);
      SoundReprs(books.created, parts, repr);
    }

    lemma ValidHas()
      requires Valid()
      ensures this !in repr && books.flying == [] && books.active == sessions && books.doomed == destroyed
      ensures forall s :: s in sessions || s in destroyed ==> s in repr && s in books.created
    {
      forall s ensures s in sessions ==> s in books.created {
        if s in sessions {
          L.OnePlace(books, s);
        }
      }
    }

    lemma OnlyOne(s: Session)
      requires Valid() && books.created == [s] && books.abandoned != []
      ensures books.abandoned == [s] && books.freed == []
    {
      assert |L.Total(books)| == |multiset(books.created)| == 1;
      assert books.abandoned[0] in L.Total(books);
    }

    lemma SessionIn(s: Session)
      requires Valid() && s in sessions
      ensures s in repr && s.repr <= repr && s.Valid()
    {
      ValidHas();
    }

    /** The loop of the enumeration below; `held` says what the sessions hold. */
    method DestroyEach(enqueues: Session -> Kind -> (nat, Pointer) -> Status,
                       ghost held: map<Session, map<Kind, seq<Entry>>>)
        returns (ret: Status, ghost stats: seq<Status>)
      requires Valid() && forall s <- sessions :: s in held && held[s] == s.Held()
      modifies this`sessions, this`destroyed, this`books, this`log, repr
      ensures Valid() && (old(NoneLost(sessions) && NoneLost(destroyed)) ==> NoneLost(destroyed)) && sessions == []
      ensures books.created == old(books.created) && forall s <- books.created :: s.open == old(s.open)
      ensures |stats| == |old(sessions)| && ret == if stats == [] then OK else stats[|stats| - 1]
      ensures Moved(old(sessions), stats, old(books), books) && AllAnswer(old(sessions), stats, enqueues, held)
    {
      hide Valid, NoneLost, Answers, Accepts, Session.Held, L.Distinct, Moved, Sorted;
      var list := sessions;
      ghost var was := books;
      ret, stats := OK, [];
      ListApart();
      MovedNone(list, was);
      assert AllAnswer(list, [], enqueues, held);
      hide AllAnswer;
      for i := 0 to |list|
        invariant Valid() && sessions == list[i..] && repr == old(repr)
        invariant old(NoneLost(sessions) && NoneLost(destroyed)) ==> NoneLost(sessions) && NoneLost(destroyed)
        invariant books.created == was.created && forall s <- books.created :: s.open == old(s.open)
        invariant |stats| == i && ret == if i == 0 then OK else stats[i - 1]
        invariant Moved(list, stats, was, books) && AllAnswer(list, stats, enqueues, held)
        invariant forall s <- sessions :: s.Held() == held[s]
      {
        ValidHas();
        ListApart();
        assert sessions[0] == list[i];
        ghost var before := books;
        ret := DestroyFirst(enqueues(list[i]));
        ValidHas();
        MovedMore(list, stats, ret, was, before, books);
        AnswerMore(list, stats, enqueues, held, ret);
        stats := stats + [ret];
      }
    }

    /** mamaEnvConnection_enumerateList over the open sessions with mamaEnv_destroySession. The list ends up
        empty; if every enqueue succeeds, with every session in the other list. The status is OK if the last
        session's enqueues succeed, whatever happened to those before it. */
    method EnumerateSessions(enqueues: Session -> Kind -> (nat, Pointer) -> Status)
        returns (ret: Status, ghost stats: seq<Status>)
      requires Valid()
      modifies this`sessions, this`destroyed, this`books, this`log, repr
      ensures Valid() && (old(NoneLost(sessions) && NoneLost(destroyed)) ==> NoneLost(destroyed)) && sessions == []
      ensures books.created == old(books.created) && books.freed == old(books.freed) && books.phase == old(books.phase)
      ensures forall s <- books.created :: s.open == old(s.open)
      // one status per session: what its queue said of what it held, and where the session went
      ensures |stats| == |old(sessions)| && Sorted(old(sessions), stats, destroyed, books.leaked)
      ensures forall i :: 0 <= i < |stats| ==> Answers(enqueues(old(sessions)[i]), old(sessions[i].Held()), stats[i])
      ensures old(sessions) != [] ==> (ret == OK <==> old(sessions)[|old(sessions)| - 1] in destroyed)
      // the last one is returned
      ensures ret == if stats == [] then OK else stats[|stats| - 1]
      ensures old(sessions) != [] ==>
        Answers(enqueues(old(sessions)[|old(sessions)| - 1]), old(sessions[|sessions| - 1].Held()), ret)
      ensures (forall s <- old(sessions) :: Accepts(enqueues(s))) ==>
        ret == OK && books.leaked == old(books.leaked) && destroyed == old(destroyed) + old(sessions)
    {
      hide Valid, NoneLost, Answers, Accepts, Session.Held, L.Distinct, Moved, Sorted, AllAnswer;
      var list := sessions;
      ghost var (was, held) := (books, map s | s in list :: s.Held());
      ValidHas();
      ret, stats := DestroyEach(enqueues, held);
      ValidHas();
      MovedAll(list, stats, was, books);
      AllAccepted(list, stats, enqueues, held);
      EachAnswer(list, stats, enqueues, held);
    }

    lemma ListApart()
      requires Valid()
      ensures L.Distinct(sessions) && forall s <- sessions :: s !in destroyed && s !in books.leaked
    {
      L.ListedDistinct(books);
      forall s | s in sessions ensures s !in destroyed && s !in books.leaked {
        L.OnePlace(books, s);
      }
    }

    /** A step of destroyConnection in the books. */
    ghost method Turn(phase: L.Phase)
      requires Valid() && L.Turns(books, books.(phase := phase))
      modifies this`books, this`log
      ensures Valid() && books == old(books).(phase := phase)
    {
      hide Sound, Session.Drained, L.Conserved, L.Run, L.Turns;
      SoundReprs(books.created, parts, repr);
      Note(books.(phase := phase));
    }

    /** mamaEnvConnection_deallocate: everything is destroyed, and the first error returned. */
    method DeallocateConnection(calls: Teardown) returns (ret: Status)
      requires Valid() && books.phase.Draining? && (books.phase.ok ==> destroyed == [])
      modifies this`destroyed, this`books, this`log
      ensures Valid() && books == L.Retire(old(books))
      ensures ret == if calls.dispatcher != OK then calls.dispatcher
                     else if calls.queue != OK then calls.queue else calls.event
      ensures books.abandoned == [] <==> books.phase.ok
      ensures multiset(books.freed) == multiset(books.created) <==> books.leaked == [] && books.phase.ok
      ensures multiset(books.freed) == multiset(books.created) ==> memory == {}
    {
      hide Sound, Session.Drained, L.Conserved, L.Run, Session.Valid;
      SoundReprs(books.created, parts, repr);
      destroyed := [];
      Note(L.Retire(books));
      L.Retirement(log);
      if multiset(books.freed) == multiset(books.created) {
        forall s ensures s !in memory {
          assert s in books.created <==> s in multiset(books.created);
          assert s in books.freed <==> s in multiset(books.freed);
        }
      }
      ret := FirstOf(FirstOf(calls.dispatcher, calls.queue), calls.event);
    }

    /** The end of mamaEnv_destroyConnection, once the last event is posted: it runs, and sets the event; that
        is waited for, and the connection is freed. */
    method AwaitAndDeallocate(destroys: Session -> Status, dispatches: nat -> Status, calls: Teardown)
        returns (ret: Status, gone: bool, ghost waits: nat)
      requires Valid() && books.phase.Closing? && sessions == []
      requires NoneLost(destroyed) || exists k :: dispatches(k) != OK
      modifies this`destroyed, this`memory, this`books, this`log, this`synch, set s | s in destroyed
      ensures Valid() && books.created == old(books.created) && books.phase.Retired? == gone
      ensures gone <==> calls.waited == OK
      ensures ret == if calls.waited != OK then calls.waited
                     else if calls.dispatcher != OK then calls.dispatcher
                     else if calls.queue != OK then calls.queue else calls.event
      ensures synch && sessions == []
      ensures gone ==> (books.abandoned == [] <==> LastWait(dispatches, waits) == OK)
      ensures gone ==>
        (multiset(books.freed) == multiset(books.created) <==> books.leaked == [] && LastWait(dispatches, waits) == OK)
      ensures gone && multiset(books.freed) == multiset(books.created) ==> memory == {}
      ensures gone && old(books.leaked) == [] ==>
        (multiset(books.freed) == multiset(books.created) <==>
           LastWait(dispatches, waits) == OK && Failing(old(destroyed), destroys) == {})
      ensures gone && (forall k :: dispatches(k) != OK) && !old(AllClosed(destroyed)) ==> books.abandoned != []
    {
      hide Valid, NoneLost, Settled, Failing, AllClosed;
      ValidHas();
      ghost var list := destroyed;
      Turn(L.Draining(true));
      waits := OnDestroyAllSessions(destroys, dispatches);
      NoneLeaked(list, destroyed, destroys, books);
      ValidHas();
      gone, ret := false, calls.waited;
      if ret == OK {
        ret := DeallocateConnection(calls);
        gone := true;
      }
    }

    /** mamaEnv_destroyConnection, when no other call on the connection is under way. If a session lost a
        destroy event, some wait has to go wrong, or the call does not return. `gone` says that the connection
        was freed; `listed` is the status of emptying the list of sessions, `waits` the number of waits
        between passes. */
    method DestroyConnection(enqueues: Session -> Kind -> (nat, Pointer) -> Status,
                             destroys: Session -> Status, dispatches: nat -> Status, calls: Teardown)
        returns (ret: Status, gone: bool, ghost listed: Status, ghost waits: nat)
      requires Valid() && books.phase.Serving?
      requires (NoneLost(sessions) && NoneLost(destroyed)) || exists k :: dispatches(k) != OK
      modifies this`sessions, this`destroyed, this`memory, this`books, this`log, this`synch, repr
      ensures Valid() && books.created == old(books.created) && books.phase.Retired? == gone
      ensures calls.timer != OK ==> books == old(books)
      // the first error is returned, and the connection goes exactly if the event was waited for
      ensures ret == if calls.timer != OK then calls.timer
                     else if listed != OK then listed
                     else if calls.posted != OK then calls.posted
                     else if calls.waited != OK then calls.waited
                     else if calls.dispatcher != OK then calls.dispatcher
                     else if calls.queue != OK then calls.queue else calls.event
      ensures gone <==> calls.timer == listed == calls.posted == calls.waited == OK
      // emptying the list reports what the last session's queue said of what that session held
      ensures calls.timer != OK || old(sessions) == [] ==> listed == OK
      ensures calls.timer == OK && old(sessions) != [] ==>
        Answers(enqueues(old(sessions)[|old(sessions)| - 1]), old(sessions[|sessions| - 1].Held()), listed)
      // so if that session holds an object which is refused, the refusal is returned and the connection stays
      ensures
        && calls.timer == OK && old(sessions) != []
        && Refuses(enqueues(old(sessions)[|old(sessions)| - 1]), old(sessions[|sessions| - 1].Held()))
        ==> !gone && ret == listed && listed != OK
      // it goes with sessions left exactly if the last wait went wrong
      ensures gone ==> synch && sessions == []
      ensures gone ==> (books.abandoned == [] <==> LastWait(dispatches, waits) == OK)
      ensures gone ==>
        (multiset(books.freed) == multiset(books.created) <==> books.leaked == [] && LastWait(dispatches, waits) == OK)
      ensures gone && multiset(books.freed) == multiset(books.created) ==> memory == {}
      // with no enqueue refused, now or before, every session is freed exactly if that and every destroy is OK
      ensures gone && old(books.leaked) == [] && (forall s <- old(sessions) :: Accepts(enqueues(s))) ==>
        (multiset(books.freed) == multiset(books.created) <==>
           LastWait(dispatches, waits) == OK && Failing(old(destroyed) + old(sessions), destroys) == {})
      // so with no other status bad it is a matter of destroying the sessions alone
      ensures
        && calls.timer == calls.posted == calls.waited == OK && (forall s <- old(sessions) :: Accepts(enqueues(s)))
        && (forall k :: dispatches(k) == OK) && old(books.leaked) == []
        ==> gone && (multiset(books.freed) == multiset(books.created) <==>
                       Failing(old(destroyed) + old(sessions), destroys) == {})
      // the waits fail, and a session has an open object: it is left behind
      ensures
        && calls.timer == calls.posted == calls.waited == OK && (forall s <- old(sessions) :: Accepts(enqueues(s)))
        && (forall k :: dispatches(k) != OK) && (exists s <- old(sessions) :: old(s.open) > 0)
        ==> gone && books.abandoned != []
    {
      hide Valid, Accepts, NoneLost, Failing, Answers, Refuses, Sorted, Session.Held;
      gone, ret, listed, waits := false, calls.timer, OK, 0;
      if ret == OK {
        ValidHas();
        Turn(L.Closing);
        ghost var stats;
        ret, stats := EnumerateSessions(enqueues);
        listed := ret;
        if old(sessions) != [] {
          RefusesBad(enqueues(old(sessions)[|old(sessions)| - 1]), old(sessions[|sessions| - 1].Held()), listed);
        }
        ValidHas();
        if ret == OK {
          ret := calls.posted;
        }
        if ret != OK {
          Turn(L.Serving);
        } else {
          ret, gone, waits := AwaitAndDeallocate(destroys, dispatches, calls);
        }
      }
    }
  }

  lemma NoneLeaked(list: seq<Session>, now: seq<Session>, destroys: Session -> Status, b: L.Books<Session>)
    requires Settled(list, now, destroys, b)
    ensures now == [] && b.leaked == [] ==> Failing(list, destroys) == {}
  {
  }

  lemma NoTimers(s: Session)
    requires s.Valid() && s.open == 0
    ensures s.timers.Abs().entries == map[]
  {
    hide SynchronizedMap.Valid, SynchronizedMap.Abs;
  }

  /** A session with one timer, whose destroy event is still pending when the only wait goes wrong: the
      connection is freed and the session is not. */
  method LeavesSession(bad: Status) returns (c: Connection, session: Session)
    requires bad != OK
    ensures c.Valid() && c.books.phase.Retired? && c.books.abandoned == [session] && c.books.freed == []
  {
    hide Connection.Valid, Connection.Kept, Session.Valid;
    c := new Connection();
    var _, s := c.CreateSession(OK);
    session := s;
    c.ValidHas();
    c.SessionIn(session);
    NoTimers(session);
    c.CreateTimer(session, 1, 2);
    c.ValidHas();
    var enqueue := (s: Session) => (k: Kind) => (i: nat, x: Pointer) => OK;
    var (destroy, wait) := ((s: Session) => OK, (k: nat) => bad);
    assert Accepts(enqueue(session));
    var _, _, _, _ := c.DestroyConnection(enqueue, destroy, wait, Teardown(OK, OK, OK, OK, OK, OK));
    c.OnlyOne(session);
  }

  /** A session whose only timer could not be posted is destroyed all the same, and closes never: the loop of
      destroyConnection then ends only if a wait goes wrong. */
  method StuckSession(refused: Status) returns (c: Connection, session: Session)
    requires refused != OK
    ensures c.Valid() && c.books.phase.Serving? && c.destroyed == [session] && !NoneLost(c.destroyed)
  {
    hide Connection.Valid, Session.Valid, L.Run, L.Inv;
    c := new Connection();
    var _, s := c.CreateSession(OK);
    session := s;
    c.ValidHas();
    c.SessionIn(session);
    NoTimers(session);
    c.CreateTimer(session, 1, 2);
    c.ValidHas();
    c.SessionIn(session);
    var _ := c.DestroyTimer(session, 2, refused);
    c.ValidHas();
    c.SessionIn(session);
    var enqueue := (k: Kind) => (i: nat, x: Pointer) => OK;
    assert Accepts(enqueue);
    AcceptsTakes(enqueue, session.Held());
    var _, _ := c.DestroySession(session, enqueue);
    c.ValidHas();
  }
}
