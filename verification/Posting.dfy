/** What removeAll's callback does to a queue: one destroy event per object whose enqueue is accepted. Which
    events those are, in which order, and which status comes back is said by the index of the call. */
module Posting {
  import opened RedBlackShape
  import opened MapSpec
  import opened SynchronizedMap
  import L = Lifecycle

  type Kind = L.Kind

  /** A pending mamaEnvXXX_onXXXDestroy event for an object. */
  datatype Event = Event(kind: Kind, object_: Pointer)

  /** The events of those calls whose enqueue succeeds. */
  function Enqueued(kind: Kind, enqueue: (nat, Pointer) -> Status, calls: seq<Pointer>): seq<Event> {
    if calls == [] then []
    else
      var (n, last) := (|calls| - 1, calls[|calls| - 1]);
      Enqueued(kind, enqueue, calls[..n]) + if enqueue(n, last).OK? then [Event(kind, last)] else []
  }

  /** One event per object, in order. */
  ghost function Events(kind: Kind, objects: seq<Pointer>): seq<Event> {
    seq(|objects|, i requires 0 <= i < |objects| => Event(kind, objects[i]))
  }

  /** No enqueue fails iff removeAll reports OK, and then every object gets its event. */
  lemma {:induction false} AllEnqueued(kind: Kind, enqueue: (nat, Pointer) -> Status, calls: seq<Pointer>)
    ensures FirstError(enqueue, calls) == OK ==> Enqueued(kind, enqueue, calls) == Events(kind, calls)
    ensures |Enqueued(kind, enqueue, calls)| <= |calls|
    ensures |Enqueued(kind, enqueue, calls)| == |calls| <==> FirstError(enqueue, calls) == OK
  {
    if calls != [] {
      AllEnqueued(kind, enqueue, calls[..|calls| - 1]);
      assert Events(kind, calls) == Events(kind, calls[..|calls| - 1]) + [Event(kind, calls[|calls| - 1])];
    }
  }

  /** The calls whose enqueue is accepted. */
  ghost function AcceptedAt(enqueue: (nat, Pointer) -> Status, calls: seq<Pointer>): set<nat> {
    set i: nat | i < |calls| && enqueue(i, calls[i]) == OK
  }

  ghost function Elements(at: seq<nat>): set<nat> {
    set i | i in at
  }

  ghost predicate Increasing(at: seq<nat>) {
    forall j, k :: 0 <= j < k < |at| ==> at[j] < at[k]
  }

  /** The events are those of the accepted calls, each once, in the order of the calls. */
  ghost predicate Posts(kind: Kind, enqueue: (nat, Pointer) -> Status, calls: seq<Pointer>, events: seq<Event>) {
    exists at: seq<nat> ::
      && Increasing(at) && |at| == |events| && Elements(at) == AcceptedAt(enqueue, calls)
      && forall j :: 0 <= j < |at| ==> at[j] < |calls| && events[j] == Event(kind, calls[at[j]])
  }

  lemma AcceptedMore(enqueue: (nat, Pointer) -> Status, calls: seq<Pointer>)
    requires calls != []
    ensures var n := |calls| - 1;
      AcceptedAt(enqueue, calls) == AcceptedAt(enqueue, calls[..n]) + if enqueue(n, calls[n]) == OK then {n} else {}
  {
  }

  lemma IndexMore(at: seq<nat>, n: nat)
    ensures Elements(at + [n]) == Elements(at) + {n}
  {
  }

  lemma {:induction false} EnqueuedAt(kind: Kind, enqueue: (nat, Pointer) -> Status, calls: seq<Pointer>)
      returns (at: seq<nat>)
    ensures Increasing(at) && |at| == |Enqueued(kind, enqueue, calls)|
    ensures Elements(at) == AcceptedAt(enqueue, calls)
    ensures forall j :: 0 <= j < |at| ==>
      at[j] < |calls| && Enqueued(kind, enqueue, calls)[j] == Event(kind, calls[at[j]])
  {
    at := [];
    if calls != [] {
      var n := |calls| - 1;
      AcceptedMore(enqueue, calls);
      at := EnqueuedAt(kind, enqueue, calls[..n]);
      hide AcceptedAt;
      if enqueue(n, calls[n]) == OK {
        IndexMore(at, n);
        at := at + [n];
      }
    }
  }

  lemma LastIsNew(at: seq<nat>)
    requires Increasing(at) && at != []
    ensures Increasing(at[..|at| - 1]) && at[|at| - 1] !in Elements(at[..|at| - 1])
    ensures Elements(at) == Elements(at[..|at| - 1]) + {at[|at| - 1]}
  {
    var (rest, last) := (at[..|at| - 1], at[|at| - 1]);
    assert at == rest + [last];
    IndexMore(rest, last);
  }

  lemma {:induction false} DistinctSize(at: seq<nat>)
    requires Increasing(at)
    ensures |Elements(at)| == |at|
  {
    if at != [] {
      LastIsNew(at);
      hide Increasing, Elements;
      DistinctSize(at[..|at| - 1]);
    } else {
      assert Elements(at) == {};
    }
  }

  /** An event is posted exactly if it is that of an accepted call, as many as there are such calls, in the order
      of the calls. */
  lemma EnqueuedPosts(kind: Kind, enqueue: (nat, Pointer) -> Status, calls: seq<Pointer>)
    ensures var events := Enqueued(kind, enqueue, calls);
      && Posts(kind, enqueue, calls, events) && |events| == |AcceptedAt(enqueue, calls)|
      && (forall e :: e in events <==>
            exists i :: 0 <= i < |calls| && enqueue(i, calls[i]) == OK && e == Event(kind, calls[i]))
  {
    var at := EnqueuedAt(kind, enqueue, calls);
    var events := Enqueued(kind, enqueue, calls);
    DistinctSize(at);
    hide Enqueued;
    forall e
      ensures e in events <==> exists i :: 0 <= i < |calls| && enqueue(i, calls[i]) == OK && e == Event(kind, calls[i])
    {
      if e in events {
        var j :| 0 <= j < |events| && events[j] == e;
        assert at[j] in AcceptedAt(enqueue, calls);
      }
      if i :| 0 <= i < |calls| && enqueue(i, calls[i]) == OK && e == Event(kind, calls[i]) {
        assert i in AcceptedAt(enqueue, calls);
        var j :| 0 <= j < |at| && at[j] == i;
        assert events[j] == e;
      }
    }
  }

  /** The event is that of an object whose enqueue is accepted. */
  ghost predicate AcceptedEvent(kind: Kind, enqueue: (nat, Pointer) -> Status, gone: seq<Entry>, e: Event) {
    exists i :: 0 <= i < |gone| && enqueue(i, gone[i].data) == OK && e == Event(kind, gone[i].data)
  }

  /** Exactly the accepted objects get their event, each once, in the order in which they were taken out. */
  ghost predicate OneEventEach(kind: Kind, enqueue: (nat, Pointer) -> Status, gone: seq<Entry>, events: seq<Event>) {
    && (forall e :: e in events <==> AcceptedEvent(kind, enqueue, gone, e))
    && |events| == |set i: nat | i < |gone| && enqueue(i, gone[i].data) == OK|
    && Posts(kind, enqueue, DataOf(gone), events)
  }

  lemma AcceptedIn(kind: Kind, enqueue: (nat, Pointer) -> Status, gone: seq<Entry>, e: Event)
    ensures e in Enqueued(kind, enqueue, DataOf(gone)) <==> AcceptedEvent(kind, enqueue, gone, e)
  {
    var calls := DataOf(gone);
    EnqueuedPosts(kind, enqueue, calls);
    assert |calls| == |gone| && forall i :: 0 <= i < |gone| ==> calls[i] == gone[i].data;
    hide Enqueued, Posts, DataOf, AcceptedAt;
    if i :| 0 <= i < |calls| && enqueue(i, calls[i]) == OK && e == Event(kind, calls[i]) {
      assert enqueue(i, gone[i].data) == OK;
    }
    if i :| 0 <= i < |gone| && enqueue(i, gone[i].data) == OK && e == Event(kind, gone[i].data) {
      assert enqueue(i, calls[i]) == OK;
    }
  }

  lemma EnqueuedEach(kind: Kind, enqueue: (nat, Pointer) -> Status, gone: seq<Entry>)
    ensures OneEventEach(kind, enqueue, gone, Enqueued(kind, enqueue, DataOf(gone)))
  {
    var calls := DataOf(gone);
    EnqueuedPosts(kind, enqueue, calls);
    assert AcceptedAt(enqueue, calls) == set i: nat | i < |gone| && enqueue(i, gone[i].data) == OK;
    hide Enqueued, Posts, DataOf, AcceptedAt, AcceptedEvent;
    forall e ensures e in Enqueued(kind, enqueue, calls) <==> AcceptedEvent(kind, enqueue, gone, e) {
      AcceptedIn(kind, enqueue, gone, e);
    }
  }

  /** The same for each map. */
  ghost predicate EventsOf(enqueue: Kind -> (nat, Pointer) -> Status, gone: map<Kind, seq<Entry>>,
                           posted: map<Kind, seq<Event>>) {
    posted.Keys == gone.Keys
    && forall kind :: kind in gone ==> OneEventEach(kind, enqueue(kind), gone[kind], posted[kind])
  }

  lemma EventsAll(enqueue: Kind -> (nat, Pointer) -> Status, gone: map<Kind, seq<Entry>>, posted: map<Kind, seq<Event>>)
    requires EachKind(gone) && posted.Keys == gone.Keys
    requires OneEventEach(L.Inbox, enqueue(L.Inbox), gone[L.Inbox], posted[L.Inbox])
    requires OneEventEach(L.Subscription, enqueue(L.Subscription), gone[L.Subscription], posted[L.Subscription])
    requires OneEventEach(L.Timer, enqueue(L.Timer), gone[L.Timer], posted[L.Timer])
    ensures EventsOf(enqueue, gone, posted)
  {
    hide OneEventEach;
  }

  /** Every enqueue succeeds. */
  ghost predicate Accepts(enqueue: Kind -> (nat, Pointer) -> Status) {
    forall kind, i, x :: enqueue(kind)(i, x) == OK
  }

  function FirstOf(a: Status, b: Status): Status {
    if a == OK then b else a
  }

  // The status of destroyAllEvents: `gone` is what it takes out of each map, in that order

  /** The order of the maps. */
  ghost function Turn(kind: Kind): nat {
    match kind
    case Inbox => 0
    case Subscription => 1
    case Timer => 2
  }

  /** The enqueue of the i-th object of a kind is refused. */
  ghost predicate RefusedAt(enqueue: Kind -> (nat, Pointer) -> Status, gone: map<Kind, seq<Entry>>,
                            kind: Kind, i: int) {
    kind in gone && 0 <= i < |gone[kind]| && enqueue(kind)(i, gone[kind][i].data) != OK
  }

  /** The status is that of the first refused enqueue. */
  ghost predicate FirstRefused(enqueue: Kind -> (nat, Pointer) -> Status, gone: map<Kind, seq<Entry>>, ret: Status) {
    exists kind, i ::
      && RefusedAt(enqueue, gone, kind, i) && ret == enqueue(kind)(i, gone[kind][i].data)
      && forall k, j :: RefusedAt(enqueue, gone, k, j) ==> Turn(kind) < Turn(k) || (k == kind && i <= j)
  }

  ghost predicate NoneRefused(enqueue: Kind -> (nat, Pointer) -> Status, gone: map<Kind, seq<Entry>>) {
    forall kind, i :: !RefusedAt(enqueue, gone, kind, i)
  }

  ghost predicate EachKind(gone: map<Kind, seq<Entry>>) {
    gone.Keys == {L.Inbox, L.Subscription, L.Timer}
  }

  /** What removeAll reports for one map. */
  lemma MapRefusal(enqueue: Kind -> (nat, Pointer) -> Status, gone: map<Kind, seq<Entry>>, kind: Kind)
      returns (first: nat)
    requires kind in gone
    ensures var ret := FirstError(enqueue(kind), DataOf(gone[kind]));
      && (ret == OK ==> forall i :: !RefusedAt(enqueue, gone, kind, i))
      && (ret != OK ==> RefusedAt(enqueue, gone, kind, first) && ret == enqueue(kind)(first, gone[kind][first].data)
                        && forall j :: RefusedAt(enqueue, gone, kind, j) ==> first <= j)
  {
    var calls := DataOf(gone[kind]);
    FirstErrorFirst(enqueue(kind), calls);
    var ret := FirstError(enqueue(kind), calls);
    hide FirstError;
    first := 0;
    if ret != OK {
      first :| 0 <= first < |calls| && ret == enqueue(kind)(first, calls[first])
            && forall j :: 0 <= j < first ==> enqueue(kind)(j, calls[j]) == OK;
    }
    assert forall i :: 0 <= i < |calls| ==> calls[i] == gone[kind][i].data;
  }

  /** The maps are emptied in turn, and the first error is kept. */
  lemma FirstOfMaps(enqueue: Kind -> (nat, Pointer) -> Status, gone: map<Kind, seq<Entry>>)
    requires EachKind(gone)
    ensures var ret := FirstOf(FirstError(enqueue(L.Inbox), DataOf(gone[L.Inbox])),
                       FirstOf(FirstError(enqueue(L.Subscription), DataOf(gone[L.Subscription])),
                               FirstError(enqueue(L.Timer), DataOf(gone[L.Timer]))));
      && (ret == OK <==> NoneRefused(enqueue, gone)) && (ret != OK ==> FirstRefused(enqueue, gone, ret))
  {
    var a := MapRefusal(enqueue, gone, L.Inbox);
    var b := MapRefusal(enqueue, gone, L.Subscription);
    var c := MapRefusal(enqueue, gone, L.Timer);
    hide FirstError, DataOf, RefusedAt;
    forall kind, i ensures RefusedAt(enqueue, gone, kind, i) ==> kind in gone {
      assert kind in gone by { if kind.Inbox? {} else if kind.Subscription? {} else {} }
    }
  }

  lemma AcceptsAll(enqueue: Kind -> (nat, Pointer) -> Status, gone: map<Kind, seq<Entry>>)
    ensures Accepts(enqueue) ==> NoneRefused(enqueue, gone)
  {
  }

  // The same in terms of what the maps held before the call

  /** `gone` is what was in the maps. */
  ghost predicate TakenFrom(gone: map<Kind, seq<Entry>>, held: map<Kind, seq<Entry>>) {
    EachKind(gone) && EachKind(held) && forall kind :: kind in held ==> multiset(gone[kind]) == multiset(held[kind])
  }

  lemma AllTaken(gone: map<Kind, seq<Entry>>, held: map<Kind, seq<Entry>>)
    requires EachKind(gone) && EachKind(held) && multiset(gone[L.Inbox]) == multiset(held[L.Inbox])
    requires multiset(gone[L.Subscription]) == multiset(held[L.Subscription])
    requires multiset(gone[L.Timer]) == multiset(held[L.Timer])
    ensures TakenFrom(gone, held)
  {
  }

  ghost predicate AlwaysRefused(enqueue: (nat, Pointer) -> Status, x: Pointer) {
    forall i :: enqueue(i, x) != OK
  }

  /** Some object that was held is refused, whenever its turn comes. */
  ghost predicate Refuses(enqueue: Kind -> (nat, Pointer) -> Status, held: map<Kind, seq<Entry>>) {
    exists kind, x: Entry :: kind in held && x in held[kind] && AlwaysRefused(enqueue(kind), x.data)
  }

  /** Every object that was held is accepted, whenever its turn comes. */
  ghost predicate Takes(enqueue: Kind -> (nat, Pointer) -> Status, held: map<Kind, seq<Entry>>) {
    forall kind, x: Entry, i :: kind in held && x in held[kind] ==> enqueue(kind)(i, x.data) == OK
  }

  /** The status is the one with which the queue refused an object that was held. */
  ghost predicate Answer(enqueue: Kind -> (nat, Pointer) -> Status, held: map<Kind, seq<Entry>>, ret: Status) {
    ret != OK && exists kind, x: Entry, i :: kind in held && x in held[kind] && ret == enqueue(kind)(i, x.data)
  }

  ghost predicate Answers(enqueue: Kind -> (nat, Pointer) -> Status, held: map<Kind, seq<Entry>>, ret: Status) {
    && (ret != OK ==> Answer(enqueue, held, ret))
    && (Refuses(enqueue, held) ==> ret != OK) && (Takes(enqueue, held) ==> ret == OK)
  }

  lemma HeldAnswers(enqueue: Kind -> (nat, Pointer) -> Status, gone: map<Kind, seq<Entry>>,
                    held: map<Kind, seq<Entry>>, ret: Status)
    requires TakenFrom(gone, held)
    requires (ret == OK <==> NoneRefused(enqueue, gone)) && (ret != OK ==> FirstRefused(enqueue, gone, ret))
    ensures Answers(enqueue, held, ret)
  {
    forall kind, x: Entry | kind in held ensures x in held[kind] <==> x in gone[kind] {
      assert x in held[kind] <==> x in multiset(held[kind]);
      assert x in gone[kind] <==> x in multiset(gone[kind]);
    }
    if ret != OK {
      var kind, i :| RefusedAt(enqueue, gone, kind, i) && ret == enqueue(kind)(i, gone[kind][i].data);
      assert gone[kind][i] in held[kind];
    }
    if Refuses(enqueue, held) {
      var kind, x: Entry :| kind in held && x in held[kind] && AlwaysRefused(enqueue(kind), x.data);
      var i :| 0 <= i < |gone[kind]| && gone[kind][i] == x;
      assert enqueue(kind)(i, x.data) != OK;
      assert RefusedAt(enqueue, gone, kind, i);
    }
    if Takes(enqueue, held) {
      forall kind, i ensures !RefusedAt(enqueue, gone, kind, i) {
        if kind in gone && 0 <= i < |gone[kind]| {
          assert gone[kind][i] in held[kind];
        }
      }
    }
  }

  lemma AcceptsAnswers(enqueue: Kind -> (nat, Pointer) -> Status, held: map<Kind, seq<Entry>>, ret: Status)
    requires Answers(enqueue, held, ret)
    ensures Accepts(enqueue) ==> ret == OK
  {
    AcceptsTakes(enqueue, held);
  }

  lemma RefusesBad(enqueue: Kind -> (nat, Pointer) -> Status, held: map<Kind, seq<Entry>>, ret: Status)
    requires Answers(enqueue, held, ret)
    ensures Refuses(enqueue, held) ==> ret != OK
  {
  }

  lemma AcceptsTakes(enqueue: Kind -> (nat, Pointer) -> Status, held: map<Kind, seq<Entry>>)
    ensures Accepts(enqueue) ==> Takes(enqueue, held)
  {
  }
}
