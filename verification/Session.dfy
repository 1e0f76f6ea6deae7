/** A session, one call at a time: its three maps, the destroy events on its queue, and how many native
    objects are open on it. How calls interleave is the business of Lifecycle. */
module Session {
  import opened RedBlackShape
  import opened RedBlackTree
  import opened MapSpec
  import opened SynchronizedMap
  import opened Posting
  import L = Lifecycle

  lemma MinusSize(m: map<Pointer, Pointer>, key: Pointer)
    ensures |m - {key}| == if key in m then |m| - 1 else |m|
    ensures key !in m ==> m - {key} == m
  {
    assert (m - {key}).Keys == m.Keys - {key};
  }

  ghost function Size(m: SynchronizedMap): nat
    reads m, m.tree
  {
    |m.Abs().entries|
  }

  /** The counter bounds removeAll, so it must not fall short of the entries. */
  ghost predicate MapOk(m: SynchronizedMap)
    reads m, m.repr
  {
    m.Valid() && m.Abs().count >= Size(m)
  }

  method NewMap() returns (m: SynchronizedMap)
    ensures MapOk(m) && Size(m) == 0 && fresh(m.repr) && {m, m.tree} <= m.repr
  {
    m := new SynchronizedMap();
  }

  /** synchronizedMap_remove, with what it does to the number of entries. */
  method RemoveFrom(m: SynchronizedMap, key: Pointer) returns (ret: Status, data: Pointer)
    requires MapOk(m)
    modifies m.repr
    ensures MapOk(m) && m.repr == old(m.repr) && m.Abs().entries == old(m.Abs().entries) - {key}
    ensures Size(m) == old(Size(m)) - if key in old(m.Abs().entries) then 1 else 0
    ensures ret == if key in old(m.Abs().entries) then OK else INVALID_ARG
    ensures ret == OK ==> data == old(m.Abs().entries)[key]
  {
    hide MapOf, Tree.Valid, Tree.Order, SynchronizedMap.Valid, SynchronizedMap.Abs;
    MinusSize(m.Abs().entries, key);
    ret, data := m.Remove(key);
  }

  class Session {
    const inboxes: SynchronizedMap
    const subscriptions: SynchronizedMap
    const timers: SynchronizedMap
    var queue: seq<Event>
    var open: nat               // native objects open on the queue
    var closing: nat            // subscriptions whose onDestroy callback is still to come
    ghost var lost: nat         // objects whose destroy event could not be enqueued
    ghost var repr: set<object>

    ghost predicate Apart()
      reads this, inboxes, subscriptions, timers
    {
      && this !in repr && inboxes.repr <= repr && subscriptions.repr <= repr && timers.repr <= repr
      && {inboxes, inboxes.tree} <= inboxes.repr
      && {subscriptions, subscriptions.tree} <= subscriptions.repr
      && {timers, timers.tree} <= timers.repr
      && inboxes.repr !! subscriptions.repr && inboxes.repr !! timers.repr && subscriptions.repr !! timers.repr
    }

    /** An open object is in a map, has its destroy event pending, awaits its onDestroy, or is lost. */
    ghost predicate Valid()
      reads this, repr
    {
      && {inboxes, subscriptions, timers} <= repr && Apart() && MapOk(inboxes) && MapOk(subscriptions) && MapOk(timers)
      && open == Indexed() + |queue| + closing + lost
    }

    ghost function Indexed(): nat
      reads inboxes, inboxes.tree, subscriptions, subscriptions.tree, timers, timers.tree
    {
      Size(inboxes) + Size(subscriptions) + Size(timers)
    }

    /** What the maps hold, in key order. */
    ghost function Held(): map<Kind, seq<Entry>>
      reads inboxes.tree, subscriptions.tree, timers.tree
    {
      map[L.Inbox := inboxes.tree.Order(), L.Subscription := subscriptions.tree.Order(), L.Timer := timers.tree.Order()]
    }

    lemma HeldIs()
      ensures EachKind(Held()) && Held()[L.Inbox] == inboxes.tree.Order()
      ensures Held()[L.Subscription] == subscriptions.tree.Order() && Held()[L.Timer] == timers.tree.Order()
    {
    }

    /** Nothing is left in the maps. */
    ghost predicate Drained()
      reads this, repr
    {
      Valid() && Indexed() == 0
    }

    constructor ()
      ensures Valid() && fresh(repr) && this !in repr && queue == [] && open == 0 && closing == 0 && lost == 0
    {
      hide SynchronizedMap.Abs, SynchronizedMap.Valid, Tree.Valid, MapOk, Size;
      var a := NewMap();
      var b := NewMap();
      var c := NewMap();
      inboxes, subscriptions, timers := a, b, c;
      queue, open, closing, lost := [], 0, 0, 0;
      new;
      repr := inboxes.repr + subscriptions.repr + timers.repr;
    }

    /** The end of mamaEnv_createTimer: the native timer is open and goes into its map. Its handle is new. */
    method CreateTimer(data: Pointer, key: Pointer)
      requires Valid() && key !in timers.Abs().entries
      modifies this`open, this`repr, repr
      ensures Valid() && old(repr) <= repr && fresh(repr - old(repr)) && this !in repr
      ensures Indexed() == old(Indexed()) + 1 && open == old(open) + 1
      ensures timers.Abs().entries == old(timers.Abs().entries)[key := data]
      ensures inboxes.Abs() == old(inboxes.Abs()) && subscriptions.Abs() == old(subscriptions.Abs())
    {
      hide MapOf, Tree.Valid, Tree.Order, SynchronizedMap.Valid, SynchronizedMap.Abs;
      var ret := timers.Insert(data, key);
      open := open + 1;
      repr := repr + timers.repr;
    }

    /** mamaEnv_destroyTimer. `enqueued` is the status of enqueueing the destroy event, if it comes to that. */
    method DestroyTimer(key: Pointer, enqueued: Status) returns (ret: Status)
      requires Valid()
      modifies this`queue, this`lost, repr
      ensures Valid() && timers.Abs().entries == old(timers.Abs().entries) - {key}
      ensures key !in old(timers.Abs().entries) ==> ret == OK && queue == old(queue) && lost == old(lost)
      ensures key in old(timers.Abs().entries) ==> ret == enqueued
      ensures key in old(timers.Abs().entries) && enqueued == OK ==>
        queue == old(queue) + [Event(L.Timer, old(timers.Abs().entries[key]))] && lost == old(lost)
      ensures key in old(timers.Abs().entries) && enqueued != OK ==> queue == old(queue) && lost == old(lost) + 1
      ensures inboxes.Abs() == old(inboxes.Abs()) && subscriptions.Abs() == old(subscriptions.Abs())
    {
      hide MapOf, Tree.Valid, Tree.Order, SynchronizedMap.Valid, SynchronizedMap.Abs, MapOk, Size;
      var data;
      ret, data := RemoveFrom(timers, key);
      if ret == INVALID_ARG {
        ret := OK;
      } else {
        ret := enqueued;
        if enqueued == OK {
          queue := queue + [Event(L.Timer, data)];
        } else {
          lost := lost + 1;
        }
      }
    }

    /** The dispatcher takes the oldest destroy event. A subscription stays open until its onDestroy. */
    method Dispatch()
      requires Valid() && queue != []
      modifies this`queue, this`open, this`closing
      ensures Valid() && queue == old(queue[1..])
      ensures closing == old(closing) + if old(queue[0].kind).Subscription? then 1 else 0
    {
      hide MapOk, Tree.Valid, SynchronizedMap.Valid, SynchronizedMap.Abs, MapOf, Tree.Order;
      if queue[0].kind.Subscription? {
        closing := closing + 1;
      } else {
        open := open - 1;
      }
      queue := queue[1..];
    }

    /** The dispatcher runs a subscription's onDestroy callback. */
    method OnDestroy()
      requires Valid() && closing > 0
      modifies this`open, this`closing
      ensures Valid() && closing == old(closing) - 1 && open == old(open) - 1
    {
      hide MapOk, Tree.Valid, SynchronizedMap.Valid, SynchronizedMap.Abs, MapOf, Tree.Order;
      closing, open := closing - 1, open - 1;
    }

    /** mamaEnvSession_canDestroy. */
    method CanDestroy() returns (ret: Status)
      ensures ret == if open == 0 then OK else QUEUE_OPEN_OBJECTS
    {
      ret := if open == 0 then OK else QUEUE_OPEN_OBJECTS;
    }

    /** One map of destroyAllEvents: removeAll with the callback that enqueues a destroy event per object. */
    method DestroyAll(kind: Kind, m: SynchronizedMap, enqueue: (nat, Pointer) -> Status)
        returns (ret: Status, ghost gone: seq<Entry>, ghost posted: seq<Event>)
      requires MapOk(m) && this !in m.repr
      modifies this`queue, m.repr
      ensures MapOk(m) && m.repr == old(m.repr) && Size(m) == 0
      ensures multiset(gone) == multiset(old(m.tree.Order()))
      ensures queue == old(queue) + posted
      ensures OneEventEach(kind, enqueue, gone, posted)
      ensures |posted| <= old(Size(m)) && (ret == OK <==> |posted| == old(Size(m)))
      ensures ret == OK ==> posted == Events(kind, DataOf(gone))
      ensures ret == FirstError(enqueue, DataOf(gone))
    {
      hide MapOf, Tree.Valid, Tree.Order, FirstError, Enqueued, DataOf, OneEventEach;
      var calls;
      ret, calls, gone := m.RemoveAll(Some(enqueue));
      posted := Enqueued(kind, enqueue, calls);
      queue := queue + Enqueued(kind, enqueue, calls);
      AllEnqueued(kind, enqueue, calls);
      EnqueuedEach(kind, enqueue, gone);
      DataOfPrefix(gone, |gone|);
    }

    /** The three maps, emptied in turn. */
    method DestroyMaps(enqueue: Kind -> (nat, Pointer) -> Status)
        returns (ret: Status, ghost gone: map<Kind, seq<Entry>>, ghost posted: map<Kind, seq<Event>>)
      requires Valid()
      modifies this`queue, repr
      ensures Apart() && MapOk(inboxes) && MapOk(subscriptions) && MapOk(timers) && Indexed() == 0
      ensures EachKind(gone) && posted.Keys == gone.Keys
      ensures multiset(gone[L.Inbox]) == multiset(old(inboxes.tree.Order()))
      ensures multiset(gone[L.Subscription]) == multiset(old(subscriptions.tree.Order()))
      ensures multiset(gone[L.Timer]) == multiset(old(timers.tree.Order()))
      ensures queue == old(queue) + posted[L.Inbox] + posted[L.Subscription] + posted[L.Timer]
      ensures forall kind :: kind in gone ==> OneEventEach(kind, enqueue(kind), gone[kind], posted[kind])
      ensures ret == FirstOf(FirstError(enqueue(L.Inbox), DataOf(gone[L.Inbox])),
                     FirstOf(FirstError(enqueue(L.Subscription), DataOf(gone[L.Subscription])),
                             FirstError(enqueue(L.Timer), DataOf(gone[L.Timer]))))
      ensures |queue| - |old(queue)| <= old(Indexed()) && (ret == OK <==> |queue| - |old(queue)| == old(Indexed()))
      ensures ret == OK ==> forall kind :: kind in gone ==> posted[kind] == Events(kind, DataOf(gone[kind]))
    {
      hide MapOf, Tree.Valid, Tree.Order, FirstError, DataOf, Events, SynchronizedMap.Valid,
        SynchronizedMap.Abs, MapOk, Size, OneEventEach;
      ret := OK;
      var ra;
      ghost var a, b, c, d, e, f;
      ra, a, d := DestroyAll(L.Inbox, inboxes, enqueue(L.Inbox));
      ret := FirstOf(ret, ra);
      ra, b, e := DestroyAll(L.Subscription, subscriptions, enqueue(L.Subscription));
      ret := FirstOf(ret, ra);
      ra, c, f := DestroyAll(L.Timer, timers, enqueue(L.Timer));
      ret := FirstOf(ret, ra);
      gone := map[L.Inbox := a, L.Subscription := b, L.Timer := c];
      posted := map[L.Inbox := d, L.Subscription := e, L.Timer := f];
    }

    /** mamaEnvSession_destroyAllEvents. `enqueue(k, i, x)` is the status of enqueueing the destroy event
        of object `x`, the i-th of its kind to be taken out. All maps end up empty, and the queue gets one
        event per object whose enqueue succeeds, whatever became of those before it. */
    method DestroyAllEvents(enqueue: Kind -> (nat, Pointer) -> Status)
        returns (ret: Status, ghost gone: map<Kind, seq<Entry>>, ghost posted: map<Kind, seq<Event>>)
      requires Valid()
      modifies this, repr
      ensures Valid() && Drained() && repr == old(repr) && open == old(open) && closing == old(closing)
      ensures TakenFrom(gone, old(Held())) && EventsOf(enqueue, gone, posted)
      ensures queue == old(queue) + posted[L.Inbox] + posted[L.Subscription] + posted[L.Timer]
      // the first error is returned, exactly if some object lost its event
      ensures ret == OK <==> NoneRefused(enqueue, gone)
      ensures ret != OK ==> FirstRefused(enqueue, gone, ret)
      ensures ret == OK <==> lost == old(lost)
      ensures Accepts(enqueue) ==> ret == OK
      ensures ret == OK ==> queue == old(queue) + Events(L.Inbox, DataOf(gone[L.Inbox]))
                                  + Events(L.Subscription, DataOf(gone[L.Subscription]))
                                  + Events(L.Timer, DataOf(gone[L.Timer]))
    {
      hide MapOf, Tree.Valid, Tree.Order, FirstError, FirstOf, DataOf, Events, Accepts, SynchronizedMap.Valid,
        SynchronizedMap.Abs, MapOk, Size, OneEventEach, EventsOf, NoneRefused, FirstRefused, Held, TakenFrom, Indexed;
      ghost var held := Held();
      HeldIs();
      ret, gone, posted := DestroyMaps(enqueue);
      AllTaken(gone, held);
      EventsAll(enqueue, gone, posted);
      FirstOfMaps(enqueue, gone);
      AcceptsAll(enqueue, gone);
      lost := open - |queue| - closing;
    }
  }
}
