# The managed environment for OpenMAMA: a verified model

The library lets any thread shut down or destroy timers, inboxes and subscriptions while a session's
dispatcher thread runs their callbacks. This project models the parts that make that safe and proves what
they promise:

- **The key index.** `mama/systree.h`'s linked red-black tree, with its in-place rotations, parent links,
  iterative colour repair, and removal that splices in the successor by copying a link record
  (`RedBlackShape`, `RedBlackLinks`, `RedBlackColour`, `RedBlackOrder`, `RedBlackTree`); and the
  synchronized map on top of it, tied to a plain map (`SynchronizedMap`, `MapSpec`).
- **The splay tree** of the same header, which splays from the top down and assembles the tree again
  around the entry nearest to the key (`SplayShape`, `SplayTree`). The library does not instantiate it.
- **The life of an event object.** A step system over every interleaving of client threads that create,
  shut down and destroy objects, of the thread that destroys the session, and of the dispatcher
  (`Lifecycle`). `LifecycleInvariant`, `LifecycleClients` and `LifecycleDispatcher` show that every step
  keeps one invariant; `LifecycleSafety` and `LifecycleProgress` say what follows for whole runs, and
  `LifecycleRest` that runs come to an end and in what state.
  `LifecycleCounter` is about the maps' counters, which removes decrement outside their lock.
  `LifecycleCalls` follows whole calls from their first step to their return; `LifecycleReach`,
  `LifecycleOutcomes` and `LifecycleLimits` say what can still come of an object, and exactly when less holds
  than one may expect.
- **Sessions and connections.** Draining a session into its queue (`Posting`, `Session`), moving sessions
  between the connection's lists, draining those and freeing the sessions (`Connection`), the books of all
  sessions over interleaved runs (`SessionLedger`), and the synchronization event with the handshake built on
  it (`EnvEvent`, `SessionHandshake`).

## How the model is built

The tree is a class over heap objects. Its entries hold `left`, `right`, `parent` and `color`, which the
methods rewrite in place. A ghost `Shape` names the tree the links spell out, a ghost `Path` the way from
the root to the spot under repair, and `Valid` says that links, shape, colours and key order agree.

The life cycle is a relation between states. A step is one lock or queue operation, or the field accesses
between two of them. Who holds a lock, what is in a map, what is pending, what is freed are all part of the
state; the fields `stage`, `given` and `maker` are history that no step reads. The invariant is a relation
between one thread and one object, one between the dispatcher and one object, and a few facts about single
objects, threads, maps and the queue.

A `Connection` keeps a ghost log of its books. `Valid` says that the log is a run of `SessionLedger`, so what
is proved there about interleaved runs holds of what the methods do.

What the environment is taken to do:

- A lock is a mutex. A session's queue is first in, first out, and one dispatcher thread serves it.
- After the native destroy of an object no further native event for it is delivered, but a subscription's
  onDestroy callback is. Before that it may give notice of messages, errors and its creation in any order and
  any number of times.
- `mamaQueue_canDestroy` is OK exactly when no native object is open on the queue; a subscription is open
  until its onDestroy callback runs.
- `mamaDispatcher_destroy` returns when the dispatcher has finished the event it was in.
- User callbacks return and do not call back into the session. Allocation succeeds. Addresses are not
  reused. A queue may refuse a destroy event.
- A handle is used only after the create call has returned it. A session is destroyed once, when no create
  call on it is under way; its maps are freed when no caller is inside them.
- Walking a list survives the removal of the current element. While the last loop sleeps, the sessions'
  dispatchers do at least one pending event if there is one.

Where the code does less than it may seem to, the model does what the code does:

- An insert of a present key keeps the old data, counts all the same and reports OK, so the counter is the
  number of entries plus the repeated inserts (`MapSpec.CounterOffByRepeats`).
- A remove decrements the counter after it has released the lock, so its store can overwrite the count of
  another call, and removeAll, which trusts the counter, then leaves objects behind for good
  (`LifecycleLimits.LostCountStrands`). `LifecycleCounter.TakesAllIff` says when it does not.
- removeAll ends with an assertion that the counter is 0, which it reads without the lock. A remove under way
  can make it fail (`LifecycleLimits.FinalCheckFails`); `LifecycleCounter.FinalCheckIff` says exactly when.
- An object whose destroy event is refused is never destroyed, and its session never stops
  (`LifecycleSafety.StrandedForGood`).
- A destroy call that does not find its key returns OK at once, possibly before the user callback has ended
  or even begun (`LifecycleLimits.LateDestroyReturnsDuringCallback`); `MissedLimit` says when.
- A shutdown clears tick and message callbacks only (`LifecycleLimits.ErrorCallbackAfterShutdown`);
  `LifecycleOutcomes.FoundLimit` says what can still run.
- The event's wait is not in a loop, so a spurious wake-up can break the session handshake
  (`SessionHandshake.SpuriousWakeUpBreaksIt`). createSession can then return too early exactly if the event's
  mutex is free at that moment, and with a status that nobody wrote exactly if it is not written yet.
- A pass over a list returns the status of its last callback only, so errors before it are lost. The last loop
  overwrites that status with the one of its wait, so only a bad wait ends it with sessions left; it sets the
  event then too, and the connection is freed without them (`Connection.LeavesSession`). With every wait OK it
  does not end at all if a session lost a destroy event, and such a session does get there
  (`Connection.StuckSession`).

## Model

| member | source | states |
|---|---|---|
| `RedBlackTree.Tree.RotateLeft` | mama/systree.h:343-361 | the six link updates give exactly the left-turned link records, the root follows, and one rotation is counted |
| `RedBlackTree.Tree.RotateRight` | mama/systree.h:363-381 | the mirror image |
| `RedBlackLinks.TurnedLeftSits` | mama/systree.h:343-361 | after a left turn the links spell out the turned subtree at the same spot, whatever surrounds it |
| `RedBlackTree.Tree.RaiseLeft` | mama/systree.h:412-430 | one round of the insertion repair: the grandparent exists, the red pair moves up or ends, the order stays, and a rotation ends the loop |
| `RedBlackTree.Tree.InsertColor` | mama/systree.h:408-450 | from one red-red pair to a balanced tree with the same in-order sequence, in at most two rotations |
| `RedBlackTree.Tree.Insert` | mama/systree.h:595-624 | a new key goes to its sorted place in a valid tree; a present key gives back its entry and changes nothing; an entry already in the tree is what comes back; descents stay within the height; at most two rotations |
| `RedBlackColour.CloseLeftFits` | mama/systree.h:472-488 | the black-sibling cases of removal: which recolouring and rotations end the deficit, for every colouring of the nephews |
| `RedBlackTree.Tree.MendLeft` | mama/systree.h:458-489 | one round of the removal repair, entry NULL or not: the deficit ends, or moves up; a red sibling is turned first, which pushes the parent down but leaves it red |
| `RedBlackTree.Tree.RemoveColor` | mama/systree.h:452-526 | from one subtree short by one black, possibly empty, to a balanced tree with the same sequence; it terminates, in at most three rotations |
| `RedBlackLinks.StoodInSits` | mama/systree.h:557-568 | an entry that takes over another's link record and the links that led to it stands in its place, and nothing else changes |
| `RedBlackTree.Tree.Splice` | mama/systree.h:537-575 | removal of an entry with two children: its successor is cut out and put in its place, the sequence loses just the entry, and what is left to repair is named |
| `RedBlackTree.Tree.Remove` | mama/systree.h:528-593 | any entry of any valid tree: the tree stays valid, the in-order sequence loses exactly that entry, which is returned; at most three rotations |
| `RedBlackTree.Tree.Find` | mama/systree.h:626-642 | the entry with the key, or NULL exactly when there is none |
| `RedBlackTree.Tree.NFind` | mama/systree.h:644-663 | the least entry at or above the key, or NULL exactly when all are below |
| `RedBlackTree.Tree.MinMax` | mama/systree.h:709-722 | the first or the last entry in order, or NULL for the empty tree |
| `RedBlackTree.Tree.Next` | mama/systree.h:665-685 | by parent links: the entry after this one in order, or NULL at the end |
| `RedBlackTree.Tree.Prev` | mama/systree.h:687-707 | the entry before it, so it undoes Next |
| `RedBlackTree.Tree.LinksAgree` | mama/systree.h:50-58 | in every valid tree child and parent links agree, the root is black and red entries have black children |
| `RedBlackColour.HeightBound` | mama/systree.h:50-58 | a balanced tree of n entries and height h has 2^h <= (n+1)^2 |
| `RedBlackTree.Tree.SearchBound` | mama/systree.h:50-58 | a search of a valid tree that looks at v entries has 2^v <= (n+1)^2 |
| `SplayShape.LinkLeftSplits` | mama/systree.h:97-101 | one pointer store and two moves put the root and its right subtree at the open end of the right tree; the three parts stay apart |
| `SplayShape.AssembleSpells` | mama/systree.h:109-114 | the four stores at the end turn the three parts into one tree, also when the left or the right one is empty |
| `SplayTree.SplayTree.GoLeft` | mama/systree.h:216-225 | one round of the loop: the order stays, the right tree holds larger keys only, and either the search stops or the part left to search shrinks |
| `SplayTree.SplayTree.Splay` | mama/systree.h:206-239 | on any non-empty search tree it ends, conserves the in-order sequence, and the root is nearest to the key |
| `SplayTree.SplayTree.NearestKey` | mama/systree.h:157-159 | nearest means: the key itself if it is in the tree, else its immediate predecessor or successor |
| `SplayTree.SplayTree.Find` | mama/systree.h:125-134 | the entry with the key, or NULL exactly when there is none |
| `SplayTree.SplayTree.Insert` | mama/systree.h:161-183 | a new key goes to its sorted place and nothing else changes; a present one gives back its entry, which is the argument itself if that is in the tree |
| `SplayTree.SplayTree.Remove` | mama/systree.h:185-204 | exactly the entry with the key goes, and the argument is returned; NULL and no change when there is none |
| `SplayTree.SplayTree.MinMax` | mama/systree.h:244-275 | the first or the last entry comes to the root, the order stays |
| `SplayTree.SplayTree.Next` | mama/systree.h:136-148 | the entry after this one in order, or NULL at the end |
| `SynchronizedMap.SynchronizedMap.Insert` | src/mamaSynchronizedMap.c:121-150 | does to the map and counter what the plain insert does, and always returns OK |
| `SynchronizedMap.SynchronizedMap.TakeOut` | src/mamaSynchronizedMap.c:162-193 | the critical section of a remove: exactly the key goes, and the counter is not touched |
| `SynchronizedMap.SynchronizedMap.Remove` | src/mamaSynchronizedMap.c:152-193 | undisturbed, removes a present key, hands out its data and then counts down; an absent one changes nothing and gives INVALID_ARG |
| `SynchronizedMap.SynchronizedMap.For` | src/mamaSynchronizedMap.c:195-217 | calls back once, on the key's data, and returns that status; NOT_FOUND or NULL_ARG otherwise, with no call |
| `SynchronizedMap.SynchronizedMap.ForEach` | src/mamaSynchronizedMap.c:88-119 | calls back on the data in ascending key order, all of it or up to the first error when errors are not ignored, and returns the first error |
| `SynchronizedMap.TearDown` | src/mamaSynchronizedMap.c:249-277 | takes out as many entries as the counter says or there are, one call each, and returns the first error |
| `SynchronizedMap.FirstErrorFirst` | src/mamaSynchronizedMap.c:249-277 | the status of such a walk is OK exactly if every call's is, and otherwise that of the first call whose status is not |
| `SynchronizedMap.SynchronizedMap.RemoveAll` | src/mamaSynchronizedMap.c:220-285 | the map ends up empty; given counter >= size, exactly one call per entry; the first error is returned |
| `MapSpec.CounterOffByRepeats` | src/mamaSynchronizedMap.c:137-143 | over any run of operations the counter is the number of entries plus the inserts of present keys, so equal exactly when there were none |
| `MapSpec.FirstInsertWins` | src/mamaSynchronizedMap.c:121-193 | over any run the map holds d under a key exactly when the first insert since the key was last cleared carried d |
| `LifecycleInvariant.AdvanceInv` | src/mamaEnvSession.c:440-495 | every step of a create, shutdown or destroy call keeps the invariant |
| `LifecycleClients.RefuseInv` | src/mamaEnvSession.c:440-495 | so does a refused destroy event, after which nobody has the object |
| `LifecycleClients.AllTakeInv` | src/mamaSynchronizedMap.c:226-277 | so does emptying a whole map under its lock, of which as many objects are taken as the counter said, with calls on its objects under way |
| `LifecycleDispatcher.NextInv` | src/mamaEnvSession.c:215-244 | so does every step of the system |
| `LifecycleSafety.NoUseAfterFree` | src/mamaEnvTimer.c:86-130 | in every reachable state no thread holds, waits for or reads anything of a freed object, and no pending event refers to one; an object in its map is alive with no destroy pending |
| `LifecycleSafety.OnceEach` | src/mamaEnvSession.c:479-495 | over every run an object gets at most one destroy event and at most one free, the free after the event |
| `LifecycleSafety.RunOnward` | src/mamaEnvSession.c:440-495 | an object only moves forward, and a cleared callback stays cleared |
| `LifecycleSafety.SilentAfterDestroy` | src/mamaEnvSession.c:440-495 | once the call that removed an object has cleared it, no user callback on it is running or ever starts |
| `LifecycleSafety.QuietAfterReturn` | src/mamaEnvSession.c:479-495 | the call that removed an object enqueues its one destroy event, and after it returned no user callback on the object runs |
| `LifecycleSafety.SilentAfterShutdown` | src/mamaEnvTimer.c:134-141 | once a shutdown has cleared its object no tick or message callback is running or ever starts; that every shutdown that finds its object gets there is `LifecycleCalls.ShutdownCall` |
| `LifecycleSafety.FirstInFirstOut` | src/mamaEnvSession.c:479-495 | over every run the destroy events are taken up in the order in which they were enqueued |
| `LifecycleSafety.FreedByOnDestroy` | src/mamaEnvSubscription.c:194-207 | a subscription is freed only after its onDestroy callback |
| `LifecycleSafety.MapsGoUnused` | src/mamaEnvConnection.c:377-410 | when a session's maps have gone, for which all callers in them had to leave, none gets into one later |
| `LifecycleCalls.ShutdownCall` | src/mamaManagedEnvironment.c:86-108 | a whole shutdown, in every interleaving and for every kind: if its look into the map finds the object, it has cleared the tick or message callbacks when it returns and nothing else of the object, and no such callback runs from then on; if not, it returns at once |
| `LifecycleCalls.DestroyCall` | src/mamaEnvSession.c:215-244 | a whole destroy call: if its look into the map finds the object, all callbacks and the closure are gone when it returns, and its destroy event was enqueued in the call's last step, or refused there for good; if not, it returns at once |
| `LifecycleCalls.CreateCall` | src/mamaEnvTimer.c:5-45 | a whole create call: when it returns the object is in its map, with every callback and the closure it was given |
| `LifecycleCalls.DestroySessionCall` | src/mamaEnvConnection.c:168-197 | a whole destroySession call: when it returns no object is in a map or in the caller's hands, and the session is on the list of destroyed ones exactly if no destroy event was refused |
| `LifecycleSafety.CreationClosure` | src/mamaEnvTimer.c:116-121 | whichever user callback runs is passed the closure given at creation; that they do run is `LifecycleOutcomes.CreatedCallbacks` |
| `LifecycleSafety.HandOff` | src/mamaEnvTimer.c:110-130 | while a destroyer holds m_destroyLock and waits for m_lock at most one tick callback starts, none if one was running |
| `LifecycleSafety.StrandedForGood` | src/mamaEnvConnection.c:377-410 | an object that was never posted gets no destroy event later, stays open and allocated, and its session's tear-down never begins |
| `LifecycleSafety.NothingDropped` | src/mamaEnvConnection.c:377-410 | once the dispatcher is being destroyed nothing is pending; when queue and maps go every object ever made had one destroy event and one free |
| `LifecycleProgress.NoCircularWait` | src/mamaEnvTimer.c:95-128 | no reachable state has a circle of threads waiting for each other's locks |
| `LifecycleProgress.HolderAbove` | src/mamaEnvSession.c:482-491 | whoever holds a wanted lock asks only for a lock of higher rank: map lock, m_destroyLock, m_lock |
| `LifecycleProgress.NeverStuck` | src/mamaEnvSession.c:304 | while any call, event or destruction is outstanding some step of it can be taken |
| `LifecycleRest.SettlingEnds` | src/mamaEnvSession.c:375-399 | however steps interleave, once no call, session destruction or native event is started any more, every call, event and tear-down is over within a number of steps that the state gives |
| `LifecycleRest.ComesToRest` | src/mamaEnvSession.c:375-399 | every run can be brought to a state in which no such step is left |
| `LifecycleRest.RestIsGone` | src/mamaEnvConnection.c:377-410 | there every object of a session being destroyed is freed or stranded, and the session is gone exactly if none is stranded |
| `LifecycleCounter.CounterExact` | src/mamaSynchronizedMap.c:137-180 | in every run, until removeAll comes to a map, the counter is the entries less the insert under way plus the removes under way plus what stale stores added or lost |
| `LifecycleCounter.TakesAllIff` | src/mamaSynchronizedMap.c:226-277 | removeAll takes every entry of a map exactly if there is none or the removes under way make up for what stale stores have lost |
| `LifecycleCounter.PromptTakesAll` | src/mamaSynchronizedMap.c:226-277 | so it takes everything if no store into the counter was stale |
| `LifecycleCounter.FinalCheckIff` | src/mamaSynchronizedMap.c:240-282 | at any time after removeAll reset it the counter is 0 exactly if what stale stores added since is the number of removes then under way that have counted down since |
| `LifecycleCounter.PromptFinalCheck` | src/mamaSynchronizedMap.c:240-282 | so with no stale store the final assertion fails exactly if a remove under way at the reset has counted down since |
| `LifecycleReach.Bring` | src/mamaEnvTimer.c:95-128 | from every state of any number of threads in which nothing rules a callback of a kind out, it can be brought about, while every thread that holds no object's locks stays where it is |
| `LifecycleLimits.ShutdownLimit` | src/mamaEnvInbox.c:134-141 | after a shutdown that found the object an error callback, or a creation callback, can still run exactly if it is set, and a tick or message callback never |
| `LifecycleOutcomes.CreatedCallbacks` | src/mamaEnvTimer.c:5-45 | from every moment after its creation at which no shutdown or destroy call has got to an object, of any kind, a tick or message callback can be brought about, an error callback or a creation callback exactly if one was given, each with the closure given and no other |
| `LifecycleOutcomes.FoundLimit` | src/mamaEnvSubscription.c:281-289 | after a shutdown that is about to find its object, exactly the error and creation callbacks that are set now can still run |
| `LifecycleOutcomes.DestroyEnds` | src/mamaEnvSession.c:440-495 | a destroy call that finds its object can always be brought to its end, with the event taken and with the event refused |
| `LifecycleLimits.NewMade` | src/mamaEnvTimer.c:5-45 | a create call of every kind, with any closure and callbacks, can be run to its end while the lock of its map is free |
| `LifecycleLimits.MissedLimit` | src/mamaEnvSession.c:228-230 | after a destroy call that found nothing a callback can still run exactly if it is set, unless the object's destroyer has m_lock or a tick waits behind it for m_destroyLock |
| `LifecycleLimits.LateDestroyReturnsDuringCallback` | src/mamaEnvSession.c:228-230 | a reachable state in which a destroy call is about to return and a callback follows |
| `LifecycleLimits.ErrorCallbackAfterShutdown` | src/mamaEnvInbox.c:134-141 | a reachable state in which a shutdown is about to return and a callback follows |
| `LifecycleLimits.LostCountStrands` | src/mamaSynchronizedMap.c:164-180 | a reachable state with an object in the map and a counter of 0, from which destroyAllEvents leaves the object |
| `LifecycleLimits.FinalCheckFails` | src/mamaSynchronizedMap.c:282 | a reachable state in which removeAll is done with the inboxes and their counter is -1 |
| `EnvEvent.NoLostWakeUp` | src/mamaEnvEvent.c:234-264 | in every interleaving of set, reset and wait no thread is in the wait set while m_state is 1 |
| `EnvEvent.WaitSeesSet` | src/mamaEnvEvent.c:314-347 | a wait that ends saw m_state 1 at some moment of that very call |
| `EnvEvent.WaitAfterReset` | src/mamaEnvEvent.c:206-232 | a wait that begins after a reset has returned does not end, or get woken, while nobody sets the event |
| `EnvEvent.WaitAfterSet` | src/mamaEnvEvent.c:234-264 | a wait that begins after a set has returned does not sleep while nobody resets the event |
| `EnvEvent.NeverStuck` | src/mamaEnvEvent.c:206-347 | threads inside calls are only ever stuck all asleep on a reset event |
| `SessionHandshake.ReadsWhatWasWritten` | src/mamaEnvConnection.c:79-101 | createSession reads m_status only after it was written, returns what session creation returned, and destroys the event only when the other thread is done with it; also with harmless spurious wake-ups |
| `SessionHandshake.ShakeNeverStuck` | src/mamaEnvConnection.c:356-373 | until createSession has its answer a step can be taken |
| `SessionHandshake.SpuriousWakeUpBreaksIff` | src/mamaEnvEvent.c:327-335 | from every state of the handshake a spurious wake-up lets createSession return, and destroy the event, before the dispatcher is done with it exactly if the event's mutex is free |
| `SessionHandshake.UnwrittenIff` | src/mamaEnvConnection.c:93-98 | it lets createSession return a status that was never written exactly if onSessionCreate has not stored it when the wake-up comes |
| `SessionHandshake.SpuriousWakeUpBreaksIt` | src/mamaEnvEvent.c:327-335 | a run of that kind: createSession returns OK for a session not created yet |
| `Session.Session.DestroyAllEvents` | src/mamaEnvSession.c:375-399 | all three maps end up empty; for each kind an object taken out has its event enqueued exactly if the queue accepts it, whatever became of those before it, in the order in which they were taken out; the result is OK exactly if no object lost its event, and otherwise the first refusal in the order inboxes, subscriptions, timers |
| `Posting.EnqueuedPosts` | src/mamaSynchronizedMap.c:249-277 | for every way a queue can answer: an event is posted exactly if it is that of an accepted call, there are as many as accepted calls, and they are in the order of the calls |
| `Posting.AllEnqueued` | src/mamaEnvSession.c:440-495 | every object gets its event exactly when no enqueue fails |
| `Session.Session.DestroyTimer` | src/mamaEnvSession.c:215-244 | a present handle leaves its map and its event is enqueued, or lost if the queue refuses it, which is the status; an absent one is OK and changes nothing; the other maps stay as they are |
| `Connection.Connection.CreateSession` | src/mamaEnvConnection.c:66-122 | a session that was created joins the list, with memory of its own; otherwise nothing changes |
| `Connection.Connection.DestroyTimer` | src/mamaEnvSession.c:215-244 | the same within a connection, whose other sessions are left alone; a refused event is counted as lost |
| `Connection.Connection.DestroySession` | src/mamaEnvConnection.c:168-197 | the session moves from the open to the destroyed list with its maps drained, or out of both on an error, which is the status with which the queue refused an object it held, the first one in the order inboxes, subscriptions, timers; OK exactly if no object lost its event |
| `Connection.Connection.OnSessionDestroyListEnumerate` | src/mamaEnvConnection.c:377-410 | reads a session that is allocated; an open one stays; a closed one leaves the list and is freed, or is given up on when destroying it fails |
| `SessionLedger.SweptNext` | src/mamaEnvConnection.c:377-410 | a session of the list is handled as one ledger step, wherever the pass has got to |
| `Connection.Connection.EnumerateDestroyed` | src/mamaEnvConnection.c:287-300 | one pass takes exactly the closed sessions out of the list, keeping the order of the others, frees exactly those whose destruction is OK, and returns the status of destroying the last session of the list if that one is closed, else OK |
| `Connection.Connection.EnumerateSessions` | src/mamaEnvConnection.c:414-429 | every open session leaves the list, for the destroyed ones exactly if its queue took every event; the status is what the last session's queue said of what it held, so OK exactly if that one is on the other list |
| `Connection.Connection.OnSessionTimerTick` | src/mamaEnvConnection.c:434-451 | the same for the timer's tick, with everything the connection keeps |
| `Connection.AfterTick` | src/mamaEnvConnection.c:331-347 | a pass leaves every session that lost a destroy event, and otherwise only sessions whose dispatchers still have something to do |
| `Connection.Connection.Pass` | src/mamaEnvConnection.c:331-347 | one pass of that loop: it empties the list exactly if every session is closed, which one that lost a destroy event never is; each session that leaves is freed, or given up on if destroying it fails; nobody's work grows |
| `Connection.Connection.OnDestroyAllSessions` | src/mamaEnvConnection.c:320-352 | the loop ends if no event was lost or some wait goes wrong; it waits exactly if not every session is closed at first; sessions are left exactly if the last wait went wrong; every other one is freed, or given up on exactly if destroying it fails; the event is set |
| `Connection.Connection.DeallocateConnection` | src/mamaEnvConnection.c:229-283 | the first error is returned; sessions are abandoned exactly after a bad wait; if all are freed no session's memory is left |
| `Connection.Connection.AwaitAndDeallocate` | src/mamaEnvConnection.c:144-156 | the same once the last event is posted, for sessions on the list of destroyed ones |
| `Connection.Connection.DestroyConnection` | src/mamaEnvConnection.c:126-164 | the first error is returned, and the connection is freed exactly if every status up to the wait for the event is OK; emptying the list of sessions reports what the last one's queue said of the objects it held, so a refusal there is returned and the connection stays; with no enqueue refused, the freed connection has freed each session ever created, once, exactly if the last wait is OK and no session fails to be destroyed; with failing waits a session with an open object is left behind |
| `Connection.LeavesSession` | src/mamaEnvConnection.c:331-347 | for every bad status of the wait: a connection freed without its one session |
| `Connection.StuckSession` | src/mamaEnvConnection.c:331-347 | for every status with which a queue refuses a timer's event: a connection whose destroyed session never closes |
| `SessionLedger.NextInv` | src/mamaEnvConnection.c:201-410 | every step of overlapping create, destroy and sweep calls keeps the books |
| `SessionLedger.RunForward` | src/mamaEnvConnection.c:168-197 | no session moves backwards |
| `SessionLedger.EverySessionOnce` | src/mamaEnvConnection.c:126-197 | over any interleaving every created session is in exactly one place once, so freed at most once |
| `SessionLedger.Retirement` | src/mamaEnvConnection.c:331-352 | when the connection is gone each session was freed, given up on or abandoned; some are abandoned exactly after a bad wait; all are freed exactly if nothing went wrong |

## Left out

- The MAMA library: transports, bridges, message contents, topic strings and the insides of queues; what is used of it is listed above.
- The Windows event and the timed wait, which has no caller in the library.
- Allocation failure and the unwinding in the create functions.
- Logging, queue names and NULL-argument guards, except in `synchronizedMap_for`.
- Lock initialisation and destruction beyond the fact that a freed object's locks are gone.
- SynchronizedMap.SynchronizedMap.Remove: one call at a time, so nothing comes between the unlock and the decrement; what may come there is in LifecycleCounter.
- SynchronizedMap.SynchronizedMap.Insert: the entry allocated for a present key is leaked by the code; memory of tree entries is not tracked.
- SynchronizedMap.SynchronizedMap.RemoveAll: the counter is an unbounded integer, where the code has a long; the life cycle lets removeAll take any objects, in any order, where the code takes the roots of its tree.
- LifecycleRest.ComesToRest: that the operating system keeps scheduling threads that can move, and that user callbacks return, is taken for granted.
- Connection.Connection.OnDestroyAllSessions: a call that does not return, with an event lost and every wait OK, is excluded; that each pass then leaves the loop running is in Connection.Connection.Pass. The work of the dispatchers between two passes is a loop of theirs, and the status of setting the event, which the code only logs, is not modelled.
- Connection.Connection.DestroyConnection: no other call on the connection is under way; calls that overlap are in SessionLedger, without the heap. The dispatchers do nothing between the last destroySession and the first pass.
- Session: creation and destruction of single inboxes and subscriptions, which read as those of timers do.
- Memory of list elements, and the second read of the session pointer out of a freed one; the session is read once.
- The amortized cost of splaying, and any balance of splay trees.
- SplayTree.SplayTree.MinMax: not for 0, with which the code's loop would not end.
