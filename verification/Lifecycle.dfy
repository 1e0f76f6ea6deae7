/** The life of the event objects of one session, as a step system: any number of client threads,
    the session's dispatcher thread, and the connection's thread that tears the session down. A step
    is one lock or queue operation, or the field accesses between two of them. */
module Lifecycle {

  type Obj = nat
  type Tid = nat

  datatype Kind = Timer | Inbox | Subscription

  /** What a native event is about: a tick or message, an error, or the creation of a subscription. */
  datatype Notice = Message | Trouble | Creation

  /** Who holds a lock. */
  datatype Holder = Nobody | Client(t: Tid) | Dispatcher

  /** History only: how far an object is on its way. No step reads it. */
  datatype Stage = Making(t: Tid) | Indexed | Held(t: Tid) | Queued | Dying | Ended
    | Stranded        // out of its map, and no destroy event will ever be enqueued

  /** An event object: mmeTimer, mmeInbox or mmeSubscription. */
  datatype Rec = Rec(
    kind: Kind,
    msg: bool,        // m_callback, m_msgCallback, m_onMsgBasic and m_onMsgWildcard: set, or NULL
    err: bool,        // m_errorCallback and m_onError: set, or NULL
    made: bool,       // m_onCreate, which only subscriptions have: set, or NULL
    closure: nat,     // m_closure
    lock: Holder,     // m_lock
    gate: Holder,     // m_destroyLock, which only timers have
    indexed: bool,    // in the session's map of its kind
    native: bool,     // the native object can still deliver events
    open: bool,       // the native object counts as open on the session's queue
    freed: bool,      // the memory is gone
    known: bool,      // the create call has returned the handle
    given: nat,       // history: the closure passed at creation
    maker: Tid,       // history: the creating thread
    stage: Stage)

  /** What follows once a detached object is posted: the call returns, or removeAll goes on. */
  datatype Cont = Return | Rest(left: set<Obj>, kinds: seq<Kind>)

  /** Where a client thread is; the comment names the lock it asks for next. */
  datatype Pc =
    | Idle
    | Made(o: Obj)                      // map lock
    | Inserting(o: Obj)
    | Counting(o: Obj)
    | Storing(o: Obj, n: int)           // has read n from the map's counter
    | Inserted(o: Obj)
    | ShutWait(o: Obj)                  // map lock
    | ShutLook(o: Obj)
    | ShutLock(o: Obj)                  // m_lock
    | ShutClear(o: Obj)
    | ShutUnlock(o: Obj)
    | ShutDone(o: Obj)
    | DestWait(o: Obj)                  // map lock
    | DestLook(o: Obj)
    | Uncount(o: Obj, next: Cont)       // has released the map lock
    | Uncounted(o: Obj, next: Cont, n: int)
    | Gate(o: Obj, next: Cont)          // m_destroyLock
    | Lock(o: Obj, next: Cont)          // m_lock
    | Clear(o: Obj, next: Cont)
    | Unlock(o: Obj, next: Cont)
    | Ungate(o: Obj, next: Cont)
    | Post(o: Obj, next: Cont)
    | AllWait(kinds: seq<Kind>)         // map lock
    | AllLook(kinds: seq<Kind>)
    | AllCounted(kinds: seq<Kind>, n: int)
    | AllNext(left: set<Obj>, kinds: seq<Kind>)

  /** Where the dispatcher thread is. */
  datatype Dpc =
    | Ready
    | CbLock(o: Obj, n: Notice)         // m_lock
    | CbTest(o: Obj, n: Notice)
    | CbUser(o: Obj, n: Notice, closure: nat)
    | CbUnlock(o: Obj)
    | CbGate(o: Obj)                    // m_destroyLock
    | CbUngate(o: Obj)
    | EndGate(o: Obj)                   // m_destroyLock
    | EndLock(o: Obj)                   // m_lock
    | EndNative(o: Obj)
    | EndFree(o: Obj)

  /** `drainer` is history: the thread that runs mamaEnv_destroySession. */
  datatype Phase = Running
    | Draining(drainer: Tid, ok: bool)  // ok: no destroy event refused so far
    | Abandoned                         // one was: the session goes into no list
    | Listed | Stopping | Stopped | Gone

  /** The locks of the session's three maps. */
  datatype Maps = Maps(timers: Holder, inboxes: Holder, subscriptions: Holder) {
    ghost function Of(k: Kind): Holder {
      match k
      case Timer => timers
      case Inbox => inboxes
      case Subscription => subscriptions
    }

    ghost function With(k: Kind, h: Holder): Maps {
      match k
      case Timer => this.(timers := h)
      case Inbox => this.(inboxes := h)
      case Subscription => this.(subscriptions := h)
    }
  }

  /** m_numberEntries of the three maps. */
  datatype Counts = Counts(timers: int, inboxes: int, subscriptions: int) {
    ghost function Of(k: Kind): int {
      match k
      case Timer => timers
      case Inbox => inboxes
      case Subscription => subscriptions
    }

    ghost function With(k: Kind, n: int): Counts {
      match k
      case Timer => this.(timers := n)
      case Inbox => this.(inboxes := n)
      case Subscription => this.(subscriptions := n)
    }
  }

  datatype State = State(
    threads: map<Tid, Pc>,        // a thread that is not in here is idle
    disp: Dpc,
    maps: Maps,
    counts: Counts,
    queue: seq<Obj>,              // the pending destroy events, oldest first
    objs: map<Obj, Rec>,
    phase: Phase)

  ghost function Pos(s: State, t: Tid): Pc {
    if t in s.threads then s.threads[t] else Idle
  }

  ghost function Goto(s: State, t: Tid, pc: Pc): State {
    s.(threads := s.threads[t := pc])
  }

  ghost predicate Init(s: State) {
    s == State(map[], Ready, Maps(Nobody, Nobody, Nobody), Counts(0, 0, 0), [], map[], Running)
  }

  // Client steps on one object

  /** A position inside a call on one object. */
  ghost predicate Named(pc: Pc) {
    !pc.Idle? && !pc.AllWait? && !pc.AllLook? && !pc.AllCounted? && !pc.AllNext?
  }

  /** What a step of a call touches: the thread's position, the object, the lock and the counter of its
      map, the queue. */
  datatype View = View(pc: Pc, r: Rec, m: Holder, n: int, queue: seq<Obj>)

  /** The lock the thread asks for, if any, is free. */
  ghost predicate Enabled(v: View) {
    && (v.pc.Made? || v.pc.ShutWait? || v.pc.DestWait? ==> v.m.Nobody?)
    && (v.pc.Gate? ==> v.r.gate.Nobody?)
    && (v.pc.Lock? || v.pc.ShutLock? ==> v.r.lock.Nobody?)
  }

  /** The first lock a destroyer asks for: only timers have an m_destroyLock. */
  ghost function First(kind: Kind, o: Obj, next: Cont): Pc {
    if kind.Timer? then Gate(o, next) else Lock(o, next)
  }

  ghost predicate Creating(pc: Pc) {
    pc.Made? || pc.Inserting? || pc.Counting? || pc.Storing? || pc.Inserted?
  }

  /** What no step changes in an object. */
  ghost predicate SameIdentity(r: Rec, r': Rec) {
    r'.kind == r.kind && r'.given == r.given && r'.maker == r.maker
  }

  /** synchronizedMap_insert, which counts under the lock, then read the handle out of the object and
      return it. */
  ghost function DoCreate(t: Tid, o: Obj, v: View): (v': View)
    ensures SameIdentity(v.r, v'.r)
  {
    match v.pc
    case Made(_) => v.(pc := Inserting(o), m := Client(t))
    case Inserting(_) => v.(pc := Counting(o), r := v.r.(indexed := true, stage := Indexed))
    case Counting(_) => v.(pc := Storing(o, v.n))
    case Storing(_, n) => v.(pc := Inserted(o), m := Nobody, n := n + 1)
    case _ => v.(pc := Idle, r := v.r.(known := true))
  }

  ghost predicate Shutdown(pc: Pc) {
    pc.ShutWait? || pc.ShutLook? || pc.ShutLock? || pc.ShutClear? || pc.ShutUnlock? || pc.ShutDone?
  }

  /** synchronizedMap_for around the object's shutdown, which clears the tick or message callbacks only. */
  ghost function DoShutdown(t: Tid, o: Obj, v: View): (v': View)
    ensures SameIdentity(v.r, v'.r)
  {
    match v.pc
    case ShutWait(_) => v.(pc := ShutLook(o), m := Client(t))
    case ShutLook(_) => if v.r.indexed then v.(pc := ShutLock(o)) else v.(pc := Idle, m := Nobody)
    case ShutLock(_) => v.(pc := ShutClear(o), r := v.r.(lock := Client(t)))
    case ShutClear(_) => v.(pc := ShutUnlock(o), r := v.r.(msg := false))
    case ShutUnlock(_) => v.(pc := ShutDone(o), r := v.r.(lock := Nobody))
    case _ => v.(pc := Idle, m := Nobody)
  }

  ghost predicate Removing(pc: Pc) {
    pc.DestWait? || pc.DestLook? || pc.Uncount? || pc.Uncounted?
  }

  /** synchronizedMap_remove, which decrements the counter after it has released the lock; a key that is not
      there makes the destroy call return OK at once. */
  ghost function DoRemove(t: Tid, o: Obj, v: View): (v': View)
    ensures SameIdentity(v.r, v'.r)
  {
    match v.pc
    case DestWait(_) => v.(pc := DestLook(o), m := Client(t))
    case Uncount(_, next) => v.(pc := Uncounted(o, next, v.n))
    case Uncounted(_, next, n) => v.(pc := First(v.r.kind, o, next), n := n - 1)
    case _ =>
      if v.r.indexed
      then v.(pc := Uncount(o, Return), m := Nobody, r := v.r.(indexed := false, stage := Held(t)))
      else v.(pc := Idle, m := Nobody)
  }

  /** A thread that has detached an object and not yet posted it. */
  ghost predicate Detached(pc: Pc) {
    pc.Uncount? || pc.Uncounted? || pc.Gate? || pc.Lock? || pc.Clear? || pc.Unlock? || pc.Ungate? || pc.Post?
  }

  /** Clear everything under the object's locks, then enqueue the destroy event. */
  ghost function DoDestroy(t: Tid, o: Obj, v: View): (v': View)
    requires Detached(v.pc) && !Removing(v.pc)
    ensures SameIdentity(v.r, v'.r)
  {
    var next := v.pc.next;
    match v.pc
    case Gate(_, _) => v.(pc := Lock(o, next), r := v.r.(gate := Client(t)))
    case Lock(_, _) => v.(pc := Clear(o, next), r := v.r.(lock := Client(t)))
    case Clear(_, _) => v.(pc := Unlock(o, next), r := v.r.(msg := false, err := false, made := false, closure := 0))
    case Unlock(_, _) =>
      v.(pc := if v.r.kind.Timer? then Ungate(o, next) else Post(o, next), r := v.r.(lock := Nobody))
    case Ungate(_, _) => v.(pc := Post(o, next), r := v.r.(gate := Nobody))
    case Post(_, _) =>
      v.(pc := if next.Return? then Idle else AllNext(next.left, next.kinds),
         r := v.r.(stage := Queued), queue := v.queue + [o])
  }

  /** The next step of thread `t` in its call on `o`. */
  ghost function Do(t: Tid, o: Obj, v: View): (v': View)
    requires Named(v.pc)
    ensures SameIdentity(v.r, v'.r)
  {
    if Creating(v.pc) then DoCreate(t, o, v)
    else if Shutdown(v.pc) then DoShutdown(t, o, v)
    else if Removing(v.pc) then DoRemove(t, o, v)
    else DoDestroy(t, o, v)
  }

  ghost function Look(s: State, t: Tid, o: Obj): View
    requires o in s.objs
  {
    View(Pos(s, t), s.objs[o], s.maps.Of(s.objs[o].kind), s.counts.Of(s.objs[o].kind), s.queue)
  }

  ghost function Put(s: State, t: Tid, o: Obj, v: View): State {
    s.(threads := s.threads[t := v.pc], objs := s.objs[o := v.r],
       maps := s.maps.With(v.r.kind, v.m), counts := s.counts.With(v.r.kind, v.n), queue := v.queue)
  }

  ghost predicate Advance(s: State, t: Tid, s': State) {
    && Named(Pos(s, t))
    && var o := Pos(s, t).o;
    && o in s.objs && Enabled(Look(s, t, o)) && s' == Put(s, t, o, Do(t, o, Look(s, t, o)))
  }

  /** The queue refuses the destroy event: the call returns the error, and nobody has the object any more. */
  ghost predicate Refuse(s: State, t: Tid, s': State) {
    && Pos(s, t).Post?
    && var (o, next) := (Pos(s, t).o, Pos(s, t).next);
    && o in s.objs
    && s' == Goto(s, t, if next.Return? then Idle else AllNext(next.left, next.kinds)).(
               objs := s.objs[o := s.objs[o].(stage := Stranded)],
               phase := if next.Rest? && s.phase.Draining? then s.phase.(ok := false) else s.phase)
  }

  // Client steps that start a call, or run destroyAllEvents

  /** mamaEnv_createXXX: allocate, create the native object, then go for the map lock. */
  ghost predicate Create(s: State, t: Tid, o: Obj, kind: Kind, err: bool, made: bool, closure: nat, s': State) {
    && Pos(s, t).Idle? && s.phase == Running && o !in s.objs && (kind.Timer? ==> !err) && (made ==> kind.Subscription?)
    && s' == Goto(s, t, Made(o)).(objs := s.objs[o :=
         Rec(kind, true, err, made, closure, Nobody, Nobody, false, true, true, false, false, closure, t, Making(t))])
  }

  /** A handle is used only once the create call has returned it, and while the session's maps exist. */
  ghost predicate Call(s: State, t: Tid, o: Obj, s': State) {
    && Pos(s, t).Idle? && o in s.objs && s.objs[o].known && s.phase != Gone
    && (s' == Goto(s, t, ShutWait(o)) || s' == Goto(s, t, DestWait(o)))
  }

  /** mamaEnv_destroySession, by one caller, when no create call is under way. */
  ghost predicate AllStart(s: State, t: Tid, s': State) {
    && Pos(s, t).Idle? && s.phase == Running && (forall u :: !Creating(Pos(s, u)))
    && s' == Goto(s, t, AllNext({}, [Inbox, Subscription, Timer])).(phase := Draining(t, true))
  }

  ghost predicate AllTurn(s: State, t: Tid, s': State) {
    && Pos(s, t).AllNext? && Pos(s, t).left == {}
    && var kinds := Pos(s, t).kinds;
    s' == if kinds == [] then Goto(s, t, Idle).(phase := if s.phase.Draining? && s.phase.ok then Listed else Abandoned)
          else Goto(s, t, AllWait(kinds))
  }

  ghost predicate AllMap(s: State, t: Tid, s': State) {
    && Pos(s, t).AllWait? && Pos(s, t).kinds != []
    && var kinds := Pos(s, t).kinds;
    && s.maps.Of(kinds[0]).Nobody?
    && s' == Goto(s, t, AllLook(kinds)).(maps := s.maps.With(kinds[0], Client(t)))
  }

  ghost function Taken(s: State, k: Kind): set<Obj> {
    set o | o in s.objs && s.objs[o].indexed && s.objs[o].kind == k
  }

  ghost predicate AllCount(s: State, t: Tid, s': State) {
    && Pos(s, t).AllLook? && Pos(s, t).kinds != []
    && s' == Goto(s, t, AllCounted(Pos(s, t).kinds, s.counts.Of(Pos(s, t).kinds[0])))
  }

  ghost function Detach(o: Obj, r: Rec, left: set<Obj>, k: Kind, t: Tid): Rec {
    if !r.indexed || r.kind != k then r
    else r.(indexed := false, stage := if o in left then Held(t) else Stranded)
  }

  /** How many of `size` entries a loop that counts down from `n` takes. */
  ghost function Share(n: int, size: nat): nat {
    if n < 0 then 0 else if n < size then n else size
  }

  /** removeAll moves the whole map into a tree of its own under the lock and resets the counter. Its loop
      takes as many entries out of that tree as the counter said; the tree's other entries are left. */
  ghost predicate AllTake(s: State, t: Tid, left: set<Obj>, s': State) {
    && Pos(s, t).AllCounted? && Pos(s, t).kinds != []
    && var (kinds, n) := (Pos(s, t).kinds, Pos(s, t).n);
    && var all := Taken(s, kinds[0]);
    && left <= all && |left| == Share(n, |all|)
    && s' == Goto(s, t, AllNext(left, kinds[1..])).(
               maps := s.maps.With(kinds[0], Nobody), counts := s.counts.With(kinds[0], 0),
               objs := map o | o in s.objs :: Detach(o, s.objs[o], left, kinds[0], t))
  }

  ghost predicate AllPick(s: State, t: Tid, o: Obj, s': State) {
    && Pos(s, t).AllNext? && o in Pos(s, t).left && o in s.objs
    && s' == Goto(s, t, First(s.objs[o].kind, o, Rest(Pos(s, t).left - {o}, Pos(s, t).kinds)))
  }

  ghost predicate ClientNext(s: State, t: Tid, s': State) {
    || Advance(s, t, s') || Refuse(s, t, s')
    || (exists o, kind, err, made, closure :: Create(s, t, o, kind, err, made, closure, s'))
    || (exists o :: Call(s, t, o, s'))
    || AllStart(s, t, s') || AllTurn(s, t, s') || AllMap(s, t, s') || AllCount(s, t, s')
    || (exists left :: AllTake(s, t, left, s')) || (exists o :: AllPick(s, t, o, s'))
  }

  // Dispatcher steps

  ghost predicate DispEnabled(d: Dpc, r: Rec) {
    && (d.CbLock? || d.EndLock? ==> r.lock.Nobody?)
    && (d.CbGate? || d.EndGate? ==> r.gate.Nobody?)
  }

  ghost predicate Armed(r: Rec, n: Notice) {
    match n
    case Message => r.msg
    case Trouble => r.err
    case Creation => r.made
  }

  /** Where the dispatcher goes in its work on `o`. */
  ghost function DispTo(o: Obj, d: Dpc, r: Rec): Dpc {
    match d
    // test the callback under m_lock and call it with the closure next to it
    case CbLock(_, n) => CbTest(o, n)
    case CbTest(_, n) => if Armed(r, n) then CbUser(o, n, r.closure) else CbUnlock(o)
    case CbUser(_, _, _) => CbUnlock(o)
    // a tick lets a waiting destroyer in
    case CbUnlock(_) => if r.kind.Timer? then CbGate(o) else Ready
    case CbGate(_) => CbUngate(o)
    case CbUngate(_) => Ready
    // the destroy event; a subscription stays open, with m_lock held, until its onDestroy callback
    case EndGate(_) => EndLock(o)
    case EndLock(_) => EndNative(o)
    case EndNative(_) => if r.kind.Subscription? then Ready else EndFree(o)
    case EndFree(_) => Ready
    case Ready => Ready
  }

  /** What it does to the object there. */
  ghost function DispRec(d: Dpc, r: Rec): (r': Rec)
    ensures SameIdentity(r, r') && r'.indexed == r.indexed
  {
    match d
    case CbLock(_, _) => r.(lock := Dispatcher)
    case CbUnlock(_) => r.(lock := Nobody)
    case CbGate(_) => r.(gate := Dispatcher)
    case CbUngate(_) => r.(gate := Nobody)
    case EndGate(_) => r.(gate := Dispatcher)
    case EndLock(_) => r.(lock := Dispatcher)
    case EndNative(_) => r.(native := false, open := r.kind.Subscription?)
    // unlock and destroy the locks, free the object
    case EndFree(_) => r.(lock := Nobody, gate := Nobody, freed := true, stage := Ended)
    case _ => r
  }

  /** The next step of the dispatcher in its work on `o`. */
  ghost function DispDo(o: Obj, d: Dpc, r: Rec): (next: (Dpc, Rec))
    ensures SameIdentity(r, next.1) && next.1.indexed == r.indexed
  {
    (DispTo(o, d, r), DispRec(d, r))
  }

  ghost predicate DispAdvance(s: State, s': State) {
    && !s.disp.Ready? && s.disp.o in s.objs && DispEnabled(s.disp, s.objs[s.disp.o])
    && var o := s.disp.o;
    && var (d, r) := DispDo(o, s.disp, s.objs[o]);
    s' == s.(disp := d, objs := s.objs[o := r])
  }

  /** The dispatcher thread is there and between two events. */
  ghost predicate Free(s: State) {
    s.disp.Ready? && s.phase != Stopped && s.phase != Gone
  }

  /** What the native objects of a kind give notice of. */
  ghost predicate Tells(k: Kind, n: Notice) {
    (n.Trouble? ==> !k.Timer?) && (n.Creation? ==> k.Subscription?)
  }

  /** A native event is dispatched, as often as the native object likes: only while the native object is alive. */
  ghost predicate Deliver(s: State, o: Obj, n: Notice, s': State) {
    && Free(s) && o in s.objs && s.objs[o].native && Tells(s.objs[o].kind, n)
    && s' == s.(disp := CbLock(o, n))
  }

  /** The oldest destroy event is dispatched. */
  ghost predicate Dequeue(s: State, s': State) {
    && Free(s) && s.queue != [] && s.queue[0] in s.objs
    && var o := s.queue[0];
    s' == s.(queue := s.queue[1..], disp := if s.objs[o].kind.Timer? then EndGate(o) else EndLock(o),
             objs := s.objs[o := s.objs[o].(stage := Dying)])
  }

  /** A subscription between its native destruction and its onDestroy callback. */
  ghost predicate Awaiting(r: Rec) {
    r.kind.Subscription? && !r.native && r.open
  }

  /** mamaEnvSubscription_onDestroy is dispatched. */
  ghost predicate OnDestroy(s: State, o: Obj, s': State) {
    && Free(s) && o in s.objs && Awaiting(s.objs[o])
    && s' == s.(disp := EndFree(o), objs := s.objs[o := s.objs[o].(open := false)])
  }

  ghost predicate DispatcherNext(s: State, s': State) {
    || DispAdvance(s, s') || (exists o, n :: Deliver(s, o, n, s'))
    || Dequeue(s, s') || (exists o :: OnDestroy(s, o, s'))
  }

  // Tear-down of the session by the connection's thread

  /** mamaQueue_canDestroy is OK exactly when no native object is open on the queue. */
  ghost predicate CanDestroy(s: State) {
    forall o <- s.objs :: !s.objs[o].open
  }

  /** A thread between its first and its last use of a map. */
  ghost predicate UsesMap(pc: Pc) {
    || pc.Made? || pc.Inserting? || pc.Counting? || pc.Storing? || pc.Uncount? || pc.Uncounted?
    || pc.ShutWait? || pc.ShutLook? || pc.ShutLock? || pc.ShutClear? || pc.ShutUnlock? || pc.ShutDone?
    || pc.DestWait? || pc.DestLook? || pc.AllWait? || pc.AllLook? || pc.AllCounted?
  }

  /** mamaDispatcher_destroy begins, and returns when the dispatcher has finished what it was doing;
      then the queue and, once no caller is in them, the maps go. */
  ghost predicate TeardownNext(s: State, s': State) {
    || (s.phase == Listed && CanDestroy(s) && s' == s.(phase := Stopping))
    || (s.phase == Stopping && s.disp.Ready? && s' == s.(phase := Stopped))
    || (s.phase == Stopped && (forall t :: !UsesMap(Pos(s, t))) && s' == s.(phase := Gone))
  }

  ghost predicate Next(s: State, s': State) {
    (exists t :: ClientNext(s, t, s')) || DispatcherNext(s, s') || TeardownNext(s, s')
  }
}
