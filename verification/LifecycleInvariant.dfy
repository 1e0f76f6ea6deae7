/** What holds in every reachable state of the life cycle, and that every step keeps it. The invariant
    is a conjunction of small relations: between one thread and one object, between the dispatcher and
    one object, and about one object, one thread, one map or the queue alone. */
module LifecycleInvariant {
  import opened Lifecycle

  // Reading positions

  /** The detached objects a thread still has to see to, besides the one at hand. */
  ghost function Left(pc: Pc): set<Obj> {
    if pc.AllNext? then pc.left else if Detached(pc) && pc.next.Rest? then pc.next.left else {}
  }

  ghost predicate Owns(pc: Pc, o: Obj) {
    (Detached(pc) && pc.o == o) || o in Left(pc)
  }

  ghost predicate Makes(pc: Pc, o: Obj) {
    (pc.Made? || pc.Inserting?) && pc.o == o
  }

  ghost predicate Creates(pc: Pc, o: Obj) {
    Creating(pc) && pc.o == o
  }

  ghost predicate HoldsLock(pc: Pc, o: Obj) {
    (pc.ShutClear? || pc.ShutUnlock? || pc.Clear? || pc.Unlock?) && pc.o == o
  }

  ghost predicate HoldsGate(pc: Pc, o: Obj) {
    (pc.Lock? || pc.Clear? || pc.Unlock? || pc.Ungate?) && pc.o == o
  }

  ghost predicate Shutting(pc: Pc) {
    pc.ShutLock? || pc.ShutClear? || pc.ShutUnlock? || pc.ShutDone?
  }

  /** A call on one object inside the critical section of its map. */
  ghost predicate InMap(pc: Pc) {
    pc.Inserting? || pc.Counting? || pc.Storing? || pc.ShutLook? || Shutting(pc) || pc.DestLook?
  }

  ghost predicate Cleared(pc: Pc) {
    pc.Unlock? || pc.Ungate? || pc.Post?
  }

  ghost predicate Drains(pc: Pc) {
    pc.AllWait? || pc.AllLook? || pc.AllCounted? || pc.AllNext? || (Detached(pc) && pc.next.Rest?)
  }

  /** The maps destroyAllEvents has not emptied yet. */
  ghost function Todo(pc: Pc): seq<Kind>
    requires Drains(pc)
  {
    if Detached(pc) then pc.next.kinds else pc.kinds
  }

  ghost predicate Delivering(d: Dpc, o: Obj) {
    (d.CbLock? || d.CbTest? || d.CbUser? || d.CbUnlock? || d.CbGate? || d.CbUngate?) && d.o == o
  }

  ghost predicate Ending(d: Dpc, o: Obj) {
    (d.EndGate? || d.EndLock? || d.EndNative? || d.EndFree?) && d.o == o
  }

  ghost predicate DispHoldsLock(d: Dpc, o: Obj) {
    (d.CbTest? || d.CbUser? || d.CbUnlock? || d.EndNative? || d.EndFree?) && d.o == o
  }

  ghost predicate DispHoldsGate(d: Dpc, o: Obj) {
    (d.CbUngate? || d.EndLock? || d.EndNative? || d.EndFree?) && d.o == o
  }

  ghost predicate Silent(r: Rec) {
    !r.msg && !r.err && !r.made
  }

  ghost predicate Finished(r: Rec) {
    r.stage.Dying? || r.stage.Ended?
  }

  // The relations

  /** What object `o` records of thread `t` is what the thread is doing. */
  ghost predicate Marks(t: Tid, pc: Pc, o: Obj, r: Rec) {
    && (Owns(pc, o) <==> r.stage == Held(t))
    && (Makes(pc, o) <==> r.stage == Making(t))
    && (Creates(pc, o) <==> !r.known && r.maker == t)
    && (HoldsLock(pc, o) <==> r.lock == Client(t))
    && (HoldsGate(pc, o) && r.kind.Timer? <==> r.gate == Client(t))
  }

  /** Thread `t` at `pc` in a call on an object, the lock of whose map is held by `m`. */
  ghost predicate Place(t: Tid, pc: Pc, r: Rec, m: Holder) {
    && (InMap(pc) ==> m == Client(t))
    && (Shutting(pc) || pc.Counting? || pc.Storing? || pc.Inserted? ==> r.stage.Indexed?)
    && (!Creating(pc) ==> r.known)
    && (pc.Gate? || pc.Ungate? ==> r.kind.Timer?)
    && (pc.ShutUnlock? || pc.ShutDone? ==> !r.msg)
    && (Cleared(pc) ==> Silent(r) && r.closure == 0)
  }

  /** Thread `t` at `pc` and object `o`, the lock of whose map is held by `m`. */
  ghost predicate Pair(t: Tid, pc: Pc, o: Obj, r: Rec, m: Holder) {
    Marks(t, pc, o, r) && (Named(pc) && pc.o == o ==> Place(t, pc, r, m))
  }

  /** The dispatcher at `d` and object `o`. */
  ghost predicate DispPair(d: Dpc, o: Obj, r: Rec) {
    && (DispHoldsLock(d, o) || Awaiting(r) <==> r.lock.Dispatcher?)
    && (DispHoldsGate(d, o) && r.kind.Timer? <==> r.gate.Dispatcher?)
    && (Ending(d, o) ==> r.stage.Dying?)
    && (r.stage.Dying? ==> Ending(d, o) || Awaiting(r))
    && (Awaiting(r) ==> r.stage.Dying?)
    && (Delivering(d, o) ==> !Finished(r))
    && ((d.EndGate? || d.EndLock? || d.EndNative?) && d.o == o ==> r.native)
    && (d.EndFree? && d.o == o ==> !r.native && !r.open)
    && ((d.CbGate? || d.CbUngate? || d.EndGate?) && d.o == o ==> r.kind.Timer?)
    && ((d.CbLock? || d.CbTest? || d.CbUser?) && d.o == o && r.kind.Timer? ==> d.n.Message?)
    && (d.CbUser? && d.o == o ==> Armed(r, d.n) && d.closure == r.given)
  }

  /** Object `o` by itself, in phase `p`. */
  ghost predicate Self(r: Rec, p: Phase) {
    && (r.indexed <==> r.stage.Indexed?)
    && (r.freed <==> r.stage.Ended?)
    && (!Finished(r) ==> r.native)
    && (r.native ==> r.open)
    && (r.stage.Ended? ==> !r.open && r.lock.Nobody? && r.gate.Nobody?)
    && (r.stage.Making? ==> !r.known && r.stage.t == r.maker)
    && (!r.known ==> p.Running? && (r.stage.Making? || r.stage.Indexed?))
    && (r.stage.Queued? || Finished(r) ==> Silent(r) && r.closure == 0)
    && (!Silent(r) ==> r.closure == r.given)
    && (r.kind.Timer? ==> !r.err) && (r.made ==> r.kind.Subscription?)
    && (r.stage.Indexed? ==> p.Running? || p.Draining?)
    && (p.Stopping? || p.Stopped? || p.Gone? ==> !r.open)
  }

  /** Thread `t` by itself. */
  ghost predicate Solo(t: Tid, pc: Pc, ids: set<Obj>, maps: Maps, p: Phase) {
    && (Named(pc) ==> pc.o in ids)
    && Left(pc) <= ids
    && (Detached(pc) ==> pc.o !in Left(pc))
    && (Drains(pc) ==> p.Draining? && p.drainer == t)
    && (pc.AllWait? || pc.AllLook? || pc.AllCounted? ==> pc.kinds != [])
    && (pc.AllLook? || pc.AllCounted? ==> maps.Of(pc.kinds[0]) == Client(t))
  }

  /** The lock of map `k` is held by a client inside that map's critical section. */
  ghost predicate MapOk(s: State, k: Kind) {
    var h := s.maps.Of(k);
    && !h.Dispatcher?
    && (h.Client? ==> var pc := Pos(s, h.t);
          || (InMap(pc) && pc.o in s.objs && s.objs[pc.o].kind == k)
          || ((pc.AllLook? || pc.AllCounted?) && pc.kinds != [] && pc.kinds[0] == k))
  }

  /** While the session is drained, what is still in a map is in a map still to be emptied. */
  ghost predicate DrainOk(s: State) {
    s.phase.Draining? ==>
      && Drains(Pos(s, s.phase.drainer))
      && (forall o <- s.objs :: s.objs[o].indexed ==> s.objs[o].kind in Todo(Pos(s, s.phase.drainer)))
  }

  /** The queue holds each object whose destruction is pending, once, and nothing else. */
  ghost predicate QueueOk(queue: seq<Obj>, objs: map<Obj, Rec>) {
    && (forall i :: 0 <= i < |queue| ==> queue[i] in objs && objs[queue[i]].stage.Queued?)
    && (forall i, j :: 0 <= i < j < |queue| ==> queue[i] != queue[j])
    && (forall o <- objs :: objs[o].stage.Queued? ==> o in queue)
  }

  ghost predicate DispOk(d: Dpc, ids: set<Obj>, p: Phase) {
    (!d.Ready? ==> d.o in ids) && (p.Stopped? || p.Gone? ==> d.Ready?)
  }

  ghost predicate PairAt(s: State, t: Tid, o: Obj)
    requires o in s.objs
  {
    Pair(t, Pos(s, t), o, s.objs[o], s.maps.Of(s.objs[o].kind))
  }

  ghost predicate ObjAt(s: State, o: Obj)
    requires o in s.objs
  {
    DispPair(s.disp, o, s.objs[o]) && Self(s.objs[o], s.phase)
  }

  ghost predicate SoloAt(s: State, t: Tid) {
    Solo(t, Pos(s, t), s.objs.Keys, s.maps, s.phase)
  }

  ghost predicate Inv(s: State) {
    && (forall t, o | o in s.objs :: PairAt(s, t, o))
    && (forall o | o in s.objs :: ObjAt(s, o))
    && (forall t :: SoloAt(s, t))
    && (forall k :: MapOk(s, k))
    && DrainOk(s) && QueueOk(s.queue, s.objs) && DispOk(s.disp, s.objs.Keys, s.phase)
  }

  lemma InitInv(s: State)
    requires Init(s)
    ensures Inv(s)
  {
  }

  // One step of a call

  lemma CreateMarks(t: Tid, o: Obj, v: View, v': View)
    requires Creating(v.pc) && v.pc.o == o && v' == DoCreate(t, o, v) && Enabled(v) && Marks(t, v.pc, o, v.r)
    requires !v.r.known ==> v.r.stage.Making? || v.r.stage.Indexed?
    ensures Marks(t, v'.pc, o, v'.r)
  {
  }

  lemma ShutdownMarks(t: Tid, o: Obj, v: View, v': View)
    requires Shutdown(v.pc) && v.pc.o == o && v' == DoShutdown(t, o, v) && Enabled(v) && Marks(t, v.pc, o, v.r)
    ensures Marks(t, v'.pc, o, v'.r)
  {
  }

  lemma RemoveMarks(t: Tid, o: Obj, v: View, v': View)
    requires Removing(v.pc) && v.pc.o == o && v' == DoRemove(t, o, v) && Enabled(v) && Marks(t, v.pc, o, v.r)
    requires v.r.known && (Detached(v.pc) ==> o !in Left(v.pc))
    requires v.r.indexed <==> v.r.stage.Indexed?
    ensures Marks(t, v'.pc, o, v'.r)
  {
  }

  /** A destroyer on the way to clearing the object, */
  lemma TakeMarks(t: Tid, o: Obj, v: View, v': View)
    requires v.pc.Gate? || v.pc.Lock? || v.pc.Clear?
    requires v.pc.o == o && v' == DoDestroy(t, o, v) && Marks(t, v.pc, o, v.r)
    requires v.r.known && o !in Left(v.pc) && (v.pc.Gate? ==> v.r.kind.Timer?)
    ensures Marks(t, v'.pc, o, v'.r)
  {
  }

  /** and on the way from there. */
  lemma ReleaseMarks(t: Tid, o: Obj, v: View, v': View)
    requires v.pc.Unlock? || v.pc.Ungate? || v.pc.Post?
    requires v.pc.o == o && v' == DoDestroy(t, o, v) && Marks(t, v.pc, o, v.r)
    requires v.r.known && o !in Left(v.pc) && (v.pc.Ungate? ==> v.r.kind.Timer?)
    ensures Marks(t, v'.pc, o, v'.r)
  {
  }

  lemma CreatePlace(t: Tid, o: Obj, v: View, v': View)
    requires Creating(v.pc) && v.pc.o == o && v' == DoCreate(t, o, v) && Enabled(v) && Place(t, v.pc, v.r, v.m)
    requires v.r.indexed <==> v.r.stage.Indexed?
    ensures Named(v'.pc) ==> Place(t, v'.pc, v'.r, v'.m)
  {
  }

  lemma ShutdownPlace(t: Tid, o: Obj, v: View, v': View)
    requires Shutdown(v.pc) && v.pc.o == o && v' == DoShutdown(t, o, v) && Enabled(v) && Place(t, v.pc, v.r, v.m)
    requires v.r.indexed <==> v.r.stage.Indexed?
    ensures Named(v'.pc) ==> Place(t, v'.pc, v'.r, v'.m)
  {
  }

  lemma RemovePlace(t: Tid, o: Obj, v: View, v': View)
    requires Removing(v.pc) && v.pc.o == o && v' == DoRemove(t, o, v) && Enabled(v) && Place(t, v.pc, v.r, v.m)
    requires v.r.indexed <==> v.r.stage.Indexed?
    ensures Named(v'.pc) ==> Place(t, v'.pc, v'.r, v'.m)
  {
  }

  lemma DestroyPlace(t: Tid, o: Obj, v: View, v': View)
    requires Detached(v.pc) && !Removing(v.pc) && v.pc.o == o && v' == DoDestroy(t, o, v)
    requires Enabled(v) && Place(t, v.pc, v.r, v.m)
    requires v.r.indexed <==> v.r.stage.Indexed?
    ensures Named(v'.pc) ==> Place(t, v'.pc, v'.r, v'.m)
  {
  }

  lemma DoActor(t: Tid, o: Obj, v: View, v': View)
    requires Named(v.pc) && v.pc.o == o && v' == Do(t, o, v) && Enabled(v) && Pair(t, v.pc, o, v.r, v.m)
    requires Detached(v.pc) ==> o !in Left(v.pc)
    requires !v.r.known ==> v.r.stage.Making? || v.r.stage.Indexed?
    requires v.r.indexed <==> v.r.stage.Indexed?
    ensures Pair(t, v'.pc, o, v'.r, v'.m)
  {
    hide Owns, Makes, Creates, HoldsLock, HoldsGate, DoCreate, DoShutdown, DoRemove, DoDestroy, Enabled;
    if Creating(v.pc) {
      CreateMarks(t, o, v, v');
      CreatePlace(t, o, v, v');
    } else if Shutdown(v.pc) {
      ShutdownMarks(t, o, v, v');
      ShutdownPlace(t, o, v, v');
    } else if Removing(v.pc) {
      RemoveMarks(t, o, v, v');
      RemovePlace(t, o, v, v');
    } else {
      if v.pc.Gate? || v.pc.Lock? || v.pc.Clear? {
        TakeMarks(t, o, v, v');
      } else {
        ReleaseMarks(t, o, v, v');
      }
      DestroyPlace(t, o, v, v');
    }
  }

  lemma DoSelf(t: Tid, o: Obj, v: View, v': View, p: Phase)
    requires Named(v.pc) && v.pc.o == o && v' == Do(t, o, v) && Enabled(v) && Pair(t, v.pc, o, v.r, v.m) && Self(v.r, p)
    ensures Self(v'.r, p)
  {
  }

  lemma CreateDisp(t: Tid, o: Obj, v: View, v': View, d: Dpc, p: Phase)
    requires Creating(v.pc) && v.pc.o == o && v' == DoCreate(t, o, v) && Enabled(v) && Pair(t, v.pc, o, v.r, v.m)
    requires Self(v.r, p) && DispPair(d, o, v.r)
    ensures DispPair(d, o, v'.r)
  {
  }

  lemma ShutdownDisp(t: Tid, o: Obj, v: View, v': View, d: Dpc, p: Phase)
    requires Shutdown(v.pc) && v.pc.o == o && v' == DoShutdown(t, o, v) && Enabled(v) && Pair(t, v.pc, o, v.r, v.m)
    requires Self(v.r, p) && DispPair(d, o, v.r)
    ensures DispPair(d, o, v'.r)
  {
  }

  lemma RemoveDisp(t: Tid, o: Obj, v: View, v': View, d: Dpc, p: Phase)
    requires Removing(v.pc) && v.pc.o == o && v' == DoRemove(t, o, v) && Enabled(v) && Pair(t, v.pc, o, v.r, v.m)
    requires Self(v.r, p) && DispPair(d, o, v.r)
    ensures DispPair(d, o, v'.r)
  {
  }

  lemma DestroyDisp(t: Tid, o: Obj, v: View, v': View, d: Dpc, p: Phase)
    requires Detached(v.pc) && !Removing(v.pc) && v.pc.o == o && v' == DoDestroy(t, o, v)
    requires Enabled(v) && Pair(t, v.pc, o, v.r, v.m)
    requires Self(v.r, p) && DispPair(d, o, v.r)
    ensures DispPair(d, o, v'.r)
  {
  }

  lemma DoDisp(t: Tid, o: Obj, v: View, v': View, d: Dpc, p: Phase)
    requires Named(v.pc) && v.pc.o == o && v' == Do(t, o, v) && Enabled(v) && Pair(t, v.pc, o, v.r, v.m)
    requires Self(v.r, p) && DispPair(d, o, v.r)
    ensures DispPair(d, o, v'.r)
  {
    hide DispPair, Pair, Self, Enabled, DoCreate, DoShutdown, DoRemove, DoDestroy;
    if Creating(v.pc) {
      CreateDisp(t, o, v, v', d, p);
    } else if Shutdown(v.pc) {
      ShutdownDisp(t, o, v, v', d, p);
    } else if Removing(v.pc) {
      RemoveDisp(t, o, v, v', d, p);
    } else {
      DestroyDisp(t, o, v, v', d, p);
    }
  }

  /** What the object records of a thread in a call on it. */
  lemma Shown(t: Tid, pc: Pc, o: Obj, r: Rec)
    requires Marks(t, pc, o, r) && Named(pc) && pc.o == o
    ensures pc.Inserting? ==> r.stage == Making(t)
    ensures Creating(pc) ==> !r.known && r.maker == t
    ensures Detached(pc) ==> r.stage == Held(t)
    ensures pc.ShutUnlock? || pc.Unlock? ==> r.lock == Client(t)
    ensures pc.Ungate? && r.kind.Timer? ==> r.gate == Client(t)
  {
  }

  /** The object records the same of thread `u`. */
  ghost predicate SameFor(u: Tid, r: Rec, r': Rec) {
    && (r'.stage == Held(u) <==> r.stage == Held(u))
    && (r'.stage == Making(u) <==> r.stage == Making(u))
    && (!r'.known && r'.maker == u <==> !r.known && r.maker == u)
    && (r'.lock == Client(u) <==> r.lock == Client(u))
    && (r'.gate == Client(u) <==> r.gate == Client(u))
    && r'.kind == r.kind
  }

  /** A step of thread `t` leaves what the object records of any other thread. */
  lemma CreateRecord(t: Tid, o: Obj, v: View, v': View, u: Tid)
    requires Creating(v.pc) && v.pc.o == o && v' == DoCreate(t, o, v) && Enabled(v) && Marks(t, v.pc, o, v.r)
    requires u != t && (v.r.indexed <==> v.r.stage.Indexed?) && Place(t, v.pc, v.r, v.m)
    ensures SameFor(u, v.r, v'.r)
  {
    Shown(t, v.pc, o, v.r);
    hide Marks, Place;
  }

  lemma ShutdownRecord(t: Tid, o: Obj, v: View, v': View, u: Tid)
    requires Shutdown(v.pc) && v.pc.o == o && v' == DoShutdown(t, o, v) && Enabled(v) && Marks(t, v.pc, o, v.r)
    requires u != t && (v.r.indexed <==> v.r.stage.Indexed?) && Place(t, v.pc, v.r, v.m)
    ensures SameFor(u, v.r, v'.r)
  {
    Shown(t, v.pc, o, v.r);
    hide Marks, Place;
  }

  lemma RemoveRecord(t: Tid, o: Obj, v: View, v': View, u: Tid)
    requires Removing(v.pc) && v.pc.o == o && v' == DoRemove(t, o, v) && Enabled(v) && Marks(t, v.pc, o, v.r)
    requires u != t && (v.r.indexed <==> v.r.stage.Indexed?) && Place(t, v.pc, v.r, v.m)
    ensures SameFor(u, v.r, v'.r)
  {
    Shown(t, v.pc, o, v.r);
    hide Marks, Place;
  }

  lemma DestroyRecord(t: Tid, o: Obj, v: View, v': View, u: Tid)
    requires Detached(v.pc) && !Removing(v.pc) && v.pc.o == o && v' == DoDestroy(t, o, v)
    requires Enabled(v) && Marks(t, v.pc, o, v.r)
    requires u != t && (v.r.indexed <==> v.r.stage.Indexed?) && Place(t, v.pc, v.r, v.m)
    ensures SameFor(u, v.r, v'.r)
  {
    Shown(t, v.pc, o, v.r);
    assert v.pc.Ungate? ==> v.r.kind.Timer?;
    hide Marks, Place;
  }

  lemma DoOtherPlace(t: Tid, o: Obj, v: View, v': View, u: Tid, pc: Pc)
    requires Named(v.pc) && v.pc.o == o && v' == Do(t, o, v) && Enabled(v) && Marks(t, v.pc, o, v.r)
    requires Place(t, v.pc, v.r, v.m)
    requires u != t && Named(pc) && pc.o == o && Place(u, pc, v.r, v.m) && Marks(u, pc, o, v.r)
    requires v.r.indexed <==> v.r.stage.Indexed?
    ensures Place(u, pc, v'.r, v'.m)
  {
  }

  lemma DoOther(t: Tid, o: Obj, v: View, v': View, u: Tid, pc: Pc)
    requires Named(v.pc) && v.pc.o == o && v' == Do(t, o, v) && Enabled(v) && Pair(t, v.pc, o, v.r, v.m)
    requires u != t && (v.r.indexed <==> v.r.stage.Indexed?) && Pair(u, pc, o, v.r, v.m)
    ensures Pair(u, pc, o, v'.r, v'.m)
  {
    hide Do, Marks, Place, Enabled;
    if Named(pc) && pc.o == o {
      DoOtherPlace(t, o, v, v', u, pc);
    }
    DoRecord(t, o, v, v', u);
    SameMarks(u, pc, o, v.r, v'.r);
  }

  lemma DoRecord(t: Tid, o: Obj, v: View, v': View, u: Tid)
    requires Named(v.pc) && v.pc.o == o && v' == Do(t, o, v) && Enabled(v) && Marks(t, v.pc, o, v.r)
    requires u != t && (v.r.indexed <==> v.r.stage.Indexed?) && Place(t, v.pc, v.r, v.m)
    ensures SameFor(u, v.r, v'.r)
  {
    hide SameFor, Marks, Place, Enabled, DoCreate, DoShutdown, DoRemove, DoDestroy;
    if Creating(v.pc) {
      CreateRecord(t, o, v, v', u);
    } else if Shutdown(v.pc) {
      ShutdownRecord(t, o, v, v', u);
    } else if Removing(v.pc) {
      RemoveRecord(t, o, v, v', u);
    } else {
      DestroyRecord(t, o, v, v', u);
    }
  }

  lemma SameMarks(u: Tid, pc: Pc, o: Obj, r: Rec, r': Rec)
    requires SameFor(u, r, r') && Marks(u, pc, o, r)
    ensures Marks(u, pc, o, r')
  {
    hide Owns, Makes, Creates, HoldsLock, HoldsGate;
  }

  /** The thread and any other object. */
  lemma DoElse(t: Tid, o: Obj, v: View, v': View, x: Obj, r: Rec, m: Holder, m': Holder)
    requires Named(v.pc) && v.pc.o == o && v' == Do(t, o, v) && x != o && Pair(t, v.pc, x, r, m)
    ensures Pair(t, v'.pc, x, r, m')
  {
  }

  /** Any other thread and any other object: the lock of the object's map may have changed hands. */
  lemma DoFar(t: Tid, o: Obj, v: View, v': View, u: Tid, pc: Pc, x: Obj, r: Rec)
    requires Named(v.pc) && v.pc.o == o && v' == Do(t, o, v) && Enabled(v) && Pair(t, v.pc, o, v.r, v.m)
    requires u != t && Pair(u, pc, x, r, v.m)
    ensures Pair(u, pc, x, r, v'.m)
  {
  }

  lemma DoSolo(t: Tid, o: Obj, v: View, v': View, ids: set<Obj>, maps: Maps, p: Phase)
    requires Named(v.pc) && v.pc.o == o && v' == Do(t, o, v) && Solo(t, v.pc, ids, maps, p)
    ensures Solo(t, v'.pc, ids, maps.With(v.r.kind, v'.m), p)
  {
  }

  // A whole step of a call

  lemma AdvancePair(s: State, t: Tid, s': State, u: Tid, x: Obj)
    requires Advance(s, t, s') && x in s.objs
    requires PairAt(s, t, Pos(s, t).o) && PairAt(s, u, Pos(s, t).o) && PairAt(s, t, x) && PairAt(s, u, x)
    requires SoloAt(s, t) && Self(s.objs[Pos(s, t).o], s.phase)
    ensures x in s'.objs && PairAt(s', u, x)
  {
    var o := Pos(s, t).o;
    var v := Look(s, t, o);
    var v' := Do(t, o, v);
    DoActor(t, o, v, v');
    hide Do, Named, Enabled, Pair;
    if u == t {
      if x != o {
        DoElse(t, o, v, v', x, s.objs[x], s.maps.Of(s.objs[x].kind), s'.maps.Of(s.objs[x].kind));
      }
    } else if x == o {
      DoOther(t, o, v, v', u, Pos(s, u));
    } else if s.objs[x].kind == v.r.kind {
      DoFar(t, o, v, v', u, Pos(s, u), x, s.objs[x]);
    }
  }

  lemma AdvanceObj(s: State, t: Tid, s': State, x: Obj)
    requires Advance(s, t, s') && x in s.objs
    requires PairAt(s, t, Pos(s, t).o) && ObjAt(s, Pos(s, t).o) && ObjAt(s, x)
    ensures x in s'.objs && ObjAt(s', x)
  {
    var o := Pos(s, t).o;
    var v := Look(s, t, o);
    var v' := Do(t, o, v);
    DoSelf(t, o, v, v', s.phase);
    DoDisp(t, o, v, v', s.disp, s.phase);
    hide Do, Named, Enabled, Pair, DispPair, Self;
  }

  lemma AdvanceSolo(s: State, t: Tid, s': State, u: Tid)
    requires Advance(s, t, s')
    requires PairAt(s, t, Pos(s, t).o) && SoloAt(s, t) && SoloAt(s, u)
    ensures SoloAt(s', u)
  {
    var o := Pos(s, t).o;
    var v := Look(s, t, o);
    assert s'.objs.Keys == s.objs.Keys;
    if u == t {
      DoSolo(t, o, v, Do(t, o, v), s.objs.Keys, s.maps, s.phase);
    }
  }

  /** A call takes and releases the lock of its map, and no other. */
  lemma DoLock(t: Tid, o: Obj, v: View, v': View)
    requires Named(v.pc) && v.pc.o == o && v' == Do(t, o, v) && Enabled(v) && (InMap(v.pc) <==> v.m == Client(t))
    ensures v'.m == v.m || v'.m.Nobody? || v'.m == Client(t)
    ensures v'.m == Client(t) <==> InMap(v'.pc)
    ensures InMap(v'.pc) ==> v'.pc.o == o
  {
  }

  lemma AdvanceMap(s: State, t: Tid, s': State, k: Kind)
    requires Advance(s, t, s') && PairAt(s, t, Pos(s, t).o) && MapOk(s, k)
    ensures MapOk(s', k)
  {
    var o := Pos(s, t).o;
    var v := Look(s, t, o);
    var v' := Do(t, o, v);
    hide Do, Enabled, Marks;
    if k == v.r.kind {
      assert s'.maps.Of(k) == v'.m;
      DoLock(t, o, v, v');
    } else {
      assert s'.maps.Of(k) == s.maps.Of(k);
    }
  }

  lemma AdvanceDrain(s: State, t: Tid, s': State)
    requires Advance(s, t, s') && PairAt(s, t, Pos(s, t).o) && Self(s.objs[Pos(s, t).o], s.phase)
    requires SoloAt(s, t) && DrainOk(s)
    ensures DrainOk(s')
  {
    var o := Pos(s, t).o;
    var v := Look(s, t, o);
    var v' := Do(t, o, v);
    assert v'.r.indexed ==> v.r.indexed || Creating(v.pc);
    if s.phase.Draining? && s.phase.drainer == t {
      assert Drains(v.pc);
      assert Drains(v'.pc) && Todo(v'.pc) == Todo(v.pc);
    }
  }

  lemma AdvanceQueue(s: State, t: Tid, s': State)
    requires Advance(s, t, s') && PairAt(s, t, Pos(s, t).o) && Self(s.objs[Pos(s, t).o], s.phase)
    requires QueueOk(s.queue, s.objs)
    ensures QueueOk(s'.queue, s'.objs)
  {
    var o := Pos(s, t).o;
    var v := Look(s, t, o);
    var v' := Do(t, o, v);
    if v.pc.Post? {
      assert v.r.stage == Held(t);
      assert o !in s.queue;
      assert s'.queue == s.queue + [o];
    } else {
      assert v'.queue == v.queue;
      assert v'.r.stage.Queued? <==> v.r.stage.Queued?;
    }
  }

  lemma AdvanceInv(s: State, t: Tid, s': State)
    requires Advance(s, t, s') && Inv(s)
    ensures Inv(s')
  {
    hide Pair, DispPair, Self, Solo, MapOk, DrainOk, QueueOk, Do, Enabled;
    assert s'.objs.Keys == s.objs.Keys && s'.disp == s.disp && s'.phase == s.phase;
    var o := Pos(s, t).o;
    assert PairAt(s, t, o) && ObjAt(s, o) && SoloAt(s, t);
    forall u, x | x in s'.objs ensures PairAt(s', u, x) {
      assert PairAt(s, u, o) && PairAt(s, t, x) && PairAt(s, u, x);
      AdvancePair(s, t, s', u, x);
    }
    forall x | x in s'.objs ensures ObjAt(s', x) {
      assert ObjAt(s, x);
      AdvanceObj(s, t, s', x);
    }
    forall u ensures SoloAt(s', u) {
      assert SoloAt(s, u);
      AdvanceSolo(s, t, s', u);
    }
    forall k ensures MapOk(s', k) {
      assert MapOk(s, k);
      AdvanceMap(s, t, s', k);
    }
    AdvanceDrain(s, t, s');
    AdvanceQueue(s, t, s');
  }
}
