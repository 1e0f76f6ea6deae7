/** Where each session of a connection is, as a plain value, and what holds over whole runs in which the
    steps of overlapping calls interleave in any order. */
module SessionLedger {

  /** `flying` sessions are inside mamaEnv_destroySession, in neither list; `leaked` ones left the lists
      after a status that was not OK, without being freed; `abandoned` ones were still in the list of
      destroyed sessions when the connection was freed. */
  datatype Books<T> = Books(created: seq<T>, active: seq<T>, flying: seq<T>, doomed: seq<T>,
                            freed: seq<T>, leaked: seq<T>, abandoned: seq<T>, phase: Phase)

  /** mamaEnv_destroyConnection: empty the list of sessions, sweep until no destroyed session is left or a
      wait between two sweeps goes wrong, free the connection. `ok`: no wait has gone wrong. */
  datatype Phase = Serving | Closing | Draining(ok: bool) | Retired(ok: bool)

  function Stay<T(==)>(list: seq<T>, out: set<T>): seq<T> {
    if list == [] then []
    else Stay(list[..|list| - 1], out) + if list[|list| - 1] in out then [] else [list[|list| - 1]]
  }

  ghost function Pick<T>(list: seq<T>, chosen: set<T>): seq<T> {
    if list == [] then []
    else Pick(list[..|list| - 1], chosen) + if list[|list| - 1] in chosen then [list[|list| - 1]] else []
  }

  lemma {:induction false} StayHas<T>(list: seq<T>, out: set<T>, x: T)
    ensures x in Stay(list, out) <==> x in list && x !in out
    ensures x in Pick(list, out) <==> x in list && x in out
  {
    if list != [] {
      StayHas(list[..|list| - 1], out, x);
      assert list == list[..|list| - 1] + [list[|list| - 1]];
    }
  }

  lemma StayEmpty<T>(list: seq<T>, out: set<T>)
    ensures Stay(list, out) == [] <==> forall x <- list :: x in out
  {
    forall x ensures x in Stay(list, out) <==> x in list && x !in out {
      StayHas(list, out, x);
    }
    hide Stay;
    if Stay(list, out) != [] {
      assert Stay(list, out)[0] in Stay(list, out);
    }
  }

  lemma {:induction false} PickNone<T>(list: seq<T>, chosen: set<T>)
    ensures chosen == {} ==> Pick(list, chosen) == []
  {
    if list != [] {
      PickNone(list[..|list| - 1], chosen);
    }
  }

  /** createSession put a new session into the list. */
  ghost function Open<T>(b: Books<T>, x: T): Books<T> {
    b.(created := b.created + [x], active := b.active + [x])
  }

  /** destroySession took it out. */
  ghost function Detach<T>(b: Books<T>, x: T): Books<T> {
    b.(active := Stay(b.active, {x}), flying := b.flying + [x])
  }

  /** destroySession put it into the other list, all its events' destroy events being enqueued. */
  ghost function Doom<T>(b: Books<T>, x: T): Books<T> {
    b.(flying := Stay(b.flying, {x}), doomed := b.doomed + [x])
  }

  /** destroySession gave up on it. */
  ghost function Drop<T>(b: Books<T>, x: T): Books<T> {
    b.(flying := Stay(b.flying, {x}), leaked := b.leaked + [x])
  }

  /** The sweep destroyed a closed session and freed it, */
  ghost function Free<T>(b: Books<T>, x: T): Books<T> {
    b.(doomed := Stay(b.doomed, {x}), freed := b.freed + [x])
  }

  /** or took it out and failed to destroy it. */
  ghost function Fail<T>(b: Books<T>, x: T): Books<T> {
    b.(doomed := Stay(b.doomed, {x}), leaked := b.leaked + [x])
  }

  /** The connection and its lists are freed. */
  ghost function Retire<T>(b: Books<T>): Books<T>
    requires b.phase.Draining?
  {
    b.(doomed := [], abandoned := b.abandoned + b.doomed, phase := Retired(b.phase.ok))
  }

  ghost predicate Sweeping(phase: Phase) {
    phase.Serving? || phase.Closing? || (phase.Draining? && phase.ok)
  }

  ghost predicate Next<T>(b: Books<T>, b': Books<T>) {
    || (exists x :: x in b'.created && b.phase.Serving? && x !in b.created && b' == Open(b, x))
    || (exists x :: x in b.active && (b.phase.Serving? || b.phase.Closing?) && b' == Detach(b, x))
    || (exists x :: x in b.flying && (b' == Doom(b, x) || b' == Drop(b, x)))
    || (exists x :: x in b.doomed && Sweeping(b.phase) && (b' == Free(b, x) || b' == Fail(b, x)))
    || Turns(b, b')
  }

  /** The steps of destroyConnection and of the loop it waits for. */
  ghost predicate Turns<T>(b: Books<T>, b': Books<T>) {
    || (b.phase.Serving? && b.flying == [] && b' == b.(phase := Closing))
    // a status was bad: the call returns, and the connection stays
    || (b.phase.Closing? && b.flying == [] && b' == b.(phase := Serving))
    || (b.phase.Closing? && b.active == [] && b.flying == [] && b' == b.(phase := Draining(true)))
    // the wait between two sweeps, which happens only with sessions left
    || (b.phase.Draining? && b.phase.ok && b.doomed != [] && b' == b.(phase := Draining(false)))
    // the loop has ended, for one reason or the other
    || (b.phase.Draining? && (b.phase.ok ==> b.doomed == []) && b' == Retire(b))
  }

  /** One pass over the destroyed sessions: the closed ones are destroyed and, unless that fails, freed. */
  ghost function Sweep<T>(b: Books<T>, closed: set<T>, failing: set<T>): Books<T> {
    b.(doomed := Stay(b.doomed, closed),
       freed := b.freed + Pick(b.doomed, closed - failing),
       leaked := b.leaked + Pick(b.doomed, closed * failing))
  }

  ghost function Total<T>(b: Books<T>): multiset<T> {
    multiset(b.active) + multiset(b.flying) + multiset(b.doomed) + multiset(b.freed) + multiset(b.leaked)
      + multiset(b.abandoned)
  }

  ghost predicate Distinct<T>(s: seq<T>) {
    forall i, j :: 0 <= i < j < |s| ==> s[i] != s[j]
  }

  /** Every created session is in exactly one place, once. */
  ghost predicate Conserved<T>(b: Books<T>) {
    Total(b) == multiset(b.created) && Distinct(b.created)
  }

  lemma {:induction false} StayPick<T>(list: seq<T>, out: set<T>)
    ensures multiset(Stay(list, out)) + multiset(Pick(list, out)) == multiset(list)
  {
    if list != [] {
      var (rest, last) := (list[..|list| - 1], list[|list| - 1]);
      StayPick(rest, out);
      assert list == rest + [last];
      StayPush(rest, last, out);
      PickPush(rest, last, out);
      hide Stay, Pick;
      if last in out {
        assert Stay(list, out) == Stay(rest, out) && Pick(list, out) == Pick(rest, out) + [last];
      } else {
        assert Stay(list, out) == Stay(rest, out) + [last] && Pick(list, out) == Pick(rest, out);
      }
    }
  }

  lemma {:induction false} DistinctCount<T>(s: seq<T>, x: T)
    requires Distinct(s)
    ensures multiset(s)[x] == if x in s then 1 else 0
  {
    if s != [] {
      DistinctCount(s[..|s| - 1], x);
      assert s == s[..|s| - 1] + [s[|s| - 1]];
    }
  }

  /** An element that occurs once leaves nothing else behind. */
  lemma {:induction false} StayOne<T>(list: seq<T>, x: T)
    requires multiset(list)[x] == 1
    ensures multiset(Stay(list, {x})) == multiset(list) - multiset{x}
  {
    StayPick(list, {x});
    PickOne(list, x);
  }

  lemma {:induction false} PickOne<T>(list: seq<T>, x: T)
    ensures multiset(Pick(list, {x})) == multiset{}[x := multiset(list)[x]]
  {
    if list != [] {
      PickOne(list[..|list| - 1], x);
      assert list == list[..|list| - 1] + [list[|list| - 1]];
    }
  }

  lemma DetachConserved<T>(b: Books<T>, x: T)
    requires Conserved(b) && x in b.active
    ensures Conserved(Detach(b, x))
  {
    DistinctCount(b.created, x);
    assert Total(b)[x] == 1;
    StayOne(b.active, x);
  }

  lemma OnceIn<T>(b: Books<T>, x: T)
    requires Conserved(b) && (x in b.flying || x in b.doomed)
    ensures x in b.flying ==> multiset(b.flying)[x] == 1
    ensures x in b.doomed ==> multiset(b.doomed)[x] == 1
  {
    DistinctCount(b.created, x);
    assert Total(b)[x] == 1;
  }

  lemma DoomConserved<T>(b: Books<T>, x: T)
    requires Conserved(b) && x in b.flying
    ensures Conserved(Doom(b, x))
  {
    OnceIn(b, x);
    StayOne(b.flying, x);
    hide Distinct, Stay;
    assert Total(Doom(b, x)) == Total(b);
  }

  lemma DropConserved<T>(b: Books<T>, x: T)
    requires Conserved(b) && x in b.flying
    ensures Conserved(Drop(b, x))
  {
    OnceIn(b, x);
    StayOne(b.flying, x);
    hide Distinct, Stay;
    assert Total(Drop(b, x)) == Total(b);
  }

  lemma FreeConserved<T>(b: Books<T>, x: T)
    requires Conserved(b) && x in b.doomed
    ensures Conserved(Free(b, x))
  {
    OnceIn(b, x);
    StayOne(b.doomed, x);
    hide Distinct, Stay;
    assert Total(Free(b, x)) == Total(b);
  }

  lemma FailConserved<T>(b: Books<T>, x: T)
    requires Conserved(b) && x in b.doomed
    ensures Conserved(Fail(b, x))
  {
    OnceIn(b, x);
    StayOne(b.doomed, x);
    hide Distinct, Stay;
    assert Total(Fail(b, x)) == Total(b);
  }

  /** Where `x` is on its way: not created, active, in flight, doomed, gone. */
  ghost function Place<T>(b: Books<T>, x: T): nat {
    if x in b.freed || x in b.leaked || x in b.abandoned then 4
    else if x in b.doomed then 3
    else if x in b.flying then 2
    else if x in b.active then 1 else 0
  }

  ghost predicate Inv<T>(b: Books<T>) {
    && Conserved(b)
    && (b.phase.Draining? || b.phase.Retired? ==> b.active == [] && b.flying == [])
    && (b.phase.Draining? && !b.phase.ok ==> b.doomed != [])
    && (!b.phase.Retired? ==> b.abandoned == [])
    && (b.phase.Retired? ==> b.doomed == [] && (b.abandoned == [] <==> b.phase.ok))
  }

  /** A step moves no session backwards. */
  lemma NextForward<T>(b: Books<T>, b': Books<T>, x: T)
    requires Next(b, b')
    requires Somewhere(b, x) ==> x in b.created
    ensures Place(b, x) <= Place(b', x)
  {
    hide Stay;
    if y :| y in b.active && b' == Detach(b, y) {
      StayHas(b.active, {y}, x);
    } else if y :| y in b.flying && (b' == Doom(b, y) || b' == Drop(b, y)) {
      StayHas(b.flying, {y}, x);
    } else if y :| y in b.doomed && (b' == Free(b, y) || b' == Fail(b, y)) {
      StayHas(b.doomed, {y}, x);
    } else if Turns(b, b') {
      TurnsForward(b, b', x);
    }
  }

  lemma TurnsForward<T>(b: Books<T>, b': Books<T>, x: T)
    requires Turns(b, b')
    ensures Place(b, x) <= Place(b', x)
  {
  }

  ghost predicate Somewhere<T>(b: Books<T>, x: T) {
    x in b.freed || x in b.leaked || x in b.abandoned || x in b.doomed || x in b.flying || x in b.active
  }

  /** A step keeps the books. */
  lemma NextInv<T>(b: Books<T>, b': Books<T>)
    requires Next(b, b') && Inv(b)
    ensures Inv(b') && b.created <= b'.created && b.freed <= b'.freed && b.leaked <= b'.leaked
  {
    hide Conserved;
    if Turns(b, b') {
      PhaseConserved(b, b'.phase);
      RetireConserved(b);
    } else if x :| x in b'.created && b.phase.Serving? && x !in b.created && b' == Open(b, x) {
      OpenConserved(b, x);
    } else if x :| x in b.active && (b.phase.Serving? || b.phase.Closing?) && b' == Detach(b, x) {
      DetachConserved(b, x);
    } else if x :| x in b.flying && (b' == Doom(b, x) || b' == Drop(b, x)) {
      DoomConserved(b, x);
      DropConserved(b, x);
    } else {
      var x :| x in b.doomed && Sweeping(b.phase) && (b' == Free(b, x) || b' == Fail(b, x));
      FreeConserved(b, x);
      FailConserved(b, x);
    }
  }

  lemma RetireConserved<T>(b: Books<T>)
    requires Conserved(b)
    ensures b.phase.Draining? ==> Conserved(Retire(b))
  {
  }

  lemma OpenConserved<T>(b: Books<T>, x: T)
    requires Conserved(b) && x !in b.created
    ensures Conserved(Open(b, x))
  {
  }

  lemma PhaseConserved<T>(b: Books<T>, phase: Phase)
    requires Conserved(b)
    ensures Conserved(b.(phase := phase))
  {
  }

  lemma OpenNext<T>(b: Books<T>, x: T)
    requires b.phase.Serving? && x !in b.created
    ensures Next(b, Open(b, x))
  {
    assert x in Open(b, x).created;
  }

  lemma DetachNext<T>(b: Books<T>, x: T)
    requires Inv(b) && x in b.active
    ensures Next(b, Detach(b, x)) && (b.phase.Serving? || b.phase.Closing?)
  {
  }

  lemma LandNext<T>(b: Books<T>, x: T)
    requires x in b.flying
    ensures Next(b, Doom(b, x)) && Next(b, Drop(b, x))
  {
  }

  lemma StayOnly<T>(x: T)
    ensures Stay([x], {x}) == []
  {
    assert [x][..0] == [];
  }

  ghost function New<T>(): Books<T> {
    Books([], [], [], [], [], [], [], Serving)
  }

  ghost predicate Run<T>(run: seq<Books<T>>) {
    && run != [] && run[0] == New()
    && (forall i :: 0 <= i < |run| - 1 ==> Next(run[i], run[i + 1]))
  }

  lemma {:induction false} RunInv<T>(run: seq<Books<T>>, i: nat)
    requires Run(run) && i < |run|
    ensures Inv(run[i])
  {
    if i > 0 {
      RunInv(run, i - 1);
      NextInv(run[i - 1], run[i - 1 + 1]);
    }
  }

  lemma {:induction false} RunForward<T>(run: seq<Books<T>>, i: nat, j: nat, x: T)
    requires Run(run) && i <= j < |run|
    ensures Place(run[i], x) <= Place(run[j], x) && run[i].freed <= run[j].freed && run[i].leaked <= run[j].leaked
  {
    hide Next, Place;
    if i < j {
      RunForward(run, i, j - 1, x);
      RunInv(run, j - 1);
      assert Next(run[j - 1], run[j - 1 + 1]);
      NextInv(run[j - 1], run[j]);
      Listed(run[j - 1], x);
      NextForward(run[j - 1], run[j], x);
    }
  }

  lemma Listed<T>(b: Books<T>, x: T)
    requires Conserved(b)
    ensures Somewhere(b, x) <==> x in b.created
  {
    assert x in b.created <==> x in Total(b);
  }

  lemma Unlisted<T>(b: Books<T>, x: T)
    requires Inv(b) && x !in b.created
    ensures x !in b.freed
  {
    Listed(b, x);
  }

  lemma OnePlace<T>(b: Books<T>, x: T)
    requires Conserved(b) && x in b.active
    ensures x in b.created && x !in b.flying && x !in b.doomed && x !in b.freed && x !in b.leaked && x !in b.abandoned
  {
    DistinctCount(b.created, x);
    assert Total(b)[x] == 1;
    assert multiset(b.active)[x] >= 1;
  }

  lemma {:induction false} OnceDistinct<T>(s: seq<T>)
    requires forall x <- s :: multiset(s)[x] == 1
    ensures Distinct(s)
  {
    if s != [] {
      var (n, last) := (|s| - 1, s[|s| - 1]);
      assert s == s[..n] + [last];
      assert multiset(s) == multiset(s[..n]) + multiset{last};
      forall x | x in s[..n] ensures multiset(s[..n])[x] == 1 && x != last {
        assert x in s && multiset(s[..n])[x] >= 1 && multiset(s)[x] == 1;
      }
      OnceDistinct(s[..n]);
      forall i, j | 0 <= i < j < |s| ensures s[i] != s[j] {
        assert s[..n][i] == s[i] && s[i] in s[..n];
        if j < n {
          assert s[..n][j] == s[j];
        }
      }
    }
  }

  lemma ListedDistinct<T>(b: Books<T>)
    requires Conserved(b)
    ensures Distinct(b.active) && Distinct(b.doomed) && forall x <- b.doomed :: x in b.created
  {
    forall x ensures x in b.active ==> multiset(b.active)[x] == 1
             ensures x in b.doomed ==> multiset(b.doomed)[x] == 1 && x in b.created {
      ListedOnce(b, x);
    }
    OnceDistinct(b.active);
    OnceDistinct(b.doomed);
  }

  lemma ListedOnce<T>(b: Books<T>, x: T)
    requires Conserved(b)
    ensures x in b.active ==> multiset(b.active)[x] == 1
    ensures x in b.doomed ==> multiset(b.doomed)[x] == 1 && x in b.created
  {
    DistinctCount(b.created, x);
    assert Total(b)[x] <= 1;
    assert x in Total(b) <==> x in b.created;
  }

  /** Over any run, however calls interleave: every created session is in exactly one place, exactly once,
      so it is freed at most once. */
  lemma EverySessionOnce<T>(run: seq<Books<T>>, x: T)
    requires Run(run)
    ensures var b := run[|run| - 1];
      Total(b)[x] == (if x in b.created then 1 else 0) && multiset(b.freed)[x] <= 1
  {
    RunInv(run, |run| - 1);
    DistinctCount(run[|run| - 1].created, x);
  }

  /** When the connection has been freed: each session has been freed, given up on after a bad status of its
      own, or abandoned. Some are abandoned exactly if a wait went wrong, and each has been freed, once,
      exactly if nothing went wrong. */
  lemma Retirement<T>(run: seq<Books<T>>)
    requires Run(run) && run[|run| - 1].phase.Retired?
    ensures var b := run[|run| - 1];
      && multiset(b.freed) + multiset(b.leaked) + multiset(b.abandoned) == multiset(b.created)
      && (b.abandoned == [] <==> b.phase.ok)
      && (multiset(b.freed) == multiset(b.created) <==> b.leaked == [] && b.phase.ok)
  {
    var b := run[|run| - 1];
    RunInv(run, |run| - 1);
    assert |Total(b)| == |b.created|;
  }

  lemma RunPush<T>(run: seq<Books<T>>, b: Books<T>)
    requires Run(run) && Next(run[|run| - 1], b)
    ensures Run(run + [b])
  {
    hide Next;
    var more := run + [b];
    forall i | 0 <= i < |more| - 1 ensures Next(more[i], more[i + 1]) {
      if i < |run| - 1 {
        assert Next(run[i], run[i + 1]);
      }
    }
  }

  lemma Alone<T>(list: seq<T>, i: nat)
    requires Distinct(list) && i < |list|
    ensures list[i] !in list[..i] && list[i] !in list[i + 1..]
  {
  }

  lemma StayPush<T>(a: seq<T>, x: T, out: set<T>)
    ensures Stay(a + [x], out) == Stay(a, out) + if x in out then [] else [x]
  {
    assert (a + [x])[..|a|] == a;
  }

  lemma PickPush<T>(a: seq<T>, x: T, chosen: set<T>)
    ensures Pick(a + [x], chosen) == Pick(a, chosen) + if x in chosen then [x] else []
  {
    assert (a + [x])[..|a|] == a;
  }

  /** One more element of a list looked at, and taken out if it is in `out`. */
  lemma StayNext<T>(a: seq<T>, x: T, b: seq<T>, out: set<T>, now: seq<T>)
    requires x !in a && x !in b && now == Stay(a, out) + [x] + b
    ensures (if x in out then Stay(now, {x}) else now) == Stay(a + [x], out) + b
  {
    hide Stay;
    StayPush(a, x, out);
    var kept := Stay(a, out);
    if x in out {
      StayHas(a, out, x);
      StayMid(kept, x, b);
    }
  }

  lemma StayIndex<T>(list: seq<T>, i: nat, out: set<T>, now: seq<T>)
    requires Distinct(list) && i < |list| && now == Stay(list[..i], out) + list[i..]
    ensures (if list[i] in out then Stay(now, {list[i]}) else now) == Stay(list[..i + 1], out) + list[i + 1..]
  {
    Alone(list, i);
    hide Stay, Distinct;
    var (before, x, after) := (list[..i], list[i], list[i + 1..]);
    assert list[i..] == [x] + after && list[..i + 1] == before + [x];
    assert now == Stay(before, out) + [x] + after;
    StayNext(before, x, after, out, now);
  }

  /** list_remove_element, for an element that occurs once. */
  lemma {:induction false} StayMid<T>(a: seq<T>, x: T, b: seq<T>)
    requires x !in a && x !in b
    ensures Stay(a + [x] + b, {x}) == a + b
  {
    if b == [] {
      assert (a + [x] + b)[..|a|] == a && a + b == a;
      StayAll(a, x);
    } else {
      var n := |b| - 1;
      assert (a + [x] + b)[..|a| + 1 + n] == a + [x] + b[..n];
      StayMid(a, x, b[..n]);
      assert a + b[..n] + [b[n]] == a + b;
    }
  }

  lemma {:induction false} StayAll<T>(a: seq<T>, x: T)
    requires x !in a
    ensures Stay(a, {x}) == a
  {
    if a != [] {
      StayAll(a[..|a| - 1], x);
      assert a == a[..|a| - 1] + [a[|a| - 1]];
    }
  }

  // A pass over the destroyed sessions, one step at a time

  /** After the first `i` sessions of the list. */
  ghost function Swept<T>(b: Books<T>, i: nat, closed: set<T>, failing: set<T>): Books<T>
    requires i <= |b.doomed|
  {
    b.(doomed := Stay(b.doomed[..i], closed) + b.doomed[i..],
       freed := b.freed + Pick(b.doomed[..i], closed - failing),
       leaked := b.leaked + Pick(b.doomed[..i], closed * failing))
  }

  lemma SweptNext<T>(b: Books<T>, i: nat, closed: set<T>, failing: set<T>)
    requires Distinct(b.doomed) && i < |b.doomed|
    ensures b.doomed[i] in Swept(b, i, closed, failing).doomed
    ensures var (x, now) := (b.doomed[i], Swept(b, i, closed, failing));
      Swept(b, i + 1, closed, failing) ==
        if x !in closed then now else if x in failing then Fail(now, x) else Free(now, x)
  {
    var (x, now) := (b.doomed[i], Swept(b, i, closed, failing));
    assert b.doomed[..i + 1] == b.doomed[..i] + [x];
    assert b.doomed[i..][0] == x;
    StayIndex(b.doomed, i, closed, now.doomed);
    PickPush(b.doomed[..i], x, closed - failing);
    PickPush(b.doomed[..i], x, closed * failing);
    hide Stay, Pick, Distinct;
  }

  /** A pass, step by step, is one sweep. */
  lemma SweptAll<T>(b: Books<T>, closed: set<T>, failing: set<T>)
    ensures Swept(b, 0, closed, failing) == b
    ensures Swept(b, |b.doomed|, closed, failing) == Sweep(b, closed, failing)
  {
    assert b.doomed[..0] == [] && b.doomed[..|b.doomed|] == b.doomed;
  }

  lemma DoomedOnce<T>(b: Books<T>, x: T)
    requires Conserved(b) && x in b.doomed
    ensures x in b.created && x !in b.freed && x !in b.leaked
  {
    DistinctCount(b.created, x);
    assert Total(b)[x] == 1;
    assert multiset(b.doomed)[x] >= 1;
  }
}
