/** The key to object index of a session: a red-black tree and an entry counter. The lock is left
    out here: every method is one critical section. */
module SynchronizedMap {
  import opened RedBlackColour
  import opened RedBlackOrder
  import opened RedBlackShape
  import opened RedBlackTree
  import opened MapSpec

  /** The map a strictly ascending sequence of entries stands for. */
  ghost function MapOf(s: seq<Entry>): map<Pointer, Pointer> {
    if s == [] then map[] else MapOf(s[..|s| - 1])[s[|s| - 1].key := s[|s| - 1].data]
  }

  ghost function DataOf(s: seq<Entry>): seq<Pointer> {
    seq(|s|, i requires 0 <= i < |s| => s[i].data)
  }

  lemma {:induction false} MapOfAppend(a: seq<Entry>, b: seq<Entry>)
    ensures MapOf(a + b) == MapOf(a) + MapOf(b)
  {
    if b == [] {
      assert a + b == a;
    } else {
      var b', x := b[..|b| - 1], b[|b| - 1];
      MapOfAppend(a, b');
      assert (a + b)[..|a + b| - 1] == a + b';
    }
  }

  lemma {:induction false} MapOfLacks(s: seq<Entry>, key: Pointer)
    requires forall x <- s :: x.key != key
    ensures key !in MapOf(s)
  {
    if s != [] {
      MapOfLacks(s[..|s| - 1], key);
    }
  }

  /** The entry at index `i`, seen among the others. */
  lemma MapOfHolds(s: seq<Entry>, i: nat)
    requires Sorted(s) && i < |s|
    ensures s[i].key in MapOf(s) && MapOf(s)[s[i].key] == s[i].data
    ensures MapOf(Without(s, i)) == MapOf(s) - {s[i].key}
  {
    hide MapOf, Sorted;
    var a, x, b := s[..i], s[i], s[i + 1..];
    assert s == a + [x] + b;
    Pivot(a, x, b);
    MapOfSplit(a, x, b);
    assert MapOf(s) == MapOf(a + b)[x.key := x.data];
  }

  lemma MapOfSplit(a: seq<Entry>, x: Entry, b: seq<Entry>)
    requires forall y <- a :: y.key != x.key
    requires forall y <- b :: y.key != x.key
    ensures MapOf(a + [x] + b) == MapOf(a + b)[x.key := x.data]
    ensures x.key !in MapOf(a + b)
  {
    MapOfLacks(a, x.key);
    MapOfLacks(b, x.key);
    MapOfAppend(a, b);
    MapOfAppend(a, [x]);
    MapOfAppend(a + [x], b);
    assert MapOf([x]) == map[x.key := x.data] by { assert [x][..0] == []; }
  }

  lemma {:induction false} MapOfSize(s: seq<Entry>)
    requires Sorted(s)
    ensures |MapOf(s)| == |s|
  {
    if s != [] {
      var s', x := s[..|s| - 1], s[|s| - 1];
      MapOfSize(s');
      MapOfLacks(s', x.key);
      assert MapOf(s).Keys == MapOf(s').Keys + {x.key};
    }
  }

  /** The status of the first call that did not return OK, or OK. */
  ghost function FirstError(callback: (nat, Pointer) -> Status, calls: seq<Pointer>): Status {
    if calls == [] then OK
    else
      var before := FirstError(callback, calls[..|calls| - 1]);
      if before.OK? then callback(|calls| - 1, calls[|calls| - 1]) else before
  }

  /** Which call that is. */
  lemma {:induction false} FirstErrorFirst(callback: (nat, Pointer) -> Status, calls: seq<Pointer>)
    ensures FirstError(callback, calls) == OK ==> forall i :: 0 <= i < |calls| ==> callback(i, calls[i]) == OK
    ensures FirstError(callback, calls) != OK ==>
      exists i :: 0 <= i < |calls| && FirstError(callback, calls) == callback(i, calls[i])
               && forall j :: 0 <= j < i ==> callback(j, calls[j]) == OK
  {
    if calls != [] {
      var (n, front) := (|calls| - 1, calls[..|calls| - 1]);
      FirstErrorFirst(callback, front);
      if FirstError(callback, front) != OK {
        var i :| 0 <= i < |front| && FirstError(callback, front) == callback(i, front[i])
              && forall j :: 0 <= j < i ==> callback(j, front[j]) == OK;
        assert callback(i, calls[i]) == callback(i, front[i]);
        forall j | 0 <= j < i ensures callback(j, calls[j]) == OK {
          assert front[j] == calls[j];
        }
      } else {
        forall i | 0 <= i < n ensures callback(i, calls[i]) == OK {
          assert front[i] == calls[i];
        }
      }
    }
  }

  lemma DataOfPrefix(s: seq<Entry>, n: nat)
    requires n <= |s|
    ensures DataOf(s[..n]) <= DataOf(s) && |DataOf(s[..n])| == n && s[..|s|] == s
  {
  }

  lemma OneMoreCall(callback: (nat, Pointer) -> Status, gone: seq<Entry>, x: Entry)
    ensures DataOf(gone + [x]) == DataOf(gone) + [x.data]
    ensures FirstError(callback, DataOf(gone) + [x.data])
         == var before := FirstError(callback, DataOf(gone)); if before.OK? then callback(|gone|, x.data) else before
  {
    var calls := DataOf(gone) + [x.data];
    assert calls[..|calls| - 1] == DataOf(gone);
  }

  class SynchronizedMap {
    const tree: Tree
    var numberEntries: int
    ghost var repr: set<object>

    constructor ()
      ensures Valid() && fresh(repr) && {this, tree} <= repr && Abs() == EMPTY
    {
      tree := new Tree();
      numberEntries := 0;
      new;
      repr := {this, tree};
    }

    ghost predicate Valid()
      reads this, repr
    {
      this in repr && tree in repr && tree.repr <= repr && tree.Valid()
    }

    /** The abstract state: the entries as a plain map, and the counter. */
    ghost function Abs(): State
      reads this, tree
    {
      State(MapOf(tree.Order()), numberEntries)
    }

    /** synchronizedMap_insert, for an allocation that succeeds. */
    method Insert(data: Pointer, key: Pointer) returns (ret: Status)
      requires Valid()
      modifies repr
      ensures Valid() && old(repr) <= repr && fresh(repr - old(repr))
      ensures ret == OK && Abs() == Step(old(Abs()), Op.Insert(data, key))
    {
      hide Sorted, MapOf, InOrder, Balanced, Tree.At;
      var entry := new Entry(data, key);
      ghost var before := tree.Order();
      ghost var at, visits;
      var found;
      found, at, visits := tree.Insert(entry);
      numberEntries := numberEntries + 1;
      repr := repr + tree.repr;
      ret := OK;
      if found == null {
        assert before == before[..at] + before[at..];
        MapOfSplit(before[..at], entry, before[at..]);
      } else {
        ghost var i :| 0 <= i < |before| && before[i] == found;
        MapOfHolds(before, i);
      }
    }

    /** The critical section of synchronizedMap_remove: the entry goes, and the counter is not touched. */
    method TakeOut(key: Pointer) returns (entry: Entry?)
      requires Valid()
      modifies repr - {this}
      ensures Valid()
      ensures Abs() == old(Abs()).(entries := old(Abs()).entries - {key})
      ensures entry != null <==> key in old(Abs()).entries
      ensures entry != null ==> entry.data == old(Abs()).entries[key]
    {
      hide Sorted, MapOf, InOrder, Balanced, Tree.At;
      ghost var before := tree.Order();
      ghost var visits;
      entry, visits := tree.Find(key);
      if entry != null {
        OrderNodes();
        ghost var at;
        var removed;
        removed, at := tree.Remove(entry);
        MapOfHolds(before, at);
      } else {
        MapOfLacks(before, key);
      }
    }

    /** synchronizedMap_remove: the data goes to `data` only when the key was found. The lock is released
        before the counter is decremented; what another call may do in between is in LifecycleCounter. */
    method Remove(key: Pointer) returns (ret: Status, data: Pointer)
      requires Valid()
      modifies repr
      ensures Valid() && repr == old(repr)
      ensures Abs() == Step(old(Abs()), Op.Remove(key))
      ensures ret == if key in old(Abs()).entries then OK else INVALID_ARG
      ensures ret == OK ==> data == old(Abs()).entries[key]
    {
      hide MapOf, Tree.Valid, Tree.Order;
      ret, data := INVALID_ARG, NULL;
      var entry := TakeOut(key);
      if entry != null {
        data := entry.data;
        numberEntries := numberEntries - 1;
        ret := OK;
      }
    }

    lemma OrderNodes()
      requires Valid()
      ensures forall x <- tree.Order() :: x in tree.repr
      ensures Sorted(tree.Order())
    {
      InOrderNodes(tree.shape);
    }

    /** synchronizedMap_for: `callback` gives the status of the one call that may be made. */
    method For(callback: Option<(nat, Pointer) -> Status>, key: Pointer) returns (ret: Status, calls: seq<Pointer>)
      requires Valid()
      ensures callback.None? || key == NULL ==> ret == NULL_ARG && calls == []
      ensures callback.Some? && key != NULL && key !in Abs().entries ==> ret == NOT_FOUND && calls == []
      ensures callback.Some? && key != NULL && key in Abs().entries ==>
        calls == [Abs().entries[key]] && ret == callback.value(0, Abs().entries[key])
    {
      hide Sorted, MapOf, InOrder, Balanced, Tree.At;
      calls := [];
      if callback.None? || key == NULL {
        return NULL_ARG, calls;
      }
      ret := NOT_FOUND;
      var entry, _ := tree.Find(key);
      if entry != null {
        ret := callback.value(0, entry.data);
        calls := [entry.data];
        ghost var i :| 0 <= i < |tree.Order()| && tree.Order()[i] == entry;
        OrderNodes();
        MapOfHolds(tree.Order(), i);
      } else {
        MapOfLacks(tree.Order(), key);
      }
    }

    /** synchronizedMap_foreach: `callback(i, d)` is the status of call number i, made on data d. */
    method ForEach(callback: (nat, Pointer) -> Status, ignoreErrors: bool) returns (ret: Status, calls: seq<Pointer>)
      requires Valid()
      ensures calls <= DataOf(tree.Order())
      ensures ret == FirstError(callback, calls)
      ensures ignoreErrors || ret == OK ==> calls == DataOf(tree.Order())
      ensures !ignoreErrors && ret != OK ==> calls != [] && FirstError(callback, calls[..|calls| - 1]) == OK
    {
      hide Sorted, MapOf, InOrder, Balanced, Tree.At;
      assert FirstError(callback, []) == OK && DataOf([]) == [];
      hide FirstError, DataOf;
      ret, calls := OK, [];
      ghost var order := tree.Order();
      var nextEntry, _ := tree.MinMax(-1);
      while nextEntry != null
        invariant |calls| <= |order| && calls == DataOf(order[..|calls|])
        invariant nextEntry == if |calls| < |order| then order[|calls|] else null
        invariant ret == FirstError(callback, calls)
        invariant !ignoreErrors ==> ret == OK
        decreases |order| - |calls|
      {
        ghost var n := |calls|;
        var cbret := callback(|calls|, nextEntry.data);
        OneMoreCall(callback, order[..n], nextEntry);
        calls := calls + [nextEntry.data];
        assert order[..n + 1] == order[..n] + [nextEntry] && calls[..n] == DataOf(order[..n]);
        if ret == OK {
          ret := cbret;
        }
        if !ignoreErrors && ret != OK {
          break;
        }
        nextEntry := tree.Next(nextEntry, n);
      }
      DataOfPrefix(order, |calls|);
    }

    /** synchronizedMap_removeAll: the tree moves into a local one, which is then taken apart. */
    method RemoveAll(callback: Option<(nat, Pointer) -> Status>)
      returns (ret: Status, calls: seq<Pointer>, ghost gone: seq<Entry>)
      requires Valid()
      modifies repr
      ensures Valid() && repr == old(repr) && Abs() == EMPTY
      ensures multiset(gone) <= multiset(old(tree.Order()))
      ensures |gone| == Least(old(Abs()).count, |old(Abs()).entries|)
      ensures old(Abs()).count >= |old(Abs()).entries| ==> multiset(gone) == multiset(old(tree.Order()))
      ensures callback.None? ==> ret == OK && calls == []
      ensures callback.Some? ==> calls == DataOf(gone) && ret == FirstError(callback.value, calls)
    {
      hide Sorted, MapOf, Balanced, Tree.At;
      ghost var order := tree.Order();
      EmptyMap();
      MapOfSize(order);
      var entriesLeft := numberEntries;
      var localTree := new Tree();
      localTree.CopyFrom(tree);
      tree.Init();
      numberEntries := 0;
      ret, calls, gone := TearDown(localTree, entriesLeft, callback);
    }
  }

  ghost function Least(count: int, size: nat): nat {
    if count < 0 then 0 else if count < size then count else size
  }

  lemma EmptyMap()
    ensures MapOf([]) == map[]
  {
  }

  lemma WithoutOne(s: seq<Entry>, i: nat)
    requires i < |s|
    ensures multiset(s) == multiset(Without(s, i)) + multiset([s[i]])
  {
    assert s == s[..i] + [s[i]] + s[i + 1..];
  }

  /** The root of the tree, if any, is taken out. */
  method RemoveRoot(tree: Tree) returns (rootEntry: Entry?)
    requires tree.Valid()
    modifies tree, tree.repr
    ensures tree.Valid() && tree.repr <= old(tree.repr)
    ensures rootEntry == null <==> old(tree.Order()) == []
    ensures rootEntry == null ==> tree.Order() == []
    ensures rootEntry != null ==> multiset(old(tree.Order())) == multiset(tree.Order()) + multiset([rootEntry])
    ensures rootEntry != null ==> |old(tree.Order())| == |tree.Order()| + 1
  {
    hide Sorted, InOrder, Balanced, Tree.At, Tree.Valid;
    tree.RootIn();
    rootEntry := tree.root;
    if rootEntry != null {
      ghost var order := tree.Order();
      ghost var at;
      var removed;
      removed, at := tree.Remove(rootEntry);
      WithoutOne(order, at);
    }
  }

  /** The loop of synchronizedMap_removeAll: as long as the count lasts, the root goes. */
  method TearDown(tree: Tree, entries: int, callback: Option<(nat, Pointer) -> Status>)
    returns (ret: Status, calls: seq<Pointer>, ghost gone: seq<Entry>)
    requires tree.Valid()
    modifies tree, tree.repr
    ensures tree.Valid() && multiset(tree.Order()) + multiset(gone) == multiset(old(tree.Order()))
    ensures |gone| == Least(entries, |old(tree.Order())|)
    ensures callback.None? ==> ret == OK && calls == []
    ensures callback.Some? ==> calls == DataOf(gone) && ret == FirstError(callback.value, calls)
  {
    hide Sorted, InOrder, Balanced, Tree.At, Tree.Valid, Tree.Order;
    assert callback.Some? ==> FirstError(callback.value, []) == OK && DataOf([]) == [];
    hide FirstError, DataOf;
    ghost var all := tree.Order();
    var entriesLeft := entries;
    ret, calls, gone := OK, [], [];
    while entriesLeft > 0
      invariant tree.Valid() && tree.repr <= old(tree.repr)
      invariant multiset(tree.Order()) + multiset(gone) == multiset(all)
      invariant |tree.Order()| + |gone| == |all|
      invariant |gone| + entriesLeft == entries && (entries < 0 ==> gone == []) && (entries >= 0 ==> entriesLeft >= 0)
      invariant callback.None? ==> ret == OK && calls == []
      invariant callback.Some? ==> calls == DataOf(gone) && ret == FirstError(callback.value, calls)
    {
      var rootEntry := RemoveRoot(tree);
      if rootEntry == null {
        break;
      }
      if callback.Some? {
        OneMoreCall(callback.value, gone, rootEntry);
        var cbret := callback.value(|calls|, rootEntry.data);
        calls := calls + [rootEntry.data];
        if ret == OK {
          ret := cbret;
        }
      }
      gone := gone + [rootEntry];
      entriesLeft := entriesLeft - 1;
    }
  }
}
