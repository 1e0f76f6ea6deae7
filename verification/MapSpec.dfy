/** The synchronized map as a plain value, and what whole runs of its operations do to it. */
module MapSpec {
  import opened RedBlackShape

  /** mama_status, with the codes this library tells apart. */
  datatype Status = OK | NULL_ARG | INVALID_ARG | NOT_FOUND | QUEUE_OPEN_OBJECTS | OTHER(code: nat)

  datatype Option<T> = None | Some(value: T)

  datatype State = State(entries: map<Pointer, Pointer>, count: int)

  const EMPTY := State(map[], 0)

  datatype Op = Insert(data: Pointer, key: Pointer) | Remove(key: Pointer) | For(key: Pointer) | ForEach | RemoveAll

  /** A present key keeps its data, but the counter grows all the same. */
  function Step(s: State, op: Op): State {
    match op
    case Insert(d, k) => State(if k in s.entries then s.entries else s.entries[k := d], s.count + 1)
    case Remove(k) => if k in s.entries then State(s.entries - {k}, s.count - 1) else s
    case For(_) => s
    case ForEach => s
    case RemoveAll => EMPTY
  }

  function Run(ops: seq<Op>): State {
    if ops == [] then EMPTY else Step(Run(ops[..|ops| - 1]), ops[|ops| - 1])
  }

  /** The inserts since the last removeAll that met their key already present. */
  function Repeats(ops: seq<Op>): nat {
    if ops == [] then 0
    else
      var before, last := ops[..|ops| - 1], ops[|ops| - 1];
      if last.RemoveAll? then 0
      else if last.Insert? && last.key in Run(before).entries then Repeats(before) + 1
      else Repeats(before)
  }

  /** The counter exceeds the number of entries by exactly the repeated inserts. */
  lemma {:induction false} CounterOffByRepeats(ops: seq<Op>)
    ensures Run(ops).count == |Run(ops).entries| + Repeats(ops)
    ensures Run(ops).count == |Run(ops).entries| <==> Repeats(ops) == 0
  {
    if ops != [] {
      var before, last := ops[..|ops| - 1], ops[|ops| - 1];
      CounterOffByRepeats(before);
      var s := Run(before);
      if last.Remove? && last.key in s.entries {
        assert (s.entries - {last.key}).Keys == s.entries.Keys - {last.key};
        assert |(s.entries - {last.key}).Keys| == |s.entries.Keys| - 1;
      }
      if last.Insert? && last.key !in s.entries {
        assert s.entries[last.key := last.data].Keys == s.entries.Keys + {last.key};
      }
    }
  }

  /** Operation `i` takes `key` out of the map, whatever was there. */
  predicate Clears(op: Op, key: Pointer) {
    op.RemoveAll? || (op.Remove? && op.key == key)
  }

  /** No operation from index `i` on clears `key`. */
  ghost predicate Undisturbed(ops: seq<Op>, i: nat, key: Pointer) {
    forall j :: i <= j < |ops| ==> !Clears(ops[j], key)
  }

  /** Operation `i` is the insert whose data the map must hold: the first one after the last clearing. */
  ghost predicate Supplies(ops: seq<Op>, i: nat, key: Pointer) {
    && i < |ops| && ops[i].Insert? && ops[i].key == key
    && Undisturbed(ops, i, key)
    && forall j :: 0 <= j < i && ops[j].Insert? && ops[j].key == key ==> !Undisturbed(ops[..i], j, key)
  }

  /** First insert wins: the map holds `d` under `key` iff the supplying insert carried `d`. */
  lemma {:induction false} FirstInsertWins(ops: seq<Op>, key: Pointer, d: Pointer)
    ensures (key in Run(ops).entries && Run(ops).entries[key] == d)
       <==> exists i :: 0 <= i < |ops| && Supplies(ops, i, key) && ops[i].data == d
  {
    if ops == [] {
      return;
    }
    var n := |ops| - 1;
    var before, last := ops[..n], ops[n];
    FirstInsertWins(before, key, d);
    assert forall j :: 0 <= j < n ==> ops[j] == before[j];
    forall i | 0 <= i < n ensures Supplies(ops, i, key) <==> Supplies(before, i, key) && !Clears(last, key) {
      assert ops[..i] == before[..i];
    }
    if last.Insert? && last.key == key {
      assert ops[..n] == before;
      PresentIffSupplied(before, key);
      assert Undisturbed(ops, n, key);
      assert Supplies(ops, n, key) <==> key !in Run(before).entries;
    }
  }

  lemma {:induction false} PresentIffSupplied(ops: seq<Op>, key: Pointer)
    ensures key in Run(ops).entries
       <==> exists i :: 0 <= i < |ops| && ops[i].Insert? && ops[i].key == key && Undisturbed(ops, i, key)
  {
    if ops != [] {
      var n := |ops| - 1;
      var before, last := ops[..n], ops[n];
      PresentIffSupplied(before, key);
      assert forall j :: 0 <= j < n ==> ops[j] == before[j];
      forall i | 0 <= i < n ensures Undisturbed(ops, i, key) <==> Undisturbed(before, i, key) && !Clears(last, key) {
        if Undisturbed(ops, i, key) { assert !Clears(ops[n], key); }
      }
      if last.Insert? && last.key == key { assert Undisturbed(ops, n, key); }
    }
  }
}
