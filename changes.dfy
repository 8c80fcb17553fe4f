/**
 * The change payload of an audit (`audited_changes`) and the two accessors
 * that project it onto its new and its old side.
 */
module Changes {
  import opened Values

  /** `audited_changes`: attribute name to an `[old, new]` list, or to a
      single captured value. */
  type ChangeSet = Pairs

  /** The new side of one entry: the last element of a list, any other
      value as it is. */
  function NewValue(v: Value): (r: Value)
    ensures v.List? && v.items != [] ==> r == v.items[|v.items| - 1]
    ensures v.List? && v.items == [] ==> r == Nil
    ensures !v.List? ==> r == v
  {
    match v
    case List(items) => if items == [] then Nil else items[|items| - 1]
    case _ => v
  }

  /** Ruby's `Array(v)`: nil gives the empty list, a list is itself, a hash
      its entries as two-element lists, any other value a one-element list. */
  function ToArray(v: Value): (r: seq<Value>)
    ensures v.Nil? ==> r == []
    ensures v.List? ==> r == v.items
    ensures v.Hash? ==>
      (|r| == |v.pairs| && forall i :: 0 <= i < |r| ==> r[i] == List([v.pairs[i].0, v.pairs[i].1]))
    ensures !v.Nil? && !v.List? && !v.Hash? ==> r == [v]
  {
    match v
    case Nil => []
    case List(items) => items
    case Hash(pairs) => seq(|pairs|, i requires 0 <= i < |pairs| => List([pairs[i].0, pairs[i].1]))
    case _ => [v]
  }

  /** The old side of one entry: `Array(v).first`. */
  function OldValue(v: Value): (r: Value)
    ensures ToArray(v) == [] ==> r == Nil
    ensures ToArray(v) != [] ==> r == ToArray(v)[0]
  {
    var a := ToArray(v);
    if a == [] then Nil else a[0]
  }

  /** Every value of `m` passed through `side`. */
  function MapValues(m: map<string, Value>, side: Value -> Value): (r: map<string, Value>)
    ensures r.Keys == m.Keys
  {
    map k | k in m :: side(m[k])
  }

  /** The `inject` fold of both accessors: store `side(values)` under the
      entry's name, entry after entry, into the accumulator. */
  function Inject(acc: map<string, Value>, changes: ChangeSet, side: Value -> Value): (r: map<string, Value>)
    ensures r == acc + MapValues(Indifferent(changes), side)
    decreases |changes|
  {
    if changes == [] then acc
    else
      var p := changes[0];
      IndifferentCons(p, changes[1..]);
      assert changes == [p] + changes[1..];
      OverlayStep(acc, p.0.name, p.1, Indifferent(changes[1..]), side);
      Inject(acc[p.0.name := side(p.1)], changes[1..], side)
  }

  /** Storing one entry into the accumulator first and the rest after is
      the same as mapping the entry and the rest together. */
  lemma OverlayStep(acc: map<string, Value>, k: string, v: Value, rest: map<string, Value>, side: Value -> Value)
    ensures acc[k := side(v)] + MapValues(rest, side) == acc + MapValues(map[k := v] + rest, side)
  {
    var lhs := acc[k := side(v)] + MapValues(rest, side);
    var rhs := acc + MapValues(map[k := v] + rest, side);
    assert lhs.Keys == rhs.Keys;
    forall x | x in lhs ensures lhs[x] == rhs[x] {
      if x in rest {
      } else if x == k {
      }
    }
  }

  /** `new_attributes`: every attribute of the payload with its new side;
      a nil payload gives the empty map. */
  function NewAttributes(changes: Option<ChangeSet>): (r: map<string, Value>)
    ensures changes.None? ==> r == map[]
    ensures changes.Some? ==> r.Keys == Names(changes.value)
    ensures changes.Some? ==>
      forall k :: k in r ==> r[k] == NewValue(Indifferent(changes.value)[k])
  {
    match changes
    case None => Inject(map[], [], NewValue)
    case Some(c) => Inject(map[], c, NewValue)
  }

  /** `old_attributes`: every attribute of the payload with its old side;
      a nil payload gives the empty map. */
  function OldAttributes(changes: Option<ChangeSet>): (r: map<string, Value>)
    ensures changes.None? ==> r == map[]
    ensures changes.Some? ==> r.Keys == Names(changes.value)
    ensures changes.Some? ==>
      forall k :: k in r ==> r[k] == OldValue(Indifferent(changes.value)[k])
  {
    match changes
    case None => Inject(map[], [], OldValue)
    case Some(c) => Inject(map[], c, OldValue)
  }

  /** An `[old, new]` pair: the two accessors recover its two sides. */
  lemma PairSides(o: Value, n: Value)
    ensures OldValue(List([o, n])) == o
    ensures NewValue(List([o, n])) == n
  {
  }

  /** A single value that is neither a list nor a hash is its own old and
      new side (nil included). */
  lemma ScalarSides(v: Value)
    requires !v.List? && !v.Hash?
    ensures OldValue(v) == v && NewValue(v) == v
  {
  }

  /** A hash-valued entry is passed through as its new side, while its old
      side is its first entry as a pair (or nil when it is empty). */
  lemma HashSides(pairs: seq<(Value, Value)>)
    ensures NewValue(Hash(pairs)) == Hash(pairs)
    ensures OldValue(Hash(pairs)) == if pairs == [] then Nil else List([pairs[0].0, pairs[0].1])
  {
  }

  /** With distinct attribute names, each entry's own old and new sides are
      what the accessors report under its name. */
  lemma AccessorsAt(c: ChangeSet, i: nat)
    requires DistinctNames(c)
    requires i < |c|
    ensures c[i].0.name in NewAttributes(Some(c)) && c[i].0.name in OldAttributes(Some(c))
    ensures NewAttributes(Some(c))[c[i].0.name] == NewValue(c[i].1)
    ensures OldAttributes(Some(c))[c[i].0.name] == OldValue(c[i].1)
  {
    IndifferentAt(c, i);
  }

  /** An entry recorded as `[o, n]` reads back as `o` through
      `old_attributes` and `n` through `new_attributes`. */
  lemma PairEntryRoundTrip(c: ChangeSet, i: nat, o: Value, n: Value)
    requires DistinctNames(c)
    requires i < |c| && c[i].1 == List([o, n])
    ensures OldAttributes(Some(c))[c[i].0.name] == o
    ensures NewAttributes(Some(c))[c[i].0.name] == n
  {
    AccessorsAt(c, i);
  }

  /** The payload `{a: [1, 2], b: [3, 4]}` (symbol keys) gives
      `{"a" => 2, "b" => 4}` and `{"a" => 1, "b" => 3}`. */
  lemma SymbolKeyedExample()
    ensures NewAttributes(Some([(Sym("a"), List([Int(1), Int(2)])), (Sym("b"), List([Int(3), Int(4)]))]))
         == map["a" := Int(2), "b" := Int(4)]
    ensures OldAttributes(Some([(Sym("a"), List([Int(1), Int(2)])), (Sym("b"), List([Int(3), Int(4)]))]))
         == map["a" := Int(1), "b" := Int(3)]
  {
    var c := [(Sym("a"), List([Int(1), Int(2)])), (Sym("b"), List([Int(3), Int(4)]))];
    assert DistinctNames(c);
    assert Names(c) == {"a", "b"} by {
      assert c[0] in c && c[1] in c;
    }
    AccessorsAt(c, 0);
    AccessorsAt(c, 1);
  }
}
