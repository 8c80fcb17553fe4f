/**
 * The Ruby values the audit engine moves around: attribute values, actors,
 * correlation identifiers and the keys of ordered hashes.
 */
module Values {

  datatype Option<+T> = None | Some(value: T)

  /** A persisted model instance, identified by its class name and id. */
  datatype ModelRef = ModelRef(typeName: string, id: int)

  /** A dynamically typed Ruby value, as far as the engine distinguishes them. */
  datatype Value =
    | Nil
    | Bool(b: bool)
    | Int(i: int)
    | Str(s: string)
    | Record(ref: ModelRef)
    | List(items: seq<Value>)
    | Hash(pairs: seq<(Value, Value)>)

  /** Ruby truthiness: only `nil` and `false` are falsy. */
  predicate Truthy(v: Value) {
    match v
    case Nil => false
    case Bool(b) => b
    case _ => true
  }

  /** A hash key: a symbol or a string. Indifferent access and thread-local
      slots both identify a key by its name alone. */
  datatype Key = Sym(name: string) | Text(name: string)

  /** An ordered Ruby hash, as the list of its entries in insertion order. */
  type Pairs = seq<(Key, Value)>

  /** The names used as keys in `pairs`. */
  function Names(pairs: Pairs): set<string> {
    set p | p in pairs :: p.0.name
  }

  /** No two entries share a name. */
  predicate DistinctNames(pairs: Pairs) {
    forall i, j :: 0 <= i < j < |pairs| ==> pairs[i].0.name != pairs[j].0.name
  }

  /** The hash seen through names: each name maps to the value of the last
      entry that uses it. This is the reference meaning of an ordered hash
      with indifferent access. */
  function Indifferent(pairs: Pairs): (m: map<string, Value>)
    ensures m.Keys == Names(pairs)
  {
    if pairs == [] then map[]
    else
      var init, last := pairs[..|pairs| - 1], pairs[|pairs| - 1];
      assert pairs == init + [last];
      Indifferent(init)[last.0.name := last.1]
  }

  /** Consing an entry in front is overridden by any later entry of the same name. */
  lemma {:induction false} IndifferentCons(p: (Key, Value), rest: Pairs)
    ensures Indifferent([p] + rest) == map[p.0.name := p.1] + Indifferent(rest)
    decreases |rest|
  {
    if rest == [] {
      assert [p] + rest == [p];
      assert ([p] + rest)[..0] == [];
    } else {
      var init, last := rest[..|rest| - 1], rest[|rest| - 1];
      var whole := [p] + rest;
      assert whole[..|whole| - 1] == [p] + init;
      assert whole[|whole| - 1] == last;
      calc {
        Indifferent(whole);
        Indifferent([p] + init)[last.0.name := last.1];
        { IndifferentCons(p, init); }
        (map[p.0.name := p.1] + Indifferent(init))[last.0.name := last.1];
        map[p.0.name := p.1] + Indifferent(init)[last.0.name := last.1];
        map[p.0.name := p.1] + Indifferent(rest);
      }
    }
  }

  /** With distinct names, every entry can be read back by its name. */
  lemma {:induction false} IndifferentAt(pairs: Pairs, i: nat)
    requires DistinctNames(pairs)
    requires i < |pairs|
    ensures pairs[i].0.name in Indifferent(pairs)
    ensures Indifferent(pairs)[pairs[i].0.name] == pairs[i].1
    decreases |pairs|
  {
    var init, last := pairs[..|pairs| - 1], pairs[|pairs| - 1];
    assert pairs == init + [last];
    if i < |pairs| - 1 {
      assert DistinctNames(init);
      IndifferentAt(init, i);
      assert pairs[i].0.name != last.0.name;
    }
  }
}
