/**
 * The ambient context: the thread-local slots that `as_user`,
 * `with_transaction_id` and `with_attributes` write around a block, and
 * that the before-create hooks of an audit read.
 */
module Ambient {
  import opened Values

  /** The slots of the current thread, by key name; a name never written
      reads as nil. */
  type Slots = map<string, Value>

  /** The block passed to a scoped helper: it sees the slots as they are when
      it starts, returns a value and leaves the slots in some state. */
  type Body = Slots -> (Value, Slots)

  const AuditedUser: string := "audited_user"
  const AuditedTransactionId: string := "audited_transaction_id"
  const AuditedOrganizationId: string := "audited_organization_id"

  /** `Thread.current[name]`: the value last written under `name`, or nil
      when nothing has been written under it. */
  function Lookup(slots: Slots, name: string): (r: Value)
    ensures name in slots ==> r == slots[name]
    ensures name !in slots ==> r == Nil
  {
    if name in slots then slots[name] else Nil
  }

  /** Every name of `names` set to nil. */
  function Cleared(names: set<string>): (m: Slots)
    ensures m.Keys == names
    ensures forall k :: k in m ==> m[k] == Nil
  {
    map k | k in names :: Nil
  }

  class Store {
    var slots: Slots

    /** A thread on which nothing has been written yet. */
    constructor ()
      ensures slots == map[]
    {
      slots := map[];
    }

    function Get(name: string): Value
      reads this
    {
      Lookup(slots, name)
    }

    /** `as_user`: the block runs with `audited_user` set to `user`; after it
        returns, `audited_user` is nil whatever it was before, and the
        block's value is returned. */
    method AsUser(user: Value, body: Body) returns (r: Value)
      modifies this
      ensures r == body(old(slots)[AuditedUser := user]).0
      ensures slots == body(old(slots)[AuditedUser := user]).1[AuditedUser := Nil]
    {
      slots := slots[AuditedUser := user];
      var out := body(slots);
      slots := out.1;
      slots := slots[AuditedUser := Nil];
      r := out.0;
    }

    /** `with_transaction_id`: the same for `audited_transaction_id`. */
    method WithTransactionId(transactionId: Value, body: Body) returns (r: Value)
      modifies this
      ensures r == body(old(slots)[AuditedTransactionId := transactionId]).0
      ensures slots == body(old(slots)[AuditedTransactionId := transactionId]).1[AuditedTransactionId := Nil]
    {
      slots := slots[AuditedTransactionId := transactionId];
      var out := body(slots);
      slots := out.1;
      slots := slots[AuditedTransactionId := Nil];
      r := out.0;
    }

    /** `with_attributes`: every entry of `hash` is written in order, the
        block runs, then every key of `hash` is set to nil; slots that
        `hash` does not name keep whatever the block left in them. */
    method WithAttributes(hash: Pairs, body: Body) returns (r: Value)
      modifies this
      ensures r == body(old(slots) + Indifferent(hash)).0
      ensures slots == body(old(slots) + Indifferent(hash)).1 + Cleared(Names(hash))
    {
      WriteEntries(hash);
      var out := body(slots);
      slots := out.1;
      ClearKeys(hash);
      r := out.0;
    }

    /** The first `hash.each` of `with_attributes`: each entry into its slot. */
    method WriteEntries(hash: Pairs)
      modifies this
      ensures slots == old(slots) + Indifferent(hash)
    {
      var i := 0;
      while i < |hash|
        invariant 0 <= i <= |hash|
        invariant slots == old(slots) + Indifferent(hash[..i])
      {
        WriteStep(old(slots), hash, i);
        slots := slots[hash[i].0.name := hash[i].1];
        i := i + 1;
      }
      assert hash[..|hash|] == hash;
    }

    /** The second `hash.each` of `with_attributes`: each key set to nil. */
    method ClearKeys(hash: Pairs)
      modifies this
      ensures slots == old(slots) + Cleared(Names(hash))
    {
      var i := 0;
      while i < |hash|
        invariant 0 <= i <= |hash|
        invariant slots == old(slots) + Cleared(Names(hash[..i]))
      {
        ClearStep(old(slots), hash, i);
        slots := slots[hash[i].0.name := Nil];
        i := i + 1;
      }
      assert hash[..|hash|] == hash;
    }
  }

  /** One more entry written by the first loop of `with_attributes`. */
  lemma WriteStep(before: Slots, hash: Pairs, i: nat)
    requires i < |hash|
    ensures (before + Indifferent(hash[..i]))[hash[i].0.name := hash[i].1] == before + Indifferent(hash[..i + 1])
  {
    assert hash[..i + 1][..i] == hash[..i];
  }

  /** One more key cleared by the second loop of `with_attributes`. */
  lemma ClearStep(left: Slots, hash: Pairs, i: nat)
    requires i < |hash|
    ensures (left + Cleared(Names(hash[..i])))[hash[i].0.name := Nil] == left + Cleared(Names(hash[..i + 1]))
  {
    assert hash[..i + 1] == hash[..i] + [hash[i]];
    assert Names(hash[..i + 1]) == Names(hash[..i]) + {hash[i].0.name};
  }

  /** Inside `as_user(user)` the block reads `user` back from
      `audited_user`; after it returns the slot reads nil, even when it held
      a truthy value before, and every other slot reads what the block left
      there. `during` and `after` are the states `AsUser` states for the
      block's start and for its own return. */
  lemma AsUserScoping(before: Slots, user: Value, body: Body, other: string)
    requires other != AuditedUser
    ensures var during := before[AuditedUser := user];
      var after := body(during).1[AuditedUser := Nil];
      && Lookup(during, AuditedUser) == user
      && Lookup(after, AuditedUser) == Nil
      && (Truthy(Lookup(before, AuditedUser)) ==> Lookup(after, AuditedUser) != Lookup(before, AuditedUser))
      && Lookup(after, other) == Lookup(body(during).1, other)
  {
  }

  /** Inside `with_attributes(hash)` (distinct key names) every entry of the
      hash reads back from its slot, and every other slot reads as before. */
  lemma WithAttributesDuringBody(before: Slots, hash: Pairs, i: nat, other: string)
    requires DistinctNames(hash)
    requires i < |hash|
    requires other !in Names(hash)
    ensures Lookup(before + Indifferent(hash), hash[i].0.name) == hash[i].1
    ensures Lookup(before + Indifferent(hash), other) == Lookup(before, other)
  {
    IndifferentAt(hash, i);
  }

  /** After `with_attributes(hash)` every key of the hash reads nil, and
      every other slot reads what the block left there. */
  lemma WithAttributesAfterBody(left: Slots, hash: Pairs, name: string)
    ensures name in Names(hash) ==> Lookup(left + Cleared(Names(hash)), name) == Nil
    ensures name !in Names(hash) ==> Lookup(left + Cleared(Names(hash)), name) == Lookup(left, name)
  {
  }

  /** A block that leaves the slots as it found them: after
      `with_attributes(hash)` only the hash's keys differ from before, and
      they read nil. */
  lemma WithAttributesQuietBody(before: Slots, hash: Pairs, name: string)
    ensures name !in Names(hash) ==>
      Lookup(before + Indifferent(hash) + Cleared(Names(hash)), name) == Lookup(before, name)
    ensures name in Names(hash) ==>
      Lookup(before + Indifferent(hash) + Cleared(Names(hash)), name) == Nil
  {
  }
}
