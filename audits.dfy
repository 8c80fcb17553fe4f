/**
 * The audit record: its actor field with two exclusive forms (a model
 * reference or a username), the before-create hooks that copy the ambient
 * context onto it, and the scopes that select audits by action.
 */
module Audits {
  import opened Values
  import opened Ambient
  import Changes

  const ActionCreate: string := "create"
  const ActionUpdate: string := "update"
  const ActionDestroy: string := "destroy"

  /** The columns of one audit. `userRef` stands for the pair
      `user_type`/`user_id` behind the `user` association. */
  datatype AuditFields = AuditFields(
    action: string,
    auditedChanges: Option<Changes.ChangeSet>,
    comment: Value,
    userRef: Option<ModelRef>,
    username: Value,
    transactionId: Value,
    organizationId: Value,
    remoteAddress: Value)

  /** The `user` getter: the associated model when there is one, the
      username otherwise. */
  function UserOf(f: AuditFields): (r: Value)
    ensures f.userRef.Some? ==> r == Record(f.userRef.value)
    ensures f.userRef.None? ==> r == f.username
  {
    match f.userRef
    case Some(m) => Record(m)
    case None => f.username
  }

  /** At most one of the two forms of the actor is set. */
  predicate ActorExclusive(f: AuditFields) {
    f.userRef.None? || f.username.Nil?
  }

  /** The `user=` setter: both forms are reset, then a model is stored as
      the association and anything else as the username. */
  function AssignUser(f: AuditFields, user: Value): (r: AuditFields)
    ensures UserOf(r) == user
    ensures ActorExclusive(r)
    ensures r.userRef.Some? <==> user.Record?
    ensures r.(userRef := f.userRef, username := f.username) == f
  {
    var cleared := f.(userRef := None, username := Nil);
    match user
    case Record(m) => cleared.(userRef := Some(m))
    case _ => cleared.(username := user)
  }

  /** Assigning a model clears the username; assigning anything else clears
      the model reference; assigning nil leaves both forms and the getter nil. */
  lemma AssignUserForms(f: AuditFields, user: Value)
    ensures user.Record? ==> AssignUser(f, user).userRef == Some(user.ref) && AssignUser(f, user).username == Nil
    ensures !user.Record? ==> AssignUser(f, user).userRef == None && AssignUser(f, user).username == user
    ensures user == Nil ==>
      AssignUser(f, user).userRef == None && AssignUser(f, user).username == Nil && UserOf(AssignUser(f, user)) == Nil
  {
  }

  /** The last assignment decides the actor: assigning twice is assigning
      the second value once. */
  lemma AssignUserTwice(f: AuditFields, first: Value, second: Value)
    ensures AssignUser(AssignUser(f, first), second) == AssignUser(f, second)
  {
  }

  /** `set_audit_user`: the ambient user, when truthy, is assigned through
      `user=`; otherwise the record is left as it is. */
  function SetAuditUserHook(f: AuditFields, slots: Slots): (r: AuditFields)
    ensures Truthy(Lookup(slots, AuditedUser)) ==>
      UserOf(r) == Lookup(slots, AuditedUser) && ActorExclusive(r)
    ensures Truthy(Lookup(slots, AuditedUser)) ==>
      (r.userRef.Some? <==> Lookup(slots, AuditedUser).Record?)
    ensures !Truthy(Lookup(slots, AuditedUser)) ==> r == f
    ensures r.(userRef := f.userRef, username := f.username) == f
  {
    var user := Lookup(slots, AuditedUser);
    if Truthy(user) then AssignUser(f, user) else f
  }

  /** `set_transaction_id`: the ambient transaction id, when truthy,
      overwrites the record's. */
  function SetTransactionIdHook(f: AuditFields, slots: Slots): (r: AuditFields)
    ensures r.transactionId ==
      if Truthy(Lookup(slots, AuditedTransactionId)) then Lookup(slots, AuditedTransactionId) else f.transactionId
    ensures r.(transactionId := f.transactionId) == f
  {
    var t := Lookup(slots, AuditedTransactionId);
    if Truthy(t) then f.(transactionId := t) else f
  }

  /** `set_attributes`: the ambient transaction and organization ids, each
      when truthy, overwrite the record's. */
  function SetAttributesHook(f: AuditFields, slots: Slots): (r: AuditFields)
    ensures r.transactionId ==
      if Truthy(Lookup(slots, AuditedTransactionId)) then Lookup(slots, AuditedTransactionId) else f.transactionId
    ensures r.organizationId ==
      if Truthy(Lookup(slots, AuditedOrganizationId)) then Lookup(slots, AuditedOrganizationId) else f.organizationId
    ensures r.(transactionId := f.transactionId, organizationId := f.organizationId) == f
  {
    var t := Lookup(slots, AuditedTransactionId);
    var withTransaction := if Truthy(t) then f.(transactionId := t) else f;
    var o := Lookup(slots, AuditedOrganizationId);
    if Truthy(o) then withTransaction.(organizationId := o) else withTransaction
  }

  /** The three hooks in the order they are registered. */
  function AmbientHooks(f: AuditFields, slots: Slots): (r: AuditFields)
    ensures Truthy(Lookup(slots, AuditedUser)) ==>
      UserOf(r) == Lookup(slots, AuditedUser) && ActorExclusive(r)
    ensures Truthy(Lookup(slots, AuditedUser)) ==>
      (r.userRef.Some? <==> Lookup(slots, AuditedUser).Record?)
    ensures !Truthy(Lookup(slots, AuditedUser)) ==> r.userRef == f.userRef && r.username == f.username
    ensures r.transactionId ==
      if Truthy(Lookup(slots, AuditedTransactionId)) then Lookup(slots, AuditedTransactionId) else f.transactionId
    ensures r.organizationId ==
      if Truthy(Lookup(slots, AuditedOrganizationId)) then Lookup(slots, AuditedOrganizationId) else f.organizationId
    ensures r.action == f.action && r.auditedChanges == f.auditedChanges && r.comment == f.comment
    ensures r.remoteAddress == f.remoteAddress
  {
    SetAttributesHook(SetTransactionIdHook(SetAuditUserHook(f, slots), slots), slots)
  }

  /** `set_transaction_id` adds nothing once `set_attributes` runs after it. */
  lemma TransactionHookSubsumed(f: AuditFields, slots: Slots)
    ensures SetAttributesHook(SetTransactionIdHook(f, slots), slots) == SetAttributesHook(f, slots)
  {
  }

  /** An audit created inside `as_user(user)`, `with_transaction_id(t)` and
      `with_attributes({audited_organization_id: o})` records `user`, `t`
      and `o`, each when truthy. */
  lemma HooksInsideScopes(f: AuditFields, before: Slots, user: Value, t: Value, o: Value)
    requires Truthy(user) && Truthy(t) && Truthy(o)
    ensures var slots := before[AuditedUser := user][AuditedTransactionId := t][AuditedOrganizationId := o];
      && UserOf(AmbientHooks(f, slots)) == user
      && AmbientHooks(f, slots).transactionId == t
      && AmbientHooks(f, slots).organizationId == o
  {
  }

  /** Outside every scope (the slots read nil, as after each helper
      returns) the hooks change nothing. */
  lemma HooksOutsideScopes(f: AuditFields, slots: Slots)
    requires Lookup(slots, AuditedUser) == Nil
    requires Lookup(slots, AuditedTransactionId) == Nil
    requires Lookup(slots, AuditedOrganizationId) == Nil
    ensures AmbientHooks(f, slots) == f
  {
  }

  /** The audits of `audits` whose action is `action`, in their order. */
  function WithAction(audits: seq<AuditFields>, action: string): (r: seq<AuditFields>)
    ensures forall a :: a in r <==> a in audits && a.action == action
    ensures |r| <= |audits|
    decreases |audits|
  {
    if audits == [] then []
    else
      var rest := WithAction(audits[1..], action);
      assert audits == [audits[0]] + audits[1..];
      if audits[0].action == action then [audits[0]] + rest else rest
  }

  /** Selection keeps relative order: it distributes over concatenation. */
  lemma {:induction false} WithActionAppend(s: seq<AuditFields>, t: seq<AuditFields>, action: string)
    ensures WithAction(s + t, action) == WithAction(s, action) + WithAction(t, action)
    decreases |s|
  {
    if s == [] {
      assert s + t == t;
    } else {
      assert (s + t)[1..] == s[1..] + t;
      WithActionAppend(s[1..], t, action);
    }
  }

  /** The `creates` scope. */
  function Creates(audits: seq<AuditFields>): (r: seq<AuditFields>)
    ensures forall a :: a in r <==> a in audits && a.action == ActionCreate
  {
    WithAction(audits, ActionCreate)
  }

  /** The `updates` scope. */
  function Updates(audits: seq<AuditFields>): (r: seq<AuditFields>)
    ensures forall a :: a in r <==> a in audits && a.action == ActionUpdate
  {
    WithAction(audits, ActionUpdate)
  }

  /** The `destroys` scope. */
  function Destroys(audits: seq<AuditFields>): (r: seq<AuditFields>)
    ensures forall a :: a in r <==> a in audits && a.action == ActionDestroy
  {
    WithAction(audits, ActionDestroy)
  }

  predicate KnownAction(a: AuditFields) {
    a.action == ActionCreate || a.action == ActionUpdate || a.action == ActionDestroy
  }

  /** When every audit is a create, an update or a destroy, the three scopes
      split the audits between them, each audit landing in exactly one. */
  lemma {:induction false} ScopesPartition(audits: seq<AuditFields>)
    requires forall i :: 0 <= i < |audits| ==> KnownAction(audits[i])
    ensures multiset(Creates(audits)) + multiset(Updates(audits)) + multiset(Destroys(audits)) == multiset(audits)
    decreases |audits|
  {
    if audits != [] {
      ScopesPartition(audits[1..]);
      assert audits == [audits[0]] + audits[1..];
      assert KnownAction(audits[0]);
    }
  }

  class Audit {
    var action: string
    var auditedChanges: Option<Changes.ChangeSet>
    var comment: Value
    var userRef: Option<ModelRef>
    var username: Value
    var transactionId: Value
    var organizationId: Value
    var remoteAddress: Value

    /** A new audit from its mass-assignable attributes. */
    constructor (action: string, auditedChanges: Option<Changes.ChangeSet>, comment: Value,
                 transactionId: Value, organizationId: Value)
      ensures Fields() == AuditFields(action, auditedChanges, comment, None, Nil, transactionId, organizationId, Nil)
    {
      this.action := action;
      this.auditedChanges := auditedChanges;
      this.comment := comment;
      this.userRef := None;
      this.username := Nil;
      this.transactionId := transactionId;
      this.organizationId := organizationId;
      this.remoteAddress := Nil;
    }

    function Fields(): AuditFields
      reads this
    {
      AuditFields(action, auditedChanges, comment, userRef, username,
                  transactionId, organizationId, remoteAddress)
    }

    /** `user`. */
    function User(): (r: Value)
      reads this
      ensures userRef.Some? ==> r == Record(userRef.value)
      ensures userRef.None? ==> r == username
    {
      UserOf(Fields())
    }

    /** `user=`. */
    method SetUser(user: Value)
      modifies this
      ensures Fields() == AssignUser(old(Fields()), user)
    {
      userRef, username := None, Nil;
      if user.Record? {
        userRef := Some(user.ref);
      } else {
        username := user;
      }
    }

    method SetAuditUser(store: Store)
      modifies this
      ensures Fields() == SetAuditUserHook(old(Fields()), store.slots)
    {
      var user := store.Get(AuditedUser);
      if Truthy(user) {
        SetUser(user);
      }
    }

    method SetTransactionId(store: Store)
      modifies this
      ensures Fields() == SetTransactionIdHook(old(Fields()), store.slots)
    {
      var t := store.Get(AuditedTransactionId);
      if Truthy(t) {
        transactionId := t;
      }
    }

    method SetAttributes(store: Store)
      modifies this
      ensures Fields() == SetAttributesHook(old(Fields()), store.slots)
    {
      var t := store.Get(AuditedTransactionId);
      if Truthy(t) {
        transactionId := t;
      }
      var o := store.Get(AuditedOrganizationId);
      if Truthy(o) {
        organizationId := o;
      }
    }
  }
}
