# Audited: capture-context core, modelled in Dafny

This project models the audit-context core of the `audited` gem (version 3.0.0):

- the two change accessors of an audit, `new_attributes` and `old_attributes`;
- the ambient context written by `as_user`, `with_transaction_id` and `with_attributes`;
- the before-create hooks that copy that context onto a new audit;
- the audit's actor field, which is either a model reference or a username;
- the `creates`, `updates` and `destroys` scopes;
- the request interceptor (`Audited::Sweeper`) that fills identity fields from the current controller;
- the module-level settings those pieces read.

Modules, one per component:

- `Values` (values.dfy): Ruby values. Truthiness counts only `nil` and `false` as falsy. Hash keys can be symbols or strings. `Indifferent` gives the meaning of an ordered hash seen by key name: the last entry for each name wins.
- `Changes` (changes.dfy): the change payload and its two accessors. Each accessor is written as the `inject` fold the source uses, and is proved equal to mapping the hash's values.
- `Ambient` (ambient.dfy): the thread-local slots, as the class `Store` with a `map` field. The scoped helpers are methods. The block is an abstract step from slots to a value and new slots.
- `Audits` (audits.dfy): the audit record as the class `Audit`. Its abstract value is `AuditFields`. The record's spec functions are the `user=` setter, the `user` getter and the three hooks. The action scopes are filters over a sequence of audits.
- `Configuration` (configuration.dfy): the settings as the class `Settings`, with their defaults.
- `Sweepers` (sweepers.dfy): the interceptor as the class `Sweeper`, which holds a reference to a controller object. The object is the class `ControllerObject`: a partial map from the method names it responds to to their current values, plus an optional request carrying an IP. The interceptor reads that object when an audit is created, so changes made during the action are seen.

In these places the model follows the code rather than what its comments and tests lead one to expect:

- The scoped helpers set their keys to nil when the block returns. They do not restore the previous value.
- The scoped helpers have no `ensure` clause. If the block raises, the keys are not cleared, although spec/audited/audit_spec.rb:197-204 expects `audited_user` to be nil afterwards.
- The interceptor keeps the controller in one field of a singleton. That field is not per thread, unlike the thread-local slots.
- The interceptor reads a setting `organization_id_method` that `lib/audited.rb` does not declare. It is modelled as one more setting. That setting is optional and unset by default.

## Model

| member | source | states |
|---|---|---|
| `Changes.NewValue` | lib/audited/audit.rb:66 | a list gives its last element (nil when empty); any other value is its own new side |
| `Changes.ToArray` | lib/audited/audit.rb:74 | Ruby's `Array(v)`: nil gives the empty list, a list itself, a hash its entries as two-element lists in order, any other value a one-element list |
| `Changes.OldValue` | lib/audited/audit.rb:74 | the first element of `Array(v)`, or nil when it is empty |
| `Ambient.Lookup` | lib/audited/audit.rb:82-93 | a slot reads the value last written under its name, or nil when nothing was written under it |
| `Changes.Inject` | lib/audited/audit.rb:65-68 | folding the entries into the accumulator gives the accumulator overlaid with every name mapped to `side` of its last value |
| `Changes.NewAttributes` | lib/audited/audit.rb:64-69 | the keys are exactly the payload's attribute names; each maps to the new side of its entry; a nil payload gives the empty map |
| `Changes.OldAttributes` | lib/audited/audit.rb:72-78 | the keys are exactly the payload's attribute names; each maps to `Array(v).first` of its entry; a nil payload gives the empty map |
| `Changes.PairSides` | lib/audited/audit.rb:66-74 | for an `[o, n]` entry, the old side is `o` and the new side is `n` |
| `Changes.ScalarSides` | lib/audited/audit.rb:66-74 | a value that is neither a list nor a hash is its own old side and its own new side, nil included |
| `Changes.HashSides` | lib/audited/audit.rb:66-74 | a hash value passes through as the new side; its old side is its first entry as a pair, or nil when it is empty |
| `Changes.AccessorsAt` | lib/audited/audit.rb:64-78 | with distinct names, every entry's name is in both results, with that entry's new and old side |
| `Changes.PairEntryRoundTrip` | lib/audited/audit.rb:64-78 | an entry stored as `[o, n]` reads back as `o` from `old_attributes` and as `n` from `new_attributes` |
| `Changes.SymbolKeyedExample` | spec/audited/audit_spec.rb:78-90 | `{a: [1, 2], b: [3, 4]}` gives `{"a" => 2, "b" => 4}` and `{"a" => 1, "b" => 3}` |
| `Values.IndifferentAt` | lib/audited/audit.rb:65 | in a hash with distinct key names, each entry reads back under its name |
| `Ambient.Store.AsUser` | lib/audited/audit.rb:32-40 | the block runs with `audited_user = user`; its value is returned; afterwards the slot is nil and every other slot is as the block left it |
| `Ambient.Store.WithTransactionId` | lib/audited/audit.rb:42-47 | the same for `audited_transaction_id` |
| `Ambient.Store.WithAttributes` | lib/audited/audit.rb:50-59 | the block runs on the slots overlaid with the hash; its value is returned; afterwards every key of the hash is nil and every other key is as the block left it |
| `Ambient.Store.WriteEntries` | lib/audited/audit.rb:51-53 | after the first loop, the slots are the old slots overlaid with the hash, where the last entry for each name wins |
| `Ambient.Store.ClearKeys` | lib/audited/audit.rb:55-57 | after the second loop, every key of the hash is nil and every other slot is unchanged |
| `Ambient.AsUserScoping` | lib/audited/audit.rb:32-40 | in the states `AsUser` gives the block and leaves after it, the block reads `user` back; afterwards the slot reads nil, which differs from a truthy value it held before, and every other slot reads what the block left |
| `Ambient.WithAttributesDuringBody` | lib/audited/audit.rb:50-54 | during the block, each entry of the hash reads back from its slot, and a slot the hash does not name reads as before |
| `Ambient.WithAttributesAfterBody` | lib/audited/audit.rb:55-58 | after the block, the hash's keys read nil and the other slots read what the block left |
| `Ambient.WithAttributesQuietBody` | lib/audited/audit.rb:50-59 | for a block that leaves the slots alone, the slots the hash does not name end as they began, and the hash's keys end nil |
| `Audits.UserOf` | lib/audited/adapters/active_record/audit.rb:37-39 | the getter gives the model when a model reference is set, the username otherwise |
| `Audits.AssignUser` | lib/audited/adapters/active_record/audit.rb:26-32 | after `user = x` the getter gives `x` back (model or not); at most one form is set; the model form is set exactly when `x` is a model; no other column changes |
| `Audits.AssignUserForms` | lib/audited/adapters/active_record/audit.rb:26-32 | assigning a model clears the username; assigning anything else clears the model reference; assigning nil leaves both forms and the getter nil |
| `Audits.AssignUserTwice` | lib/audited/adapters/active_record/audit.rb:26-32 | a second assignment fully replaces the first |
| `Audits.SetAuditUserHook` | lib/audited/audit.rb:81-84 | a truthy ambient user becomes the record's user as `user=` stores it: the getter gives it back, the two actor forms stay exclusive, and the model form is set exactly when the user is a model; otherwise the record is unchanged; only the actor columns can change |
| `Audits.SetTransactionIdHook` | lib/audited/audit.rb:92-95 | a truthy ambient transaction id overwrites the record's; otherwise the record keeps its own; nothing else changes |
| `Audits.SetAttributesHook` | lib/audited/audit.rb:86-90 | the same for the transaction id and the organization id, each on its own |
| `Audits.AmbientHooks` | lib/audited/audit.rb:14-16 | the three hooks in their registered order: user, transaction id and organization id are taken from the slots when truthy and kept otherwise; a user taken from the slots is stored as `user=` stores it (exclusive forms, model form exactly for a model); action, changes, comment and remote address are untouched |
| `Audits.TransactionHookSubsumed` | lib/audited/audit.rb:86-95 | running `set_transaction_id` before `set_attributes` has no effect of its own |
| `Audits.HooksInsideScopes` | lib/audited/audit.rb:81-95 | an audit created while the three slots hold truthy values records those values |
| `Audits.HooksOutsideScopes` | lib/audited/audit.rb:81-95 | when the three slots read nil, as after each helper returns, the hooks change nothing |
| `Audits.WithAction` | lib/audited/adapters/active_record/audit.rb:20-22 | an audit is selected exactly when it is in the input and has the given action |
| `Audits.WithActionAppend` | lib/audited/adapters/active_record/audit.rb:20-22 | selection distributes over concatenation, so the input order is kept |
| `Audits.Creates` | lib/audited/adapters/active_record/audit.rb:20 | exactly the audits whose action is `create` |
| `Audits.Updates` | lib/audited/adapters/active_record/audit.rb:21 | exactly the audits whose action is `update` |
| `Audits.Destroys` | lib/audited/adapters/active_record/audit.rb:22 | exactly the audits whose action is `destroy` |
| `Audits.ScopesPartition` | lib/audited/adapters/active_record/audit.rb:20-22 | when every action is one of the three, the three scopes together hold each audit exactly once (as multisets) |
| `Audits.Audit.constructor` | lib/audited/audit.rb:21 | a new audit holds the given mass-assignable attributes, with no actor and no remote address |
| `Audits.Audit.User` | lib/audited/adapters/active_record/audit.rb:37-41 | the record's getter: the model when its reference is set, the username otherwise |
| `Audits.Audit.SetUser` | lib/audited/adapters/active_record/audit.rb:26-34 | the record's columns after `user=` are those `AssignUser` gives |
| `Audits.Audit.SetAuditUser` | lib/audited/audit.rb:81-84 | the record's columns after the hook are those `SetAuditUserHook` gives for the store's slots |
| `Audits.Audit.SetTransactionId` | lib/audited/audit.rb:92-95 | the record's columns after the hook are those `SetTransactionIdHook` gives |
| `Audits.Audit.SetAttributes` | lib/audited/audit.rb:86-90 | the record's columns after the hook are those `SetAttributesHook` gives |
| `Configuration.Settings.constructor` | lib/audited.rb:8-12 | the ignored list is exactly `lock_version, created_at, updated_at, created_on, updated_on` in that order; the user method is `current_user`; the transaction id method is `transaction_id`; `restoring` is false; no audit class and no organization id method are set |
| `Configuration.Settings.SetIgnoredAttributes` | lib/audited.rb:5 | writes the ignored list and leaves every other setting unchanged |
| `Configuration.Settings.SetCurrentUserMethod` | lib/audited.rb:5 | writes the user method name and leaves every other setting unchanged |
| `Configuration.Settings.SetTransactionIdMethod` | lib/audited.rb:5 | writes the transaction id method name and leaves every other setting unchanged |
| `Configuration.Settings.SetOrganizationIdMethod` | lib/audited/sweeper.rb:24 | writes the organization id method name and leaves every other setting unchanged |
| `Configuration.Settings.SetAuditClass` | lib/audited.rb:5 | writes the audit class and leaves every other setting unchanged |
| `Configuration.Settings.SetRestoring` | lib/audited.rb:5 | writes the restoring flag and leaves every other setting unchanged |
| `Sweepers.Dispatch` | lib/audited/sweeper.rb:23-33 | the controller's value for the configured name when there is a controller that responds to that name; nil when there is no controller, no configured name, or no such method |
| `Sweepers.RemoteIp` | lib/audited/sweeper.rb:20 | the request's IP, or nil when there is no controller or no request |
| `Sweepers.Sweep` | lib/audited/sweeper.rb:16-21 | organization id, user (judged by the getter) and transaction id are kept when truthy and taken from the controller otherwise; a user taken from the controller is stored as `user=` stores it: its forms stay exclusive and the model form is set exactly when it is a model; the remote address is always overwritten; action, changes and comment do not change |
| `Sweepers.SweepIdempotent` | lib/audited/sweeper.rb:16-21 | running the interceptor twice is the same as running it once |
| `Sweepers.AmbientWinsOverController` | lib/audited/sweeper.rb:17-19 | a truthy value that the ambient hooks set first (user, transaction id, organization id) survives the interceptor; the address still comes from the request |
| `Sweepers.SweepWithoutController` | lib/audited/sweeper.rb:16-33 | without a controller, every falsy identity field becomes nil and so does the remote address |
| `Sweepers.Sweeper.constructor` | lib/audited/sweeper.rb:5 | the interceptor starts with no controller |
| `Sweepers.Sweeper.Before` | lib/audited/sweeper.rb:7-10 | stores a reference to the controller and returns true |
| `Sweepers.Sweeper.Live` | lib/audited/sweeper.rb:5 | the stored controller's answers as they are now, or none when no controller is stored |
| `Sweepers.Sweeper.After` | lib/audited/sweeper.rb:12-14 | clears the controller |
| `Sweepers.Sweeper.OrganizationId` | lib/audited/sweeper.rb:23-25 | the stored controller's value for the configured organization id method when it responds to that name; nil when there is no controller, no configured name or no such method |
| `Sweepers.Sweeper.TransactionId` | lib/audited/sweeper.rb:27-29 | the stored controller's value for the configured transaction id method when it responds to that name; nil when there is no controller or no such method |
| `Sweepers.Sweeper.CurrentUser` | lib/audited/sweeper.rb:31-33 | the stored controller's value for the configured user method when it responds to that name; nil when there is no controller or no such method |
| `Sweepers.Sweeper.BeforeCreate` | lib/audited/sweeper.rb:16-21 | the audit's columns after the call are those `Sweep` gives for the stored controller's answers at that moment and the current settings |
| `Sweepers.LateSignIn` | lib/audited/sweeper.rb:7-21 | a user the controller reports only after `before` stored it is still the user a new audit records |

## Left out

- Threads: one execution context is modelled. `Thread.current` is one `Store`, and the interceptor's controller reference is one field. Cross-thread isolation is not modelled.
- A block that raises: the block is a total step that always returns. The source clears the keys only after a normal return, so a raise leaves them set. The model says nothing about that path.
- Ambient.Store.WithAttributes: the hash is a value. In Ruby the block could mutate the caller's hash between the two `each` loops, which would change which keys get cleared; the model clears exactly the keys the hash had when the helper was called.
- Restoring an outer value: the source never restores one, and the model claims no such restoration.
- The auditor module (`lib/audited/auditor.rb`) is not part of this model. It covers diff filtering, ignored columns, `without_auditing`, comment-required audits and `on:` options.
- The audited-type registry: `audited_class_names` and `audited_classes` depend on `constantize`, which is runtime class lookup.
- ActiveRecord and ActionController plumbing:
  - `belongs_to`, `serialize` and `attr_accessible`;
  - the callback wiring (`before_create`, `add_observer!`, `define_callback`, `around_filter`).
  - The model assumes the sweeper's callback runs after the three hooks of the audit, because it is defined later.
- `request_uuid`: no code shown sets it.
- The migration templates: they are schema scaffolding only.
- Column type casting: values are stored exactly as assigned, so no string casting of `username` and no integer casting of ids.
- Association details: a model reference stands for the `user_type`/`user_id` pair. Caching, unsaved models and dangling ids are not modelled. A model value is always truthy.
- Setting a method name to nil: Ruby's `respond_to?` would raise. Method names are modelled as strings.
- Methods of `nil` itself: without a controller a lookup gives nil, even for a name that `nil` responds to.
- Sweepers.Dispatch: an unset `organization_id_method` counts as "does not respond" and gives nil. In Ruby, reading the undeclared setting would raise.
- `try`: the model assumes a controller always responds to `request` and a request always responds to `ip`. Their absence is modelled as nil.
- `restoring` and `audit_class`: they are stored only. None of the modelled code reads them.
- Hash keys other than symbols and strings in `audited_changes` or in `with_attributes`.
