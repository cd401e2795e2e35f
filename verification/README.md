# Glue controller: the Database resource manager, verified

A Dafny model of the part of the AWS Glue controller that drives a Glue database toward a desired
spec, and of the smaller machines around it, with proofs about every input, every run and every
interleaving.

The controller reads a database, creates it if it is not there, and otherwise compares it with the
desired spec and repairs the difference with at most one untag call, one tag call and one update call.
Any call may fail. The model follows that path from the payload builders and the drift relation up to
whole runs of passes; beside it stand the condition list, the resource-manager cache, the generated
deep copies and the Job controller's role references.

## Layout

| file | contents |
|---|---|
| `Types.dfy` | Kubernetes and SDK shapes, error values |
| `Tags.dfy` | tag conversions, AWS-owned and system tags |
| `Identifiers.dfy` | ARNs and the manager cache key |
| `Glue.dfy` | the service: store, clock, fault schedule, log of writing calls |
| `TagSync.dfy` | the untag/tag protocol |
| `Conditions.dfy` | the condition list as a value, and its histories |
| `Resource.dfy` | the mutable Database and its condition entries; `updateConditions`, `onError`, `onSuccess` |
| `Delta.dfy` | the drift relation |
| `Sdk.dfy` | payloads, `sdkFind`, `sdkCreate`, `sdkUpdate` |
| `Manager.dfy` | `ReadOne`, `Create`, `Update`, `LateInitialize`, tag upkeep |
| `RoundTrip.dfy` | what comes back of a spec that was sent and stored |
| `Repairs.dfy` | what one update and one create call repair, and what they leave |
| `Iteration.dfy`, `Convergence.dfy` | passes and whole runs |
| `DeepCopy.dfy` | the generated deep copies on a heap of cells, slices and maps |
| `ManagerCache.dfy` | the two-lock protocol of `ManagerFor` |
| `JobReferences.dfy` | resolving and clearing a Job's role reference |

`dafny verify dfyconfig.toml` checks the whole project.

## How it is modelled

- Methods follow the Go code and change objects in place: a `Database` (`ko`), the entries of its
  condition list, `acktags.Tags` maps, a `Delta`, the shared client, the manager cache. Each is proved
  against a function on values, and the theorems are about those functions. Go's struct-valued
  `Spec` is one field of type `DatabaseSpec`; a nil pointer, slice or map is `None`.
- The fault schedule is a function from clock ticks to errors. Theorems about runs hold for every
  schedule, so for every pattern of failures.
- The loop of passes (read; create when not found; update when there is a delta) is the one the comment at
  `pkg/resource/database/manager.go:143-146` leaves to the caller.

Assumed of code outside the repository, each written out as a function:

- `ackcompare.GetTagsDifference` is a difference of (key, value) pairs; `acktags.Merge` keeps existing keys;
  `HasNilDifference`, `IsNilEqualsZero`, the two map equalities, `Delta.DifferentAt`/`DifferentExcept` and the
  semantic `DeepEqual` (nil equals empty) are as in `Delta.dfy`; `aws.ToStringMap` reads nil as `""`;
  `ValidateCrossNamespaceReference` is `JobReferences.TargetNamespace`; the runtime's condition helpers set the
  first entry of a type.
- The service keeps one input per (catalog, folded name) and one tag map per ARN. The catalog defaults to
  the account, absent table permissions to a default of the service, and the name is folded to lower case
  (`apis/v1alpha1/database.go:45-46`; ASCII letters here). An update replaces the whole input. On a resource link an absent description or
  location is answered as `""` (`pkg/resource/database/delta_test.go:48`). Calls that tag or untag a key starting with
  `aws:` are refused (`pkg/resource/database/tags.go:84-91`). A database's ARN is formed from the caller's own
  partition, region and account.
- `errors.As` walks `Wrapped` and `TerminalError` chains.

## Where the code does not do what one might expect

- A spec comes back from the service without drift exactly when it is `RoundTrip.Admissible`: its name is in
  lower-case form, its catalog is named, no parameter value is nil, and table permissions are given unless the service has no
  default. A run gets in sync exactly when its start is `Convergence.Settleable` (`RunConverges`, `NeverInSync`,
  `FewFaultsSettle`): the spec is admissible, or what is stored agrees with it already; it asks for no `aws:` tag the resource
  lacks; and no True Terminal entry hides a missing database. No pass changes any of this. From any other start a run is never in
  sync under any schedule: where the spec is the reason, it is updated again by every pass that goes through
  (`InadmissibleNeverSettles`, `CatalogLeftOut`); where one of the others is, no stored database ever changes
  (`BlockedNothingChanges`, `AwsTagAskedFor`, `NotFoundHidden`). Late initialisation supplies the catalog and the permissions
  (`RoundTrip.LateInitMakesAdmissible`, `Convergence.LateInitializedSettles`).
- The ARN computed after a create is the database's own exactly when its name is in the stored form (`RoundTrip.CreatedARNIsOwn`).
- A tag sync that succeeds leaves the desired tags exactly when its idea of the current tags agreed with the
  resource (`TagSync.SyncLands`; `TagSync.StaleSyncStrays` is one that does not).
- Terminal and Recoverable can both be True (`Conditions.BothCanBeTrue`). `onError` also answers Terminal for
  a True Terminal entry before the last one, which then hides "not found" (`Conditions.NotFoundGetsThrough`,
  `Conditions.BuriedTerminalHidesNotFound`).
- A key has one manager from a state on exactly when it is cached and no call of it is between its two locks
  (`ManagerCache.OneManagerExactly`); racing calls can get two (`ManagerCache.RacingCallsGetTwo`). A call can be handed the manager
  of another account exactly when two triples in use share a key with differing numbers of slashes
  (`ManagerCache.ManagersServeTheirKey`, `ManagerCache.SlashesMixManagers`). ARNs and colons are alike
  (`Identifiers.DatabaseARNDetermines`, `Identifiers.SharedWithJob`).
- `ResolveReferences` says it returns a copy (`pkg/resource/job/references.go:52-55`) but works on the caller's object
  (`pkg/resource/job/references.go:64`); the model follows the code. Clearing undoes resolving exactly for jobs that did
  not set both `Role` and `RoleRef`.

## Model

| member | source | states |
|---|---|---|
| Convergence.RunConserves | pkg/resource/database/sdk.go:343-388 | for every spec, over any number of passes and any failures: debt owed at the start (creation, or untag + tag + update, each if it has something to do) = calls that paid + debt left, so at most three calls ever pay; every successful call pays, except creates and updates of a spec that is not admissible; every call made, failed ones included, is safe for AWS-owned tags |
| Convergence.RunConverges | pkg/resource/database/manager.go:143-167 | for every spec: once one pass of a run is free of faults, the database exists and shows no drift, then and after any further passes whatever fails in them, if and only if the start was settleable: the spec admissible or already in agreement with the store, no `aws:` tag asked for that the resource lacks, and "not found" not hidden from a caller whose database is missing |
| Convergence.RunLeavesResidue | pkg/resource/database/manager.go:143-167 | what is owed then and ever after, for every start: nothing if settleable; the drift alone if only the spec is in the way, so that its tags have landed; with an `aws:` tag out of reach the tag call and the update not reached |
| Convergence.NeverInSync | pkg/resource/database/manager.go:143-167 | under every schedule of failures a run from any other start is in sync after no number of passes |
| Convergence.FewFaultsSettle | pkg/resource/database/manager.go:143-167 | if at most f ticks of the schedule are faulty, after f + 1 passes and ever after exactly that residue is owed, and the run is in sync if and only if the start was settleable |
| Convergence.FaultsSpoilFewPasses | pkg/resource/database/manager.go:143-146 | of n passes at most as many meet a fault as there are faulty ticks |
| Convergence.LateInitializedSettles | pkg/resource/database/manager.go:211-272 | late initialisation, then runs: with at most f faulty ticks f + 1 passes end in sync if and only if the name is in its stored form, no parameter value is nil and no `aws:` tag is asked for that the resource lacks |
| Convergence.BlockedNothingChanges | pkg/resource/database/sdk.go:354-367 | under every schedule: while an `aws:` tag is asked for that the resource lacks, or a missing database goes unseen, no stored database is ever created or changed |
| Convergence.AwsTagAskedFor | pkg/resource/database/sdk.go:354-367 | a concrete spec with such a tag: never created |
| Convergence.NotFoundHidden | pkg/resource/database/manager.go:401-413 | a concrete admissible spec whose condition list hides "not found": never created |
| Convergence.PassKeepsProspects | pkg/resource/database/manager.go:97-167 | no pass, whatever fails in it, changes whether the spec is repairable, whether it asks for an `aws:` tag the resource lacks, or whether a missing database goes unseen; and while the last two block it, no stored database |
| Convergence.PassConserves | pkg/resource/database/manager.go:97-167 | one pass under any failures lowers the debt by exactly the number of calls that pay, keeps admissibility, existence and safety |
| Convergence.CalmPassSettles | pkg/resource/database/sdk.go:354-380 | a pass without faults leaves exactly the residue owed; if only the spec is in the way, it makes a successful writing call |
| Convergence.SettledPassIsQuiet | pkg/resource/database/sdk.go:354-366 | with nothing owed a pass makes no writing call, except a refused create after a spurious "not found" that reaches the caller |
| Convergence.NothingOwed | pkg/resource/database/delta.go:34-141 | the debt is zero if and only if the database exists and the delta of the mirrored spec against the read is empty |
| Convergence.InSyncExactly | pkg/resource/database/delta.go:45-138 | in sync, field by field: every field of the spec agrees with what is read back, permission entries and their principals included, and the wanted tags are those of the resource |
| Convergence.InadmissibleNeverSettles | pkg/resource/database/sdk.go:364-380 | under every schedule a spec that is not admissible, unless the store agrees with it already, is never in sync; and if nothing else is in the way, at least as many writing calls succeed as there are passes without faults |
| Repairs.RepairableExactly | pkg/resource/database/sdk.go:93-170 | a spec that is not admissible can agree with the store only if it leaves out table permissions and none are stored; without a catalog, with a name not folded or with a nil parameter value it never does |
| Convergence.CatalogLeftOut | pkg/resource/database/sdk.go:364-380 | a concrete spec without a catalog: never in sync, and a successful writing call in every pass |
| Repairs.PutStageClears | pkg/resource/database/sdk.go:368-381 | an update call that succeeds clears the drift outside the tags if and only if the spec is admissible; a failed one changes nothing |
| Repairs.TagStageConserves | pkg/resource/database/sdk.go:354-363 | the tag stage pays one debt per successful call, and on success leaves exactly the desired tags |
| Repairs.TagStageKeepsForeign | pkg/resource/database/tags.go:84-91 | under any failures the tag stage neither brings nor loses an `aws:` tag the user asks for, and with one missing it fails |
| Repairs.TagStageIsSafe | pkg/resource/database/manager.go:353-365 | with mirrored AWS tags every call of the tag stage is safe |
| Repairs.CreatedOwes | pkg/resource/database/sdk.go:225-240 | a successful create owes nothing but, for a spec that is not admissible, one update |
| Convergence.Reconcile | pkg/resource/database/manager.go:143-146 | one pass of the operations has the effect on world and desired spec that the run theorems speak about, with a "not found" hidden by the condition list a read and nothing more |
| Convergence.ReconcileTimes | pkg/resource/database/manager.go:143-146 | n passes of the operations are the n-step run of the theorems |
| Convergence.CreatesExactly | pkg/resource/database/manager.go:143-146 | a pass makes a create call if and only if its read says that the database is missing (no name, no such database, an error with the code EntityNotFoundException, or NotFound itself) and that is not hidden; no other error leads to one |
| RoundTrip.StoredComesBack | pkg/resource/database/sdk.go:93-170 | for every spec: built, stored and read back it shows no drift outside its tags if and only if it is admissible |
| RoundTrip.CreateThenRead | pkg/resource/database/sdk.go:225-339 | after a create call that succeeded, a read shows an empty delta if and only if the spec is admissible, tags included |
| RoundTrip.WritesLeaveTheSpec | pkg/resource/database/sdk.go:270-339 | a successful create or update leaves every field of the spec, nested permissions included, in the store under its own name, and touches no other database |
| RoundTrip.CreatedARNIsOwn | pkg/resource/database/sdk.go:259-263 | the ARN computed after a create is that of the stored database if and only if the name is in its stored form |
| RoundTrip.PermissionsReturn | pkg/resource/database/sdk.go:277-300 | the nested permission loops of the payload and of the read undo each other |
| RoundTrip.FindReadsBack | pkg/resource/database/sdk.go:57-184 | a read that succeeds returns the stored database with its own ARN and the other metadata as it was or the manager's; without faults it fails only for a missing database, as NotFound |
| RoundTrip.ReadErrors | pkg/resource/database/sdk.go:70-90 | an error of GetDatabase becomes NotFound if and only if its code is EntityNotFoundException, and is otherwise handed on, as is every error of GetTags; a nameless spec is not found without a call |
| RoundTrip.ThrottledIsNotMissing | pkg/resource/database/sdk.go:80-86 | a throttled read ends with the throttling error |
| RoundTrip.ReadTakesTheResponse | pkg/resource/database/sdk.go:93-170 | every field of the response arrives in its own field of the spec, nil as nil, permissions entry by entry |
| RoundTrip.CreateAnswers | pkg/resource/database/sdk.go:225-240 | which error a create ends with, if any, and that a failed one changes nothing |
| RoundTrip.LateInitMakesAdmissible | pkg/resource/database/manager.go:259-272 | a late-initialised spec is admissible if and only if its name is folded and no parameter value is nil |
| RoundTrip.LocatedByManager | pkg/resource/database/sdk.go:503-521 | region, partition and account each on its own: what is set stays, what is not is the manager's |
| TagSync.SyncResourceTags | pkg/tags/sync.go:61-118 | the two-call protocol has the effect and the error of `Synced`, whatever fails |
| TagSync.SyncLands | pkg/tags/sync.go:74-117 | a successful sync leaves the desired tags if and only if the believed tags agreed with the resource; from the tags as read it always does |
| TagSync.StaleSyncStrays | pkg/tags/sync.go:74-117 | a concrete sync from stale tags that succeeds and leaves a tag nobody wants |
| TagSync.SyncNeverStrays | pkg/tags/sync.go:90-116 | in every outcome each key holds its old or its desired value, or is absent because it was or is not desired; nothing else changes |
| TagSync.SyncErrors | pkg/tags/sync.go:90-116 | the error of a sync is that of the call that failed, and a sync with nothing to do has none |
| TagSync.UntagAndTagDisjoint | pkg/tags/sync.go:77-83 | no key is both untagged and tagged, and the deletion loop leaves exactly the keys the user does not want |
| TagSync.KeysToRemove | pkg/tags/sync.go:79-88 | the two loops yield the removed keys that are not also added |
| TagSync.SyncConservesDebt | pkg/tags/sync.go:90-116 | each successful call of a sync lowers the tag debt by one, each failed call by none |
| TagSync.SyncIsSafe | pkg/tags/sync.go:77-115 | from a mirrored desired state no call untags an `aws:` key or tags one the resource has, failed and stale syncs included |
| TagSync.CalmSync | pkg/tags/sync.go:90-116 | without faults a sync from a mirrored state fails if and only if it has an `aws:` tag to add, and then its untagging is done |
| TagSync.GetResourceTags | pkg/tags/sync.go:36-57 | the tags of the resource, or the error |
| Tags.ConvertToOrderedACKTags | pkg/resource/database/tags.go:36-52 | nil maps have no tags, nil values are empty |
| Tags.FromACKTags | pkg/resource/database/tags.go:58-67 | every key with a non-nil pointer to its value |
| Tags.IgnoreSystemTags | pkg/resource/database/tags.go:74-81 | deletes in place exactly the `aws:` and system keys |
| Tags.SyncAWSTags | pkg/resource/database/tags.go:102-108 | overwrites in place exactly the `aws:` entries, also when both maps are one |
| Tags.TagRoundTrip | pkg/resource/database/tags.go:36-67 | to the hub and back is the identity if and only if no value is nil |
| Tags.FilterRemovesExactly | pkg/resource/database/manager.go:330-340 | filtering keeps a tag, with its value, if and only if it is neither `aws:` nor a system tag |
| Tags.FilterIdempotent | pkg/resource/database/manager.go:330-340 | filtering twice is filtering once |
| Tags.FilterForgetsMirror | pkg/resource/database/manager.go:353-365 | filtering after mirroring AWS tags equals filtering alone |
| Tags.MirrorsExactly | pkg/resource/database/manager.go:353-365 | mirroring leaves at each key the latest value of an `aws:` tag the latest resource has, else the desired one |
| Tags.NilTagsRead | pkg/resource/database/tags.go:36-52 | a nil map has no tags, a nil value reads as the empty string |
| Tags.EnsureTagsKeepsUserTags | pkg/resource/database/manager.go:285-309 | default tags are added, the user's keep their values, nothing else appears, and a second call changes nothing |
| Deltas.NewResourceDelta | pkg/resource/database/delta.go:34-141 | the comparison reports, in order, exactly the paths at which the normal forms differ; a single nil resource is one difference |
| Deltas.DeltaIsNormalForm | pkg/resource/database/delta.go:45-138 | the delta is empty if and only if the normal forms are equal |
| Deltas.NoDriftIsEquivalence | pkg/resource/database/delta.go:45-138 | "no drift" is reflexive, symmetric and transitive |
| Deltas.DriftIsSymmetric | pkg/resource/database/delta.go:45-138 | both directions report the same paths |
| Deltas.NormalIsNormal | pkg/resource/database/delta.go:45-138 | the normal form is one, and does not drift from its spec |
| Deltas.StringFieldDrift | pkg/resource/database/delta.go:45-94 | a change of one string field is reported at its path and nowhere else; nil equals "" for description and location only |
| Deltas.CollectionFieldDrift | pkg/resource/database/delta.go:95-113 | parameters, permissions and tags report only their own path; nil equals empty, a nil tag value equals "" (what makes two entries differ: PermissionsDrift) |
| Deltas.StructFieldDrift | pkg/resource/database/delta.go:61-138 | a struct set on one side is reported whole, one set on both field by field |
| Deltas.SemanticEqualIsNormalEqual | pkg/resource/database/delta.go:102-108 | the semantic comparison of permission lists is equality of normal forms |
| Deltas.QuestionsOfDelta | pkg/resource/database/sdk.go:354-366 | DifferentAt tags iff the tag values differ; DifferentExcept tags iff something else does |
| Deltas.DriftExactly | pkg/resource/database/delta.go:45-138 | for any two specs and each path, the exact difference that reports it, whatever else differs; no other path is ever reported |
| Deltas.PermissionsDrift | pkg/resource/database/delta.go:102-108 | a change of the permissions is reported, and alone, if and only if the lengths, the nil-ness, the principal or the permissions of some entry differ |
| Sdk.SdkFind | pkg/resource/database/sdk.go:57-184 | the read's effect, NotFound mapping, and a fresh result with the observed spec, complete metadata and the argument's conditions |
| Sdk.BuildPermissions | pkg/resource/database/sdk.go:277-300 | the nested loops send every entry and permission in order |
| Sdk.ReadPermissions | pkg/resource/database/sdk.go:98-123 | the nested loops read every entry and permission in order |
| Sdk.BuildInput | pkg/resource/database/sdk.go:276-336 | the request body both payload builders make |
| Sdk.ReadSpec | pkg/resource/database/sdk.go:93-170 | the spec overwritten field by field with the response |
| Sdk.SdkCreate | pkg/resource/database/sdk.go:216-266 | one create call; on success a fresh copy with its ARN, on failure nothing |
| Sdk.SdkUpdate | pkg/resource/database/sdk.go:343-388 | tags first, then the database; an error of the first stage stops the second; the desired object itself is returned when only tags differed; an ARN is needed only for the tags |
| Sdk.UpdateErrors | pkg/resource/database/sdk.go:354-382 | an error of the tag sync is the update's and ends it, a fault of the update call is the update's; with nothing reported no call is made |
| Manager.ReadOne | pkg/resource/database/manager.go:97-115 | on an error nothing of the argument changes, on success only its tags, which mirror the AWS ones; the result is fresh, and on success its metadata is complete |
| Manager.Create | pkg/resource/database/manager.go:120-137 | effect, conditions and error of a create; its metadata is that of the desired resource with the gaps filled in, and after a success the new ARN |
| Manager.Update | pkg/resource/database/manager.go:147-167 | effect, conditions, metadata and error of an update; a failed one reports on the latest resource; the desired object itself comes back when only tags differed and no condition entry is concerned |
| Manager.MirrorAWSTags | pkg/resource/database/manager.go:353-365 | the desired tags with the latest resource's `aws:` tags over them, nothing else of the spec changed |
| Manager.EnsureTags | pkg/resource/database/manager.go:292-309 | the merged tags in place, nothing else of the spec changed |
| Manager.FilterSystemTags | pkg/resource/database/manager.go:330-340 | the filtered tags in place, nothing else of the spec changed |
| Manager.LateInitialize | pkg/resource/database/manager.go:211-247 | the copy with AWS tags mirrored and the two fields filled in, or on a failed read the copy marked as not late-initialised and not synced, its metadata as it was; the resource passed in is not written to |
| Manager.LateInitializeFromReadOneOutput | pkg/resource/database/manager.go:259-272 | a fresh copy that differs only in the two fields, where they were nil |
| Manager.LateInitRemovesExactly | pkg/resource/database/manager.go:259-272 | against the observation exactly the CatalogID and TableDefaultPermissions paths whose field was nil disappear |
| Manager.LateInitOperationRemovesExactly | pkg/resource/database/manager.go:211-272 | with the mirroring of its read the whole operation removes those two paths, and the tags path if and only if just AWS-owned tags differed and the spec has none the observation lacks |
| Manager.LateInitKeeps | pkg/resource/database/manager.go:265-270 | nothing but the two fields changes, each to the observed value where it was nil; a set value is never overwritten; doing it again changes nothing, even against a later observation |
| Manager.LateInitFailureIsMarked | pkg/resource/database/manager.go:226-231 | after a failed read LateInitialized and ResourceSynced are False in their first entries, the first with its message, and every other entry is untouched |
| Conditions.UpdatedStep | pkg/resource/database/sdk.go:548-591 | one outcome decides Terminal and, unless terminal, Recoverable, and keeps the rest |
| Conditions.EntriesAfterUpdate | pkg/resource/database/sdk.go:548-591 | both entries after any outcome, with status and message |
| Conditions.TerminalClassExactly | pkg/resource/database/sdk.go:548-549 | every error, by its chain: terminal if and only if its API code is InvalidInputException, a layer is a TerminalError, or it is one of the two secret errors unwrapped |
| Conditions.ErrorsAreFiled | pkg/resource/database/sdk.go:548-591 | accordingly each error sets Terminal and leaves Recoverable, or sets Recoverable and leaves Terminal not True, with its message |
| Conditions.ErrorsAreReturned | pkg/resource/database/manager.go:401-413 | accordingly, with at most one Terminal entry, `onError` answers Terminal or hands the error back as it is |
| Conditions.ReportsExactly | pkg/resource/database/sdk.go:592-597 | an update is reported if and only if there is an error or an entry of type Terminal, Recoverable or ResourceSynced |
| Types.ChainsUnwrap | pkg/resource/database/sdk.go:603-617 | what `errors.As` finds in a chain of any depth: the code of the API error at its end, a TerminalError layer anywhere |
| Types.EveryErrorIsAChain | pkg/resource/database/sdk.go:548-549 | every error is such a chain |
| Conditions.HistoryKeeps | pkg/resource/database/sdk.go:525-598 | after any history types stay in place, the list grows only at its end by a missing Terminal or Recoverable entry, and every other entry is untouched |
| Conditions.HistoryKeepsUniqueness | pkg/resource/database/sdk.go:537-579 | no history duplicates a type |
| Conditions.HistoryDecidesStatus | pkg/resource/database/sdk.go:548-591 | Terminal is True iff the last outcome was terminal, Recoverable iff the last other outcome was an error |
| Conditions.AnyTerminalAfterUpdate | pkg/resource/database/manager.go:405-413 | some Terminal entry is True after an outcome iff it was terminal or an earlier entry already was; with at most one entry only the first |
| Conditions.ErrorFromScan | pkg/resource/database/manager.go:401-413 | the scan of `onError` returns Terminal in exactly those cases, else the error itself |
| Conditions.NotFoundGetsThrough | pkg/resource/database/manager.go:108-113 | a read's "not found" reaches the caller iff no Terminal entry before the last is True |
| Conditions.BuriedTerminalHidesNotFound | pkg/resource/database/manager.go:401-413 | a concrete list for which it does not |
| Conditions.BothCanBeTrue | pkg/resource/database/sdk.go:549-564 | a recoverable then a terminal error leave both True |
| Resource.Database.DeepCopy | apis/v1alpha1/zz_generated.deepcopy.go:2966-2984 | equal values, every condition entry a fresh object, no two the same |
| Resource.SetStatusDefaults | pkg/resource/database/sdk.go:503-521 | fills what is unset, keeps what is set |
| Resource.UpdateConditions | pkg/resource/database/sdk.go:525-598 | edits a copy through pointers so that its list is the updated value; nothing of the input is written to |
| Resource.OnError | pkg/resource/database/manager.go:394-414 | always a fresh updated copy for a non-nil resource, and the error of `ErrorAfter` |
| Resource.OnSuccess | pkg/resource/database/manager.go:418-429 | the resource itself iff no entry is concerned, else an updated copy |
| Resource.FindEntries | pkg/resource/database/sdk.go:537-547 | the loop ends with the last entry of each type |
| DeepCopies.SpecCell.DeepCopyInto | apis/v1alpha1/zz_generated.deepcopy.go:2878-2953 | the copy has the input's value and every object below it is new, although it starts as an alias |
| DeepCopies.PermissionsCell.DeepCopyInto | apis/v1alpha1/zz_generated.deepcopy.go:6889-6907 | the same for a permissions entry, its slice of pointers and its principal |
| DeepCopies.PrincipalCell.DeepCopyInto | apis/v1alpha1/zz_generated.deepcopy.go:2319-2326 | the same for a principal, stated for its field |
| DeepCopies.FederatedCell.DeepCopyInto | apis/v1alpha1/zz_generated.deepcopy.go:3959-3971 | the same for a federated database, stated for each field |
| DeepCopies.IdentifierCell.DeepCopyInto | apis/v1alpha1/zz_generated.deepcopy.go:2749-2766 | the same for a database identifier, stated for each field |
| DeepCopies.CopyMap | apis/v1alpha1/zz_generated.deepcopy.go:2905-2920 | a fresh map with fresh cells and the same values, nil values included |
| DeepCopies.CopySlice | apis/v1alpha1/zz_generated.deepcopy.go:6891-6901 | a fresh slice of fresh cells with the same values |
| DeepCopies.CopyList | apis/v1alpha1/zz_generated.deepcopy.go:2921-2931 | a fresh list of deep copies, nil entries included |
| DeepCopies.ScalarsTell | apis/v1alpha1/zz_generated.deepcopy.go:2878-2953 | equal values of two specs mean agreement pointer by pointer, and all of those pointers are among the objects a copy makes new |
| DeepCopies.ListTells | apis/v1alpha1/zz_generated.deepcopy.go:2921-2931 | equal values of two permission lists mean agreement entry by entry, and every entry's objects are among the new ones |
| DeepCopies.EntryTells | apis/v1alpha1/zz_generated.deepcopy.go:6889-6907 | equal values of two entries mean equal permissions and principals, pointer by pointer |
| DeepCopies.ValueCells | pkg/tags/sync.go:53-55 | the pointers that `GetResourceTags` and `fromACKTags` (tags.go:58-67) make for tag values are pairwise distinct new cells |
| ManagerCache.ManagersServeTheirKey | pkg/resource/database/manager_factory.go:61-79 | for any set of arguments: in every interleaving of calls from it each returned manager carries the account and region of its call, if and only if arguments of the set that share a key have as many slashes in account and in region |
| ManagerCache.CachedManagersServe | pkg/resource/database/manager_factory.go:61-79 | and then each manager cached under the key of arguments of the set carries theirs |
| ManagerCache.ManagersAreNotShared | pkg/resource/database/manager_factory.go:61-79 | for any set of arguments: in every interleaving of calls from it, calls that return one manager have the same account, region and role ARN, if and only if the set tells its keys apart |
| ManagerCache.SlashFreeIsToldApart | pkg/resource/database/manager_factory.go:61 | accounts and regions without slashes meet that condition |
| ManagerCache.KeysStay | pkg/resource/database/manager_factory.go:61-79 | no key leaves the cache |
| ManagerCache.EntryChangesOnlyByStore | pkg/resource/database/manager_factory.go:70-77 | a cached entry changes iff a call that missed on its key stores |
| ManagerCache.EntryFixed | pkg/resource/database/manager_factory.go:61-79 | a cached key with no call between its locks is fixed for ever, and every later call of it returns that manager |
| ManagerCache.EntryFixedExactly | pkg/resource/database/manager_factory.go:61-79 | a cached entry is the same in every future if and only if no call of its key is between its two locks |
| ManagerCache.OneManagerExactly | pkg/resource/database/manager_factory.go:61-79 | in every future all calls of a key that have yet to return get one manager, if and only if the key is cached and no call of it is between its two locks |
| ManagerCache.CacheIsBuilt | pkg/resource/database/manager_factory.go:76-77 | in every reachable state each cached manager is one that was built |
| ManagerCache.RacingCallsGetTwo | pkg/resource/database/manager_factory.go:62-77 | two racing calls of one key return different managers |
| ManagerCache.SlashesMixManagers | pkg/resource/database/manager_factory.go:61 | for every account with a slash, a call that returns its manager for another account |
| ManagerCache.ResourceManagerFactory.ManagerFor | pkg/resource/database/manager_factory.go:48-79 | a call on its own is its lookup and, on a miss, its store |
| Identifiers.Printed | pkg/resource/database/hooks.go:42-45 | the printed forms of both ARNs and of the cache key on an example |
| Identifiers.DatabaseARNDetermines | pkg/resource/database/hooks.go:42-45 | two databases that share an ARN agree in all four parts if and only if partitions, regions and accounts have as many colons |
| Identifiers.DatabaseARNInjective | pkg/resource/database/hooks.go:42-45 | with colon-free partition, region and account an ARN determines all four parts |
| Identifiers.DatabaseARNIsNoJobARN | pkg/resource/job/hooks.go:42-48 | no database ARN equals a job ARN whose location has as many colons |
| Identifiers.SharedWithJob | pkg/resource/job/hooks.go:42-48 | some names give a database and a job of two given locations one ARN if and only if one of the ARNs without names begins with the other |
| Identifiers.JobsCollide | pkg/resource/job/hooks.go:42-48 | an account with a colon lets a database share the ARN of a job |
| Identifiers.ColonsCollide | pkg/resource/database/hooks.go:42-45 | a colon moved from region to account leaves the ARN as it is |
| Identifiers.ManagerKeyDetermines | pkg/resource/database/manager_factory.go:61 | two triples that share a cache key have one account and region if and only if both have as many slashes in each, and then one role ARN |
| Identifiers.ManagerKeyInjective | pkg/resource/database/manager_factory.go:61 | with slash-free account and region a cache key determines account, region and role ARN |
| JobReferences.ClearUndoesResolve | pkg/resource/job/references.go:42-75 | whatever the lookup says, clearing after resolving restores the spec iff not both Role and RoleRef were set |
| JobReferences.ResolveClearResolve | pkg/resource/job/references.go:42-75 | resolve, clear, resolve equals resolve iff not both were set or the lookup succeeds |
| JobReferences.ResolvedRoleIsUsable | pkg/resource/job/references.go:59-176 | resolving changes nothing but Role; it is set if and only if the role of that name in the namespace allowed is usable, then to its ARN, and the call reports an error exactly when Role was set as well; a call without an error on a spec with a reference ends with a Role |
| JobReferences.FailedLookups | pkg/resource/job/references.go:99-120 | each reason for a lookup to fail has its error, in order, goes before any validation error, and leaves the spec as it is |
| JobReferences.VerdictSays | pkg/resource/job/references.go:143-175 | what makes a role usable, and which of three objections is raised against one that is not |
| JobReferences.NamespaceReached | pkg/resource/job/references.go:104-110 | an absent or empty namespace is the job's own, another is reached only if that is enabled |
| JobReferences.NothingToResolve | pkg/resource/job/references.go:79-101 | a spec without a reference is left alone; both fields set and neither set have each their error; a RoleRef without From passes with no Role |
| JobReferences.GetReferencedResourceState | pkg/resource/job/references.go:128-176 | the two scans accept a role iff it is usable, for condition lists of any length |
| JobReferences.ResolveReferenceForRole | pkg/resource/job/references.go:94-122 | what it writes to the job, and each error |
| JobReferences.ResolveReferences | pkg/resource/job/references.go:59-75 | works on the caller's object; the lookup's error goes before the validation's |
| JobReferences.ClearResolvedReferences | pkg/resource/job/references.go:42-50 | works on a copy |

## Left out

- TagSync.GetResourceTags: does not tell the pointers it makes from one another, because pointers in a spec are values here; `DeepCopies.ValueCells` shows that they are pairwise distinct.
- Delete, `ARNFromName`, `IsSynced`, `incompleteLateInitialization`, descriptors and identifiers: single calls or constants.
- The post-create error wrapper (`pkg/resource/database/sdk.go:251-258`): no statement after it can fail.
- Message texts, timestamps and trace logging: a message is the error it is made from.
- Pointers to strings inside a spec are values outside `DeepCopy.dfy`, so that `&rm.awsRegion` and pointers into a response are not told apart from copies; no modelled code assigns through them.
- Request contexts, metrics, the Kubernetes object's own metadata and the default tags' text: parameters or not modelled.
- The Job twins of the Database files, and the deep copies of other types: they repeat the patterns proved here.
- The copied metadata and condition structs' own deep copies belong to the ACK runtime and are values here.
- A list with a nil condition entry, and a spec with a nil permission pointer or list entry: the code dereferences both without a check, so the methods require their absence (`Sdk.PanicFree`).
- Tag maps of two catalogs' databases of the same name share an ARN in this model of the service, as they do in the ARN the controller computes.
- Folding of names other than ASCII letters.
