# Status of a ClickHouse installation, in Dafny

This project models the `Status` section of the ClickHouse installation custom
resource in the ClickHouse operator (`type_status.go`). It is a record of about
thirty fields: the build identity of the operator, topology counts, the reconcile
phase, four bounded newest-first histories (actions, errors, started and
completed task IDs), per-cycle host counters, observed pods, IPs and FQDNs,
pointers to the normalized installation, the hosts whose tables were created,
and the templates used. The operator's reconcile loop updates the record in
place through a fixed set of mutators. `CopyFrom` merges one status into another
under six independent switches.

Layout:

- `lex_order.dfy` (module `LexOrder`): Go's string order, which is byte-wise on
  UTF-8 and therefore code-point-wise on Dafny `char`s. It is proved to be a
  total order.
- `string_arrays.dfy` (module `StringArrays`):
  - the two `util` list helpers the status uses (union and intersection);
  - the reverse string sort, which is proved to give the only descending
    permutation, so the result does not depend on sort stability.
- `histories.dfy` (module `Histories`):
  - the caps;
  - push-and-trim;
  - the two merges used by `CopyFrom`: the actions merge, which is capped, and
    the errors merge, which is not.
- `status.dfy` (module `ChopStatus`):
  - the `Status` class, with one field per Go field;
  - every mutator as a method whose postcondition gives the whole new state as
    `old(Snapshot())` with the changed fields updated, so nothing else changes;
  - one-field setters (`SetChopVersion` … `SetUsedTemplates`) and group setters
    (`SetIdentity`, `SetTopology`, `SetHostCounters`, `SetObserved`, `SetPhase`,
    `SetTaskIDs`, `SetErrorState`). No Go function corresponds to them. Every
    update of several fields is a chain of these calls, because writing many
    fields in one method makes each proof about the whole record far more
    costly;
  - `CopyFrom`, proved against the value-level specification `CopyFromSpec`,
    which applies the six switches in source order;
  - the getters, through `View`, where a nil status reads as the zero value.
- `status_properties.dfy` (module `StatusProperties`):
  - the zero values a nil status reads as;
  - what the switches of `CopyFrom` promise;
  - an input on which the `Errors` switch breaks the ten-entry cap;
  - both merges are commutative on histories without duplicates;
  - the `Errors` switch is idempotent.

Go's `int` is modelled as a 64-bit `newtype`. The six `Host*` counters wrap
around as Go's `++` does. A nil `FQDNs` slice is observable because
`SyncHostTablesCreated` tests for it, so FQDNs are an `Option`. The two pointer
types are empty classes, so only their identity is modelled. The build constants
`version.Version`, `version.GitSHA` and `version.BuiltAt` are a `BuildInfo`
parameter of `Fill`.

The code is followed exactly where a reading of its comments might suggest
more:

- No `CopyFrom` switch copies `HostsFailedCount`.
- `MainFields` and `WholeStatus` leave `HostsWithTablesCreated` and
  `UsedTemplates` alone. Those fields come only from `InheritableFields` and
  `Actions`.
- `InheritableFields` copies the tables-created hosts but not the used
  templates.

## Model

| member | source | states |
|---|---|---|
| LexOrder.LexLeReflexive | pkg/apis/clickhouse.altinity.com/v1/type_status.go:721 | every string sorts at or before itself in the order `sort.StringSlice` uses |
| LexOrder.LexLeTotal | pkg/apis/clickhouse.altinity.com/v1/type_status.go:721 | any two strings are comparable in Go's string order |
| LexOrder.LexLeAntisymmetric | pkg/apis/clickhouse.altinity.com/v1/type_status.go:721 | two strings that each sort at or before the other are equal |
| LexOrder.LexLeTransitive | pkg/apis/clickhouse.altinity.com/v1/type_status.go:721 | the string order is transitive |
| StringArrays.MergeStringArrays | pkg/apis/clickhouse.altinity.com/v1/type_status.go:720 | a string is in the union iff it is in either list; each entry occurs as often as in the destination, or once if only the source has it; a destination without duplicates gives a result without duplicates; the length is at most the sum |
| StringArrays.IntersectStringArrays | pkg/apis/clickhouse.altinity.com/v1/type_status.go:164 | a string is in the result iff it is in both lists; no duplicates are introduced; no longer than the first list |
| StringArrays.Insert | pkg/apis/clickhouse.altinity.com/v1/type_status.go:721 | inserting into a descending list keeps it descending and adds exactly that entry to its multiset |
| StringArrays.SortDescending | pkg/apis/clickhouse.altinity.com/v1/type_status.go:721 | the reverse sort returns a descending permutation of its input |
| StringArrays.SortedDescUnique | pkg/apis/clickhouse.altinity.com/v1/type_status.go:356 | two descending lists with the same multiset are equal, so the reverse sort's result does not depend on the sort being unstable |
| Histories.Trim | pkg/apis/clickhouse.altinity.com/v1/type_status.go:726-730 | truncation keeps the first `min(len, cap)` entries, in order |
| Histories.Prepend | pkg/apis/clickhouse.altinity.com/v1/type_status.go:733-738 | the pushed entry comes first, followed by the old entries in order, and the length is `min(old + 1, cap)` |
| Histories.PushAllNewestFirst | pkg/apis/clickhouse.altinity.com/v1/type_status.go:200-205 | after any number of pushes the history is the pushed entries in reverse order followed by the old ones, cut to the cap, and never longer than the cap, even when it started over the cap |
| Histories.MergeActions | pkg/apis/clickhouse.altinity.com/v1/type_status.go:719-723 | the merged actions are descending, at most ten, and drawn from the two histories. No entry occurs more often than in the union, and under ten entries every entry occurs exactly as often. An entry, or one copy of an entry the current history repeats, is dropped only when ten are kept and every kept entry sorts at or after it. A current history without duplicates gives a result without duplicates |
| Histories.MergeErrors | pkg/apis/clickhouse.altinity.com/v1/type_status.go:353-357 | the merged errors are descending and hold the union of both histories, with no cap. Each entry occurs as often as in the current history, or once if only the incoming one has it. A current history without duplicates gives a result without duplicates |
| ChopStatus.Inc | pkg/apis/clickhouse.altinity.com/v1/type_status.go:225-264 | the counters' `++` gives the 64-bit value congruent to the old value plus one modulo 2^64 (two's-complement wrap-around) |
| ChopStatus.Status.constructor | pkg/apis/clickhouse.altinity.com/v1/type_status.go:46-80 | a new status is the Go zero value of every field |
| ChopStatus.Status.Fill | pkg/apis/clickhouse.altinity.com/v1/type_status.go:104-128 | the build identity and the fifteen parameters are written; replicas, failed hosts, phase, histories, pod IPs, completed snapshot, tables-created hosts and templates are kept |
| ChopStatus.Status.SetError | pkg/apis/clickhouse.altinity.com/v1/type_status.go:131-135 | only the current error changes |
| ChopStatus.Status.SetAndPushError | pkg/apis/clickhouse.altinity.com/v1/type_status.go:138-146 | the error becomes current and is pushed in front of the error history, which keeps at most ten entries; nothing else changes |
| ChopStatus.Status.PushHostTablesCreated | pkg/apis/clickhouse.altinity.com/v1/type_status.go:149-156 | a host already listed leaves the list unchanged; any other host is appended; a list without duplicates stays so |
| ChopStatus.Status.SyncHostTablesCreated | pkg/apis/clickhouse.altinity.com/v1/type_status.go:159-166 | with nil FQDNs nothing changes; otherwise exactly the listed hosts that are among the FQDNs remain |
| ChopStatus.Status.PushUsedTemplate | pkg/apis/clickhouse.altinity.com/v1/type_status.go:169-173 | the template reference is appended; nothing else changes |
| ChopStatus.Status.SetAction | pkg/apis/clickhouse.altinity.com/v1/type_status.go:183-187 | only the current action changes |
| ChopStatus.Status.PushAction | pkg/apis/clickhouse.altinity.com/v1/type_status.go:200-205 | the action is pushed in front of the action history, which keeps at most ten entries; nothing else changes |
| ChopStatus.Status.PushError | pkg/apis/clickhouse.altinity.com/v1/type_status.go:208-215 | the error is pushed in front of the error history (at most ten); the current error and everything else are unchanged |
| ChopStatus.Status.SetPodIPs | pkg/apis/clickhouse.altinity.com/v1/type_status.go:218-222 | only the pod IPs change |
| ChopStatus.Status.HostDeleted | pkg/apis/clickhouse.altinity.com/v1/type_status.go:225-229 | only the deleted-hosts counter changes, by a wrapping increment |
| ChopStatus.Status.HostUpdated | pkg/apis/clickhouse.altinity.com/v1/type_status.go:232-236 | only the updated-hosts counter changes, by a wrapping increment |
| ChopStatus.Status.HostAdded | pkg/apis/clickhouse.altinity.com/v1/type_status.go:239-243 | only the added-hosts counter changes, by a wrapping increment |
| ChopStatus.Status.HostUnchanged | pkg/apis/clickhouse.altinity.com/v1/type_status.go:246-250 | only the unchanged-hosts counter changes, by a wrapping increment |
| ChopStatus.Status.HostFailed | pkg/apis/clickhouse.altinity.com/v1/type_status.go:253-257 | only the failed-hosts counter changes, by a wrapping increment |
| ChopStatus.Status.HostCompleted | pkg/apis/clickhouse.altinity.com/v1/type_status.go:260-264 | only the completed-hosts counter changes, by a wrapping increment |
| ChopStatus.Status.ReconcileStart | pkg/apis/clickhouse.altinity.com/v1/type_status.go:267-281 | phase InProgress, five per-cycle counters zeroed, hosts-to-delete set, current task ID pushed in front of the started history; failed hosts and the completed history untouched |
| ChopStatus.Status.ReconcileComplete | pkg/apis/clickhouse.altinity.com/v1/type_status.go:284-293 | phase Completed, no current action, current task ID pushed in front of the completed history; nothing else changes |
| ChopStatus.Status.ReconcileAbort | pkg/apis/clickhouse.altinity.com/v1/type_status.go:296-305 | phase Aborted, no current action, current task ID pushed in front of the completed history; nothing else changes |
| ChopStatus.Status.DeleteStart | pkg/apis/clickhouse.altinity.com/v1/type_status.go:308-322 | phase Terminating, the six per-cycle counters zeroed, current task ID pushed in front of the started history; nothing else changes |
| ChopStatus.Status.TrimActions | pkg/apis/clickhouse.altinity.com/v1/type_status.go:726-730 | the action history is cut to its first ten entries; nothing else changes |
| ChopStatus.Status.PushTaskIDStarted | pkg/apis/clickhouse.altinity.com/v1/type_status.go:733-738 | the current task ID is pushed in front of the started history, at most ten kept |
| ChopStatus.Status.PushTaskIDCompleted | pkg/apis/clickhouse.altinity.com/v1/type_status.go:741-746 | the current task ID is pushed in front of the completed history, at most ten kept |
| ChopStatus.Status.MergeActionsFrom | pkg/apis/clickhouse.altinity.com/v1/type_status.go:719-723 | the action history becomes `MergeActions` of the current and the source's; nothing else changes |
| ChopStatus.Status.CopyInheritableFrom | pkg/apis/clickhouse.altinity.com/v1/type_status.go:332-338 | the `InheritableFields` switch replaces both task-ID histories, the actions, the errors and the tables-created hosts |
| ChopStatus.Status.CopyActionsFrom | pkg/apis/clickhouse.altinity.com/v1/type_status.go:340-351 | the `Actions` switch replaces the action, merges the actions and replaces the tables-created hosts and the templates |
| ChopStatus.Status.ReplaceProvenance | pkg/apis/clickhouse.altinity.com/v1/type_status.go:343-350 | the tables-created hosts and the templates become copies of the source's lists |
| ChopStatus.Status.CopyErrorsFrom | pkg/apis/clickhouse.altinity.com/v1/type_status.go:353-357 | the `Errors` switch replaces the current error and sets the history to `MergeErrors` |
| ChopStatus.Status.CopyMainFieldsFrom | pkg/apis/clickhouse.altinity.com/v1/type_status.go:359-387 | the `MainFields` switch copies the source's fields but merges the actions and keeps failed hosts, completed snapshot, tables-created hosts and templates |
| ChopStatus.Status.CopyHistoriesFrom | pkg/apis/clickhouse.altinity.com/v1/type_status.go:332-357 | the first three switches in source order |
| ChopStatus.Status.CopyStateFrom | pkg/apis/clickhouse.altinity.com/v1/type_status.go:359-422 | the last three switches in source order; `WholeStatus` is `MainFields` followed by the completed snapshot |
| ChopStatus.Status.CopyFrom | pkg/apis/clickhouse.altinity.com/v1/type_status.go:325-425 | a nil source changes nothing; otherwise the new state is `CopyFromSpec` of the old state and the source's, where the last three switches see the source's errors sorted when `InheritableFields` and `Errors` made the destination sort the shared slice (:336, :355-356) |
| ChopStatus.Status.ClearNormalizedCR | pkg/apis/clickhouse.altinity.com/v1/type_status.go:428-432 | only the normalized snapshot changes, to nil |
| ChopStatus.Status.SetNormalizedCompletedFromCurrentNormalized | pkg/apis/clickhouse.altinity.com/v1/type_status.go:435-439 | the completed snapshot becomes the same object as the current one; nothing else changes |
| StatusProperties.NilStatusReadsZero | pkg/apis/clickhouse.altinity.com/v1/type_status.go:673-715 | every getter on a nil status returns its type's zero value (empty string, 0, empty list, nil), and both checkers answer false |
| StatusProperties.CopyFromActions | pkg/apis/clickhouse.altinity.com/v1/type_status.go:340-342 | with `Actions`, `MainFields` or `WholeStatus` set, the actions are descending, at most ten and drawn from the two statuses; otherwise they are the source's (`InheritableFields`) or unchanged |
| StatusProperties.CopyFromErrors | pkg/apis/clickhouse.altinity.com/v1/type_status.go:353-357 | `MainFields`/`WholeStatus` give the source's error and errors, reverse sorted when `InheritableFields` and `Errors` are also set and in the source's order otherwise; `Errors` alone gives a descending union; with neither, errors are inherited or unchanged |
| StatusProperties.InheritedErrorsCopiedSorted | pkg/apis/clickhouse.altinity.com/v1/type_status.go:336 | with `InheritableFields`, `Errors` and `MainFields` set, a source holding `["a", "b"]` leaves `["b", "a"]` in the destination, because the sort at :356 reorders the shared slice before :375 copies it |
| StatusProperties.MergeActionsIgnoresIncomingOrder | pkg/apis/clickhouse.altinity.com/v1/type_status.go:719-723 | the actions merge depends only on which entries the incoming history holds, so a reorder of the source's shared action slice leaves the merged actions unchanged |
| StatusProperties.CopyFromSnapshots | pkg/apis/clickhouse.altinity.com/v1/type_status.go:389-391 | the normalized snapshot is copied iff `MainFields`, `Normalized` or `WholeStatus` is set; the completed one iff `WholeStatus` is |
| StatusProperties.CopyFromKeepsFailedHosts | pkg/apis/clickhouse.altinity.com/v1/type_status.go:359-387 | no combination of switches copies the failed-hosts counter |
| StatusProperties.CopyFromProvenance | pkg/apis/clickhouse.altinity.com/v1/type_status.go:332-350 | tables-created hosts come from `Actions`, else `InheritableFields`, else stay; templates come only from `Actions` |
| StatusProperties.CopyFromSelective | pkg/apis/clickhouse.altinity.com/v1/type_status.go:325-425 | `Normalized` alone changes only the normalized snapshot; `Errors` alone changes only the error and the errors, to the merge of both histories; no switch changes nothing |
| StatusProperties.CopyFromKeepsHistoriesBounded | pkg/apis/clickhouse.altinity.com/v1/type_status.go:325-425 | from two statuses whose histories are within their caps, every switch combination in which `Errors` is not the last writer of the errors stays within the caps |
| StatusProperties.MergeErrorsCanExceedCap | pkg/apis/clickhouse.altinity.com/v1/type_status.go:353-357 | ten errors merged with one more distinct error give eleven: the merge has no cap |
| StatusProperties.ErrorsSwitchExceedsCap | pkg/apis/clickhouse.altinity.com/v1/type_status.go:353-357 | there are two statuses within their caps for which `CopyFrom` with `Errors` alone leaves more than ten errors |
| StatusProperties.MergeErrorsCommutes | pkg/apis/clickhouse.altinity.com/v1/type_status.go:353-357 | for histories without duplicates the errors merge does not depend on which status is the destination |
| StatusProperties.MergeActionsCommutes | pkg/apis/clickhouse.altinity.com/v1/type_status.go:719-723 | for histories without duplicates the actions merge does not depend on which status is the destination |
| StatusProperties.CopyErrorsIdempotent | pkg/apis/clickhouse.altinity.com/v1/type_status.go:353-357 | applying the `Errors` switch with the same source twice gives the same state as once |

## Left out

- Strings are Dafny `char` sequences, so the model covers action, error and
  host strings that are valid UTF-8. A Go string can hold any bytes, and on
  invalid UTF-8 the byte order and the code-point order can differ.
- The read/write lock. Each method is one atomic step, which is what holding
  the lock for the whole mutator gives.
- ChopStatus.Status.CopyFrom: requires `from != this`. Copying a status into
  itself takes its write lock and then its read lock, which blocks forever in
  Go.
- Nil receivers of mutators. In Go every mutator on a nil status does nothing;
  here a mutator is a method of a non-null `Status`, and a caller with a nil
  status skips the call. The getters do take a nil status (`View`).
- A nil `*FillStatusParams` makes `Fill` panic in Go. `Fill` takes the
  parameters by value.
- Slice aliasing. Go assigns slices by sharing their backing arrays: the
  getters return the stored slice, and `InheritableFields`, `MainFields` and
  `WholeStatus` make the destination share the source's lists. The in-place
  reverse sort of a later merge may therefore reorder the source's own
  actions or errors when the merge returns its destination unchanged. The
  model has value semantics and keeps the source unchanged. It follows the
  one such effect that reaches the destination within one `CopyFrom`: with
  `InheritableFields` and `Errors` set, `MainFields` and `WholeStatus` copy the
  source's errors in the order the `Errors` switch sorted them into
  (`SourceAfterHistories`, `InheritedErrorsCopiedSorted`). A reorder of the
  source's actions does not reach the destination, because the actions merge
  depends only on which entries the source holds
  (`MergeActionsIgnoresIncomingOrder`). The model does not track which
  statuses still share a backing array after a call, so a later in-place sort
  in one status that reorders another status's list is not modelled.
- StringArrays.MergeStringArrays: the `util` package is not part of this
  model. The function is the obvious loop: the destination, then each source
  entry it does not hold yet. Its contract, and therefore every merge and
  `CopyErrorsIdempotent`, rests on that assumed loop. In particular, the loop
  returns the destination unchanged when the source adds nothing.
- Histories.MergeErrors and Histories.MergeActions: under the assumed `util`
  loop, duplicates already in the destination history survive both merges
  (`["e", "e"]` merged with nothing stays `["e", "e"]`). Only entries that come
  from the source alone are collapsed to one. The commutativity lemmas are
  stated for histories without duplicates, which `PushAction` and `PushError`
  do not guarantee.
- StringArrays.IntersectStringArrays: the `util` package is not part of this
  model. Its contract states membership only, so the order of the remaining
  tables-created hosts is the model's choice.
- The `types.CopyStatusOptions` declaration is not part of this model. The
  six switches are a datatype of six booleans, named as in `CopyFrom`.
- Serialization tags, the deep-copy code and the `HasNormalizedCR` and
  `HasNormalizedCRCompleted` checkers need no contract: they are predicates
  over the getters.
- The getters are field reads through `View`. Only their nil-status promise
  is stated (`NilStatusReadsZero`).
- The callers (`pkg/controller/chk/kube/cr.go`), the metrics watcher
  (`pkg/apis/metrics/watched_chi.go`), the installation interface
  (`interface.go`) and `types.List` (`list.go`) are outside the status
  aggregate and not modelled.
