/**
 * The status section of a ClickHouse installation custom resource: a record of
 * about thirty fields that the operator's reconcile loop updates in place
 * through a fixed set of mutators, and that `CopyFrom` merges from one status
 * into another under six option switches.
 *
 * The Go type guards every mutator and getter with one read/write lock; here
 * each method is one atomic step. A nil `*Status` receiver turns every Go
 * mutator into a no-op and every getter into a zero value: the getters take a
 * `Status?` below, and a mutator on a nil status is a call the caller skips.
 */
module ChopStatus {
  import opened StringArrays
  import opened Histories

  /** Go's `int` on the 64-bit platforms the operator ships for. */
  newtype int64 = x: int | -0x8000_0000_0000_0000 <= x < 0x8000_0000_0000_0000

  const MIN_INT64: int64 := -0x8000_0000_0000_0000
  const MAX_INT64: int64 := 0x7fff_ffff_ffff_ffff

  /**
   * Go's `x++` on an `int`: the one 64-bit value congruent to `x + 1` modulo
   * 2^64, which wraps the maximum around to the minimum.
   */
  function Inc(x: int64): (r: int64)
    ensures (r as int - x as int - 1) % 0x1_0000_0000_0000_0000 == 0
  {
    if x == MAX_INT64 then MIN_INT64 else x + 1
  }

  const STATUS_IN_PROGRESS: string := "InProgress"
  const STATUS_COMPLETED: string := "Completed"
  const STATUS_ABORTED: string := "Aborted"
  const STATUS_TERMINATING: string := "Terminating"

  /** A Go slice where nil and empty must be told apart. */
  datatype Option<T> = None | Some(value: T)

  /** The normalized installation a status points to; only its identity matters here. */
  class ClickHouseInstallation { }

  /** A reference to a template applied to the installation; only its identity matters here. */
  class TemplateRef { }

  /** `version.Version`, `version.GitSHA` and `version.BuiltAt`, fixed when the operator is built. */
  datatype BuildInfo = BuildInfo(version: string, gitSHA: string, builtAt: string)

  datatype FillStatusParams = FillStatusParams(
    chopIP: string,
    clustersCount: int64,
    shardsCount: int64,
    hostsCount: int64,
    taskID: string,
    hostsUpdatedCount: int64,
    hostsAddedCount: int64,
    hostsUnchangedCount: int64,
    hostsCompletedCount: int64,
    hostsDeleteCount: int64,
    hostsDeletedCount: int64,
    pods: seq<string>,
    fqdns: Option<seq<string>>,
    endpoint: string,
    normalizedCR: ClickHouseInstallation?)

  /** The independent switches of `CopyFrom`, applied in this order. */
  datatype CopyStatusOptions = CopyStatusOptions(
    inheritableFields: bool,
    actions: bool,
    errors: bool,
    mainFields: bool,
    normalized: bool,
    wholeStatus: bool)

  /** Every field of a status at one moment. */
  datatype StatusValue = StatusValue(
    chopVersion: string,
    chopCommit: string,
    chopDate: string,
    chopIP: string,
    clustersCount: int64,
    shardsCount: int64,
    replicasCount: int64,
    hostsCount: int64,
    status: string,
    taskID: string,
    taskIDsStarted: seq<string>,
    taskIDsCompleted: seq<string>,
    action: string,
    actions: seq<string>,
    error: string,
    errors: seq<string>,
    hostsUpdatedCount: int64,
    hostsAddedCount: int64,
    hostsUnchangedCount: int64,
    hostsFailedCount: int64,
    hostsCompletedCount: int64,
    hostsDeletedCount: int64,
    hostsDeleteCount: int64,
    pods: seq<string>,
    podIPs: seq<string>,
    fqdns: Option<seq<string>>,
    endpoint: string,
    normalizedCR: ClickHouseInstallation?,
    normalizedCRCompleted: ClickHouseInstallation?,
    hostsWithTablesCreated: seq<string>,
    usedTemplates: seq<TemplateRef?>)

  /** The Go zero value of `Status`. */
  function EmptyStatus(): (v: StatusValue) {
    StatusValue("", "", "", "", 0, 0, 0, 0, "", "", [], [], "", [], "", [],
                0, 0, 0, 0, 0, 0, 0, [], [], None, "", null, null, [], [])
  }

  /** All four newest-first histories hold at most their caps. */
  predicate HistoriesBounded(v: StatusValue) {
    && |v.actions| <= MAX_ACTIONS
    && |v.errors| <= MAX_ERRORS
    && |v.taskIDsStarted| <= MAX_TASK_IDS
    && |v.taskIDsCompleted| <= MAX_TASK_IDS
  }

  // The steps of CopyFrom, one per switch, on values.

  /** `InheritableFields`: both task-ID histories, actions, errors and the tables-created hosts are replaced. */
  function InheritFrom(d: StatusValue, f: StatusValue): (r: StatusValue) {
    d.(taskIDsStarted := f.taskIDsStarted, taskIDsCompleted := f.taskIDsCompleted,
       actions := f.actions, errors := f.errors, hostsWithTablesCreated := f.hostsWithTablesCreated)
  }

  /** `Actions`: action replaced, actions merged, tables-created hosts and used templates replaced. */
  function ActionsFrom(d: StatusValue, f: StatusValue): (r: StatusValue) {
    d.(action := f.action, actions := MergeActions(d.actions, f.actions),
       hostsWithTablesCreated := f.hostsWithTablesCreated, usedTemplates := f.usedTemplates)
  }

  /** `Errors`: error replaced, errors merged without a cap. */
  function ErrorsFrom(d: StatusValue, f: StatusValue): (r: StatusValue) {
    d.(error := f.error, errors := MergeErrors(d.errors, f.errors))
  }

  /**
   * `MainFields`: the source's fields, except that actions are merged and that
   * the failed-hosts counter, the completed snapshot, the tables-created hosts
   * and the used templates stay the destination's.
   */
  function MainFieldsFrom(d: StatusValue, f: StatusValue): (r: StatusValue) {
    f.(actions := MergeActions(d.actions, f.actions),
       hostsFailedCount := d.hostsFailedCount,
       normalizedCRCompleted := d.normalizedCRCompleted,
       hostsWithTablesCreated := d.hostsWithTablesCreated,
       usedTemplates := d.usedTemplates)
  }

  /** `Normalized`: only the normalized snapshot. */
  function NormalizedFrom(d: StatusValue, f: StatusValue): (r: StatusValue) {
    d.(normalizedCR := f.normalizedCR)
  }

  /** `WholeStatus`: what `MainFields` copies, and the completed snapshot too. */
  function WholeStatusFrom(d: StatusValue, f: StatusValue): (r: StatusValue) {
    MainFieldsFrom(d, f).(normalizedCRCompleted := f.normalizedCRCompleted)
  }

  /** `CopyFrom` of a non-nil source into a non-nil destination: the switches in their fixed order. */
  function CopyFromSpec(d: StatusValue, f: StatusValue, opts: CopyStatusOptions): (r: StatusValue)
  {
    CopyStateSpec(CopyHistoriesSpec(d, f, opts), SourceAfterHistories(f, opts), opts)
  }

  /**
   * The source as the last three switches read it. With `InheritableFields`
   * the destination shares the source's error slice; the `Errors` merge then
   * adds nothing and returns that slice, and its reverse sort reorders the
   * source's own errors in place. `MainFields` and `WholeStatus` copy them in
   * that sorted order.
   */
  function SourceAfterHistories(f: StatusValue, opts: CopyStatusOptions): (r: StatusValue) {
    if opts.inheritableFields && opts.errors then f.(errors := SortDescending(f.errors)) else f
  }

  /** The first three switches, in source order: inheritable fields, actions, errors. */
  function CopyHistoriesSpec(d: StatusValue, f: StatusValue, opts: CopyStatusOptions): (r: StatusValue) {
    var d1 := if opts.inheritableFields then InheritFrom(d, f) else d;
    var d2 := if opts.actions then ActionsFrom(d1, f) else d1;
    if opts.errors then ErrorsFrom(d2, f) else d2
  }

  /** The last three switches, in source order: main fields, normalized, whole status. */
  function CopyStateSpec(d: StatusValue, f: StatusValue, opts: CopyStatusOptions): (r: StatusValue) {
    var d4 := if opts.mainFields then MainFieldsFrom(d, f) else d;
    var d5 := if opts.normalized then NormalizedFrom(d4, f) else d4;
    if opts.wholeStatus then WholeStatusFrom(d5, f) else d5
  }

  class Status {
    var chopVersion: string
    var chopCommit: string
    var chopDate: string
    var chopIP: string
    var clustersCount: int64
    var shardsCount: int64
    var replicasCount: int64
    var hostsCount: int64
    var status: string
    var taskID: string
    var taskIDsStarted: seq<string>
    var taskIDsCompleted: seq<string>
    var action: string
    var actions: seq<string>
    var error: string
    var errors: seq<string>
    var hostsUpdatedCount: int64
    var hostsAddedCount: int64
    var hostsUnchangedCount: int64
    var hostsFailedCount: int64
    var hostsCompletedCount: int64
    var hostsDeletedCount: int64
    var hostsDeleteCount: int64
    var pods: seq<string>
    var podIPs: seq<string>
    var fqdns: Option<seq<string>>
    var endpoint: string
    var normalizedCR: ClickHouseInstallation?
    var normalizedCRCompleted: ClickHouseInstallation?
    var hostsWithTablesCreated: seq<string>
    var usedTemplates: seq<TemplateRef?>

    function Snapshot(): (v: StatusValue)
      reads this
    {
      StatusValue(chopVersion, chopCommit, chopDate, chopIP,
                  clustersCount, shardsCount, replicasCount, hostsCount,
                  status, taskID, taskIDsStarted, taskIDsCompleted,
                  action, actions, error, errors,
                  hostsUpdatedCount, hostsAddedCount, hostsUnchangedCount, hostsFailedCount,
                  hostsCompletedCount, hostsDeletedCount, hostsDeleteCount,
                  pods, podIPs, fqdns, endpoint,
                  normalizedCR, normalizedCRCompleted, hostsWithTablesCreated, usedTemplates)
    }

    /** A new, empty status. */
    constructor ()
      ensures Snapshot() == EmptyStatus()
    {
      chopVersion, chopCommit, chopDate, chopIP := "", "", "", "";
      clustersCount, shardsCount, replicasCount, hostsCount := 0, 0, 0, 0;
      status, taskID := "", "";
      taskIDsStarted, taskIDsCompleted := [], [];
      action, actions, error, errors := "", [], "", [];
      hostsUpdatedCount, hostsAddedCount, hostsUnchangedCount, hostsFailedCount := 0, 0, 0, 0;
      hostsCompletedCount, hostsDeletedCount, hostsDeleteCount := 0, 0, 0;
      pods, podIPs, fqdns, endpoint := [], [], None, "";
      normalizedCR, normalizedCRCompleted := null, null;
      hostsWithTablesCreated, usedTemplates := [], [];
    }

    // One setter per field. Every update of several fields below is a sequence
    // of these, which keeps each proof about the whole record small.

    method SetChopVersion(x: string)
      modifies this
      ensures Snapshot() == old(Snapshot()).(chopVersion := x)
    {
      chopVersion := x;
    }

    method SetChopCommit(x: string)
      modifies this
      ensures Snapshot() == old(Snapshot()).(chopCommit := x)
    {
      chopCommit := x;
    }

    method SetChopDate(x: string)
      modifies this
      ensures Snapshot() == old(Snapshot()).(chopDate := x)
    {
      chopDate := x;
    }

    method SetChopIP(x: string)
      modifies this
      ensures Snapshot() == old(Snapshot()).(chopIP := x)
    {
      chopIP := x;
    }

    method SetClustersCount(x: int64)
      modifies this
      ensures Snapshot() == old(Snapshot()).(clustersCount := x)
    {
      clustersCount := x;
    }

    method SetShardsCount(x: int64)
      modifies this
      ensures Snapshot() == old(Snapshot()).(shardsCount := x)
    {
      shardsCount := x;
    }

    method SetReplicasCount(x: int64)
      modifies this
      ensures Snapshot() == old(Snapshot()).(replicasCount := x)
    {
      replicasCount := x;
    }

    method SetHostsCount(x: int64)
      modifies this
      ensures Snapshot() == old(Snapshot()).(hostsCount := x)
    {
      hostsCount := x;
    }

    method SetStatus(x: string)
      modifies this
      ensures Snapshot() == old(Snapshot()).(status := x)
    {
      status := x;
    }

    method SetTaskID(x: string)
      modifies this
      ensures Snapshot() == old(Snapshot()).(taskID := x)
    {
      taskID := x;
    }

    method SetTaskIDsStarted(x: seq<string>)
      modifies this
      ensures Snapshot() == old(Snapshot()).(taskIDsStarted := x)
    {
      taskIDsStarted := x;
    }

    method SetTaskIDsCompleted(x: seq<string>)
      modifies this
      ensures Snapshot() == old(Snapshot()).(taskIDsCompleted := x)
    {
      taskIDsCompleted := x;
    }

    method SetActions(x: seq<string>)
      modifies this
      ensures Snapshot() == old(Snapshot()).(actions := x)
    {
      actions := x;
    }

    method SetErrors(x: seq<string>)
      modifies this
      ensures Snapshot() == old(Snapshot()).(errors := x)
    {
      errors := x;
    }

    method SetHostsUpdatedCount(x: int64)
      modifies this
      ensures Snapshot() == old(Snapshot()).(hostsUpdatedCount := x)
    {
      hostsUpdatedCount := x;
    }

    method SetHostsAddedCount(x: int64)
      modifies this
      ensures Snapshot() == old(Snapshot()).(hostsAddedCount := x)
    {
      hostsAddedCount := x;
    }

    method SetHostsUnchangedCount(x: int64)
      modifies this
      ensures Snapshot() == old(Snapshot()).(hostsUnchangedCount := x)
    {
      hostsUnchangedCount := x;
    }

    method SetHostsCompletedCount(x: int64)
      modifies this
      ensures Snapshot() == old(Snapshot()).(hostsCompletedCount := x)
    {
      hostsCompletedCount := x;
    }

    method SetHostsDeletedCount(x: int64)
      modifies this
      ensures Snapshot() == old(Snapshot()).(hostsDeletedCount := x)
    {
      hostsDeletedCount := x;
    }

    method SetHostsDeleteCount(x: int64)
      modifies this
      ensures Snapshot() == old(Snapshot()).(hostsDeleteCount := x)
    {
      hostsDeleteCount := x;
    }

    method SetPods(x: seq<string>)
      modifies this
      ensures Snapshot() == old(Snapshot()).(pods := x)
    {
      pods := x;
    }

    method SetFQDNs(x: Option<seq<string>>)
      modifies this
      ensures Snapshot() == old(Snapshot()).(fqdns := x)
    {
      fqdns := x;
    }

    method SetEndpoint(x: string)
      modifies this
      ensures Snapshot() == old(Snapshot()).(endpoint := x)
    {
      endpoint := x;
    }

    method SetHostsWithTablesCreated(x: seq<string>)
      modifies this
      ensures Snapshot() == old(Snapshot()).(hostsWithTablesCreated := x)
    {
      hostsWithTablesCreated := x;
    }

    method SetUsedTemplates(x: seq<TemplateRef?>)
      modifies this
      ensures Snapshot() == old(Snapshot()).(usedTemplates := x)
    {
      usedTemplates := x;
    }

    // Setters for one group of fields at a time; the mutators below are made of them.

    /** The operator identity: version, commit, build date and pod IP. */
    method SetIdentity(version: string, commit: string, date: string, ip: string)
      modifies this
      ensures Snapshot() == old(Snapshot()).(chopVersion := version, chopCommit := commit,
                                             chopDate := date, chopIP := ip)
    {
      SetChopVersion(version);
      SetChopCommit(commit);
      SetChopDate(date);
      SetChopIP(ip);
    }

    /** The topology counts. */
    method SetTopology(clusters: int64, shards: int64, replicas: int64, hosts: int64)
      modifies this
      ensures Snapshot() == old(Snapshot()).(clustersCount := clusters, shardsCount := shards,
                                             replicasCount := replicas, hostsCount := hosts)
    {
      SetClustersCount(clusters);
      SetShardsCount(shards);
      SetReplicasCount(replicas);
      SetHostsCount(hosts);
    }

    /** The per-cycle host counters, all but the failed-hosts counter. */
    method SetHostCounters(updated: int64, added: int64, same: int64,
                           completed: int64, deleted: int64, toDelete: int64)
      modifies this
      ensures Snapshot() == old(Snapshot()).(
        hostsUpdatedCount := updated, hostsAddedCount := added, hostsUnchangedCount := same,
        hostsCompletedCount := completed, hostsDeletedCount := deleted, hostsDeleteCount := toDelete)
    {
      SetHostsUpdatedCount(updated);
      SetHostsAddedCount(added);
      SetHostsUnchangedCount(same);
      SetHostsCompletedCount(completed);
      SetHostsDeletedCount(deleted);
      SetHostsDeleteCount(toDelete);
    }

    /** The observed topology: pods, pod IPs, FQDNs and the endpoint. */
    method SetObserved(podNames: seq<string>, ips: seq<string>, hostNames: Option<seq<string>>, ep: string)
      modifies this
      ensures Snapshot() == old(Snapshot()).(pods := podNames, podIPs := ips, fqdns := hostNames, endpoint := ep)
    {
      SetPods(podNames);
      SetPodIPs(ips);
      SetFQDNs(hostNames);
      SetEndpoint(ep);
    }

    /**
     * Bulk initialization at the start of a reconcile: the build identity and
     * the given fields are overwritten; the replicas and failed-hosts counters,
     * the phase, the histories, the pod IPs, the completed snapshot, the
     * tables-created hosts and the used templates are kept.
     */
    method Fill(params: FillStatusParams, build: BuildInfo)
      modifies this
      ensures Snapshot() == old(Snapshot()).(
        chopVersion := build.version, chopCommit := build.gitSHA, chopDate := build.builtAt,
        chopIP := params.chopIP, clustersCount := params.clustersCount,
        shardsCount := params.shardsCount, hostsCount := params.hostsCount,
        taskID := params.taskID, hostsUpdatedCount := params.hostsUpdatedCount,
        hostsAddedCount := params.hostsAddedCount, hostsUnchangedCount := params.hostsUnchangedCount,
        hostsCompletedCount := params.hostsCompletedCount, hostsDeleteCount := params.hostsDeleteCount,
        hostsDeletedCount := params.hostsDeletedCount, pods := params.pods, fqdns := params.fqdns,
        endpoint := params.endpoint, normalizedCR := params.normalizedCR)
    {
      SetIdentity(build.version, build.gitSHA, build.builtAt, params.chopIP);
      SetTopology(params.clustersCount, params.shardsCount, replicasCount, params.hostsCount);
      SetPhase(status, params.taskID);
      SetHostCounters(params.hostsUpdatedCount, params.hostsAddedCount, params.hostsUnchangedCount,
                      params.hostsCompletedCount, params.hostsDeletedCount, params.hostsDeleteCount);
      SetObserved(params.pods, podIPs, params.fqdns, params.endpoint);
      SetNormalizedCR(params.normalizedCR);
    }

    method SetError(err: string)
      modifies this
      ensures Snapshot() == old(Snapshot()).(error := err)
    {
      error := err;
    }

    /** Sets the current error and pushes it onto the error history; actions are untouched. */
    method SetAndPushError(err: string)
      modifies this
      ensures Snapshot() == old(Snapshot()).(error := err, errors := Prepend(err, old(errors), MAX_ERRORS))
      ensures error == err
      ensures |errors| == Min(|old(errors)| + 1, MAX_ERRORS)
      ensures errors[0] == err && errors[1..] == old(errors)[..|errors| - 1]
      ensures actions == old(actions)
    {
      SetError(err);
      SetErrors(Prepend(err, errors, MAX_ERRORS));
    }

    /** Pushes an error onto the history, newest first, keeping the ten newest; nothing else changes. */
    method PushError(err: string)
      modifies this
      ensures Snapshot() == old(Snapshot()).(errors := Prepend(err, old(errors), MAX_ERRORS))
      ensures |errors| == Min(|old(errors)| + 1, MAX_ERRORS)
      ensures errors[0] == err && errors[1..] == old(errors)[..|errors| - 1]
    {
      errors := Prepend(err, errors, MAX_ERRORS);
    }

    /**
     * Records that tables were created on `host`: appended at the end unless
     * already present, so the list never gains a duplicate.
     */
    method PushHostTablesCreated(host: string)
      modifies this
      ensures Snapshot() == old(Snapshot()).(hostsWithTablesCreated := hostsWithTablesCreated)
      ensures host in old(hostsWithTablesCreated) ==> hostsWithTablesCreated == old(hostsWithTablesCreated)
      ensures host !in old(hostsWithTablesCreated) ==> hostsWithTablesCreated == old(hostsWithTablesCreated) + [host]
      ensures NoDuplicates(old(hostsWithTablesCreated)) ==> NoDuplicates(hostsWithTablesCreated)
    {
      if host in hostsWithTablesCreated {
        return;
      }
      hostsWithTablesCreated := hostsWithTablesCreated + [host];
    }

    /**
     * Drops the tables-created hosts that are no longer among the FQDNs. While
     * the FQDNs are unknown (nil) nothing changes.
     */
    method SyncHostTablesCreated()
      modifies this
      ensures Snapshot() == old(Snapshot()).(hostsWithTablesCreated := hostsWithTablesCreated)
      ensures fqdns.None? ==> hostsWithTablesCreated == old(hostsWithTablesCreated)
      ensures fqdns.Some? ==> forall h :: h in hostsWithTablesCreated <==>
                h in old(hostsWithTablesCreated) && h in fqdns.value
      ensures NoDuplicates(old(hostsWithTablesCreated)) ==> NoDuplicates(hostsWithTablesCreated)
    {
      if fqdns.None? {
        return;
      }
      hostsWithTablesCreated := IntersectStringArrays(hostsWithTablesCreated, fqdns.value);
    }

    method PushUsedTemplate(templateRef: TemplateRef?)
      modifies this
      ensures Snapshot() == old(Snapshot()).(usedTemplates := old(usedTemplates) + [templateRef])
    {
      usedTemplates := usedTemplates + [templateRef];
    }

    method SetAction(a: string)
      modifies this
      ensures Snapshot() == old(Snapshot()).(action := a)
    {
      action := a;
    }

    /** Pushes an action onto the history, newest first, keeping the ten newest; nothing else changes. */
    method PushAction(a: string)
      modifies this
      ensures Snapshot() == old(Snapshot()).(actions := Prepend(a, old(actions), MAX_ACTIONS))
      ensures |actions| == Min(|old(actions)| + 1, MAX_ACTIONS)
      ensures actions[0] == a && actions[1..] == old(actions)[..|actions| - 1]
    {
      actions := [a] + actions;
      TrimActions();
    }

    /** `trimActionsNoSync`: keeps the ten newest actions. */
    method TrimActions()
      modifies this
      ensures Snapshot() == old(Snapshot()).(actions := Trim(old(actions), MAX_ACTIONS))
    {
      if |actions| > MAX_ACTIONS {
        actions := actions[..MAX_ACTIONS];
      }
    }

    method SetPodIPs(ips: seq<string>)
      modifies this
      ensures Snapshot() == old(Snapshot()).(podIPs := ips)
    {
      podIPs := ips;
    }

    method HostDeleted()
      modifies this
      ensures Snapshot() == old(Snapshot()).(hostsDeletedCount := Inc(old(hostsDeletedCount)))
    {
      hostsDeletedCount := Inc(hostsDeletedCount);
    }

    method HostUpdated()
      modifies this
      ensures Snapshot() == old(Snapshot()).(hostsUpdatedCount := Inc(old(hostsUpdatedCount)))
    {
      hostsUpdatedCount := Inc(hostsUpdatedCount);
    }

    method HostAdded()
      modifies this
      ensures Snapshot() == old(Snapshot()).(hostsAddedCount := Inc(old(hostsAddedCount)))
    {
      hostsAddedCount := Inc(hostsAddedCount);
    }

    method HostUnchanged()
      modifies this
      ensures Snapshot() == old(Snapshot()).(hostsUnchangedCount := Inc(old(hostsUnchangedCount)))
    {
      hostsUnchangedCount := Inc(hostsUnchangedCount);
    }

    method HostFailed()
      modifies this
      ensures Snapshot() == old(Snapshot()).(hostsFailedCount := Inc(old(hostsFailedCount)))
    {
      hostsFailedCount := Inc(hostsFailedCount);
    }

    method HostCompleted()
      modifies this
      ensures Snapshot() == old(Snapshot()).(hostsCompletedCount := Inc(old(hostsCompletedCount)))
    {
      hostsCompletedCount := Inc(hostsCompletedCount);
    }

    /** `pushTaskIDStartedNoSync`: the current task ID goes in front of the started history. */
    method PushTaskIDStarted()
      modifies this
      ensures Snapshot() == old(Snapshot()).(taskIDsStarted := Prepend(old(taskID), old(taskIDsStarted), MAX_TASK_IDS))
    {
      taskIDsStarted := Prepend(taskID, taskIDsStarted, MAX_TASK_IDS);
    }

    /** `pushTaskIDCompletedNoSync`: the current task ID goes in front of the completed history. */
    method PushTaskIDCompleted()
      modifies this
      ensures Snapshot() == old(Snapshot()).(taskIDsCompleted := Prepend(old(taskID), old(taskIDsCompleted), MAX_TASK_IDS))
    {
      taskIDsCompleted := Prepend(taskID, taskIDsCompleted, MAX_TASK_IDS);
    }

    /**
     * Start of a reconcile: phase InProgress, the per-cycle host counters reset
     * (the failed-hosts counter excepted), the hosts to delete set to
     * `deleteHostsCount`, and the current task ID pushed onto the started
     * history, all in one step.
     */
    method ReconcileStart(deleteHostsCount: int64)
      modifies this
      ensures Snapshot() == old(Snapshot()).(
        status := STATUS_IN_PROGRESS, hostsUpdatedCount := 0, hostsAddedCount := 0,
        hostsUnchangedCount := 0, hostsCompletedCount := 0, hostsDeletedCount := 0,
        hostsDeleteCount := deleteHostsCount,
        taskIDsStarted := Prepend(old(taskID), old(taskIDsStarted), MAX_TASK_IDS))
      ensures hostsFailedCount == old(hostsFailedCount) && taskIDsCompleted == old(taskIDsCompleted)
      ensures |taskIDsStarted| == Min(|old(taskIDsStarted)| + 1, MAX_TASK_IDS)
      ensures taskIDsStarted[0] == taskID && taskIDsStarted[1..] == old(taskIDsStarted)[..|taskIDsStarted| - 1]
    {
      SetStatus(STATUS_IN_PROGRESS);
      SetHostCounters(0, 0, 0, 0, 0, deleteHostsCount);
      PushTaskIDStarted();
    }

    /** End of a reconcile: phase Completed, no current action, task ID pushed onto the completed history. */
    method ReconcileComplete()
      modifies this
      ensures Snapshot() == old(Snapshot()).(
        status := STATUS_COMPLETED, action := "",
        taskIDsCompleted := Prepend(old(taskID), old(taskIDsCompleted), MAX_TASK_IDS))
      ensures taskIDsStarted == old(taskIDsStarted)
      ensures |taskIDsCompleted| == Min(|old(taskIDsCompleted)| + 1, MAX_TASK_IDS)
      ensures taskIDsCompleted[0] == taskID && taskIDsCompleted[1..] == old(taskIDsCompleted)[..|taskIDsCompleted| - 1]
    {
      SetStatus(STATUS_COMPLETED);
      SetAction("");
      PushTaskIDCompleted();
    }

    /** Abandoned reconcile: phase Aborted, no current action, task ID pushed onto the completed history. */
    method ReconcileAbort()
      modifies this
      ensures Snapshot() == old(Snapshot()).(
        status := STATUS_ABORTED, action := "",
        taskIDsCompleted := Prepend(old(taskID), old(taskIDsCompleted), MAX_TASK_IDS))
      ensures taskIDsStarted == old(taskIDsStarted)
      ensures |taskIDsCompleted| == Min(|old(taskIDsCompleted)| + 1, MAX_TASK_IDS)
      ensures taskIDsCompleted[0] == taskID && taskIDsCompleted[1..] == old(taskIDsCompleted)[..|taskIDsCompleted| - 1]
    {
      SetStatus(STATUS_ABORTED);
      SetAction("");
      PushTaskIDCompleted();
    }

    /** Start of a deletion: as ReconcileStart, with phase Terminating and no hosts to delete. */
    method DeleteStart()
      modifies this
      ensures Snapshot() == old(Snapshot()).(
        status := STATUS_TERMINATING, hostsUpdatedCount := 0, hostsAddedCount := 0,
        hostsUnchangedCount := 0, hostsCompletedCount := 0, hostsDeletedCount := 0,
        hostsDeleteCount := 0,
        taskIDsStarted := Prepend(old(taskID), old(taskIDsStarted), MAX_TASK_IDS))
      ensures hostsFailedCount == old(hostsFailedCount) && taskIDsCompleted == old(taskIDsCompleted)
      ensures |taskIDsStarted| == Min(|old(taskIDsStarted)| + 1, MAX_TASK_IDS)
      ensures taskIDsStarted[0] == taskID && taskIDsStarted[1..] == old(taskIDsStarted)[..|taskIDsStarted| - 1]
    {
      SetStatus(STATUS_TERMINATING);
      SetHostCounters(0, 0, 0, 0, 0, 0);
      PushTaskIDStarted();
    }

    // The steps of CopyFrom. The source is read under its lock, so each step
    // is given its value; the one in-place change the copy itself makes to a
    // shared slice of the source is `SourceAfterHistories`.

    method CopyInheritableFrom(f: StatusValue)
      modifies this
      ensures Snapshot() == InheritFrom(old(Snapshot()), f)
    {
      SetTaskIDs(f.taskIDsStarted, f.taskIDsCompleted);
      SetActions(f.actions);
      SetErrors(f.errors);
      SetHostsWithTablesCreated(f.hostsWithTablesCreated);
    }

    /** `mergeActionsNoSync`: merge, reverse sort, then trim. */
    method MergeActionsFrom(f: StatusValue)
      modifies this
      ensures Snapshot() == old(Snapshot()).(actions := MergeActions(old(actions), f.actions))
    {
      actions := SortDescending(MergeStringArrays(actions, f.actions));
      TrimActions();
    }

    method CopyActionsFrom(f: StatusValue)
      modifies this
      ensures Snapshot() == ActionsFrom(old(Snapshot()), f)
    {
      SetAction(f.action);
      MergeActionsFrom(f);
      ReplaceProvenance(f.hostsWithTablesCreated, f.usedTemplates);
    }

    /** The tables-created hosts and the used templates become copies of the given lists. */
    method ReplaceProvenance(hosts: seq<string>, templates: seq<TemplateRef?>)
      modifies this
      ensures Snapshot() == old(Snapshot()).(hostsWithTablesCreated := hosts, usedTemplates := templates)
    {
      var hostsCopy := [];
      if |hosts| > 0 {
        hostsCopy := hostsCopy + hosts;
      }
      SetHostsWithTablesCreated(hostsCopy);
      var templatesCopy := [];
      if |templates| > 0 {
        templatesCopy := templatesCopy + templates;
      }
      SetUsedTemplates(templatesCopy);
    }

    method CopyErrorsFrom(f: StatusValue)
      modifies this
      ensures Snapshot() == ErrorsFrom(old(Snapshot()), f)
    {
      SetErrorState(f.error, SortDescending(MergeStringArrays(errors, f.errors)));
    }

    /** The phase and the current task ID. */
    method SetPhase(phase: string, id: string)
      modifies this
      ensures Snapshot() == old(Snapshot()).(status := phase, taskID := id)
    {
      SetStatus(phase);
      SetTaskID(id);
    }

    /** Both task-ID histories. */
    method SetTaskIDs(started: seq<string>, completed: seq<string>)
      modifies this
      ensures Snapshot() == old(Snapshot()).(taskIDsStarted := started, taskIDsCompleted := completed)
    {
      SetTaskIDsStarted(started);
      SetTaskIDsCompleted(completed);
    }

    /** The current error and the error history. */
    method SetErrorState(err: string, errs: seq<string>)
      modifies this
      ensures Snapshot() == old(Snapshot()).(error := err, errors := errs)
    {
      SetError(err);
      SetErrors(errs);
    }

    method SetNormalizedCR(cr: ClickHouseInstallation?)
      modifies this
      ensures Snapshot() == old(Snapshot()).(normalizedCR := cr)
    {
      normalizedCR := cr;
    }

    method SetNormalizedCRCompleted(cr: ClickHouseInstallation?)
      modifies this
      ensures Snapshot() == old(Snapshot()).(normalizedCRCompleted := cr)
    {
      normalizedCRCompleted := cr;
    }

    method CopyMainFieldsFrom(f: StatusValue)
      modifies this
      ensures Snapshot() == MainFieldsFrom(old(Snapshot()), f)
    {
      SetIdentity(f.chopVersion, f.chopCommit, f.chopDate, f.chopIP);
      SetTopology(f.clustersCount, f.shardsCount, f.replicasCount, f.hostsCount);
      SetPhase(f.status, f.taskID);
      SetTaskIDs(f.taskIDsStarted, f.taskIDsCompleted);
      SetAction(f.action);
      MergeActionsFrom(f);
      SetErrorState(f.error, f.errors);
      SetHostCounters(f.hostsUpdatedCount, f.hostsAddedCount, f.hostsUnchangedCount,
                      f.hostsCompletedCount, f.hostsDeletedCount, f.hostsDeleteCount);
      SetObserved(f.pods, f.podIPs, f.fqdns, f.endpoint);
      SetNormalizedCR(f.normalizedCR);
    }

    /**
     * Copies the parts of `from` that `opts` selects, switch by switch in the
     * fixed order. A nil source changes nothing. The last three switches read
     * the source's errors as the `Errors` switch may have sorted them through
     * a slice shared by `InheritableFields`. Copying a status into itself
     * would take its write lock and then its read lock, which blocks forever.
     */
    method CopyFrom(from: Status?, opts: CopyStatusOptions)
      requires from != this
      modifies this
      ensures from == null ==> Snapshot() == old(Snapshot())
      ensures from != null ==> Snapshot() == CopyFromSpec(old(Snapshot()), from.Snapshot(), opts)
    {
      if from == null {
        return;
      }
      var f := from.Snapshot();
      CopyHistoriesFrom(f, opts);
      CopyStateFrom(SourceAfterHistories(f, opts), opts);
    }

    method CopyHistoriesFrom(f: StatusValue, opts: CopyStatusOptions)
      modifies this
      ensures Snapshot() == CopyHistoriesSpec(old(Snapshot()), f, opts)
    {
      if opts.inheritableFields {
        CopyInheritableFrom(f);
      }
      if opts.actions {
        CopyActionsFrom(f);
      }
      if opts.errors {
        CopyErrorsFrom(f);
      }
    }

    method CopyStateFrom(f: StatusValue, opts: CopyStatusOptions)
      modifies this
      ensures Snapshot() == CopyStateSpec(old(Snapshot()), f, opts)
    {
      if opts.mainFields {
        CopyMainFieldsFrom(f);
      }
      if opts.normalized {
        SetNormalizedCR(f.normalizedCR);
      }
      if opts.wholeStatus {
        CopyMainFieldsFrom(f);
        SetNormalizedCRCompleted(f.normalizedCRCompleted);
      }
    }

    method ClearNormalizedCR()
      modifies this
      ensures Snapshot() == old(Snapshot()).(normalizedCR := null)
    {
      normalizedCR := null;
    }

    /** The completed snapshot becomes the same object as the current one, not a copy. */
    method SetNormalizedCompletedFromCurrentNormalized()
      modifies this
      ensures Snapshot() == old(Snapshot()).(normalizedCRCompleted := old(normalizedCR))
      ensures normalizedCRCompleted == normalizedCR
    {
      normalizedCRCompleted := normalizedCR;
    }
  }

  // Getters. Each reads one field; a nil status reads as the zero value.

  /** What the getters see: the fields of a status, or the zero value for a nil one. */
  function View(s: Status?): StatusValue
    reads s
  {
    if s == null then EmptyStatus() else s.Snapshot()
  }

  function GetCHOpVersion(s: Status?): string reads s { View(s).chopVersion }
  function GetCHOpCommit(s: Status?): string reads s { View(s).chopCommit }
  function GetCHOpDate(s: Status?): string reads s { View(s).chopDate }
  function GetCHOpIP(s: Status?): string reads s { View(s).chopIP }
  function GetClustersCount(s: Status?): int64 reads s { View(s).clustersCount }
  function GetShardsCount(s: Status?): int64 reads s { View(s).shardsCount }
  function GetReplicasCount(s: Status?): int64 reads s { View(s).replicasCount }
  function GetHostsCount(s: Status?): int64 reads s { View(s).hostsCount }
  function GetStatus(s: Status?): string reads s { View(s).status }
  function GetTaskID(s: Status?): string reads s { View(s).taskID }
  function GetTaskIDsStarted(s: Status?): seq<string> reads s { View(s).taskIDsStarted }
  function GetTaskIDsCompleted(s: Status?): seq<string> reads s { View(s).taskIDsCompleted }
  function GetAction(s: Status?): string reads s { View(s).action }
  function GetActions(s: Status?): seq<string> reads s { View(s).actions }
  function GetError(s: Status?): string reads s { View(s).error }
  function GetErrors(s: Status?): seq<string> reads s { View(s).errors }
  function GetHostsUpdatedCount(s: Status?): int64 reads s { View(s).hostsUpdatedCount }
  function GetHostsAddedCount(s: Status?): int64 reads s { View(s).hostsAddedCount }
  function GetHostsUnchangedCount(s: Status?): int64 reads s { View(s).hostsUnchangedCount }
  function GetHostsFailedCount(s: Status?): int64 reads s { View(s).hostsFailedCount }
  function GetHostsCompletedCount(s: Status?): int64 reads s { View(s).hostsCompletedCount }
  function GetHostsDeletedCount(s: Status?): int64 reads s { View(s).hostsDeletedCount }
  function GetHostsDeleteCount(s: Status?): int64 reads s { View(s).hostsDeleteCount }
  function GetPods(s: Status?): seq<string> reads s { View(s).pods }
  function GetPodIPs(s: Status?): seq<string> reads s { View(s).podIPs }
  function GetEndpoint(s: Status?): string reads s { View(s).endpoint }
  function GetNormalizedCR(s: Status?): ClickHouseInstallation? reads s { View(s).normalizedCR }
  function GetNormalizedCRCompleted(s: Status?): ClickHouseInstallation? reads s { View(s).normalizedCRCompleted }
  function GetHostsWithTablesCreated(s: Status?): seq<string> reads s { View(s).hostsWithTablesCreated }

  /** The FQDNs; a nil list reads as empty. */
  function GetFQDNs(s: Status?): seq<string>
    reads s
  {
    match View(s).fqdns
    case None => []
    case Some(l) => l
  }

  function GetUsedTemplatesCount(s: Status?): nat
    reads s
  {
    |View(s).usedTemplates|
  }

  predicate HasNormalizedCR(s: Status?)
    reads s
  {
    GetNormalizedCR(s) != null
  }

  predicate HasNormalizedCRCompleted(s: Status?)
    reads s
  {
    GetNormalizedCRCompleted(s) != null
  }
}
