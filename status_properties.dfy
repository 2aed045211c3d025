/**
 * What `CopyFrom` promises across its six switches, stated on the value-level
 * specification `CopyFromSpec` that the `Status.CopyFrom` method is proved
 * against, and the order-independence of the two history merges.
 */
module StatusProperties {
  import opened LexOrder
  import opened StringArrays
  import opened Histories
  import opened ChopStatus

  /**
   * Every getter on a nil status returns the zero value of its type: empty
   * strings, zero counts, empty lists and nil pointers, and both checkers
   * answer false.
   */
  lemma NilStatusReadsZero()
    ensures GetCHOpVersion(null) == "" && GetCHOpCommit(null) == "" && GetCHOpDate(null) == ""
    ensures GetCHOpIP(null) == "" && GetStatus(null) == "" && GetTaskID(null) == ""
    ensures GetAction(null) == "" && GetError(null) == "" && GetEndpoint(null) == ""
    ensures GetClustersCount(null) == 0 && GetShardsCount(null) == 0
    ensures GetReplicasCount(null) == 0 && GetHostsCount(null) == 0
    ensures GetHostsUpdatedCount(null) == 0 && GetHostsAddedCount(null) == 0
    ensures GetHostsUnchangedCount(null) == 0 && GetHostsFailedCount(null) == 0
    ensures GetHostsCompletedCount(null) == 0 && GetHostsDeletedCount(null) == 0
    ensures GetHostsDeleteCount(null) == 0 && GetUsedTemplatesCount(null) == 0
    ensures GetTaskIDsStarted(null) == [] && GetTaskIDsCompleted(null) == []
    ensures GetActions(null) == [] && GetErrors(null) == [] && GetPods(null) == []
    ensures GetPodIPs(null) == [] && GetFQDNs(null) == [] && GetHostsWithTablesCreated(null) == []
    ensures GetNormalizedCR(null) == null && GetNormalizedCRCompleted(null) == null
    ensures !HasNormalizedCR(null) && !HasNormalizedCRCompleted(null)
  {
  }

  /**
   * Whenever the `Actions`, `MainFields` or `WholeStatus` switch is set, the
   * action history comes out newest first, within its cap, and made only of
   * entries from the two statuses; otherwise it is the one `InheritableFields`
   * installs, or the destination's.
   */
  lemma CopyFromActions(d: StatusValue, f: StatusValue, opts: CopyStatusOptions)
    ensures var r := CopyFromSpec(d, f, opts);
      && (opts.actions || opts.mainFields || opts.wholeStatus ==>
            SortedDesc(r.actions) && |r.actions| <= MAX_ACTIONS &&
            forall x :: x in r.actions ==> x in d.actions || x in f.actions)
      && (!opts.actions && !opts.mainFields && !opts.wholeStatus ==>
            r.actions == (if opts.inheritableFields then f.actions else d.actions))
  {
  }

  /**
   * Under `MainFields` or `WholeStatus` the errors are the source's, unmerged,
   * in their own order unless `InheritableFields` and `Errors` sorted the
   * shared slice first. Under `Errors` alone they are the union of both
   * histories (of the source's twice if `InheritableFields` replaced them
   * first), newest first.
   */
  lemma CopyFromErrors(d: StatusValue, f: StatusValue, opts: CopyStatusOptions)
    ensures var r := CopyFromSpec(d, f, opts);
      && (opts.mainFields || opts.wholeStatus ==>
            r.error == f.error &&
            r.errors == (if opts.inheritableFields && opts.errors then SortDescending(f.errors) else f.errors))
      && (opts.errors && !opts.mainFields && !opts.wholeStatus ==>
            r.error == f.error && SortedDesc(r.errors) &&
            forall x :: x in r.errors <==> (x in d.errors && !opts.inheritableFields) || x in f.errors)
      && (!opts.errors && !opts.mainFields && !opts.wholeStatus ==>
            r.error == d.error && r.errors == (if opts.inheritableFields then f.errors else d.errors))
  {
  }

  /**
   * The normalized snapshot is copied by `MainFields`, `Normalized` or
   * `WholeStatus`; the completed snapshot only by `WholeStatus`.
   */
  lemma CopyFromSnapshots(d: StatusValue, f: StatusValue, opts: CopyStatusOptions)
    ensures var r := CopyFromSpec(d, f, opts);
      && r.normalizedCR == (if opts.mainFields || opts.normalized || opts.wholeStatus then f.normalizedCR
                            else d.normalizedCR)
      && r.normalizedCRCompleted == (if opts.wholeStatus then f.normalizedCRCompleted
                                     else d.normalizedCRCompleted)
  {
  }

  /** No switch copies the failed-hosts counter. */
  lemma CopyFromKeepsFailedHosts(d: StatusValue, f: StatusValue, opts: CopyStatusOptions)
    ensures CopyFromSpec(d, f, opts).hostsFailedCount == d.hostsFailedCount
  {
  }

  /**
   * The tables-created hosts and the used templates come only from the
   * `InheritableFields` and `Actions` switches; `MainFields` and `WholeStatus`
   * leave them alone.
   */
  lemma CopyFromProvenance(d: StatusValue, f: StatusValue, opts: CopyStatusOptions)
    ensures var r := CopyFromSpec(d, f, opts);
      && (opts.actions ==>
            r.hostsWithTablesCreated == f.hostsWithTablesCreated && r.usedTemplates == f.usedTemplates)
      && (!opts.actions ==>
            r.hostsWithTablesCreated == (if opts.inheritableFields then f.hostsWithTablesCreated
                                         else d.hostsWithTablesCreated)
            && r.usedTemplates == d.usedTemplates)
  {
  }

  /**
   * `Normalized` alone changes the normalized snapshot and nothing else;
   * `Errors` alone changes the two error fields and nothing else; no switch at
   * all changes nothing.
   */
  lemma CopyFromSelective(d: StatusValue, f: StatusValue)
    ensures CopyFromSpec(d, f, CopyStatusOptions(false, false, false, false, true, false)) ==
            d.(normalizedCR := f.normalizedCR)
    ensures CopyFromSpec(d, f, CopyStatusOptions(false, false, true, false, false, false)) ==
            d.(error := f.error, errors := MergeErrors(d.errors, f.errors))
    ensures CopyFromSpec(d, f, CopyStatusOptions(false, false, false, false, false, false)) == d
  {
  }

  /**
   * Every switch combination keeps the four histories within their caps,
   * except one in which the uncapped `Errors` merge is the last to write the
   * error history.
   */
  lemma CopyFromKeepsHistoriesBounded(d: StatusValue, f: StatusValue, opts: CopyStatusOptions)
    requires HistoriesBounded(d) && HistoriesBounded(f)
    requires !opts.errors || opts.mainFields || opts.wholeStatus
    ensures HistoriesBounded(CopyFromSpec(d, f, opts))
  {
  }

  /** Eleven distinct one-character strings, `"0"` to `":"`. */
  function Distinct11(): (s: seq<string>)
    ensures |s| == MAX_ERRORS + 1
    ensures NoDuplicates(s)
  {
    var s := seq(MAX_ERRORS + 1, i requires 0 <= i < MAX_ERRORS + 1 => [(48 + i) as char]);
    assert forall i :: 0 <= i < |s| ==> s[i][0] as int == 48 + i;
    s
  }

  /** The `Errors` merge has no cap: ten errors and one more come out as eleven. */
  lemma MergeErrorsCanExceedCap()
    ensures |MergeErrors(Distinct11()[..MAX_ERRORS], Distinct11()[MAX_ERRORS..])| > MAX_ERRORS
  {
    var all := Distinct11();
    var r := MergeErrors(all[..MAX_ERRORS], all[MAX_ERRORS..]);
    assert all == all[..MAX_ERRORS] + all[MAX_ERRORS..];
    assert forall x :: x in all ==> x in all[..MAX_ERRORS] || x in all[MAX_ERRORS..];
    ContainsDistinctBound(all, r);
  }

  /** The exception above is real: `Errors` alone can leave eleven errors behind. */
  lemma ErrorsSwitchExceedsCap()
    ensures exists d: StatusValue, f: StatusValue ::
      HistoriesBounded(d) && HistoriesBounded(f) &&
      |CopyFromSpec(d, f, CopyStatusOptions(false, false, true, false, false, false)).errors| > MAX_ERRORS
  {
    var all := Distinct11();
    var d := EmptyStatus().(errors := all[..MAX_ERRORS]);
    var f := EmptyStatus().(errors := all[MAX_ERRORS..]);
    MergeErrorsCanExceedCap();
    assert CopyFromSpec(d, f, CopyStatusOptions(false, false, true, false, false, false)).errors ==
           MergeErrors(d.errors, f.errors);
    assert HistoriesBounded(d) && HistoriesBounded(f);
  }

  /** Two history lists without duplicates, merged in either order, give the same error history. */
  lemma MergeErrorsCommutes(a: seq<string>, b: seq<string>)
    requires NoDuplicates(a) && NoDuplicates(b)
    ensures MergeErrors(a, b) == MergeErrors(b, a)
  {
    var ab := MergeStringArrays(a, b);
    var ba := MergeStringArrays(b, a);
    SameMembersSameMultiset(ab, ba);
    SortedDescUnique(SortDescending(ab), SortDescending(ba));
  }

  /** Two action histories without duplicates, merged in either order, give the same action history. */
  lemma MergeActionsCommutes(a: seq<string>, b: seq<string>)
    requires NoDuplicates(a) && NoDuplicates(b)
    ensures MergeActions(a, b) == MergeActions(b, a)
  {
    var ab := MergeStringArrays(a, b);
    var ba := MergeStringArrays(b, a);
    SameMembersSameMultiset(ab, ba);
    SortedDescUnique(SortDescending(ab), SortDescending(ba));
  }

  /**
   * With `InheritableFields`, `Errors` and `MainFields` set, the destination
   * ends with the source's errors in the order the `Errors` switch sorted
   * them into, not in the order the source held them.
   */
  lemma InheritedErrorsCopiedSorted()
    ensures CopyFromSpec(EmptyStatus(), EmptyStatus().(errors := ["a", "b"]),
                         CopyStatusOptions(true, false, true, true, false, false)).errors == ["b", "a"]
  {
    var sorted := SortDescending(["a", "b"]);
    assert LexLe("a", "b");
    assert SortedDesc(["b", "a"]);
    assert multiset(["b", "a"]) == multiset(["a", "b"]);
    SortedDescUnique(sorted, ["b", "a"]);
  }

  /**
   * The actions merge depends only on which entries the incoming history
   * holds, not on their order or repeats, so an in-place reorder of the
   * source's shared action slice does not reach the destination.
   */
  lemma MergeActionsIgnoresIncomingOrder(current: seq<string>, a: seq<string>, b: seq<string>)
    requires forall x :: x in a <==> x in b
    ensures MergeActions(current, a) == MergeActions(current, b)
  {
    var ma := MergeStringArrays(current, a);
    var mb := MergeStringArrays(current, b);
    assert multiset(ma) == multiset(mb) by {
      forall x ensures multiset(ma)[x] == multiset(mb)[x] {
        assert MergedCount(current, a, x) == MergedCount(current, b, x);
      }
    }
    SortedDescUnique(SortDescending(ma), SortDescending(mb));
  }

  /** Copying the same source's errors a second time changes nothing. */
  lemma CopyErrorsIdempotent(d: StatusValue, f: StatusValue)
    ensures ErrorsFrom(ErrorsFrom(d, f), f) == ErrorsFrom(d, f)
  {
    var once := MergeErrors(d.errors, f.errors);
    MergeAbsorbed(once, f.errors);
    SortDescendingFixesSorted(once);
  }
}
