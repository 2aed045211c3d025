/**
 * The bounded, newest-first histories of the status aggregate (actions,
 * errors, started and completed task IDs) and the two ways they grow:
 * a push (prepend, then truncate to the cap) and a merge (union, reverse
 * sort, and for actions truncate to the cap).
 */
module Histories {
  import opened LexOrder
  import opened StringArrays

  const MAX_ACTIONS: nat := 10
  const MAX_ERRORS: nat := 10
  const MAX_TASK_IDS: nat := 10

  function Min(a: int, b: int): (m: int) {
    if a < b then a else b
  }

  /** Truncation `list[:cap]` when the list is longer than `cap` (`trimActionsNoSync`). */
  function Trim(list: seq<string>, cap: nat): (r: seq<string>)
    ensures |r| == Min(|list|, cap)
    ensures r == list[..|r|]
  {
    if |list| > cap then list[..cap] else list
  }

  /** `append([]string{x}, history...)` followed by truncation to `cap`. */
  function Prepend(x: string, history: seq<string>, cap: nat): (r: seq<string>)
    requires cap > 0
    ensures |r| == Min(|history| + 1, cap)
    ensures r[0] == x
    ensures r[1..] == history[..|r| - 1]
  {
    Trim([x] + history, cap)
  }

  /** The history after pushing `xs[0]`, then `xs[1]`, and so on. */
  function PushAll(history: seq<string>, xs: seq<string>, cap: nat): (r: seq<string>)
    requires cap > 0
    decreases |xs|
  {
    if xs == [] then history else PushAll(Prepend(xs[0], history, cap), xs[1..], cap)
  }

  function Reverse(xs: seq<string>): (r: seq<string>)
    ensures |r| == |xs|
    ensures forall i :: 0 <= i < |xs| ==> r[i] == xs[|xs| - 1 - i]
  {
    if xs == [] then [] else Reverse(xs[1..]) + [xs[0]]
  }

  lemma PrefixOfConcat(front: seq<string>, back: seq<string>, k: nat, m: nat)
    requires k <= |back| && m <= |front| + k
    ensures (front + back[..k])[..m] == (front + back)[..m]
  {
    assert forall i :: 0 <= i < m ==> (front + back[..k])[i] == (front + back)[i];
  }

  /**
   * However many entries are pushed, the history holds the newest ones first,
   * in reverse call order, followed by the surviving old entries, and never
   * more than `cap` of them. A history already over the cap is cut by the
   * first push.
   */
  lemma {:induction false} PushAllNewestFirst(history: seq<string>, xs: seq<string>, cap: nat)
    requires cap > 0 && (|history| <= cap || xs != [])
    ensures PushAll(history, xs, cap) == (Reverse(xs) + history)[..Min(|xs| + |history|, cap)]
    ensures |PushAll(history, xs, cap)| <= cap
    decreases |xs|
  {
    if xs == [] {
      assert Reverse(xs) + history == history;
    } else {
      var next := Prepend(xs[0], history, cap);
      PushAllNewestFirst(next, xs[1..], cap);
      var rest := Reverse(xs[1..]);
      assert Reverse(xs) + history == rest + ([xs[0]] + history);
      var k := Min(|history| + 1, cap);
      assert next == ([xs[0]] + history)[..k];
      PrefixOfConcat(rest, [xs[0]] + history, k, Min(|xs| - 1 + k, cap));
    }
  }

  /** A prefix of a descending list is descending. */
  lemma PrefixSorted(s: seq<string>, n: nat)
    requires SortedDesc(s) && n <= |s|
    ensures SortedDesc(s[..n])
  {
    assert forall i :: 0 <= i < n ==> s[..n][i] == s[i];
  }

  /**
   * A copy of `x` that a prefix of a descending list leaves out lies after the
   * prefix, so every entry of the prefix sorts at or before it.
   */
  lemma DroppedCopySortsLast(s: seq<string>, n: nat, x: string)
    requires SortedDesc(s) && n <= |s|
    requires multiset(s[..n])[x] < multiset(s)[x]
    ensures n < |s|
    ensures forall i :: 0 <= i < n ==> LexLe(x, s[..n][i])
  {
    assert s == s[..n] + s[n..];
    assert multiset(s) == multiset(s[..n]) + multiset(s[n..]);
    assert x in multiset(s[n..]);
    var k :| n <= k < |s| && s[k] == x;
  }

  /**
   * Counts in the first `MAX_ACTIONS` entries of a descending list that holds
   * each entry exactly as often as the merge of `current` and `incoming`.
   */
  lemma CappedMergeCounts(current: seq<string>, incoming: seq<string>, sorted: seq<string>, r: seq<string>)
    requires forall x :: multiset(sorted)[x] == MergedCount(current, incoming, x)
    requires r == Trim(sorted, MAX_ACTIONS)
    ensures forall x :: multiset(r)[x] <= MergedCount(current, incoming, x)
    ensures |r| < MAX_ACTIONS ==> forall x :: multiset(r)[x] == MergedCount(current, incoming, x)
  {
    PrefixMultiset(sorted, |r|);
    assert |r| < MAX_ACTIONS ==> r == sorted;
  }

  /** What the cut leaves out of such a list sorts at or after everything it keeps. */
  lemma CappedMergeDrops(current: seq<string>, incoming: seq<string>, sorted: seq<string>, r: seq<string>)
    requires SortedDesc(sorted)
    requires forall x :: multiset(sorted)[x] == MergedCount(current, incoming, x)
    requires r == Trim(sorted, MAX_ACTIONS)
    ensures forall x :: multiset(r)[x] < MergedCount(current, incoming, x) ==>
              |r| == MAX_ACTIONS && forall i :: 0 <= i < |r| ==> LexLe(x, r[i])
  {
    forall x | multiset(r)[x] < MergedCount(current, incoming, x)
      ensures |r| == MAX_ACTIONS && forall i :: 0 <= i < |r| ==> LexLe(x, r[i])
    {
      DroppedCopySortsLast(sorted, |r|, x);
    }
  }

  /** Membership in such a cut list, from its counts. */
  lemma CappedMergeMembers(current: seq<string>, incoming: seq<string>, r: seq<string>)
    requires forall x :: multiset(r)[x] <= MergedCount(current, incoming, x)
    requires forall x :: multiset(r)[x] < MergedCount(current, incoming, x) ==>
               |r| == MAX_ACTIONS && forall i :: 0 <= i < |r| ==> LexLe(x, r[i])
    ensures forall x :: x in r ==> x in current || x in incoming
    ensures forall x :: (x in current || x in incoming) && x !in r ==>
              |r| == MAX_ACTIONS && forall i :: 0 <= i < |r| ==> LexLe(x, r[i])
  {
    forall x ensures x in r <==> multiset(r)[x] > 0 {
      assert x in r <==> x in multiset(r);
    }
  }

  /**
   * `mergeActionsNoSync`: the union of both action histories, newest first,
   * cut to the cap. An entry of either history, or one copy of an entry the
   * current history repeats, is dropped only when the cap is reached and every
   * kept entry sorts at or after it.
   */
  function MergeActions(current: seq<string>, incoming: seq<string>): (r: seq<string>)
    ensures SortedDesc(r)
    ensures |r| <= MAX_ACTIONS
    ensures forall x :: x in r ==> x in current || x in incoming
    ensures forall x :: (x in current || x in incoming) && x !in r ==>
              |r| == MAX_ACTIONS && forall i :: 0 <= i < |r| ==> LexLe(x, r[i])
    ensures forall x :: multiset(r)[x] <= MergedCount(current, incoming, x)
    ensures |r| < MAX_ACTIONS ==> forall x :: multiset(r)[x] == MergedCount(current, incoming, x)
    ensures forall x :: multiset(r)[x] < MergedCount(current, incoming, x) ==>
              |r| == MAX_ACTIONS && forall i :: 0 <= i < |r| ==> LexLe(x, r[i])
    ensures NoDuplicates(current) ==> NoDuplicates(r)
  {
    var merged := MergeStringArrays(current, incoming);
    var sorted := SortDescending(merged);
    var r := Trim(sorted, MAX_ACTIONS);
    PrefixSorted(sorted, |r|);
    CappedMergeCounts(current, incoming, sorted, r);
    CappedMergeDrops(current, incoming, sorted, r);
    CappedMergeMembers(current, incoming, r);
    assert NoDuplicates(current) ==> NoDuplicates(r) by {
      if NoDuplicates(current) {
        MergedCountNoDuplicates(current, incoming, r);
      }
    }
    r
  }

  /**
   * The `Errors` switch of `CopyFrom`: the union of both error histories,
   * newest first, with no cap. Entries repeated in the current history stay
   * repeated; every other entry occurs once.
   */
  function MergeErrors(current: seq<string>, incoming: seq<string>): (r: seq<string>)
    ensures SortedDesc(r)
    ensures forall x :: x in r <==> x in current || x in incoming
    ensures forall x :: multiset(r)[x] == MergedCount(current, incoming, x)
    ensures NoDuplicates(current) ==> NoDuplicates(r)
    ensures |r| <= |current| + |incoming|
  {
    var merged := MergeStringArrays(current, incoming);
    var r := SortDescending(merged);
    assert NoDuplicates(current) ==> NoDuplicates(r) by {
      if NoDuplicates(current) {
        MergedCountNoDuplicates(current, incoming, r);
      }
    }
    assert forall x :: x in r <==> x in merged by {
      forall x ensures x in r <==> x in merged {
        assert x in r <==> x in multiset(r);
        assert x in merged <==> x in multiset(merged);
      }
    }
    r
  }
}
