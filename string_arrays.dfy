/**
 * The string-slice helpers the status aggregate relies on: membership union and
 * intersection (`util.MergeStringArrays`, `util.IntersectStringArrays`) and the
 * reverse sort `sort.Sort(sort.Reverse(sort.StringSlice(..)))`.
 *
 * The `util` package is not part of this model; its two functions are given
 * here as the obvious loops. The history merges rely on the exact counts
 * `MergeStringArrays` promises, and `MergeAbsorbed` on its returning the
 * destination unchanged when the source adds nothing new.
 */
module StringArrays {
  import opened LexOrder

  predicate NoDuplicates(s: seq<string>) {
    forall i, j :: 0 <= i < j < |s| ==> s[i] != s[j]
  }

  /** Newest first: every entry sorts at or after each later one. */
  predicate SortedDesc(s: seq<string>) {
    forall i, j :: 0 <= i < j < |s| ==> LexLe(s[j], s[i])
  }

  /**
   * How often `x` occurs in the union of `dst` and `src`: as often as in `dst`
   * when it is there, otherwise once when it is in `src`.
   */
  function MergedCount(dst: seq<string>, src: seq<string>, x: string): (n: nat)
    ensures n == 0 <==> x !in dst && x !in src
  {
    if x in dst then multiset(dst)[x] else if x in src then 1 else 0
  }

  /** Union of two lists: `dst`, then each entry of `src` that is not there yet. */
  function MergeStringArrays(dst: seq<string>, src: seq<string>): (r: seq<string>)
    ensures forall x :: x in r <==> x in dst || x in src
    ensures forall x :: multiset(r)[x] == MergedCount(dst, src, x)
    ensures NoDuplicates(dst) ==> NoDuplicates(r)
    ensures |r| <= |dst| + |src|
    decreases |src|
  {
    if src == [] then dst
    else
      assert forall x :: x in src <==> x == src[0] || x in src[1..];
      MergeStringArrays(if src[0] in dst then dst else dst + [src[0]], src[1..])
  }

  /** The entries of `a` that also occur in `b`, in the order of `a`. */
  function IntersectStringArrays(a: seq<string>, b: seq<string>): (r: seq<string>)
    ensures forall x :: x in r <==> x in a && x in b
    ensures NoDuplicates(a) ==> NoDuplicates(r)
    ensures |r| <= |a|
  {
    if a == [] then []
    else
      assert forall x :: x in a <==> x == a[0] || x in a[1..];
      (if a[0] in b then [a[0]] else []) + IntersectStringArrays(a[1..], b)
  }

  /** Putting `h` in front of a descending list whose entries all sort at or before `h` keeps it descending. */
  lemma ConsSorted(h: string, t: seq<string>)
    requires SortedDesc(t)
    requires forall i :: 0 <= i < |t| ==> LexLe(t[i], h)
    ensures SortedDesc([h] + t)
  {
    var s := [h] + t;
    forall i, j | 0 <= i < j < |s| ensures LexLe(s[j], s[i]) {
      if i == 0 {
        assert s[j] == t[j - 1];
      } else {
        assert s[i] == t[i - 1] && s[j] == t[j - 1];
      }
    }
  }

  /** A bound on every entry of `s` and on `x` is a bound on every entry of a list with their multiset. */
  lemma MultisetBound(t: seq<string>, s: seq<string>, x: string, top: string)
    requires multiset(t) == multiset(s) + multiset{x}
    requires LexLe(x, top)
    requires forall i :: 0 <= i < |s| ==> LexLe(s[i], top)
    ensures forall i :: 0 <= i < |t| ==> LexLe(t[i], top)
  {
    forall i | 0 <= i < |t| ensures LexLe(t[i], top) {
      assert t[i] in multiset(t);
      if t[i] != x {
        assert t[i] in multiset(s);
        var k :| 0 <= k < |s| && s[k] == t[i];
      }
    }
  }

  /** Inserts `x` into a descending list at its place. */
  function Insert(x: string, s: seq<string>): (r: seq<string>)
    requires SortedDesc(s)
    ensures SortedDesc(r)
    ensures multiset(r) == multiset(s) + multiset{x}
  {
    if s == [] then [x]
    else if LexLe(s[0], x) then
      assert forall j :: 0 <= j < |s| ==> LexLe(s[j], s[0]) by {
        LexLeReflexive(s[0]);
      }
      assert forall j :: 0 <= j < |s| ==> LexLe(s[j], x) by {
        forall j | 0 <= j < |s| ensures LexLe(s[j], x) {
          LexLeTransitive(s[j], s[0], x);
        }
      }
      ConsSorted(x, s);
      [x] + s
    else
      LexLeTotal(s[0], x);
      var t := Insert(x, s[1..]);
      MultisetBound(t, s[1..], x, s[0]);
      ConsSorted(s[0], t);
      assert s == [s[0]] + s[1..];
      [s[0]] + t
  }

  /**
   * `sort.Sort(sort.Reverse(sort.StringSlice(s)))`: the entries of `s` in
   * descending order. Go's sort is not stable, but equal strings are
   * indistinguishable, and SortedDescUnique shows there is only one such result.
   */
  function SortDescending(s: seq<string>): (r: seq<string>)
    ensures SortedDesc(r)
    ensures multiset(r) == multiset(s)
    ensures |r| == |s|
  {
    if s == [] then []
    else
      assert s == [s[0]] + s[1..];
      var r := Insert(s[0], SortDescending(s[1..]));
      assert |multiset(r)| == |r| && |multiset(s)| == |s|;
      r
  }

  /** The head of a descending list sorts at or after every entry of it. */
  lemma SortedHeadIsLargest(a: seq<string>, x: string)
    requires SortedDesc(a) && x in multiset(a)
    ensures LexLe(x, a[0])
  {
    var k :| 0 <= k < |a| && a[k] == x;
    if k == 0 {
      LexLeReflexive(x);
    }
  }

  lemma SortedTail(a: seq<string>)
    requires a != [] && SortedDesc(a)
    ensures SortedDesc(a[1..])
  {
    forall i, j | 0 <= i < j < |a| - 1 ensures LexLe(a[1..][j], a[1..][i]) {
      assert a[1..][i] == a[i + 1] && a[1..][j] == a[j + 1];
    }
  }

  lemma TailMultiset(a: seq<string>)
    requires a != []
    ensures multiset(a[1..]) == multiset(a) - multiset{a[0]}
  {
    assert a == [a[0]] + a[1..];
  }

  lemma EqualByHeadAndTail(a: seq<string>, b: seq<string>)
    requires a != [] && b != [] && a[0] == b[0] && a[1..] == b[1..]
    ensures a == b
  {
    assert a == [a[0]] + a[1..] && b == [b[0]] + b[1..];
  }

  /** Two descending lists with the same entries are the same list. */
  lemma {:induction false} SortedDescUnique(a: seq<string>, b: seq<string>)
    requires SortedDesc(a) && SortedDesc(b)
    requires multiset(a) == multiset(b)
    ensures a == b
    decreases |a|
  {
    assert |multiset(a)| == |a| && |multiset(b)| == |b|;
    if a != [] {
      SortedHeadIsLargest(b, a[0]);
      SortedHeadIsLargest(a, b[0]);
      LexLeAntisymmetric(a[0], b[0]);
      SortedTail(a);
      SortedTail(b);
      TailMultiset(a);
      TailMultiset(b);
      SortedDescUnique(a[1..], b[1..]);
      EqualByHeadAndTail(a, b);
    }
  }

  lemma NoDuplicatesTail(s: seq<string>)
    requires s != [] && NoDuplicates(s)
    ensures NoDuplicates(s[1..]) && s[0] !in s[1..]
  {
    forall i, j | 0 <= i < j < |s| - 1 ensures s[1..][i] != s[1..][j] {
      assert s[1..][i] == s[i + 1] && s[1..][j] == s[j + 1];
    }
  }

  /** In a list without duplicates every entry occurs exactly once. */
  lemma {:induction false} NoDuplicatesOnce(s: seq<string>, x: string)
    requires NoDuplicates(s)
    ensures multiset(s)[x] == if x in s then 1 else 0
    decreases |s|
  {
    if s != [] {
      NoDuplicatesTail(s);
      NoDuplicatesOnce(s[1..], x);
      assert s == [s[0]] + s[1..];
    }
  }

  /** Two lists without duplicates and with the same entries hold the same multiset. */
  lemma SameMembersSameMultiset(a: seq<string>, b: seq<string>)
    requires NoDuplicates(a) && NoDuplicates(b)
    requires forall x :: x in a <==> x in b
    ensures multiset(a) == multiset(b)
  {
    forall x ensures multiset(a)[x] == multiset(b)[x] {
      NoDuplicatesOnce(a, x);
      NoDuplicatesOnce(b, x);
    }
  }

  /** Merging in entries that are all present already changes nothing. */
  lemma {:induction false} MergeAbsorbed(dst: seq<string>, src: seq<string>)
    requires forall x :: x in src ==> x in dst
    ensures MergeStringArrays(dst, src) == dst
    decreases |src|
  {
    if src != [] {
      assert src[0] in src;
      assert forall x :: x in src[1..] ==> x in src;
      MergeAbsorbed(dst, src[1..]);
    }
  }

  /** Sorting a list that is already descending gives it back unchanged. */
  lemma SortDescendingFixesSorted(s: seq<string>)
    requires SortedDesc(s)
    ensures SortDescending(s) == s
  {
    SortedDescUnique(SortDescending(s), s);
  }

  /** The set of entries of a list. */
  function Members(s: seq<string>): (m: set<string>)
    ensures forall x :: x in m <==> x in s
  {
    if s == [] then {} else {s[0]} + Members(s[1..])
  }

  /** The entries of a list without duplicates are as many as its length. */
  lemma {:induction false} DistinctCount(s: seq<string>)
    requires NoDuplicates(s)
    ensures |Members(s)| == |s|
    decreases |s|
  {
    if s != [] {
      NoDuplicatesTail(s);
      DistinctCount(s[1..]);
    }
  }

  /** A list holds at least as many entries as it has distinct members. */
  lemma {:induction false} MembersBound(s: seq<string>, members: set<string>)
    requires forall x :: x in members ==> x in s
    ensures |members| <= |s|
    decreases |s|
  {
    if s == [] {
      assert members == {};
    } else {
      assert s == [s[0]] + s[1..];
      MembersBound(s[1..], members - {s[0]});
    }
  }

  /** A list that contains every entry of a list without duplicates is at least as long. */
  lemma ContainsDistinctBound(l: seq<string>, s: seq<string>)
    requires NoDuplicates(l)
    requires forall x :: x in l ==> x in s
    ensures |l| <= |s|
  {
    DistinctCount(l);
    MembersBound(s, Members(l));
  }

  /** A list in which no entry occurs twice has no duplicates. */
  lemma AtMostOnceNoDuplicates(s: seq<string>)
    requires forall x :: multiset(s)[x] <= 1
    ensures NoDuplicates(s)
  {
    forall i, j | 0 <= i < j < |s| ensures s[i] != s[j] {
      assert s == s[..j] + s[j..];
      assert s[i] in s[..j] && s[j] in s[j..];
      assert multiset(s)[s[i]] == multiset(s[..j])[s[i]] + multiset(s[j..])[s[i]];
    }
  }

  /** Every list no more frequent than the union of a duplicate-free `dst` with anything has no duplicates. */
  lemma MergedCountNoDuplicates(dst: seq<string>, src: seq<string>, s: seq<string>)
    requires NoDuplicates(dst)
    requires forall x :: multiset(s)[x] <= MergedCount(dst, src, x)
    ensures NoDuplicates(s)
  {
    forall x ensures multiset(s)[x] <= 1 {
      NoDuplicatesOnce(dst, x);
    }
    AtMostOnceNoDuplicates(s);
  }

  /** A prefix holds no entry more often than the whole list. */
  lemma PrefixMultiset(s: seq<string>, k: nat)
    requires k <= |s|
    ensures forall x :: multiset(s[..k])[x] <= multiset(s)[x]
  {
    assert s == s[..k] + s[k..];
  }
}
