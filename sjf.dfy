/** Shortest-job-first: the tier-1 queue is bubble-sorted in place by burst time.
    Only strictly greater neighbours are swapped, so processes with equal burst times keep
    their queue order: the result is the one stable sort of the queue by burst time. */
module ShortestJobFirst {
  import opened Processes

  /** The processes of `s` whose burst time is `b`, in queue order. */
  function ByBurst(s: seq<Process>, b: int): seq<Process>
  {
    if s == [] then [] else (if s[0].burst == b then [s[0]] else []) + ByBurst(s[1..], b)
  }

  predicate SortedByBurst(s: seq<Process>)
  {
    forall i, j :: 0 <= i < j < |s| ==> s[i].burst <= s[j].burst
  }

  /** `s` and `t` list the processes of every burst time in the same order: each tie
      class is kept as it was (and so, see TiesPermutation, `t` is a permutation of `s`). */
  ghost predicate SameTies(s: seq<Process>, t: seq<Process>)
  {
    forall b :: ByBurst(s, b) == ByBurst(t, b)
  }

  lemma {:induction false} ByBurstAppend(s: seq<Process>, t: seq<Process>, b: int)
    ensures ByBurst(s + t, b) == ByBurst(s, b) + ByBurst(t, b)
  {
    if s != [] {
      assert (s + t)[0] == s[0] && (s + t)[1..] == s[1..] + t;
      ByBurstAppend(s[1..], t, b);
    } else {
      assert s + t == t;
    }
  }

  /** A tie class holds processes of `s` with that burst time, each as often as `s` does. */
  lemma {:induction false} ByBurstCount(s: seq<Process>, b: int, x: Process)
    ensures multiset(ByBurst(s, b))[x] == if x.burst == b then multiset(s)[x] else 0
  {
    if s != [] {
      ByBurstCount(s[1..], b, x);
      assert s == [s[0]] + s[1..];
    }
  }

  /** Keeping every tie class means keeping the multiset: no process is lost or duplicated. */
  lemma TiesPermutation(s: seq<Process>, t: seq<Process>)
    requires SameTies(s, t)
    ensures multiset(s) == multiset(t)
  {
    forall x: Process ensures multiset(s)[x] == multiset(t)[x] {
      ByBurstCount(s, x.burst, x);
      ByBurstCount(t, x.burst, x);
      assert ByBurst(s, x.burst) == ByBurst(t, x.burst);
    }
  }

  /** Swapping two neighbours of different burst times keeps every tie class. */
  lemma SwapKeepsTies(s: seq<Process>, j: nat)
    requires j + 1 < |s| && s[j].burst != s[j + 1].burst
    ensures SameTies(s[j := s[j + 1]][j + 1 := s[j]], s)
  {
    var t := s[j := s[j + 1]][j + 1 := s[j]];
    assert s == s[..j] + ([s[j]] + [s[j + 1]]) + s[j + 2..];
    assert t == s[..j] + ([s[j + 1]] + [s[j]]) + s[j + 2..];
    forall b ensures ByBurst(t, b) == ByBurst(s, b) {
      ByBurstAppend(s[..j], [s[j]] + [s[j + 1]], b);
      ByBurstAppend(s[..j] + ([s[j]] + [s[j + 1]]), s[j + 2..], b);
      ByBurstAppend([s[j]], [s[j + 1]], b);
      ByBurstAppend(s[..j], [s[j + 1]] + [s[j]], b);
      ByBurstAppend(s[..j] + ([s[j + 1]] + [s[j]]), s[j + 2..], b);
      ByBurstAppend([s[j + 1]], [s[j]], b);
    }
  }

  /** Places `x` in front of the first process whose burst time is not smaller. */
  function Insert(x: Process, t: seq<Process>): seq<Process>
  {
    if t == [] || x.burst <= t[0].burst then [x] + t else [t[0]] + Insert(x, t[1..])
  }

  /** The reference order of the SJF queue: a stable insertion sort by burst time. */
  function SjfOrder(s: seq<Process>): seq<Process>
  {
    if s == [] then [] else Insert(s[0], SjfOrder(s[1..]))
  }

  /** A process no longer than any process of a sorted queue can go in front of it. */
  lemma ConsSorted(y: Process, r: seq<Process>)
    requires SortedByBurst(r) && forall z :: z in r ==> y.burst <= z.burst
    ensures SortedByBurst([y] + r)
  {
    forall i, j | 0 <= i < j < |r| + 1 ensures ([y] + r)[i].burst <= ([y] + r)[j].burst {
      assert ([y] + r)[j] == r[j - 1];
      if i > 0 {
        assert ([y] + r)[i] == r[i - 1];
      }
    }
  }

  lemma {:induction false} InsertSorted(x: Process, t: seq<Process>)
    requires SortedByBurst(t)
    ensures multiset(Insert(x, t)) == multiset(t) + multiset{x}
    ensures SortedByBurst(Insert(x, t))
  {
    if t == [] || x.burst <= t[0].burst {
      ConsSorted(x, t);
    } else {
      var rest := Insert(x, t[1..]);
      assert SortedByBurst(t[1..]);
      InsertSorted(x, t[1..]);
      assert t == [t[0]] + t[1..];
      forall y | y in rest ensures t[0].burst <= y.burst {
        assert y in multiset(rest);
        if y != x {
          assert y in multiset(t[1..]);
          var k :| 0 <= k < |t[1..]| && t[1..][k] == y;
          assert t[k + 1] == y;
        }
      }
      ConsSorted(t[0], rest);
    }
  }

  /** The tie class of a queue headed by `y`: `y` if it belongs, then the rest's. */
  lemma ByBurstCons(y: Process, r: seq<Process>, b: int)
    ensures ByBurst([y] + r, b) == (if y.burst == b then [y] else []) + ByBurst(r, b)
  {
    assert ([y] + r)[0] == y && ([y] + r)[1..] == r;
  }

  /** Inserting `x` puts it at the head of its tie class: every process already in `t`
      with the same burst time comes after it. */
  lemma {:induction false} InsertTies(x: Process, t: seq<Process>, b: int)
    ensures ByBurst(Insert(x, t), b) == (if x.burst == b then [x] else []) + ByBurst(t, b)
  {
    if t == [] || x.burst <= t[0].burst {
      ByBurstCons(x, t, b);
    } else {
      var rest := Insert(x, t[1..]);
      var hx: seq<Process> := if x.burst == b then [x] else [];
      var h0: seq<Process> := if t[0].burst == b then [t[0]] else [];
      assert Insert(x, t) == [t[0]] + rest;
      InsertTies(x, t[1..], b);
      ByBurstCons(t[0], rest, b);
      assert t == [t[0]] + t[1..];
      ByBurstCons(t[0], t[1..], b);
      assert h0 == [] || hx == [];
      assert h0 + (hx + ByBurst(t[1..], b)) == hx + (h0 + ByBurst(t[1..], b));
    }
  }

  /** The reference order is sorted by burst time, keeps every tie class, and so is a
      permutation of the queue. */
  lemma {:induction false} SjfOrderCorrect(s: seq<Process>)
    ensures SortedByBurst(SjfOrder(s)) && SameTies(SjfOrder(s), s)
    ensures multiset(SjfOrder(s)) == multiset(s)
  {
    if s != [] {
      SjfOrderCorrect(s[1..]);
      InsertSorted(s[0], SjfOrder(s[1..]));
      forall b ensures ByBurst(SjfOrder(s), b) == ByBurst(s, b) {
        InsertTies(s[0], SjfOrder(s[1..]), b);
      }
    }
    TiesPermutation(SjfOrder(s), s);
  }

  lemma {:induction false} ByBurstMembers(s: seq<Process>, b: int, y: Process)
    requires y in ByBurst(s, b)
    ensures y in s && y.burst == b
  {
    if s != [] && y !in (if s[0].burst == b then [s[0]] else []) {
      ByBurstMembers(s[1..], b, y);
    }
  }

  /** A stable sort has only one possible result: two orders of the same tie classes that
      are both sorted by burst time are equal. */
  lemma {:induction false} StableSortUnique(s: seq<Process>, t: seq<Process>)
    requires SortedByBurst(s) && SortedByBurst(t) && SameTies(s, t)
    ensures s == t
    decreases |s|
  {
    TiesPermutation(s, t);
    assert |s| == |multiset(s)| == |multiset(t)| == |t|;
    if s != [] {
      var b, c := s[0].burst, t[0].burst;
      assert ByBurst(s, b)[0] == s[0] && ByBurst(t, c)[0] == t[0];
      ByBurstMembers(t, b, ByBurst(t, b)[0]);
      ByBurstMembers(s, c, ByBurst(s, c)[0]);
      assert b == c;
      assert s[0] == t[0] by {
        assert ByBurst(s, b) == ByBurst(t, b);
      }
      forall d ensures ByBurst(s[1..], d) == ByBurst(t[1..], d) {
        var head := if b == d then [s[0]] else [];
        assert ByBurst(s, d) == head + ByBurst(s[1..], d);
        assert ByBurst(t, d) == head + ByBurst(t[1..], d);
        assert ByBurst(s, d) == ByBurst(t, d);
        assert (head + ByBurst(s[1..], d))[|head|..] == ByBurst(s[1..], d);
        assert (head + ByBurst(t[1..], d))[|head|..] == ByBurst(t[1..], d);
      }
      assert SortedByBurst(s[1..]) && SortedByBurst(t[1..]);
      StableSortUnique(s[1..], t[1..]);
      assert s == [s[0]] + s[1..] && t == [t[0]] + t[1..];
    }
  }

  /** Bubble-sort bookkeeping: from position `m` on, the queue is sorted ... */
  predicate SortedFrom(s: seq<Process>, m: int)
  {
    forall k, l :: 0 <= m <= k < l < |s| ==> s[k].burst <= s[l].burst
  }

  /** ... and no process before `m` is longer than one from `m` on ... */
  predicate SplitAt(s: seq<Process>, m: int)
  {
    forall k, l :: 0 <= k < m <= l < |s| ==> s[k].burst <= s[l].burst
  }

  /** ... and within a sweep, the process at `j` is a longest one among the first j + 1. */
  predicate LongestAt(s: seq<Process>, j: int)
  {
    0 <= j < |s| && forall k :: 0 <= k <= j ==> s[k].burst <= s[j].burst
  }

  /** One comparison of the inner sweep: the longest process seen so far moves to `j + 1`,
      and the sorted tail is untouched. */
  lemma BubbleStep(s: seq<Process>, t: seq<Process>, j: nat, m: nat)
    requires j + 1 < m <= |s| && LongestAt(s, j) && SortedFrom(s, m) && SplitAt(s, m)
    requires t == if s[j].burst > s[j + 1].burst then s[j := s[j + 1]][j + 1 := s[j]] else s
    ensures LongestAt(t, j + 1) && SortedFrom(t, m) && SplitAt(t, m)
  {
  }

  /** At the end of a sweep over the first `m` positions, the longest of them sits at m - 1
      and joins the sorted tail. */
  lemma SweepDone(s: seq<Process>, m: nat)
    requires 0 < m <= |s| && LongestAt(s, m - 1) && SortedFrom(s, m) && SplitAt(s, m)
    ensures SortedFrom(s, m - 1) && SplitAt(s, m - 1)
  {
  }

  /** One pass of the bubble sort over the first `m` positions: neighbours are compared
      left to right and swapped only when the first is strictly longer, so a longest
      process of the unsorted part moves to position m - 1 and joins the sorted tail. */
  method BubblePass(a: array<Process>, m: int)
    requires 0 < m <= a.Length && SortedFrom(a[..], m) && SplitAt(a[..], m)
    modifies a
    ensures SortedFrom(a[..], m - 1) && SplitAt(a[..], m - 1)
    ensures SameTies(a[..], old(a[..]))
  {
    var j := 0;
    while j < m - 1
      invariant 0 <= j <= m - 1
      invariant LongestAt(a[..], j)
      invariant SortedFrom(a[..], m) && SplitAt(a[..], m)
      invariant SameTies(a[..], old(a[..]))
    {
      ghost var before := a[..];
      if a[j].burst > a[j + 1].burst {
        SwapKeepsTies(a[..], j);
        a[j], a[j + 1] := a[j + 1], a[j];
      }
      BubbleStep(before, a[..], j, m);
      j := j + 1;
    }
    SweepDone(a[..], m);
  }

  /** The SJF pass: bubble sort on burst time, swapping a pair only when the first is
      strictly longer. The queue ends up in the reference order. */
  method Sjf(a: array<Process>)
    modifies a
    ensures SortedByBurst(a[..]) && SameTies(a[..], old(a[..]))
    ensures multiset(a[..]) == multiset(old(a[..]))
    ensures a[..] == SjfOrder(old(a[..]))
  {
    ghost var input := a[..];
    var n := a.Length;
    var i := 0;
    while i < n - 1
      invariant 0 <= i <= n && (n > 0 ==> i <= n - 1)
      invariant SortedFrom(a[..], n - i) && SplitAt(a[..], n - i)
      invariant SameTies(a[..], input)
    {
      BubblePass(a, n - i);
      i := i + 1;
    }
    assert SortedByBurst(a[..]) by {
      if n > 0 {
        assert SortedFrom(a[..], 1) && SplitAt(a[..], 1);
      }
    }
    SjfOrderCorrect(input);
    TiesPermutation(a[..], input);
    StableSortUnique(a[..], SjfOrder(input));
  }
}
