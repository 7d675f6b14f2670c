/** Queue routing: the input processes are split by priority into four ordered tiers,
    and one routing line is written per routed process. */
module Routing {
  import opened Processes
  import opened Text

  /** The priorities that have a queue: 0 goes to CPU-1, 1..3 to the three CPU-2 queues.
      A process with any other priority is dropped without a line. */
  const Routed: set<int> := {0, 1, 2, 3}

  /** The processes of `s` whose priority is in `ks`, in input order. */
  function Select(s: seq<Process>, ks: set<int>): seq<Process>
  {
    if s == [] then []
    else Select(s[..|s| - 1], ks) + (if s[|s| - 1].priority in ks then [s[|s| - 1]] else [])
  }

  /** The routing line written for a process of a routed priority. */
  function RouteLine(p: Process): string
    requires p.priority in Routed
  {
    if p.priority == 0 then "Process " + p.id + " is queued to be assigned to CPU-1."
    else if p.priority == 1 then "Process " + p.id + " is placed in the que1 queue to be assigned to CPU-2."
    else if p.priority == 2 then "Process " + p.id + " is placed in the que2 queue to be assigned to CPU-2."
    else "Process " + p.id + " is placed in the que3 queue to be assigned to CPU-2."
  }

  /** The routing lines for `s`, in input order; an unrouted process adds none. */
  function RoutingLines(s: seq<Process>): seq<string>
  {
    if s == [] then []
    else
      var p := s[|s| - 1];
      RoutingLines(s[..|s| - 1]) + (if p.priority in Routed then [RouteLine(p)] else [])
  }

  /** Routes every process to the tier of its priority, keeping input order within each
      tier, and writes the routing lines into a fresh output buffer. */
  method RouteProcesses(ps: seq<Process>)
    returns (cpu1: seq<Process>, high: seq<Process>, medium: seq<Process>, low: seq<Process>, out: string)
    ensures cpu1 == Select(ps, {0}) && high == Select(ps, {1})
    ensures medium == Select(ps, {2}) && low == Select(ps, {3})
    ensures out == Render(RoutingLines(ps))
  {
    cpu1, high, medium, low, out := [], [], [], [], "";
    var i := 0;
    while i < |ps|
      invariant 0 <= i <= |ps|
      invariant cpu1 == Select(ps[..i], {0}) && high == Select(ps[..i], {1})
      invariant medium == Select(ps[..i], {2}) && low == Select(ps[..i], {3})
      invariant out == Render(RoutingLines(ps[..i]))
    {
      var p := ps[i];
      RouteStep(ps, i);
      if p.priority == 0 {
        cpu1 := cpu1 + [p];
        out := out + RouteLine(p) + "\n";
      } else if p.priority == 1 {
        high := high + [p];
        out := out + RouteLine(p) + "\n";
      } else if p.priority == 2 {
        medium := medium + [p];
        out := out + RouteLine(p) + "\n";
      } else if p.priority == 3 {
        low := low + [p];
        out := out + RouteLine(p) + "\n";
      }
      i := i + 1;
    }
    assert ps[..|ps|] == ps;
  }

  /** One step of the routing loop: the next process joins the end of its tier and
      adds its line, or leaves everything as it was. */
  lemma RouteStep(ps: seq<Process>, i: nat)
    requires i < |ps|
    ensures forall k :: Select(ps[..i + 1], {k}) ==
              Select(ps[..i], {k}) + (if ps[i].priority == k then [ps[i]] else [])
    ensures ps[i].priority in Routed ==>
              Render(RoutingLines(ps[..i + 1])) == Render(RoutingLines(ps[..i])) + RouteLine(ps[i]) + "\n"
    ensures ps[i].priority !in Routed ==> RoutingLines(ps[..i + 1]) == RoutingLines(ps[..i])
  {
    assert ps[..i + 1][..i] == ps[..i] && ps[..i + 1][i] == ps[i];
    if ps[i].priority in Routed {
      RenderSnoc(RoutingLines(ps[..i]), RouteLine(ps[i]));
    }
  }

  /** Each process of `s` is in the selection as often as in `s` when its priority is in
      `ks`, and not at all otherwise: no duplication, no loss, no stray process. */
  lemma {:induction false} SelectCount(s: seq<Process>, ks: set<int>, x: Process)
    ensures multiset(Select(s, ks))[x] == if x.priority in ks then multiset(s)[x] else 0
  {
    if s != [] {
      var init, p := s[..|s| - 1], s[|s| - 1];
      assert s == init + [p];
      SelectCount(init, ks, x);
    }
  }

  /** Selecting by two disjoint priority sets splits the selection by their union. */
  lemma {:induction false} SelectUnion(s: seq<Process>, a: set<int>, b: set<int>)
    requires a !! b
    ensures multiset(Select(s, a + b)) == multiset(Select(s, a)) + multiset(Select(s, b))
  {
    if s != [] {
      SelectUnion(s[..|s| - 1], a, b);
    }
  }

  /** The four tiers partition the routed processes: together they hold each process of a
      routed priority exactly as often as the input does. */
  lemma TierPartition(s: seq<Process>)
    ensures multiset(Select(s, {0})) + multiset(Select(s, {1})) + multiset(Select(s, {2}))
            + multiset(Select(s, {3})) == multiset(Select(s, Routed))
    ensures |Select(s, {0})| + |Select(s, {1})| + |Select(s, {2})| + |Select(s, {3})|
            == |Select(s, Routed)|
  {
    SelectUnion(s, {0}, {1});
    SelectUnion(s, {0, 1}, {2});
    SelectUnion(s, {0, 1, 2}, {3});
    assert {0} + {1} == {0, 1} && {0, 1} + {2} == {0, 1, 2} && {0, 1, 2} + {3} == Routed;
  }

  /** The selection from a prefix of `s` is a prefix of the selection from `s`. */
  lemma {:induction false} SelectPrefix(s: seq<Process>, n: nat, ks: set<int>)
    requires n <= |s|
    ensures |Select(s[..n], ks)| <= |Select(s, ks)|
    ensures Select(s, ks)[..|Select(s[..n], ks)|] == Select(s[..n], ks)
  {
    if n < |s| {
      var init := s[..|s| - 1];
      assert init[..n] == s[..n];
      SelectPrefix(init, n, ks);
    } else {
      assert s[..n] == s;
    }
  }

  /** Where process `i` lands in its tier: the number of earlier processes selected. */
  function Rank(s: seq<Process>, ks: set<int>, i: nat): nat
    requires i <= |s|
  {
    |Select(s[..i], ks)|
  }

  /** A selected process sits in the selection at its rank. */
  lemma SelectAt(s: seq<Process>, ks: set<int>, i: nat)
    requires i < |s| && s[i].priority in ks
    ensures Rank(s, ks, i) < |Select(s, ks)| && Select(s, ks)[Rank(s, ks, i)] == s[i]
  {
    var upto := s[..i + 1];
    assert upto[..i] == s[..i] && upto[i] == s[i];
    SelectPrefix(s, i + 1, ks);
  }

  /** Stable partition: two selected processes appear in the selection in input order. */
  lemma SelectKeepsOrder(s: seq<Process>, ks: set<int>, i: nat, j: nat)
    requires i < j < |s| && s[i].priority in ks && s[j].priority in ks
    ensures Rank(s, ks, i) < Rank(s, ks, j) < |Select(s, ks)|
    ensures Select(s, ks)[Rank(s, ks, i)] == s[i] && Select(s, ks)[Rank(s, ks, j)] == s[j]
  {
    SelectAt(s, ks, i);
    SelectAt(s, ks, j);
    var upto := s[..j];
    assert upto[..i + 1] == s[..i + 1];
    SelectPrefix(upto, i + 1, ks);
    var below := s[..i + 1];
    assert below[..i] == s[..i] && below[i] == s[i];
  }

  /** The routing lines are exactly one line per routed process, in input order. */
  lemma {:induction false} RoutingLinesShape(s: seq<Process>)
    ensures |RoutingLines(s)| == |Select(s, Routed)|
    ensures forall j :: 0 <= j < |RoutingLines(s)| ==>
              Select(s, Routed)[j].priority in Routed &&
              RoutingLines(s)[j] == RouteLine(Select(s, Routed)[j])
  {
    if s != [] {
      var init := s[..|s| - 1];
      RoutingLinesShape(init);
    }
  }
}
