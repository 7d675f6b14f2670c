/** Round robin: the tier-2 and tier-3 queues are swept in queue order again and again; each
    process with time left is granted at most one quantum per sweep, until a sweep finds
    nothing left to run. */
module RoundRobinScheduling {
  import opened Processes

  function Min(x: int, y: int): int
  {
    if x <= y then x else y
  }

  /** The ticks one visit grants a process: none when it has no time left, otherwise its
      remaining time capped at the quantum. */
  function Slice(p: Process, quantum: int): int
  {
    if p.remaining <= 0 then 0 else Min(p.remaining, quantum)
  }

  /** One visit: a process with time left runs for a full quantum if its remaining time
      exceeds the quantum, and to completion otherwise. */
  function Visit(p: Process, quantum: int): Process
  {
    if p.remaining <= 0 then p
    else if p.remaining > quantum then p.(remaining := p.remaining - quantum)
    else p.(remaining := 0)
  }

  /** One sweep: every process of the queue visited once, in queue order. */
  function Sweep(s: seq<Process>, quantum: int): seq<Process>
  {
    seq(|s|, i requires 0 <= i < |s| => Visit(s[i], quantum))
  }

  /** The ticks a sweep grants to the first `n` processes of the queue. */
  function TicksBefore(s: seq<Process>, n: nat, quantum: int): int
    requires n <= |s|
  {
    if n == 0 then 0 else TicksBefore(s, n - 1, quantum) + Slice(s[n - 1], quantum)
  }

  /** The ticks one sweep grants in all. */
  function SweepTicks(s: seq<Process>, quantum: int): int
  {
    TicksBefore(s, |s|, quantum)
  }

  /** The work the queue still asks for: the sum of the positive remaining times. */
  function Owed(s: seq<Process>): nat
  {
    if s == [] then 0
    else Owed(s[..|s| - 1]) + (if s[|s| - 1].remaining > 0 then s[|s| - 1].remaining else 0)
  }

  /** No process of the queue has time left. */
  predicate Finished(s: seq<Process>)
  {
    forall k :: 0 <= k < |s| ==> s[k].remaining <= 0
  }

  /** The queue once round robin is over: every process that had time left has none,
      every other process (and every other field) is as it was. */
  function Drained(s: seq<Process>): seq<Process>
  {
    seq(|s|, i requires 0 <= i < |s| => if s[i].remaining > 0 then s[i].(remaining := 0) else s[i])
  }

  /** A visit to a process with time left takes exactly min(remaining, quantum) ticks off
      it, and it never drops below zero. */
  lemma VisitTakesSlice(p: Process, quantum: int)
    requires quantum > 0 && p.remaining > 0
    ensures 0 < Slice(p, quantum) <= quantum && Slice(p, quantum) <= p.remaining
    ensures Visit(p, quantum) == p.(remaining := p.remaining - Slice(p, quantum))
    ensures 0 <= Visit(p, quantum).remaining < p.remaining
  {
  }

  /** Conservation over one sweep: the ticks granted are exactly the work that disappears,
      and a sweep that finds work to do grants at least one tick. */
  lemma {:induction false} SweepAccounting(s: seq<Process>, quantum: int)
    requires quantum > 0
    ensures SweepTicks(s, quantum) + Owed(Sweep(s, quantum)) == Owed(s)
    ensures SweepTicks(s, quantum) >= 0
    ensures !Finished(s) ==> SweepTicks(s, quantum) > 0
  {
    if s != [] {
      var init := s[..|s| - 1];
      var p := s[|s| - 1];
      SweepAccounting(init, quantum);
      assert Sweep(s, quantum)[..|s| - 1] == Sweep(init, quantum);
      TicksPrefix(s, |s| - 1, quantum);
      if p.remaining > 0 {
        VisitTakesSlice(p, quantum);
      }
      assert forall k :: 0 <= k < |init| ==> init[k] == s[k];
    }
  }

  /** A sweep's ticks over the first `n` processes depend only on those processes. */
  lemma {:induction false} TicksPrefix(s: seq<Process>, n: nat, quantum: int)
    requires n <= |s|
    ensures TicksBefore(s, n, quantum) == TicksBefore(s[..n], n, quantum)
  {
    var t := s[..n];
    var m := n;
    while m > 0
      invariant 0 <= m <= n
      invariant TicksBefore(s, n, quantum) - TicksBefore(s, m, quantum)
                == TicksBefore(t, n, quantum) - TicksBefore(t, m, quantum)
      decreases m
    {
      assert s[m - 1] == t[m - 1];
      m := m - 1;
    }
  }

  /** A queue with no time left owes no work. */
  lemma {:induction false} FinishedOwesNothing(s: seq<Process>)
    requires Finished(s)
    ensures Owed(s) == 0
  {
    if s != [] {
      FinishedOwesNothing(s[..|s| - 1]);
    }
  }

  /** The total of the burst times of the processes with a positive burst time. */
  function TotalBurst(s: seq<Process>): int
  {
    if s == [] then 0
    else TotalBurst(s[..|s| - 1]) + (if s[|s| - 1].burst > 0 then s[|s| - 1].burst else 0)
  }

  /** For a queue as loaded, the work owed is its total burst time. */
  lemma {:induction false} OwedLoaded(s: seq<Process>)
    requires forall k :: 0 <= k < |s| ==> Loaded(s[k])
    ensures Owed(s) == TotalBurst(s)
  {
    if s != [] {
      OwedLoaded(s[..|s| - 1]);
    }
  }

  /** Between sweeps, every process is its input record with only the remaining time
      changed; a process that had time left has not gone below zero, and any other process
      is untouched. */
  predicate InProgress(input: seq<Process>, s: seq<Process>)
  {
    SameButRemaining(input, s) &&
    forall k :: 0 <= k < |s| ==>
      if input[k].remaining > 0 then s[k].remaining >= 0 else s[k] == input[k]
  }

  lemma SweepInProgress(input: seq<Process>, s: seq<Process>, quantum: int)
    requires quantum > 0 && InProgress(input, s)
    ensures InProgress(input, Sweep(s, quantum))
  {
    forall k | 0 <= k < |s| && s[k].remaining > 0 {
      VisitTakesSlice(s[k], quantum);
    }
  }

  /** Once nothing has time left, the queue is the drained input. */
  lemma FinishedIsDrained(input: seq<Process>, s: seq<Process>)
    requires InProgress(input, s) && Finished(s)
    ensures s == Drained(input)
  {
  }

  /** What one sweep does to the outer loop's bookkeeping: the clock and the work owed still
      add up to the work the input owed, a sweep that found work strictly reduces what is
      owed, and a sweep that found none leaves the drained input and the full clock. */
  lemma SweepStep(input: seq<Process>, start: seq<Process>, now: seq<Process>,
                  time0: int, time: int, quantum: int)
    requires quantum > 0 && InProgress(input, start) && time0 + Owed(start) == Owed(input)
    requires now == Sweep(start, quantum) && time == time0 + SweepTicks(start, quantum)
    ensures InProgress(input, now) && time + Owed(now) == Owed(input)
    ensures !Finished(start) ==> Owed(now) < Owed(start)
    ensures Finished(start) ==> now == Drained(input) && time == Owed(input)
  {
    SweepAccounting(start, quantum);
    SweepInProgress(input, start, quantum);
    if Finished(start) {
      assert now == start;
      FinishedOwesNothing(start);
      FinishedIsDrained(input, start);
    }
  }

  /** Within a sweep: the first `i` processes have had their visit, the rest not yet. */
  predicate SweptUpTo(start: seq<Process>, now: seq<Process>, i: int, quantum: int)
  {
    |now| == |start| && 0 <= i <= |now| &&
    forall k :: 0 <= k < |now| ==> now[k] == if k < i then Visit(start[k], quantum) else start[k]
  }

  /** One visit within a sweep: process `i` takes its visit, the clock advances by its
      slice, and the sweep has found work so far exactly when it had before or this
      process has time left. */
  lemma VisitNext(start: seq<Process>, now: seq<Process>, i: int, quantum: int)
    requires SweptUpTo(start, now, i, quantum) && i < |now|
    ensures SweptUpTo(start, now[i := Visit(now[i], quantum)], i + 1, quantum)
    ensures TicksBefore(start, i + 1, quantum) == TicksBefore(start, i, quantum) + Slice(now[i], quantum)
    ensures Finished(start[..i + 1]) <==> Finished(start[..i]) && now[i].remaining <= 0
  {
    assert start[..i + 1][i] == start[i] == now[i];
    assert start[..i + 1] == start[..i] + [start[i]];
  }

  /** One sweep of the round-robin loop: every process with time left runs for a full
      quantum if its remaining time exceeds the quantum and to completion otherwise, and
      the clock advances by what it ran. `done` reports that no process had time left. */
  method SweepQueue(a: array<Process>, quantum: int, clock: int) returns (time: int, done: bool)
    modifies a
    ensures a[..] == Sweep(old(a[..]), quantum)
    ensures time == clock + SweepTicks(old(a[..]), quantum)
    ensures done == Finished(old(a[..]))
  {
    ghost var start := a[..];
    time, done := clock, true;
    var i := 0;
    while i < a.Length
      invariant SweptUpTo(start, a[..], i, quantum)
      invariant time == clock + TicksBefore(start, i, quantum)
      invariant done == Finished(start[..i])
    {
      ghost var now := a[..];
      VisitNext(start, now, i, quantum);
      var p := a[i];
      if p.remaining > 0 {
        done := false;
        if p.remaining > quantum {
          time := time + quantum;
          a[i] := p.(remaining := p.remaining - quantum);
        } else {
          time := time + p.remaining;
          a[i] := p.(remaining := 0);
        }
      }
      assert a[..] == now[i := Visit(p, quantum)];
      i := i + 1;
    }
    assert start[..a.Length] == start;
  }

  /** The round-robin pass over a queue with the given quantum: sweep after sweep until a
      sweep finds nothing left to run. `time` is the simulated clock, which advances by
      every slice granted; it ends at the total work owed. */
  method RoundRobin(a: array<Process>, quantum: int) returns (time: int)
    requires quantum > 0
    modifies a
    ensures a[..] == Drained(old(a[..]))
    ensures time == Owed(old(a[..]))
  {
    ghost var input := a[..];
    time := 0;
    while true
      invariant InProgress(input, a[..])
      invariant time + Owed(a[..]) == Owed(input)
      decreases Owed(a[..])
    {
      ghost var start := a[..];
      ghost var time0 := time;
      var done;
      time, done := SweepQueue(a, quantum, time);
      SweepStep(input, start, a[..], time0, time, quantum);
      if done {
        break;
      }
    }
  }
}
