/** The scheduling run: route the processes, schedule each tier with its discipline,
    write the trace buffer, and print one status line per queue. */
module Scheduler {
  import opened Processes
  import opened Text
  import opened Routing
  import opened ShortestJobFirst
  import opened RoundRobinScheduling

  /** The quanta of the two round-robin tiers. */
  const MediumQuantum := 8
  const LowQuantum := 16

  /** The status labels of the four queues. */
  const Cpu1Label := "CPU-1 que1(priority-0) (FCFS)"
  const HighLabel := "CPU-2 que2(priority-1) (SJF)"
  const MediumLabel := "CPU-2 que3(priority-2) (RR-q8)"
  const LowLabel := "CPU-2 que4(priority-3) (RR-q16)"

  /** The fixed fragments of the completion lines; each line is a fragment, the process
      identifier, and a second fragment. */
  const ProcessWord := "Process "
  const OperationWord := "The operation of process "
  const AssignedCpu1 := " is assigned to CPU-1."
  const CompletedCpu1 := " is completed and terminated."
  const AssignedCpu2 := " is assigned to CPU-2."
  const CompletedSjf := " is completed and terminated."
  const Requeued := " run until the defined quantum time and is queued again because the process is not completed."
  const CompletedRr := " is assigned to CPU-2, its operation is completed and terminated."

  /** The lines written for one process of a tier once the tier is scheduled: two for
      CPU-1 and for the SJF tier, three for either round-robin tier (the round-robin lines
      are fixed, whatever number of sweeps the process took). */
  function CompletionLines(tier: int, p: Process): seq<string>
    requires tier in Routed
  {
    if tier == 0 then
      [ProcessWord + p.id + AssignedCpu1, ProcessWord + p.id + CompletedCpu1]
    else if tier == 1 then
      [ProcessWord + p.id + AssignedCpu2, OperationWord + p.id + CompletedSjf]
    else
      [ProcessWord + p.id + AssignedCpu2, ProcessWord + p.id + Requeued, ProcessWord + p.id + CompletedRr]
  }

  function LinesPerProcess(tier: int): nat
  {
    if tier <= 1 then 2 else 3
  }

  /** The lines of a whole tier, process by process in the tier's final order. */
  function TierLines(s: seq<Process>, tier: int): seq<string>
    requires tier in Routed
  {
    if s == [] then [] else TierLines(s[..|s| - 1], tier) + CompletionLines(tier, s[|s| - 1])
  }

  /** One more process adds exactly its completion lines at the end. */
  lemma TierLinesSnoc(s: seq<Process>, p: Process, tier: int)
    requires tier in Routed
    ensures TierLines(s + [p], tier) == TierLines(s, tier) + CompletionLines(tier, p)
  {
    var u := s + [p];
    assert u[..|u| - 1] == s && u[|u| - 1] == p;
  }

  lemma {:induction false} TierLinesAppend(s: seq<Process>, t: seq<Process>, tier: int)
    requires tier in Routed
    ensures TierLines(s + t, tier) == TierLines(s, tier) + TierLines(t, tier)
  {
    if t == [] {
      assert s + t == s;
    } else {
      var init, last := t[..|t| - 1], t[|t| - 1];
      assert t == init + [last];
      assert s + t == (s + init) + [last];
      TierLinesAppend(s, init, tier);
      TierLinesSnoc(s + init, last, tier);
      TierLinesSnoc(init, last, tier);
    }
  }

  lemma {:induction false} TierLinesLength(s: seq<Process>, tier: int)
    requires tier in Routed
    ensures |TierLines(s, tier)| == LinesPerProcess(tier) * |s|
  {
    if s != [] {
      TierLinesLength(s[..|s| - 1], tier);
      if tier <= 1 {
        assert |TierLines(s, tier)| == 2 * (|s| - 1) + 2;
      } else {
        assert |TierLines(s, tier)| == 3 * (|s| - 1) + 3;
      }
    }
  }

  /** A tier writes its processes' lines in blocks, in tier order: the lines of process i
      come after the blocks of the i processes before it, and are exactly its completion
      lines. */
  lemma TierLinesBlock(s: seq<Process>, i: nat, tier: int)
    requires tier in Routed && i < |s|
    ensures |TierLines(s[..i], tier)| == LinesPerProcess(tier) * i
    ensures TierLines(s, tier)
            == TierLines(s[..i], tier) + CompletionLines(tier, s[i]) + TierLines(s[i + 1..], tier)
  {
    var pre, rest := s[..i], s[i + 1..];
    TierLinesLength(pre, tier);
    assert s == (pre + [s[i]]) + rest;
    TierLinesSnoc(pre, s[i], tier);
    TierLinesAppend(pre + [s[i]], rest, tier);
  }

  /** The lines of a tier name only the processes' identifiers. */
  lemma {:induction false} TierLinesByIds(s: seq<Process>, t: seq<Process>, tier: int)
    requires tier in Routed && Ids(s) == Ids(t)
    ensures TierLines(s, tier) == TierLines(t, tier)
  {
    if s != [] {
      var n := |s|;
      assert |t| == |Ids(t)| == n;
      assert Ids(s[..n - 1]) == Ids(s)[..n - 1];
      assert Ids(t[..n - 1]) == Ids(t)[..n - 1];
      assert s[n - 1].id == Ids(s)[n - 1] == Ids(t)[n - 1] == t[n - 1].id;
      TierLinesByIds(s[..n - 1], t[..n - 1], tier);
    }
  }

  /** Writing the lines of one more process extends the tier's text by those lines. */
  lemma EmitStep(s: seq<Process>, i: nat, tier: int, out: string, written: string)
    requires tier in Routed && i < |s|
    requires written == out + Render(TierLines(s[..i], tier))
    ensures written + Render(CompletionLines(tier, s[i])) == out + Render(TierLines(s[..i + 1], tier))
  {
    assert s[..i + 1] == s[..i] + [s[i]];
    TierLinesSnoc(s[..i], s[i], tier);
    RenderExtend(out, written, TierLines(s[..i], tier), CompletionLines(tier, s[i]));
  }

  /** Writes the lines of one scheduled tier into the output buffer. */
  method EmitTier(q: array<Process>, tier: int, out: string) returns (written: string)
    requires tier in Routed
    ensures written == out + Render(TierLines(q[..], tier))
  {
    ghost var s := q[..];
    written := out;
    var i := 0;
    while i < q.Length
      invariant 0 <= i <= q.Length
      invariant written == out + Render(TierLines(s[..i], tier))
    {
      EmitStep(s, i, tier, out, written);
      written := written + Render(CompletionLines(tier, q[i]));
      i := i + 1;
    }
    assert s[..q.Length] == s;
  }

  /** First come, first served: the queue order is already the service order, so the
      queue is left exactly as it is. */
  method Fcfs(q: array<Process>)
    ensures q[..] == old(q[..])
  {
  }

  /** The status line of one queue: its name, an arrow, then the identifiers in queue
      order separated by dashes. */
  function QueueStatus(name: string, s: seq<Process>): string
  {
    name + "->" + Join(Ids(s), '-')
  }

  /** A status line starts with the name and the arrow; an empty queue prints nothing
      after them; otherwise what follows reads back, cut at the dashes, as the queue's
      identifiers when none contains a dash (so there is no trailing dash). */
  lemma QueueStatusShape(name: string, s: seq<Process>)
    ensures |QueueStatus(name, s)| >= |name| + 2
    ensures QueueStatus(name, s)[..|name| + 2] == name + "->"
    ensures s == [] ==> QueueStatus(name, s) == name + "->"
    ensures s != [] && FreeOf(Ids(s), '-') ==>
              Split(QueueStatus(name, s)[|name| + 2..], '-') == Ids(s)
  {
    var line := QueueStatus(name, s);
    assert line == (name + "->") + Join(Ids(s), '-');
    assert line[|name| + 2..] == Join(Ids(s), '-');
    if s != [] && FreeOf(Ids(s), '-') {
      SplitJoin(Ids(s), '-');
    }
  }

  /** Prints the status line of one queue onto the display: the name and the arrow, then
      each identifier followed by a dash unless it is the last. */
  method PrintQueueStatus(q: array<Process>, name: string, display: string) returns (shown: string)
    ensures shown == display + QueueStatus(name, q[..]) + "\n"
  {
    shown := display + name + "->";
    var n := q.Length;
    var i := 0;
    while i < n
      invariant 0 <= i <= n
      invariant shown == display + name + "->" + Join(Ids(q[..i]), '-')
                         + (if 0 < i < n then "-" else "")
    {
      assert Ids(q[..i + 1]) == Ids(q[..i]) + [q[i].id];
      if i > 0 {
        JoinSnoc(Ids(q[..i]), q[i].id, '-');
      } else {
        assert Ids(q[..1]) == [q[0].id];
      }
      shown := shown + q[i].id;
      if i < n - 1 {
        shown := shown + "-";
      }
      i := i + 1;
    }
    assert q[..n] == q[..];
    shown := shown + "\n";
  }

  /** The four tiers after scheduling: CPU-1 in input order, the SJF tier in its stable
      sorted order, the round-robin tiers in input order with all their time used up. */
  datatype Tiers = Tiers(cpu1: seq<Process>, high: seq<Process>, medium: seq<Process>, low: seq<Process>)

  function Scheduled(ps: seq<Process>): Tiers
  {
    Tiers(Select(ps, {0}), SjfOrder(Select(ps, {1})), Drained(Select(ps, {2})), Drained(Select(ps, {3})))
  }

  /** The whole trace: every routing line in input order, then the lines of CPU-1, of the
      SJF tier, of the quantum-8 tier and of the quantum-16 tier, each in its final order. */
  function Trace(ps: seq<Process>): seq<string>
  {
    var t := Scheduled(ps);
    RoutingLines(ps) + TierLines(t.cpu1, 0) + TierLines(t.high, 1) + TierLines(t.medium, 2)
      + TierLines(t.low, 3)
  }

  /** The four status lines, in tier order. */
  function Summary(ps: seq<Process>): seq<string>
  {
    var t := Scheduled(ps);
    [QueueStatus(Cpu1Label, t.cpu1), QueueStatus(HighLabel, t.high),
     QueueStatus(MediumLabel, t.medium), QueueStatus(LowLabel, t.low)]
  }

  /** The trace buffer is the routing text followed by the text of each tier in turn. */
  lemma TraceRendered(ps: seq<Process>)
    ensures var t := Scheduled(ps);
      Render(Trace(ps)) == Render(RoutingLines(ps)) + Render(TierLines(t.cpu1, 0))
        + Render(TierLines(t.high, 1)) + Render(TierLines(t.medium, 2)) + Render(TierLines(t.low, 3))
  {
    var t := Scheduled(ps);
    var r, a, b, c, d := RoutingLines(ps), TierLines(t.cpu1, 0), TierLines(t.high, 1),
                         TierLines(t.medium, 2), TierLines(t.low, 3);
    RenderAppend(r, a);
    RenderAppend(r + a, b);
    RenderAppend(r + a + b, c);
    RenderAppend(r + a + b + c, d);
  }

  /** The console text is the four status lines, each ended by a newline. */
  lemma SummaryRendered(ps: seq<Process>)
    ensures var t := Scheduled(ps);
      Render(Summary(ps)) == "" + QueueStatus(Cpu1Label, t.cpu1) + "\n" + QueueStatus(HighLabel, t.high) + "\n"
        + QueueStatus(MediumLabel, t.medium) + "\n" + QueueStatus(LowLabel, t.low) + "\n"
  {
    var t := Scheduled(ps);
    var w, x, y, z := QueueStatus(Cpu1Label, t.cpu1), QueueStatus(HighLabel, t.high),
                      QueueStatus(MediumLabel, t.medium), QueueStatus(LowLabel, t.low);
    RenderSnoc([w, x, y], z);
    RenderSnoc([w, x], y);
    RenderSnoc([w], x);
    RenderSnoc([], w);
    assert [w] == [] + [w] && [w, x] == [w] + [x] && [w, x, y] == [w, x] + [y];
    assert Summary(ps) == [w, x, y, z] == [w, x, y] + [z];
  }

  /** A queue handed to a scheduling discipline as an array holding `s`. */
  method NewQueue(s: seq<Process>) returns (q: array<Process>)
    ensures fresh(q) && q[..] == s
  {
    q := new Process[|s|](i requires 0 <= i < |s| => s[i]);
  }

  /** One scheduling run. `output` is the trace buffer handed to the file writer and
      `display` the text printed to the console. */
  method ScheduleProcesses(ps: seq<Process>) returns (output: string, display: string)
    ensures output == Render(Trace(ps))
    ensures display == Render(Summary(ps))
  {
    var cpu1, high, medium, low, out := RouteProcesses(ps);
    var q0 := NewQueue(cpu1);
    var q1 := NewQueue(high);
    var q2 := NewQueue(medium);
    var q3 := NewQueue(low);

    Fcfs(q0);
    Sjf(q1);
    var _ := RoundRobin(q2, MediumQuantum);
    var _ := RoundRobin(q3, LowQuantum);
    ghost var t := Scheduled(ps);
    assert q0[..] == t.cpu1 && q1[..] == t.high && q2[..] == t.medium && q3[..] == t.low;

    out := EmitTier(q0, 0, out);
    out := EmitTier(q1, 1, out);
    out := EmitTier(q2, 2, out);
    out := EmitTier(q3, 3, out);
    output := out;
    TraceRendered(ps);

    display := "";
    display := PrintQueueStatus(q0, Cpu1Label, display);
    display := PrintQueueStatus(q1, HighLabel, display);
    display := PrintQueueStatus(q2, MediumLabel, display);
    display := PrintQueueStatus(q3, LowLabel, display);
    SummaryRendered(ps);
  }
}

module SchedulerFacts {
  import opened Processes
  import opened Text
  import opened Routing
  import opened ShortestJobFirst
  import opened RoundRobinScheduling
  import opened Scheduler

  /** Scheduling keeps every tier's size: no process is lost or duplicated by a discipline. */
  lemma ScheduledSizes(ps: seq<Process>)
    ensures |Scheduled(ps).cpu1| == |Select(ps, {0})| && |Scheduled(ps).high| == |Select(ps, {1})|
    ensures |Scheduled(ps).medium| == |Select(ps, {2})| && |Scheduled(ps).low| == |Select(ps, {3})|
  {
    SjfOrderCorrect(Select(ps, {1}));
    assert |SjfOrder(Select(ps, {1}))| == |multiset(SjfOrder(Select(ps, {1})))| == |multiset(Select(ps, {1}))|;
  }

  /** The trace has one routing line per routed process, then two lines per CPU-1 process,
      two per SJF process and three per round-robin process: 3, 3, 4 and 4 lines in all
      for a process of priority 0, 1, 2 and 3, and none for any other priority. */
  lemma TraceLineCount(ps: seq<Process>)
    ensures |Trace(ps)| == 3 * |Select(ps, {0})| + 3 * |Select(ps, {1})|
                          + 4 * |Select(ps, {2})| + 4 * |Select(ps, {3})|
  {
    var t := Scheduled(ps);
    var r, a, b, c, d := RoutingLines(ps), TierLines(t.cpu1, 0), TierLines(t.high, 1),
                         TierLines(t.medium, 2), TierLines(t.low, 3);
    assert Trace(ps) == r + a + b + c + d;
    RoutingLinesShape(ps);
    TierPartition(ps);
    ScheduledSizes(ps);
    TierLinesLength(t.cpu1, 0);
    TierLinesLength(t.high, 1);
    TierLinesLength(t.medium, 2);
    TierLinesLength(t.low, 3);
    assert |a| == 2 * |t.cpu1| && |b| == 2 * |t.high| && |c| == 3 * |t.medium| && |d| == 3 * |t.low|;
  }

  /** The round-robin tiers write the same lines however many sweeps their processes took:
      their part of the trace is that of the tiers as routed, in input order. */
  lemma RoundRobinLinesFixed(s: seq<Process>, tier: int)
    requires tier == 2 || tier == 3
    ensures TierLines(Drained(s), tier) == TierLines(s, tier)
  {
    assert SameButRemaining(s, Drained(s));
    SameButRemainingIds(s, Drained(s));
    TierLinesByIds(Drained(s), s, tier);
  }

  /** The trace written for the processes of a routed priority, in terms of the tiers as
      routed: CPU-1 and both round-robin tiers in input order, the SJF tier in stable
      burst order. */
  lemma TraceByRoutedTiers(ps: seq<Process>)
    ensures Trace(ps) == RoutingLines(ps) + TierLines(Select(ps, {0}), 0)
                         + TierLines(SjfOrder(Select(ps, {1})), 1)
                         + TierLines(Select(ps, {2}), 2) + TierLines(Select(ps, {3}), 3)
  {
    RoundRobinLinesFixed(Select(ps, {2}), 2);
    RoundRobinLinesFixed(Select(ps, {3}), 3);
  }

  const P1 := Process("P1", 0, 0, 5, 100, 1, 5)
  const P2 := Process("P2", 1, 1, 10, 100, 1, 10)
  const P3 := Process("P3", 2, 1, 3, 100, 1, 3)
  const P4 := Process("P4", 3, 2, 20, 100, 2, 20)

  lemma FourProcessTiers()
    ensures Select([P1, P2, P3, P4], {0}) == [P1] && Select([P1, P2, P3, P4], {1}) == [P2, P3]
    ensures Select([P1, P2, P3, P4], {2}) == [P4] && Select([P1, P2, P3, P4], {3}) == []
  {
    var ps := [P1, P2, P3, P4];
    assert ps[..3] == [P1, P2, P3] && [P1, P2, P3][..2] == [P1, P2] && [P1, P2][..1] == [P1];
    assert [P1][..0] == [];
    forall k ensures Select(ps, {k}) == (if k == 0 then [P1] else []) + (if k == 1 then [P2, P3] else [])
                                        + (if k == 2 then [P4] else []) {
      assert Select([P1], {k}) == Select([], {k}) + (if k == 0 then [P1] else []);
      assert Select([P1, P2], {k}) == Select([P1], {k}) + (if k == 1 then [P2] else []);
      assert Select([P1, P2, P3], {k}) == Select([P1, P2], {k}) + (if k == 1 then [P3] else []);
      assert Select(ps, {k}) == Select([P1, P2, P3], {k}) + (if k == 2 then [P4] else []);
    }
  }

  lemma FourProcessRouting()
    ensures RoutingLines([P1, P2, P3, P4]) == [RouteLine(P1), RouteLine(P2), RouteLine(P3), RouteLine(P4)]
  {
    var ps := [P1, P2, P3, P4];
    assert ps[..3] == [P1, P2, P3] && [P1, P2, P3][..2] == [P1, P2] && [P1, P2][..1] == [P1];
    assert [P1][..0] == [];
    assert RoutingLines([P1]) == [RouteLine(P1)];
    assert RoutingLines([P1, P2]) == [RouteLine(P1), RouteLine(P2)];
    assert RoutingLines([P1, P2, P3]) == [RouteLine(P1), RouteLine(P2), RouteLine(P3)];
  }

  lemma FourProcessSjf()
    ensures SjfOrder([P2, P3]) == [P3, P2]
    ensures QueueStatus(HighLabel, [P3, P2]) == HighLabel + "->P3-P2"
  {
    assert [P2, P3][1..] == [P3] && [P3][1..] == [];
    assert SjfOrder([P3]) == [P3];
    assert Insert(P2, []) == [P2];
    assert Ids([P3, P2]) == ["P3", "P2"];
    assert ["P3", "P2"][1..] == ["P2"];
    assert Join(["P3", "P2"], '-') == "P3-P2";
  }

  /** Four processes, one of them for CPU-1, two for the SJF queue and one for the
      quantum-8 queue: the SJF queue runs the shorter P3 before P2, and P4 runs to the end. */
  lemma FourProcessScheduled()
    ensures Scheduled([P1, P2, P3, P4]) == Tiers([P1], [P3, P2], [P4.(remaining := 0)], [])
  {
    FourProcessTiers();
    FourProcessSjf();
    assert Drained([P4]) == [P4.(remaining := 0)];
  }

  lemma FourProcessTierLines()
    ensures TierLines([P1], 0) == CompletionLines(0, P1)
    ensures TierLines([P3, P2], 1) == CompletionLines(1, P3) + CompletionLines(1, P2)
    ensures TierLines([P4.(remaining := 0)], 2) == CompletionLines(2, P4)
    ensures TierLines([], 3) == []
  {
    var q4 := P4.(remaining := 0);
    assert [] + [P1] == [P1] && [] + [q4] == [q4] && [] + [P3] == [P3] && [P3] + [P2] == [P3, P2];
    TierLinesSnoc([], P1, 0);
    TierLinesSnoc([], q4, 2);
    TierLinesSnoc([], P3, 1);
    TierLinesSnoc([P3], P2, 1);
  }

  lemma FourProcessRun()
    ensures Scheduled([P1, P2, P3, P4]) == Tiers([P1], [P3, P2], [P4.(remaining := 0)], [])
    ensures Trace([P1, P2, P3, P4])
            == [RouteLine(P1), RouteLine(P2), RouteLine(P3), RouteLine(P4)]
               + CompletionLines(0, P1) + CompletionLines(1, P3) + CompletionLines(1, P2)
               + CompletionLines(2, P4)
    ensures Summary([P1, P2, P3, P4])[1] == HighLabel + "->P3-P2"
  {
    var ps := [P1, P2, P3, P4];
    FourProcessScheduled();
    FourProcessRouting();
    FourProcessTierLines();
    FourProcessSjf();
    var r := [RouteLine(P1), RouteLine(P2), RouteLine(P3), RouteLine(P4)];
    var a, b3, b2, c := CompletionLines(0, P1), CompletionLines(1, P3), CompletionLines(1, P2),
                        CompletionLines(2, P4);
    assert Trace(ps) == r + a + (b3 + b2) + c + [];
    assert r + a + (b3 + b2) + c + [] == r + a + b3 + b2 + c;
  }

  /** With no input there is no trace, and each status line is its label and an arrow. */
  lemma EmptyRun()
    ensures Trace([]) == []
    ensures Summary([]) == [Cpu1Label + "->", HighLabel + "->", MediumLabel + "->", LowLabel + "->"]
  {
    assert Ids([]) == [];
    assert Join([], '-') == "";
    assert forall name: string :: name + "->" + "" == name + "->";
  }
}
