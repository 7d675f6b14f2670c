/** The process record shared by every stage of the scheduler. */
module Processes {

  /** One process descriptor, as loaded from one input line.
      `arrival`, `ram` and `cpu` are carried along but never read by the scheduler;
      `remaining` is the only field any scheduling stage changes. */
  datatype Process = Process(
    id: string,
    arrival: int,
    priority: int,
    burst: int,
    ram: int,
    cpu: int,
    remaining: int)

  /** A record as the loader leaves it: the remaining time starts at the burst time. */
  predicate Loaded(p: Process)
  {
    p.remaining == p.burst
  }

  /** The identifiers of a sequence of processes, in order. */
  function Ids(s: seq<Process>): seq<string>
  {
    seq(|s|, i requires 0 <= i < |s| => s[i].id)
  }

  /** `t` is `s` with at most the remaining times changed: same length, same order,
      every other field equal position by position. */
  predicate SameButRemaining(s: seq<Process>, t: seq<Process>)
  {
    |s| == |t| &&
    forall i :: 0 <= i < |s| ==> t[i] == s[i].(remaining := t[i].remaining)
  }

  lemma SameButRemainingIds(s: seq<Process>, t: seq<Process>)
    requires SameButRemaining(s, t)
    ensures Ids(s) == Ids(t)
  {
    assert forall i :: 0 <= i < |s| ==> Ids(s)[i] == Ids(t)[i];
  }
}
