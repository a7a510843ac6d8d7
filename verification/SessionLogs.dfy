/** The session logs that the aggregations read (plenith/aggregations.py); corrupt files are already skipped. */
module SessionLogs {
  import opened Common

  datatype Severity = Critical | High | Medium | Info | Unranked(name: string)

  /** An entry of `actions_taken`. A missing number reads as zero. */
  datatype Action = Action(name: string, severity: Option<Severity>, ts: real, offset: real)

  datatype Log = Log(engagementId: string, startedAt: real, actions: seq<Action>, commands: seq<real>)

  /** When an action happened: its own time, or its offset from the start of its session. */
  function Stamp(log: Log, a: Action): real {
    if a.ts != 0.0 then a.ts else log.startedAt + a.offset
  }

  predicate Within(ts: real, since: real, until: real) {
    since <= ts < until
  }

  function NameOf(a: Action): string {
    if a.name == "" then "?" else a.name
  }

  /** An action with its time reconstructed; its severity may still be missing. */
  datatype Stamped = Stamped(at: real, severity: Option<Severity>, name: string)

  /** `a.get("severity", "info")`. */
  function SeverityOf(e: Stamped): Severity {
    if e.severity.Some? then e.severity.value else Info
  }

  function StampedActions(log: Log, n: nat): (out: seq<Stamped>)
    requires n <= |log.actions|
    ensures |out| == n
  {
    seq(n, i requires 0 <= i < n => var a := log.actions[i]; Stamped(Stamp(log, a), a.severity, NameOf(a)))
  }

  function AllActions(logs: seq<Log>): seq<Stamped> {
    if logs == [] then []
    else AllActions(logs[..|logs| - 1]) + StampedActions(logs[|logs| - 1], |logs[|logs| - 1].actions|)
  }

  /** The events of one log start after those of all logs before it. */
  function Before(logs: seq<Log>): nat {
    if logs == [] then 0 else Before(logs[..|logs| - 1]) + |logs[|logs| - 1].actions|
  }

  lemma {:induction false} AllActionsLength(logs: seq<Log>)
    ensures |AllActions(logs)| == Before(logs)
  {
    if logs != [] {
      AllActionsLength(logs[..|logs| - 1]);
    }
  }

  /** Each action of each log is an event at its place: at its own time, or if that is missing or zero
      as long after its log's start as its offset says; under its name, or `?` for none. */
  lemma {:induction false} EventAt(logs: seq<Log>, i: nat, j: nat)
    requires i < |logs| && j < |logs[i].actions|
    ensures var k, a := Before(logs[..i]) + j, logs[i].actions[j];
      && k < |AllActions(logs)|
      && AllActions(logs)[k] == Stamped(
           if a.ts != 0.0 then a.ts else logs[i].startedAt + a.offset, a.severity, if a.name == "" then "?" else a.name)
  {
    var n := |logs| - 1;
    AllActionsLength(logs[..n]);
    if i < n {
      EventAt(logs[..n], i, j);
      assert logs[..n][..i] == logs[..i];
    }
  }

  method IterActions(logs: seq<Log>) returns (out: seq<Stamped>)
    ensures out == AllActions(logs)
  {
    out := [];
    for i := 0 to |logs|
      invariant out == AllActions(logs[..i])
    {
      var log := logs[i];
      for j := 0 to |log.actions|
        invariant out == AllActions(logs[..i]) + StampedActions(log, j)
      {
        var a := log.actions[j];
        out := out + [Stamped(Stamp(log, a), a.severity, NameOf(a))];
      }
      assert logs[..i + 1][..i] == logs[..i];
    }
    assert logs[..|logs|] == logs;
  }
}
