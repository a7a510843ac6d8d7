/**
 The activity heatmap and its drill-in (`activity_heatmap` and `activity_cell_engagements` in
 plenith/aggregations.py): two computations over the same logs that must agree cell by cell.
 The local hour of a time is a parameter.
 */
module Activity {
  import opened Numbers
  import opened SessionLogs

  /** The selection both views take; `hourOf` gives the hour of the day in local time. */
  datatype Query = Query(since: real, until: real, alerts: bool, commands: bool, hourOf: real -> nat)

  const HOURS: nat := 24

  ghost predicate Clock(q: Query) {
    forall t :: q.hourOf(t) < HOURS
  }

  /** `kind`: anything unknown counts everything. */
  function Asked(since: real, until: real, kind: string, hourOf: real -> nat): Query {
    Query(since, until, kind != "commands", kind != "alerts", hourOf)
  }

  predicate In(q: Query, hour: nat, at: real) {
    Within(at, q.since, q.until) && q.hourOf(at) == hour
  }

  ghost function Alerts(log: Log, q: Query, hour: nat, n: nat): nat
    requires n <= |log.actions|
  {
    if n == 0 || !q.alerts then 0
    else Alerts(log, q, hour, n - 1) + if In(q, hour, Stamp(log, log.actions[n - 1])) then 1 else 0
  }

  ghost function CommandsRun(log: Log, q: Query, hour: nat, n: nat): nat
    requires n <= |log.commands|
  {
    if n == 0 || !q.commands then 0
    else CommandsRun(log, q, hour, n - 1) + if In(q, hour, log.commands[n - 1]) then 1 else 0
  }

  /** What one log adds to a cell. */
  ghost function Hits(log: Log, q: Query, hour: nat): nat {
    Alerts(log, q, hour, |log.actions|) + CommandsRun(log, q, hour, |log.commands|)
  }

  /** A cell: the wanted events of a host's logs at that hour. */
  ghost function Cell(logs: seq<Log>, q: Query, hour: nat): nat {
    if logs == [] then 0 else Cell(logs[..|logs| - 1], q, hour) + Hits(logs[|logs| - 1], q, hour)
  }

  lemma {:induction false} AlertsByKind(log: Log, q: Query, r: Query, hour: nat, n: nat)
    requires n <= |log.actions| && r == q.(commands := r.commands, alerts := r.alerts)
    ensures r.alerts == q.alerts ==> Alerts(log, r, hour, n) == Alerts(log, q, hour, n)
    ensures !r.alerts ==> Alerts(log, r, hour, n) == 0
  {
    if n > 0 {
      AlertsByKind(log, q, r, hour, n - 1);
    }
  }

  lemma {:induction false} CommandsByKind(log: Log, q: Query, r: Query, hour: nat, n: nat)
    requires n <= |log.commands| && r == q.(commands := r.commands, alerts := r.alerts)
    ensures r.commands == q.commands ==> CommandsRun(log, r, hour, n) == CommandsRun(log, q, hour, n)
    ensures !r.commands ==> CommandsRun(log, r, hour, n) == 0
  {
    if n > 0 {
      CommandsByKind(log, q, r, hour, n - 1);
    }
  }

  /** The two kinds split every cell, and an unknown kind counts both. */
  lemma {:induction false} KindsSplit(logs: seq<Log>, since: real, until: real, kind: string, hourOf: real -> nat,
                                      hour: nat)
    requires kind != "alerts" && kind != "commands"
    ensures Cell(logs, Asked(since, until, kind, hourOf), hour)
      == Cell(logs, Asked(since, until, "alerts", hourOf), hour)
        + Cell(logs, Asked(since, until, "commands", hourOf), hour)
  {
    if logs == [] {
    } else {
      hide Alerts, CommandsRun;
      var log := logs[|logs| - 1];
      var q, a := Asked(since, until, kind, hourOf), Asked(since, until, "alerts", hourOf);
      var c := Asked(since, until, "commands", hourOf);
      KindsSplit(logs[..|logs| - 1], since, until, kind, hourOf, hour);
      assert a.alerts && !a.commands && !c.alerts && c.commands;
      AlertsByKind(log, q, a, hour, |log.actions|);
      AlertsByKind(log, q, c, hour, |log.actions|);
      CommandsByKind(log, q, a, hour, |log.commands|);
      CommandsByKind(log, q, c, hour, |log.commands|);
    }
  }

  // ---- The heatmap -----------------------------------------------------------------------------

  /** `row'` is `row` with `extra(hour)` more in every cell. */
  ghost predicate Raised(row: seq<nat>, row': seq<nat>, extra: nat -> nat) {
    |row| == |row'| == HOURS && forall h :: 0 <= h < HOURS ==> row'[h] == row[h] + extra(h)
  }

  method CountActions(row: seq<nat>, log: Log, q: Query) returns (row': seq<nat>)
    requires |row| == HOURS && Clock(q)
    ensures Raised(row, row', h => Alerts(log, q, h, |log.actions|))
  {
    row' := row;
    if q.alerts {
      for i := 0 to |log.actions|
        invariant Raised(row, row', h => if i <= |log.actions| then Alerts(log, q, h, i) else 0)
      {
        var ts := Stamp(log, log.actions[i]);
        if ts < q.since || ts >= q.until {
          continue;
        }
        row' := row'[q.hourOf(ts) := row'[q.hourOf(ts)] + 1];
      }
    }
  }

  method CountCommands(row: seq<nat>, log: Log, q: Query) returns (row': seq<nat>)
    requires |row| == HOURS && Clock(q)
    ensures Raised(row, row', h => CommandsRun(log, q, h, |log.commands|))
  {
    row' := row;
    if q.commands {
      for i := 0 to |log.commands|
        invariant Raised(row, row', h => if i <= |log.commands| then CommandsRun(log, q, h, i) else 0)
      {
        var ts := log.commands[i];
        if ts < q.since || ts >= q.until {
          continue;
        }
        row' := row'[q.hourOf(ts) := row'[q.hourOf(ts)] + 1];
      }
    }
  }

  /** A host's row: every cell is exact. */
  ghost predicate Exact(row: seq<nat>, logs: seq<Log>, q: Query) {
    |row| == HOURS && forall h :: 0 <= h < HOURS ==> row[h] == Cell(logs, q, h)
  }

  method HostRow(logs: seq<Log>, q: Query) returns (row: seq<nat>)
    requires Clock(q)
    ensures Exact(row, logs, q)
  {
    row := seq(HOURS, i => 0);
    for i := 0 to |logs|
      invariant Exact(row, logs[..i], q)
    {
      assert logs[..i + 1][..i] == logs[..i];
      var alerts := CountActions(row, logs[i], q);
      row := CountCommands(alerts, logs[i], q);
    }
    assert logs[..|logs|] == logs;
  }

  /** One host directory and its readable logs. */
  datatype Host = Host(name: string, logs: seq<Log>)

  ghost predicate Directory(hosts: seq<Host>) {
    forall i, j :: 0 <= i < j < |hosts| ==> hosts[i].name != hosts[j].name
  }

  lemma DayLong(logs: seq<Log>, q: Query)
    ensures forall row :: Exact(row, logs, q) ==> |row| == 24
  {}

  /** The grid has a row for each host asked for ("" asks for all), and every cell is exact. */
  method Heatmap(hosts: seq<Host>, host: string, q: Query) returns (grid: map<string, seq<nat>>)
    requires Directory(hosts) && Clock(q)
    ensures forall name :: name in grid <==>
      (host == "" || name == host) && exists i :: 0 <= i < |hosts| && hosts[i].name == name
    ensures forall i :: 0 <= i < |hosts| && hosts[i].name in grid ==> Exact(grid[hosts[i].name], hosts[i].logs, q)
    ensures forall i :: 0 <= i < |hosts| && hosts[i].name in grid ==> |grid[hosts[i].name]| == 24
  {
    hide Exact;
    grid := map[];
    for k := 0 to |hosts|
      invariant forall name :: name in grid <==>
        (host == "" || name == host) && exists i :: 0 <= i < k && hosts[i].name == name
      invariant forall i :: 0 <= i < k && hosts[i].name in grid ==> Exact(grid[hosts[i].name], hosts[i].logs, q)
    {
      if host != "" && hosts[k].name != host {
        continue;
      }
      var row := HostRow(hosts[k].logs, q);
      grid := grid[hosts[k].name := row];
    }
    forall i | 0 <= i < |hosts| { DayLong(hosts[i].logs, q); }
  }

  // ---- The drill-in ----------------------------------------------------------------------------

  /** What one engagement contributed to the cell. The dict of rows is their list in insertion order. */
  datatype Row = Row(engagementId: string, commands: nat, alerts: nat)

  ghost function Of(logs: seq<Log>, id: string): seq<Log> {
    if logs == [] then []
    else
      var front, log := Of(logs[..|logs| - 1], id), logs[|logs| - 1];
      if log.engagementId == id then front + [log] else front
  }

  ghost function AlertsIn(logs: seq<Log>, q: Query, hour: nat): nat {
    if logs == [] then 0
    else var log := logs[|logs| - 1]; AlertsIn(logs[..|logs| - 1], q, hour) + Alerts(log, q, hour, |log.actions|)
  }

  ghost function CommandsIn(logs: seq<Log>, q: Query, hour: nat): nat {
    if logs == [] then 0
    else
      var log := logs[|logs| - 1];
      CommandsIn(logs[..|logs| - 1], q, hour) + CommandsRun(log, q, hour, |log.commands|)
  }

  ghost predicate Accounts(row: Row, logs: seq<Log>, q: Query, hour: nat) {
    && row.alerts == AlertsIn(Of(logs, row.engagementId), q, hour)
    && row.commands == CommandsIn(Of(logs, row.engagementId), q, hour)
  }

  ghost predicate Named(rows: seq<Row>, id: string) {
    exists i :: 0 <= i < |rows| && rows[i].engagementId == id
  }

  /** One exact row per engagement that has a log. */
  ghost predicate Books(rows: seq<Row>, logs: seq<Log>, q: Query, hour: nat) {
    && (forall i :: 0 <= i < |rows| ==> rows[i].engagementId != "" && Accounts(rows[i], logs, q, hour))
    && (forall i, j :: 0 <= i < j < |rows| ==> rows[i].engagementId != rows[j].engagementId)
    && (forall k :: 0 <= k < |logs| && logs[k].engagementId != "" ==> Named(rows, logs[k].engagementId))
  }

  ghost function Total(rows: seq<Row>): nat {
    if rows == [] then 0 else Total(rows[..|rows| - 1]) + rows[|rows| - 1].commands + rows[|rows| - 1].alerts
  }

  lemma {:induction false} TotalUpdate(rows: seq<Row>, i: nat, row: Row)
    requires i < |rows|
    ensures Total(rows[i := row]) == Total(rows) - rows[i].commands - rows[i].alerts + row.commands + row.alerts
  {
    var n := |rows| - 1;
    if i < n {
      TotalUpdate(rows[..n], i, row);
      assert rows[i := row][..n] == rows[..n][i := row];
    } else {
      assert rows[i := row][..n] == rows[..n];
    }
  }

  lemma {:induction false} OfNone(logs: seq<Log>, id: string)
    requires forall k :: 0 <= k < |logs| ==> logs[k].engagementId != id
    ensures Of(logs, id) == []
  {
    if logs != [] {
      OfNone(logs[..|logs| - 1], id);
    }
  }

  /** The wanted events of logs that carry no engagement id. */
  ghost function Anonymous(logs: seq<Log>, q: Query, hour: nat): nat {
    Cell(Of(logs, ""), q, hour)
  }

  method Lookup(rows: seq<Row>, id: string) returns (i: nat)
    ensures i <= |rows|
    ensures i < |rows| ==> rows[i].engagementId == id
    ensures i == |rows| ==> !Named(rows, id)
  {
    i := 0;
    while i < |rows| && rows[i].engagementId != id
      invariant i <= |rows| && forall j :: 0 <= j < i ==> rows[j].engagementId != id
    {
      i := i + 1;
    }
  }

  method CountLog(row: Row, log: Log, q: Query, hour: nat) returns (row': Row)
    ensures Extends(row, row', log, q, hour)
  {
    row' := row;
    if q.alerts {
      for i := 0 to |log.actions|
        invariant row' == row.(alerts := row.alerts + Alerts(log, q, hour, i))
      {
        var ts := Stamp(log, log.actions[i]);
        if ts < q.since || ts >= q.until {
          continue;
        }
        if q.hourOf(ts) != hour {
          continue;
        }
        row' := row'.(alerts := row'.alerts + 1);
      }
    }
    if q.commands {
      ghost var alerted := row';
      for i := 0 to |log.commands|
        invariant row' == alerted.(commands := row.commands + CommandsRun(log, q, hour, i))
      {
        var ts := log.commands[i];
        if ts < q.since || ts >= q.until {
          continue;
        }
        if q.hourOf(ts) != hour {
          continue;
        }
        row' := row'.(commands := row'.commands + 1);
      }
    }
  }

  /** `setdefault`: the rows, with a blank one appended for a new engagement. */
  function Grown(rows: seq<Row>, id: string, i: nat): (all: seq<Row>)
    requires i <= |rows|
    ensures i < |all|
  {
    if i < |rows| then rows else rows + [Row(id, 0, 0)]
  }

  lemma BooksSkip(rows: seq<Row>, logs: seq<Log>, log: Log, q: Query, hour: nat)
    requires Books(rows, logs, q, hour) && log.engagementId == ""
    ensures Books(rows, logs + [log], q, hour)
  {
    assert (logs + [log])[..|logs|] == logs;
  }

  /** `row` with one more log's events. */
  ghost predicate Extends(row: Row, row': Row, log: Log, q: Query, hour: nat) {
    row' == row.(alerts := row.alerts + Alerts(log, q, hour, |log.actions|),
                 commands := row.commands + CommandsRun(log, q, hour, |log.commands|))
  }

  lemma OursStep(row: Row, row': Row, logs: seq<Log>, log: Log, q: Query, hour: nat)
    requires Accounts(row, logs, q, hour) && row.engagementId == log.engagementId && Extends(row, row', log, q, hour)
    ensures Accounts(row', logs + [log], q, hour)
  {
    hide Alerts, CommandsRun;
    var ours := Of(logs, log.engagementId);
    assert (logs + [log])[..|logs|] == logs;
    assert Of(logs + [log], log.engagementId) == ours + [log];
    assert (ours + [log])[..|ours|] == ours;
  }

  lemma OthersStep(row: Row, logs: seq<Log>, log: Log, q: Query, hour: nat)
    requires Accounts(row, logs, q, hour) && row.engagementId != log.engagementId
    ensures Accounts(row, logs + [log], q, hour)
  {
    assert (logs + [log])[..|logs|] == logs;
  }

  lemma BooksStep(rows: seq<Row>, logs: seq<Log>, log: Log, q: Query, hour: nat, i: nat, row: Row)
    requires Books(rows, logs, q, hour) && log.engagementId != "" && i <= |rows|
    requires if i < |rows| then rows[i].engagementId == log.engagementId else !Named(rows, log.engagementId)
    requires Extends(Grown(rows, log.engagementId, i)[i], row, log, q, hour)
    ensures Books(Grown(rows, log.engagementId, i)[i := row], logs + [log], q, hour)
  {
    hide Accounts;
    var all := Grown(rows, log.engagementId, i);
    var all', more := all[i := row], logs + [log];
    if i == |rows| {
      BlankAccounts(rows, logs, q, hour, log.engagementId);
    }
    OursStep(all[i], row, logs, log, q, hour);
    forall j | 0 <= j < |all'| ensures all'[j].engagementId != "" && Accounts(all'[j], more, q, hour) {
      if j != i {
        assert all'[j] == rows[j];
        OthersStep(rows[j], logs, log, q, hour);
      }
    }
    assert all'[i].engagementId == log.engagementId;
    forall k | 0 <= k < |more| && more[k].engagementId != "" ensures Named(all', more[k].engagementId) {
      if k < |logs| {
        var j :| 0 <= j < |rows| && rows[j].engagementId == logs[k].engagementId;
        assert all'[j].engagementId == logs[k].engagementId;
      }
    }
  }

  lemma TotalStep(rows: seq<Row>, log: Log, q: Query, hour: nat, i: nat, row: Row)
    requires i <= |rows| && Extends(Grown(rows, log.engagementId, i)[i], row, log, q, hour)
    ensures Total(Grown(rows, log.engagementId, i)[i := row]) == Total(rows) + Hits(log, q, hour)
  {
    hide Alerts, CommandsRun;
    var all := Grown(rows, log.engagementId, i);
    if i == |rows| {
      assert all[..|rows|] == rows;
    }
    TotalUpdate(all, i, row);
  }

  lemma BlankAccounts(rows: seq<Row>, logs: seq<Log>, q: Query, hour: nat, id: string)
    requires Books(rows, logs, q, hour) && id != "" && !Named(rows, id)
    ensures Accounts(Row(id, 0, 0), logs, q, hour)
  {
    OfNoneNamed(rows, logs, q, hour, id);
  }

  lemma OfNoneNamed(rows: seq<Row>, logs: seq<Log>, q: Query, hour: nat, id: string)
    requires Books(rows, logs, q, hour) && id != "" && !Named(rows, id)
    ensures Of(logs, id) == []
  {
    hide Accounts;
    OfNone(logs, id);
  }

  /** The engagements behind one cell, before idle ones are dropped and the rest sorted and cut. */
  method CellEngagements(logs: seq<Log>, hour: nat, q: Query) returns (rows: seq<Row>)
    ensures Books(rows, logs, q, hour)
    ensures Total(rows) + Anonymous(logs, q, hour) == Cell(logs, q, hour)
  {
    hide Books, Hits, Extends;
    rows := [];
    NoBooks(q, hour);
    for k := 0 to |logs|
      invariant Books(rows, logs[..k], q, hour)
      invariant Total(rows) + Anonymous(logs[..k], q, hour) == Cell(logs[..k], q, hour)
    {
      var log := logs[k];
      assert logs[..k + 1] == logs[..k] + [log];
      AnonymousStep(logs[..k], log, q, hour);
      if log.engagementId == "" {
        BooksSkip(rows, logs[..k], log, q, hour);
        continue;
      }
      var i := Lookup(rows, log.engagementId);
      var all := Grown(rows, log.engagementId, i);
      var row := CountLog(all[i], log, q, hour);
      BooksStep(rows, logs[..k], log, q, hour, i, row);
      TotalStep(rows, log, q, hour, i, row);
      rows := all[i := row];
    }
    assert logs[..|logs|] == logs;
  }

  lemma NoBooks(q: Query, hour: nat)
    ensures Books([], [], q, hour)
  {}

  lemma AnonymousStep(logs: seq<Log>, log: Log, q: Query, hour: nat)
    ensures Cell(logs + [log], q, hour) == Cell(logs, q, hour) + Hits(log, q, hour)
    ensures Anonymous(logs + [log], q, hour)
      == Anonymous(logs, q, hour) + if log.engagementId == "" then Hits(log, q, hour) else 0
  {
    hide Hits;
    var more, ours := logs + [log], Of(logs, "");
    assert more[..|logs|] == logs;
    assert (ours + [log])[..|ours|] == ours;
  }

  // ---- What the two views share ----------------------------------------------------------------

  lemma TotalSnoc(rows: seq<Row>, row: Row)
    ensures Total(rows + [row]) == Total(rows) + row.commands + row.alerts
  {
    assert (rows + [row])[..|rows|] == rows;
  }

  /** `busy` holds exactly the rows with something in the cell. */
  ghost predicate Busy(busy: seq<Row>, rows: seq<Row>) {
    && (forall i :: 0 <= i < |busy| ==> busy[i].commands + busy[i].alerts > 0)
    && (forall r :: r in busy <==> r in rows && r.commands + r.alerts > 0)
  }

  lemma BusyStep(busy: seq<Row>, rows: seq<Row>, row: Row)
    requires Busy(busy, rows)
    ensures Busy(if row.commands + row.alerts > 0 then busy + [row] else busy, rows + [row])
  {}

  /** Dropping the engagements with nothing in the cell changes no total. */
  method DropIdle(rows: seq<Row>) returns (busy: seq<Row>)
    ensures Total(busy) == Total(rows) && Busy(busy, rows)
  {
    hide Total, Busy;
    busy := [];
    EmptyBusy();
    for i := 0 to |rows|
      invariant Total(busy) == Total(rows[..i]) && Busy(busy, rows[..i])
    {
      assert rows[..i + 1] == rows[..i] + [rows[i]];
      TotalSnoc(rows[..i], rows[i]);
      TotalSnoc(busy, rows[i]);
      BusyStep(busy, rows[..i], rows[i]);
      if rows[i].commands + rows[i].alerts > 0 {
        busy := busy + [rows[i]];
      }
    }
    assert rows[..|rows|] == rows;
  }

  lemma EmptyBusy()
    ensures Busy([], [])
  {}

  /** A heatmap cell equals its drill-in exactly when no log without an engagement id has an event
      in it; the difference is always what such logs hold. */
  lemma CellMatchesDrillIn(row: seq<nat>, rows: seq<Row>, logs: seq<Log>, q: Query, hour: nat)
    requires Exact(row, logs, q) && hour < HOURS
    requires Total(rows) + Anonymous(logs, q, hour) == Cell(logs, q, hour)
    ensures row[hour] == Total(rows) <==>
      forall k :: 0 <= k < |logs| && logs[k].engagementId == "" ==> Hits(logs[k], q, hour) == 0
  {
    AnonymousIff(logs, q, hour);
  }

  lemma {:induction false} AnonymousIff(logs: seq<Log>, q: Query, hour: nat)
    ensures Anonymous(logs, q, hour) == 0 <==>
      forall k :: 0 <= k < |logs| && logs[k].engagementId == "" ==> Hits(logs[k], q, hour) == 0
  {
    if logs == [] {
    } else {
      hide Hits;
      var front, log := logs[..|logs| - 1], logs[|logs| - 1];
      AnonymousIff(front, q, hour);
      AnonymousStep(front, log, q, hour);
      assert logs == front + [log];
    }
  }

  ghost function Events(log: Log, q: Query, n: nat, m: nat): nat
    requires n <= |log.actions| && m <= |log.commands|
    decreases n + m
  {
    if n > 0 && q.alerts then
      Events(log, q, n - 1, m) + if Within(Stamp(log, log.actions[n - 1]), q.since, q.until) then 1 else 0
    else if m > 0 && q.commands then
      Events(log, q, 0, m - 1) + if Within(log.commands[m - 1], q.since, q.until) then 1 else 0
    else 0
  }

  /** All the wanted events of a host in the window. */
  ghost function AllEvents(logs: seq<Log>, q: Query): nat {
    if logs == [] then 0
    else
      var log := logs[|logs| - 1];
      AllEvents(logs[..|logs| - 1], q) + Events(log, q, |log.actions|, |log.commands|)
  }

  ghost function HourRow(log: Log, q: Query, n: nat, m: nat, k: nat): (row: seq<nat>)
    requires n <= |log.actions| && m <= |log.commands|
    ensures |row| == k
  {
    seq(k, h requires 0 <= h < k => Alerts(log, q, h, n) + CommandsRun(log, q, h, m))
  }

  ghost function CellRow(logs: seq<Log>, q: Query, k: nat): (row: seq<nat>)
    ensures |row| == k
  {
    seq(k, h requires 0 <= h < k => Cell(logs, q, h))
  }

  lemma {:induction false} HoursPartition(log: Log, q: Query, n: nat, m: nat)
    requires n <= |log.actions| && m <= |log.commands| && Clock(q)
    requires n > 0 ==> m == |log.commands|
    ensures Sum(HourRow(log, q, n, m, HOURS)) == Events(log, q, n, m)
    decreases n + m
  {
    hide Sum;
    var row := HourRow(log, q, n, m, HOURS);
    if n > 0 && q.alerts {
      HoursPartition(log, q, n - 1, m);
      OneMore(HourRow(log, q, n - 1, m, HOURS), row, q, Stamp(log, log.actions[n - 1]));
    } else if m > 0 && q.commands {
      HoursPartition(log, q, 0, m - 1);
      OneMore(HourRow(log, q, 0, m - 1, HOURS), row, q, log.commands[m - 1]);
    } else {
      SumZero(row);
    }
  }

  /** One more event adds one to the sum of the hours if it is in the window. */
  lemma OneMore(before: seq<nat>, row: seq<nat>, q: Query, at: real)
    requires |before| == |row| == HOURS && Clock(q)
    requires forall h :: 0 <= h < HOURS ==>
      row[h] == before[h] + if Within(at, q.since, q.until) && q.hourOf(at) == h then 1 else 0
    ensures Sum(row) == Sum(before) + if Within(at, q.since, q.until) then 1 else 0
  {
    hide Sum;
    if Within(at, q.since, q.until) {
      SumBump(before, row, q.hourOf(at));
    } else {
      assert row == before;
    }
  }

  /** Conservation: a host's twenty-four cells hold each of its wanted events exactly once. */
  lemma {:induction false} RowConserves(logs: seq<Log>, q: Query)
    requires Clock(q)
    ensures Sum(CellRow(logs, q, HOURS)) == AllEvents(logs, q)
  {
    if logs == [] {
      SumZero(CellRow(logs, q, HOURS));
    } else {
      var front, log := logs[..|logs| - 1], logs[|logs| - 1];
      RowConserves(front, q);
      HoursPartition(log, q, |log.actions|, |log.commands|);
      SumAdd(CellRow(front, q, HOURS), HourRow(log, q, |log.actions|, |log.commands|, HOURS), CellRow(logs, q, HOURS));
    }
  }
}
