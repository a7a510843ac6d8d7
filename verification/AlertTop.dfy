/**
 The most common alerts of a window (`alert_top` in plenith/aggregations.py), and their agreement
 with the bucketed totals of `alert_rate`.
 */
module AlertTop {
  import opened Common
  import opened Numbers
  import opened SessionLogs
  import opened AlertRates

  /** One record of the result; the dict of records is the list of them in insertion order. */
  datatype Top = Top(name: string, severity: Severity, count: nat, sparkline: seq<nat>, firstAt: real, lastAt: real)

  function Rank(s: Severity): nat {
    match s
    case Critical => 0
    case High => 1
    case Medium => 2
    case Info => 3
    case Unranked(_) => 9
  }

  predicate Hit(e: Stamped, w: Window, name: string) {
    e.name == name && Within(e.at, w.start, w.end)
  }

  ghost function Named(events: seq<Stamped>, w: Window, name: string): nat {
    if events == [] then 0
    else Named(events[..|events| - 1], w, name) + if Hit(events[|events| - 1], w, name) then 1 else 0
  }

  ghost function Spark(events: seq<Stamped>, w: Window, name: string, i: nat): nat {
    if events == [] then 0
    else
      var e := events[|events| - 1];
      Spark(events[..|events| - 1], w, name, i) + if Hit(e, w, name) && Covers(w, i, e.at) then 1 else 0
  }

  ghost predicate Bounds(r: Top, events: seq<Stamped>, w: Window) {
    forall e :: e in events && Hit(e, w, r.name) ==>
      r.firstAt <= e.at <= r.lastAt && Rank(r.severity) <= Rank(SeverityOf(e))
  }

  ghost predicate Attained(r: Top, events: seq<Stamped>, w: Window) {
    && (exists e :: e in events && Hit(e, w, r.name) && e.at == r.firstAt)
    && (exists e :: e in events && Hit(e, w, r.name) && e.at == r.lastAt)
    && (exists e :: e in events && Hit(e, w, r.name) && SeverityOf(e) == r.severity)
  }

  ghost predicate Sparks(r: Top, events: seq<Stamped>, w: Window) {
    |r.sparkline| == w.n && forall i :: 0 <= i < w.n ==> r.sparkline[i] == Spark(events, w, r.name, i)
  }

  /** A record sums up exactly the events of its name: how many, when, how severe at worst. */
  ghost predicate Describes(r: Top, events: seq<Stamped>, w: Window) {
    r.count == Named(events, w, r.name) && Sparks(r, events, w) && Bounds(r, events, w) && Attained(r, events, w)
  }

  ghost predicate Groups(rows: seq<Top>, events: seq<Stamped>, w: Window) {
    && (forall i :: 0 <= i < |rows| ==> Describes(rows[i], events, w))
    && (forall i, j :: 0 <= i < j < |rows| ==> rows[i].name != rows[j].name)
    && (forall e :: e in events && Within(e.at, w.start, w.end) ==> Listed(rows, e.name))
  }

  ghost predicate Listed(rows: seq<Top>, name: string) {
    exists i :: 0 <= i < |rows| && rows[i].name == name
  }

  function Added(r: Top, e: Stamped, idx: nat): Top
    requires idx < |r.sparkline|
  {
    r.(count := r.count + 1,
       firstAt := if e.at < r.firstAt then e.at else r.firstAt,
       lastAt := if e.at > r.lastAt then e.at else r.lastAt,
       sparkline := r.sparkline[idx := r.sparkline[idx] + 1],
       severity := if Rank(SeverityOf(e)) < Rank(r.severity) then SeverityOf(e) else r.severity)
  }

  function Opened(e: Stamped, n: nat): Top {
    Top(e.name, SeverityOf(e), 0, seq(n, i => 0), e.at, e.at)
  }

  // ---- One event -------------------------------------------------------------------------------

  lemma OthersUnmoved(r: Top, events: seq<Stamped>, e: Stamped, w: Window)
    requires Describes(r, events, w) && !Hit(e, w, r.name)
    ensures Describes(r, events + [e], w)
  {
    assert (events + [e])[..|events|] == events;
    forall i | 0 <= i < w.n ensures Spark(events + [e], w, r.name, i) == Spark(events, w, r.name, i) {}
  }

  lemma SparkStep(r: Top, events: seq<Stamped>, e: Stamped, w: Window)
    requires Proper(w) && Sparks(r, events, w) && Hit(e, w, r.name)
    ensures var idx := IndexOf(w, e.at); 0 <= idx < w.n && Sparks(Added(r, e, idx), events + [e], w)
  {
    hide IndexOf, Covers;
    var idx := IndexOf(w, e.at);
    OneBucket(w, e.at, 0);
    assert (events + [e])[..|events|] == events;
    forall i: nat | i < w.n
      ensures Spark(events + [e], w, r.name, i) == Spark(events, w, r.name, i) + if i == idx then 1 else 0
    {
      OneBucket(w, e.at, i);
    }
  }

  lemma ExtremesStep(r: Top, events: seq<Stamped>, e: Stamped, w: Window, idx: nat)
    requires idx < |r.sparkline| && Hit(e, w, r.name) && Bounds(r, events, w)
    requires Attained(r, events, w) || (r.firstAt == e.at == r.lastAt && r.severity == SeverityOf(e))
    ensures Bounds(Added(r, e, idx), events + [e], w) && Attained(Added(r, e, idx), events + [e], w)
  {
    var r', all := Added(r, e, idx), events + [e];
    assert e in all && forall x :: x in events ==> x in all;
    if Attained(r, events, w) {
      var a :| a in events && Hit(a, w, r.name) && a.at == r.firstAt;
      var b :| b in events && Hit(b, w, r.name) && b.at == r.lastAt;
      var c :| c in events && Hit(c, w, r.name) && SeverityOf(c) == r.severity;
      assert a in all && b in all && c in all;
    }
  }

  lemma {:induction false} UnnamedIsNone(events: seq<Stamped>, w: Window, name: string)
    requires forall e :: e in events ==> !Hit(e, w, name)
    ensures Named(events, w, name) == 0 && forall i: nat :: Spark(events, w, name, i) == 0
  {
    if events != [] {
      assert events[|events| - 1] in events;
      UnnamedIsNone(events[..|events| - 1], w, name);
    }
  }

  /** The record that an event opens or joins describes its name again. */
  lemma JoinStep(r: Top, events: seq<Stamped>, e: Stamped, w: Window)
    requires Proper(w) && Hit(e, w, r.name)
    requires Describes(r, events, w) || (r == Opened(e, w.n) && forall x :: x in events ==> !Hit(x, w, r.name))
    ensures var idx := IndexOf(w, e.at); 0 <= idx < w.n == |r.sparkline| && Describes(Added(r, e, idx), events + [e], w)
  {
    hide IndexOf, Covers, Bounds, Attained;
    if !Describes(r, events, w) {
      UnnamedIsNone(events, w, r.name);
      FreshBounds(r, events, w);
    }
    SparkStep(r, events, e, w);
    ExtremesStep(r, events, e, w, IndexOf(w, e.at));
    assert (events + [e])[..|events|] == events;
  }

  lemma FreshBounds(r: Top, events: seq<Stamped>, w: Window)
    requires forall x :: x in events ==> !Hit(x, w, r.name)
    ensures Bounds(r, events, w)
  {}

  // ---- The loop --------------------------------------------------------------------------------

  /** The position of a name among the records, or their number. */
  method Lookup(rows: seq<Top>, name: string) returns (i: nat)
    ensures i <= |rows|
    ensures i < |rows| ==> rows[i].name == name
    ensures i == |rows| ==> !Listed(rows, name)
  {
    i := 0;
    while i < |rows| && rows[i].name != name
      invariant i <= |rows| && forall j :: 0 <= j < i ==> rows[j].name != name
    {
      i := i + 1;
    }
  }

  ghost function Counts(rows: seq<Top>): seq<nat> {
    seq(|rows|, i requires 0 <= i < |rows| => rows[i].count)
  }

  ghost function AllInWindow(events: seq<Stamped>, w: Window): nat {
    if events == [] then 0
    else AllInWindow(events[..|events| - 1], w) + if Within(events[|events| - 1].at, w.start, w.end) then 1 else 0
  }

  lemma GroupsSkip(rows: seq<Top>, events: seq<Stamped>, e: Stamped, w: Window)
    requires Groups(rows, events, w) && !Within(e.at, w.start, w.end)
    ensures Groups(rows, events + [e], w)
  {
    hide Describes;
    forall i | 0 <= i < |rows| ensures Describes(rows[i], events + [e], w) {
      OthersUnmoved(rows[i], events, e, w);
    }
  }

  /** `setdefault`: the records, with `r` appended when it is new. */
  function Grown(rows: seq<Top>, r: Top, i: nat): (all: seq<Top>)
    requires i <= |rows|
    ensures i < |all|
  {
    if i < |rows| then rows else rows + [r]
  }

  lemma GroupsStep(rows: seq<Top>, events: seq<Stamped>, e: Stamped, w: Window, i: nat, r: Top)
    requires Proper(w) && Groups(rows, events, w) && Within(e.at, w.start, w.end) && r.name == e.name
    requires i <= |rows|
    requires if i < |rows| then r == rows[i] else r == Opened(e, w.n) && !Listed(rows, e.name)
    ensures var idx := IndexOf(w, e.at);
      0 <= idx < |r.sparkline| && Groups(Grown(rows, r, i)[i := Added(r, e, idx)], events + [e], w)
  {
    hide IndexOf, Describes, Opened;
    JoinStep(r, events, e, w);
    var all := Grown(rows, r, i)[i := Added(r, e, IndexOf(w, e.at))];
    forall j | 0 <= j < |all| ensures Describes(all[j], events + [e], w) {
      if j != i {
        assert all[j] == rows[j] && rows[j].name != e.name;
        OthersUnmoved(rows[j], events, e, w);
      }
    }
    assert all[i].name == e.name;
    forall x | x in events + [e] && Within(x.at, w.start, w.end) ensures Listed(all, x.name) {
      if x in events {
        var j :| 0 <= j < |rows| && rows[j].name == x.name;
        assert all[j].name == x.name;
      }
    }
  }

  /** The event at which the view fails. Its severity is missing, so it ranks as `info`; every
      earlier event of its name in the window, and there is one, has an unranked severity; and the
      better rank is then looked up under the missing key. */
  ghost predicate Breaks(earlier: seq<Stamped>, e: Stamped, w: Window) {
    && e.severity == None && Within(e.at, w.start, w.end)
    && (exists x :: x in earlier && Hit(x, w, e.name))
    && (forall x :: x in earlier && Hit(x, w, e.name) ==> SeverityOf(x).Unranked?)
  }

  ghost predicate Fails(events: seq<Stamped>, w: Window) {
    exists k :: 0 <= k < |events| && Breaks(events[..k], events[k], w)
  }

  /** The lookup fails exactly there: a record is unranked when all its events are. */
  lemma BreaksIff(rows: seq<Top>, events: seq<Stamped>, e: Stamped, w: Window, i: nat, r: Top)
    requires Groups(rows, events, w) && Within(e.at, w.start, w.end) && i <= |rows|
    requires if i < |rows| then r == rows[i] && r.name == e.name else r == Opened(e, w.n) && !Listed(rows, e.name)
    ensures e.severity == None && Rank(SeverityOf(e)) < Rank(r.severity) <==> Breaks(events, e, w)
  {
    hide Sparks, Named;
    if i < |rows| {
      var c :| c in events && Hit(c, w, r.name) && SeverityOf(c) == r.severity;
      forall x | x in events && Hit(x, w, r.name) ensures Rank(r.severity) <= Rank(SeverityOf(x)) {}
    }
  }

  /** The spacing of the sparklines. */
  function SparkWidth(since: real, until: real, n: nat): (width: real)
    requires n >= 1
    ensures width >= 1.0
  {
    var width := (until - since) / n as real;
    if width > 1.0 then width else 1.0
  }

  /** A sparkline's buckets divide the window evenly unless that would make them shorter than a
      second. */
  lemma SparkWidths(since: real, until: real, n: nat)
    requires n >= 1
    ensures until - since >= n as real ==> SparkWidth(since, until, n) * n as real == until - since
    ensures until - since <= n as real ==> SparkWidth(since, until, n) == 1.0
  {
    ScaleOrder(1.0, (until - since) / n as real, n as real);
    ScaleOrder((until - since) / n as real, 1.0, n as real);
  }

  /** The records before the final sort and limit; `None` is the KeyError of a missing severity. */
  method AlertTop(logs: seq<Log>, since: real, until: real, n: nat) returns (rows: Option<seq<Top>>)
    requires n >= 1
    ensures var w := Window(since, until, SparkWidth(since, until, n), n);
      && (rows == None <==> Fails(AllActions(logs), w))
      && (rows.Some? ==> Groups(rows.value, AllActions(logs), w))
      && (rows.Some? ==> Sum(Counts(rows.value)) == AllInWindow(AllActions(logs), w))
  {
    hide Groups, Counts, SparkWidth, Breaks, Sum, AllInWindow;
    var events := IterActions(logs);
    var w := Window(since, until, SparkWidth(since, until, n), n);
    if until - since <= 0.0 {
      EmptyGroups(events, w);
      NoneInWindow(events, w);
      return Some([]);
    }
    EmptyGroups([], w);
    NoneCounted(w);
    var all: seq<Top> := [];
    for k := 0 to |events|
      invariant Groups(all, events[..k], w) && Sum(Counts(all)) == AllInWindow(events[..k], w)
      invariant forall j :: 0 <= j < k ==> !Breaks(events[..j], events[j], w)
    {
      var e := events[k];
      assert events[..k + 1] == events[..k] + [e];
      CountedStep(events[..k], e, w);
      if e.at < since || e.at >= until {
        GroupsSkip(all, events[..k], e, w);
        OutsideNeverBreaks(events[..k], e, w);
      } else {
        var joined := Join(all, e, w, events[..k]);
        if joined == None {
          return None;
        }
        all := joined.value;
      }
    }
    assert events[..|events|] == events;
    return Some(all);
  }

  lemma NoneCounted(w: Window)
    ensures AllInWindow([], w) == 0
  {}

  lemma CountedStep(events: seq<Stamped>, e: Stamped, w: Window)
    ensures AllInWindow(events + [e], w) == AllInWindow(events, w) + if Within(e.at, w.start, w.end) then 1 else 0
  {
    assert (events + [e])[..|events|] == events;
  }

  lemma OutsideNeverBreaks(earlier: seq<Stamped>, e: Stamped, w: Window)
    ensures !Within(e.at, w.start, w.end) ==> !Breaks(earlier, e, w)
  {}

  lemma EmptyGroups(events: seq<Stamped>, w: Window)
    requires events == [] || w.end <= w.start
    ensures Groups([], events, w) && Sum(Counts([])) == 0
  {}

  /** One event of the window joins the record of its name, or fails. */
  method Join(rows: seq<Top>, e: Stamped, w: Window, ghost events: seq<Stamped>) returns (joined: Option<seq<Top>>)
    requires Proper(w) && Groups(rows, events, w) && Within(e.at, w.start, w.end)
    ensures joined == None <==> Breaks(events, e, w)
    ensures joined.Some? ==>
      Groups(joined.value, events + [e], w) && Sum(Counts(joined.value)) == Sum(Counts(rows)) + 1
  {
    hide Breaks, Rank, Groups, IndexOf, Describes, Opened, Added, Counts, Sum;
    var i := Lookup(rows, e.name);
    var r := if i < |rows| then rows[i] else Opened(e, w.n);
    OpenedFacts(e, w.n);
    GroupsStep(rows, events, e, w, i, r);
    BreaksIff(rows, events, e, w, i, r);
    var idx := IndexOf(w, e.at);
    if e.severity == None && Rank(SeverityOf(e)) < Rank(r.severity) {
      return None;
    }
    CountStep(rows, r, i, e, idx);
    return Some(Grown(rows, r, i)[i := Added(r, e, idx)]);
  }

  lemma OpenedFacts(e: Stamped, n: nat)
    ensures Opened(e, n).name == e.name && Opened(e, n).count == 0 && |Opened(e, n).sparkline| == n
  {}

  lemma CountStep(rows: seq<Top>, r: Top, i: nat, e: Stamped, idx: nat)
    requires i <= |rows| && idx < |r.sparkline| && (if i < |rows| then r == rows[i] else r.count == 0)
    ensures Sum(Counts(Grown(rows, r, i)[i := Added(r, e, idx)])) == Sum(Counts(rows)) + 1
  {
    var all := Grown(rows, r, i);
    if i == |rows| {
      assert Counts(all) == Counts(rows) + [0];
    }
    SumBump(Counts(all), Counts(all[i := Added(r, e, idx)]), i);
  }

  lemma {:induction false} NoneInWindow(events: seq<Stamped>, w: Window)
    requires w.end <= w.start
    ensures AllInWindow(events, w) == 0 && !Fails(events, w)
  {
    if events != [] {
      NoneInWindow(events[..|events| - 1], w);
    }
  }

  /** Two events are enough: an unranked one, then one of the same name without a severity. The
      other way round the view stands. */
  lemma MissingSeverityFails()
    ensures var weird := Action("x", Some(Unranked("weird")), 1.0, 0.0);
      var bare := Action("x", None, 2.0, 0.0);
      var w := Window(1.0, 3.0, 1.0, 8);
      && Fails(AllActions([Log("e", 0.0, [weird, bare], [])]), w)
      && !Fails(AllActions([Log("e", 0.0, [bare, weird], [])]), w)
  {
    var weird, bare := Action("x", Some(Unranked("weird")), 1.0, 0.0), Action("x", None, 2.0, 0.0);
    var w := Window(1.0, 3.0, 1.0, 8);
    var a, b := Stamped(1.0, Some(Unranked("weird")), "x"), Stamped(2.0, None, "x");
    OneLog(Log("e", 0.0, [weird, bare], []), [a, b]);
    OneLog(Log("e", 0.0, [bare, weird], []), [b, a]);
    assert [a, b][..1] == [a] && [b, a][..1] == [b] && a in [a];
    assert Breaks([a, b][..1], [a, b][1], w);
    forall k | 0 <= k < 2 ensures !Breaks([b, a][..k], [b, a][k], w) {}
  }

  lemma OneLog(log: Log, stamped: seq<Stamped>)
    requires StampedActions(log, |log.actions|) == stamped
    ensures AllActions([log]) == stamped
  {
    assert [log][..0] == [];
  }

  // ---- The worst severity ------------------------------------------------------------------------

  ghost predicate SomeHit(events: seq<Stamped>, w: Window, name: string, s: Severity) {
    exists e :: e in events && Hit(e, w, name) && SeverityOf(e) == s
  }

  /** A described record's severity is the worst among its events: critical before high, high before
      medium, medium before info, and an unknown one only when there is nothing else. */
  lemma WorstSeverity(r: Top, events: seq<Stamped>, w: Window)
    requires Describes(r, events, w)
    ensures SomeHit(events, w, r.name, r.severity)
    ensures r.severity == Critical <==> SomeHit(events, w, r.name, Critical)
    ensures r.severity == High <==> SomeHit(events, w, r.name, High) && !SomeHit(events, w, r.name, Critical)
    ensures r.severity == Medium <==>
      SomeHit(events, w, r.name, Medium) && !SomeHit(events, w, r.name, Critical) && !SomeHit(events, w, r.name, High)
    ensures r.severity.Unranked? ==>
      forall s :: s in {Critical, High, Medium, Info} ==> !SomeHit(events, w, r.name, s)
  {
    hide Sparks, Named;
  }

  // ---- What the records say --------------------------------------------------------------------

  lemma {:induction false} SparksAdd(events: seq<Stamped>, w: Window, name: string, sparkline: seq<nat>)
    requires Proper(w) && |sparkline| == w.n && forall i :: 0 <= i < w.n ==> sparkline[i] == Spark(events, w, name, i)
    ensures Sum(sparkline) == Named(events, w, name)
  {
    if events == [] {
      SumZero(sparkline);
    } else {
      hide IndexOf, Covers;
      var front, e := events[..|events| - 1], events[|events| - 1];
      var before := seq(w.n, i requires 0 <= i < w.n => Spark(front, w, name, i));
      SparksAdd(front, w, name, before);
      if Hit(e, w, name) {
        var idx := IndexOf(w, e.at);
        OneBucket(w, e.at, 0);
        forall i: nat | i < w.n ensures sparkline[i] == before[i] + if i == idx then 1 else 0 {
          OneBucket(w, e.at, i);
        }
        SumBump(before, sparkline, idx);
      } else {
        assert sparkline == before;
      }
    }
  }

  /** A row's sparkline adds up to its count. */
  lemma SparklineIsCount(r: Top, events: seq<Stamped>, w: Window)
    requires Proper(w) && Describes(r, events, w)
    ensures Sum(r.sparkline) == r.count
  {
    SparksAdd(events, w, r.name, r.sparkline);
  }

  ghost function UnrankedInWindow(events: seq<Stamped>, w: Window): nat {
    if events == [] then 0
    else
      var e := events[|events| - 1];
      UnrankedInWindow(events[..|events| - 1], w)
        + if SeverityOf(e).Unranked? && Within(e.at, w.start, w.end) then 1 else 0
  }

  lemma {:induction false} WindowBySeverity(events: seq<Stamped>, w: Window, v: Window)
    requires v.start == w.start && v.end == w.end
    ensures AllInWindow(events, w) == UnrankedInWindow(events, w)
      + InWindow(events, v, Critical, Wanted([])) + InWindow(events, v, High, Wanted([]))
      + InWindow(events, v, Medium, Wanted([])) + InWindow(events, v, Info, Wanted([]))
  {
    if events != [] {
      WindowBySeverity(events[..|events| - 1], w, v);
    }
  }

  /** The two independent views agree: over the same window the records' counts add up to the rate's
      totals exactly when every event in it has a ranked severity. */
  lemma TopAgreesWithRate(rows: seq<Top>, r: Rate, events: seq<Stamped>, w: Window, v: Window)
    requires v.start == w.start && v.end == w.end
    requires Sum(Counts(rows)) == AllInWindow(events, w)
    requires forall s: Severity :: TotalOf(r, s) == InWindow(events, v, s, Wanted([]))
    ensures Sum(Counts(rows)) == r.critical + r.high + r.medium + r.info + UnrankedInWindow(events, w)
    ensures Sum(Counts(rows)) == r.critical + r.high + r.medium + r.info <==>
      forall e :: e in events && Within(e.at, w.start, w.end) ==> !SeverityOf(e).Unranked?
  {
    WindowBySeverity(events, w, v);
    assert TotalOf(r, Critical) == r.critical && TotalOf(r, High) == r.high;
    assert TotalOf(r, Medium) == r.medium && TotalOf(r, Info) == r.info;
    UnrankedIff(events, w);
  }

  lemma {:induction false} UnrankedIff(events: seq<Stamped>, w: Window)
    ensures UnrankedInWindow(events, w) == 0 <==>
      forall e :: e in events && Within(e.at, w.start, w.end) ==> !SeverityOf(e).Unranked?
  {
    if events != [] {
      var front, e := events[..|events| - 1], events[|events| - 1];
      UnrankedIff(front, w);
      assert events == front + [e];
    }
  }
}
