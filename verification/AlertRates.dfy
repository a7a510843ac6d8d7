/**
 Alert counts over time (`alert_rate` and `alert_top` in plenith/aggregations.py): every wanted
 event of the window lands in exactly one bucket, and the two views agree.
 */
module AlertRates {
  import opened Common
  import opened Numbers
  import opened SessionLogs

  /** One bucket of the series. */
  datatype Bucket = Bucket(ts: real, critical: nat, high: nat, medium: nat, info: nat)

  function CountOf(b: Bucket, s: Severity): nat {
    match s
    case Critical => b.critical
    case High => b.high
    case Medium => b.medium
    case Info => b.info
    case Unranked(_) => 0
  }

  function Bumped(b: Bucket, s: Severity): (b': Bucket)
    requires !s.Unranked?
    ensures b'.ts == b.ts
    ensures forall x: Severity :: CountOf(b', x) == CountOf(b, x) + if x == s then 1 else 0
  {
    match s
    case Critical => b.(critical := b.critical + 1)
    case High => b.(high := b.high + 1)
    case Medium => b.(medium := b.medium + 1)
    case Info => b.(info := b.info + 1)
  }

  /** A window cut into `n` buckets of equal width, the last one taking the remainder. */
  datatype Window = Window(start: real, end: real, width: real, n: nat)

  predicate Proper(w: Window) {
    w.width > 0.0 && w.n >= 1
  }

  function Edge(w: Window, i: int): real {
    w.start + i as real * w.width
  }

  /** The times that bucket `i` stands for. */
  predicate Covers(w: Window, i: nat, at: real) {
    Edge(w, i) <= at < if i == w.n - 1 then w.end else Edge(w, i + 1)
  }

  /** The source's index arithmetic; `int(...)` truncates, and the quotient is not negative. */
  function IndexOf(w: Window, at: real): (i: int)
    requires Proper(w)
    ensures i <= w.n - 1
  {
    var i := ((at - w.start) / w.width).Floor;
    if i < w.n - 1 then i else w.n - 1
  }

  lemma FloorEdges(w: Window, at: real, i: int)
    requires w.width > 0.0 && i == ((at - w.start) / w.width).Floor
    ensures Edge(w, i) <= at < Edge(w, i + 1)
  {
    var q := (at - w.start) / w.width;
    assert q * w.width == at - w.start;
    ScaleOrder(i as real, q, w.width);
    assert (i + 1) as real == i as real + 1.0;
    ScaleOrder(i as real + 1.0, q, w.width);
  }

  lemma EdgesAscend(w: Window, i: int, j: int)
    requires w.width > 0.0 && i <= j
    ensures Edge(w, i) <= Edge(w, j)
  {
    ScaleOrder(i as real, j as real, w.width);
  }

  /** Every time in the window belongs to exactly one bucket: the one the arithmetic picks. */
  lemma OneBucket(w: Window, at: real, i: nat)
    requires Proper(w) && i < w.n && Within(at, w.start, w.end)
    ensures IndexOf(w, at) >= 0
    ensures Covers(w, i, at) <==> i == IndexOf(w, at)
  {
    hide Edge;
    var k := ((at - w.start) / w.width).Floor;
    FloorEdges(w, at, k);
    EdgeZero(w);
    if k < 0 { EdgesAscend(w, k + 1, 0); }
    if i < k { EdgesAscend(w, i + 1, k); }
    if k < i { EdgesAscend(w, k + 1, i); }
    if i <= k { EdgesAscend(w, i, k); }
  }

  lemma EdgeZero(w: Window)
    ensures Edge(w, 0) == w.start
  {}

  // ---- Counting --------------------------------------------------------------------------------

  /** What the caller asked for: no list means every ranked severity. */
  function Wanted(severities: seq<Severity>): seq<Severity> {
    if severities == [] then [Critical, High, Medium, Info] else severities
  }

  predicate Counts(e: Stamped, w: Window, s: Severity, wanted: seq<Severity>) {
    SeverityOf(e) == s && s in wanted && !s.Unranked? && Within(e.at, w.start, w.end)
  }

  ghost function InWindow(events: seq<Stamped>, w: Window, s: Severity, wanted: seq<Severity>): nat {
    if events == [] then 0
    else
      var e := events[|events| - 1];
      InWindow(events[..|events| - 1], w, s, wanted) + if Counts(e, w, s, wanted) then 1 else 0
  }

  ghost function InBucket(events: seq<Stamped>, w: Window, i: nat, s: Severity, wanted: seq<Severity>): nat {
    if events == [] then 0
    else
      var e := events[|events| - 1];
      InBucket(events[..|events| - 1], w, i, s, wanted) + if Counts(e, w, s, wanted) && Covers(w, i, e.at) then 1 else 0
  }

  ghost function InBuckets(events: seq<Stamped>, w: Window, k: nat, s: Severity, wanted: seq<Severity>): nat {
    if k == 0 then 0 else InBuckets(events, w, k - 1, s, wanted) + InBucket(events, w, k - 1, s, wanted)
  }

  lemma {:induction false} OneEventOneBucket(events: seq<Stamped>, w: Window, k: nat, s: Severity,
                                             wanted: seq<Severity>)
    requires events != [] && Proper(w) && k <= w.n
    ensures var e, front := events[|events| - 1], events[..|events| - 1];
      InBuckets(events, w, k, s, wanted) == InBuckets(front, w, k, s, wanted)
        + if Counts(e, w, s, wanted) && IndexOf(w, e.at) < k then 1 else 0
  {
    hide IndexOf, Covers;
    var e := events[|events| - 1];
    if k > 0 {
      OneEventOneBucket(events, w, k - 1, s, wanted);
    }
    if Counts(e, w, s, wanted) {
      OneBucket(w, e.at, if k > 0 then k - 1 else 0);
    }
  }

  /** Conservation: the buckets' contents add up to the window's. */
  lemma {:induction false} BucketsPartition(events: seq<Stamped>, w: Window, s: Severity, wanted: seq<Severity>)
    requires Proper(w)
    ensures InBuckets(events, w, w.n, s, wanted) == InWindow(events, w, s, wanted)
  {
    if events == [] {
      NothingInBuckets(w, w.n, s, wanted);
    } else {
      BucketsPartition(events[..|events| - 1], w, s, wanted);
      OneEventOneBucket(events, w, w.n, s, wanted);
    }
  }

  lemma {:induction false} NothingInBuckets(w: Window, k: nat, s: Severity, wanted: seq<Severity>)
    ensures InBuckets([], w, k, s, wanted) == 0
  {
    if k > 0 {
      NothingInBuckets(w, k - 1, s, wanted);
    }
  }

  // ---- alert_rate ------------------------------------------------------------------------------

  function BucketCount(start: real, end: real, width: nat): (n: nat)
    requires width > 0
    ensures n >= 1
  {
    var whole := ((end - start) / width as real).Floor;
    if whole > 1 then whole else 1
  }

  /** As many whole buckets as fit, but at least one: a window of at least one width leaves the last
      bucket a remainder of less than a width. */
  lemma BucketCountFits(start: real, end: real, width: nat)
    requires width > 0
    ensures var n := BucketCount(start, end, width);
      if end - start >= width as real
      then n as real * width as real <= end - start < n as real * width as real + width as real
      else n == 1
  {
    WholeBuckets(end - start, width as real, ((end - start) / width as real).Floor);
  }

  lemma WholeBuckets(span: real, width: real, whole: int)
    requires width > 0.0 && whole == (span / width).Floor
    ensures whole as real * width <= span < whole as real * width + width
    ensures span >= width <==> whole >= 1
  {
    var q := span / width;
    BelowNext(whole as real, q, width, span);
    ScaleOrder(whole as real, q, width);
    ScaleOrder(1.0, q, width);
  }

  lemma BelowNext(x: real, q: real, width: real, span: real)
    requires width > 0.0 && q < x + 1.0 && span == q * width
    ensures span < x * width + width
  {
    ProductPositive(x + 1.0 - q, width);
    assert (x + 1.0 - q) * width == x * width + width - q * width;
  }

  ghost predicate Tallies(buckets: seq<Bucket>, events: seq<Stamped>, w: Window, wanted: seq<Severity>) {
    && |buckets| == w.n
    && (forall i :: 0 <= i < w.n ==> buckets[i].ts == Edge(w, i))
    && (forall i, s: Severity :: 0 <= i < w.n ==> CountOf(buckets[i], s) == InBucket(events, w, i, s, wanted))
  }

  /** The counting loop: bucket by bucket and severity by severity, exactly the wanted events whose
      time it covers. */
  method Series(logs: seq<Log>, start: real, end: real, width: nat, wanted: seq<Severity>)
    returns (buckets: seq<Bucket>)
    requires width > 0
    ensures var w := Window(start, end, width as real, BucketCount(start, end, width));
      Tallies(buckets, AllActions(logs), w, wanted)
  {
    hide BucketCount, InBucket, Edge, Tallies, IndexOf, Bumped, Wanted;
    var n := BucketCount(start, end, width);
    var w := Window(start, end, width as real, n);
    var events := IterActions(logs);
    buckets := seq(n, i requires 0 <= i < n => Bucket(Edge(w, i), 0, 0, 0, 0));
    EmptyTally(buckets, w, wanted);
    for k := 0 to |events|
      invariant Tallies(buckets, events[..k], w, wanted)
    {
      assert events[..k + 1][..k] == events[..k];
      var e := events[k];
      if e.at < start || e.at >= end || SeverityOf(e) !in wanted || SeverityOf(e).Unranked? {
        Skips(buckets, events[..k + 1], w, wanted);
      } else {
        var idx := IndexOf(w, e.at);
        TallyStep(buckets, events[..k + 1], w, wanted);
        TallyLength(buckets, events[..k], w, wanted);
        buckets := buckets[idx := Bumped(buckets[idx], SeverityOf(e))];
      }
    }
    assert events[..|events|] == events;
  }

  lemma EmptyTally(buckets: seq<Bucket>, w: Window, wanted: seq<Severity>)
    requires |buckets| == w.n && forall i :: 0 <= i < w.n ==> buckets[i] == Bucket(Edge(w, i), 0, 0, 0, 0)
    ensures Tallies(buckets, [], w, wanted)
  {
    hide Edge;
  }

  lemma TallyLength(buckets: seq<Bucket>, events: seq<Stamped>, w: Window, wanted: seq<Severity>)
    requires Tallies(buckets, events, w, wanted)
    ensures |buckets| == w.n
  {}

  lemma Skips(buckets: seq<Bucket>, events: seq<Stamped>, w: Window, wanted: seq<Severity>)
    requires events != [] && Tallies(buckets, events[..|events| - 1], w, wanted)
    requires var e := events[|events| - 1]; !Counts(e, w, SeverityOf(e), wanted)
    ensures Tallies(buckets, events, w, wanted)
  {
    hide Edge, Covers;
    forall i: nat, s: Severity | i < w.n
      ensures InBucket(events, w, i, s, wanted) == InBucket(events[..|events| - 1], w, i, s, wanted)
    {}
  }

  lemma TallyStep(buckets: seq<Bucket>, events: seq<Stamped>, w: Window, wanted: seq<Severity>)
    requires events != [] && Proper(w) && Tallies(buckets, events[..|events| - 1], w, wanted)
    requires var e := events[|events| - 1]; Counts(e, w, SeverityOf(e), wanted)
    ensures var e := events[|events| - 1]; var idx := IndexOf(w, e.at);
      0 <= idx < w.n && Tallies(buckets[idx := Bumped(buckets[idx], SeverityOf(e))], events, w, wanted)
  {
    hide IndexOf, Covers, Edge;
    var e := events[|events| - 1];
    var idx := IndexOf(w, e.at);
    OneBucket(w, e.at, 0);
    forall i: nat, s: Severity | i < w.n
      ensures InBucket(events, w, i, s, wanted)
        == InBucket(events[..|events| - 1], w, i, s, wanted) + if s == SeverityOf(e) && i == idx then 1 else 0
    {
      OneBucket(w, e.at, i);
    }
  }

  ghost function Column(buckets: seq<Bucket>, s: Severity): nat {
    if buckets == [] then 0 else Column(buckets[..|buckets| - 1], s) + CountOf(buckets[|buckets| - 1], s)
  }

  /** `sum(b[s] for b in series)`. */
  method Total(buckets: seq<Bucket>, s: Severity) returns (total: nat)
    ensures total == Column(buckets, s)
  {
    total := 0;
    for i := 0 to |buckets|
      invariant total == Column(buckets[..i], s)
    {
      assert buckets[..i + 1][..i] == buckets[..i];
      total := total + CountOf(buckets[i], s);
    }
    assert buckets[..|buckets|] == buckets;
  }

  lemma {:induction false} ColumnOfTally(buckets: seq<Bucket>, events: seq<Stamped>, w: Window, wanted: seq<Severity>,
                                         k: nat, s: Severity)
    requires Tallies(buckets, events, w, wanted) && k <= w.n
    ensures Column(buckets[..k], s) == InBuckets(events, w, k, s, wanted)
  {
    if k > 0 {
      ColumnOfTally(buckets, events, w, wanted, k - 1, s);
      assert buckets[..k][..k - 1] == buckets[..k - 1];
    }
  }

  /** Each severity's total is the number of wanted events of that severity in the window,
      whatever the bucket width. */
  lemma TotalsConserve(buckets: seq<Bucket>, events: seq<Stamped>, w: Window, wanted: seq<Severity>, s: Severity)
    requires Proper(w) && Tallies(buckets, events, w, wanted)
    ensures Column(buckets, s) == InWindow(events, w, s, wanted)
  {
    ColumnOfTally(buckets, events, w, wanted, w.n, s);
    assert buckets[..w.n] == buckets;
    BucketsPartition(events, w, s, wanted);
  }

  datatype Rate = Rate(
    series: seq<Bucket>, critical: nat, high: nat, medium: nat, info: nat, compare: Option<seq<Bucket>>)

  function TotalOf(r: Rate, s: Severity): nat {
    match s
    case Critical => r.critical
    case High => r.high
    case Medium => r.medium
    case Info => r.info
    case Unranked(_) => 0
  }

  method AlertRate(logs: seq<Log>, since: real, until: real, width: nat, severities: seq<Severity>, previous: bool)
    returns (r: Rate)
    requires width > 0
    ensures forall s: Severity ::
      TotalOf(r, s) ==
        InWindow(AllActions(logs), Window(since, until, width as real, |r.series|), s, Wanted(severities))
    ensures Tallies(r.series, AllActions(logs), Window(since, until, width as real, |r.series|), Wanted(severities))
    ensures |r.series| == BucketCount(since, until, width)
    ensures r.compare.Some? <==> previous
    ensures previous ==> |r.compare.value| == |r.series| && Tallies(r.compare.value, AllActions(logs),
      Window(since - (until - since), since, width as real, |r.series|), Wanted(severities))
  {
    var series := Series(logs, since, until, width, Wanted(severities));
    ghost var w := Window(since, until, width as real, BucketCount(since, until, width));
    var critical := Total(series, Critical);
    var high := Total(series, High);
    var medium := Total(series, Medium);
    var info := Total(series, Info);
    forall s: Severity ensures Column(series, s) == InWindow(AllActions(logs), w, s, Wanted(severities)) {
      TotalsConserve(series, AllActions(logs), w, Wanted(severities), s);
    }
    var compare: Option<seq<Bucket>> := None;
    if previous {
      var earlier := Series(logs, since - (until - since), since, width, Wanted(severities));
      assert since - (since - (until - since)) == until - since;
      compare := Some(earlier);
    }
    r := Rate(series, critical, high, medium, info, compare);
    UnrankedNever(AllActions(logs), w, Wanted(severities));
  }

  lemma {:induction false} UnrankedNever(events: seq<Stamped>, w: Window, wanted: seq<Severity>)
    ensures forall s: Severity :: s.Unranked? ==> InWindow(events, w, s, wanted) == 0
  {
    if events != [] {
      UnrankedNever(events[..|events| - 1], w, wanted);
    }
  }
}
