/**
 The kill-request queue (plenith/kill_queue.py): one record per engagement in a file that every
 operation loads, changes and writes back. Times are whole ticks of a monotone clock.
 */
module KillQueue {
  import opened Common

  datatype Status = Pending | Killed | Expired

  datatype Entry = Entry(requestedAt: int, requestedBy: string, reason: string, status: Status, killedAt: Option<int>)

  type Queue = map<string, Entry>

  const GC_TTL := 86400

  predicate IsPending(q: Queue, eid: string) {
    eid in q && q[eid].status == Pending
  }

  predicate Keeps(entry: Entry, now: int) {
    entry.status == Pending ||
    (if entry.killedAt.Some? then entry.killedAt.value else entry.requestedAt) >= now - GC_TTL
  }

  /** Garbage collection: completed entries past their time go, pending ones never do. */
  function Collected(q: Queue, now: int): (kept: Queue)
    ensures forall eid :: IsPending(q, eid) <==> IsPending(kept, eid)
    ensures forall eid :: eid in kept ==> eid in q && kept[eid] == q[eid]
    ensures forall eid :: eid in q && q[eid].status != Pending ==>
      (eid in kept <==> now - 86400 <= (if q[eid].killedAt.Some? then q[eid].killedAt.value else q[eid].requestedAt))
  {
    map eid | eid in q && Keeps(q[eid], now) :: q[eid]
  }

  function Requested(q: Queue, eid: string, who: string, reason: string, now: int): Queue {
    var at := if IsPending(q, eid) then q[eid].requestedAt else now;
    Collected(q, now)[eid := Entry(at, if who == "" then "anonymous" else who, reason, Pending, None)]
  }

  function Cancelled(q: Queue, eid: string, now: int): Queue {
    if IsPending(q, eid) then Collected(q, now) - {eid} else q
  }

  function Marked(q: Queue, eid: string, now: int): Queue {
    if eid in q then q[eid := q[eid].(status := Killed, killedAt := Some(now))] else q
  }

  /** A request and its cancellation leave the collected queue without the entry, be it older than
      the request, pending or completed. So they leave any queue alone exactly when it had no
      entry of the engagement and nothing was due for collection. */
  lemma CancelUndoesRequestIff(q: Queue, eid: string, who: string, reason: string, t: int, u: int)
    requires t <= u
    ensures var c := Cancelled(Requested(q, eid, who, reason, t), eid, u);
      && c == Collected(q, u) - {eid}
      && (c == q <==> eid !in q && Collected(q, u) == q)
  {
    var c := Cancelled(Requested(q, eid, who, reason, t), eid, u);
    assert forall e :: e in c <==> e in Collected(q, u) && e != eid;
    assert forall e :: e in c <==> e in q && Keeps(q[e], u) && e != eid;
  }

  // ---- How long a kill is remembered -----------------------------------------------------------

  /** A call on the queue, at its time. */
  datatype Call =
    | Ask(eid: string, who: string, reason: string, at: int)
    | Withdraw(eid: string, at: int)
    | Fulfil(eid: string, at: int)

  function Called(q: Queue, c: Call): Queue {
    match c
    case Ask(eid, who, reason, at) => Requested(q, eid, who, reason, at)
    case Withdraw(eid, at) => Cancelled(q, eid, at)
    case Fulfil(eid, at) => Marked(q, eid, at)
  }

  function CalledAll(q: Queue, calls: seq<Call>): Queue {
    if calls == [] then q else Called(CalledAll(q, calls[..|calls| - 1]), calls[|calls| - 1])
  }

  /** None of the calls requests the engagement again or fulfils it again; cancelling it is fine. */
  predicate LeavesAlone(calls: seq<Call>, eid: string) {
    forall i :: 0 <= i < |calls| && calls[i].eid == eid ==> calls[i].Withdraw?
  }

  lemma CalledRemembers(q: Queue, eid: string, entry: Entry, c: Call)
    requires entry.status == Killed && entry.killedAt.Some? && c.at <= entry.killedAt.value + 86400
    requires eid in q && q[eid] == entry && (c.eid == eid ==> c.Withdraw?)
    ensures eid in Called(q, c) && Called(q, c)[eid] == entry
  {}

  lemma {:induction false} RemembersAll(q: Queue, eid: string, entry: Entry, calls: seq<Call>)
    requires entry.status == Killed && entry.killedAt.Some?
    requires forall i :: 0 <= i < |calls| ==> calls[i].at <= entry.killedAt.value + 86400
    requires eid in q && q[eid] == entry && LeavesAlone(calls, eid)
    ensures eid in CalledAll(q, calls) && CalledAll(q, calls)[eid] == entry
  {
    if calls != [] {
      hide Called;
      RemembersAll(q, eid, entry, calls[..|calls| - 1]);
      CalledRemembers(CalledAll(q, calls[..|calls| - 1]), eid, entry, calls[|calls| - 1]);
    }
  }

  /** A fulfilled request stays on show, as killed at that time, for exactly a day, whatever is
      requested, cancelled or fulfilled for other engagements meanwhile. */
  lemma KilledShownForADay(q: Queue, eid: string, t: int, calls: seq<Call>, u: int)
    requires eid in q && LeavesAlone(calls, eid)
    requires forall i :: 0 <= i < |calls| ==> calls[i].at <= u
    ensures var shown := Collected(CalledAll(Marked(q, eid, t), calls), u);
      && (u <= t + 86400 ==>
            eid in shown && shown[eid].status == Killed && shown[eid].killedAt == Some(t)
            && shown[eid].requestedAt == q[eid].requestedAt && shown[eid].requestedBy == q[eid].requestedBy
            && shown[eid].reason == q[eid].reason)
      && (u > t + 86400 ==> eid !in shown)
  {
    hide Marked, Collected, Keeps, Called;
    MarkedEntry(q, eid, t);
    var start := Marked(q, eid, t);
    if u <= t + 86400 {
      RemembersAll(start, eid, start[eid], calls);
    } else {
      ForgottenOrSame(start, eid, start[eid], calls);
    }
  }

  lemma MarkedEntry(q: Queue, eid: string, t: int)
    requires eid in q
    ensures var m := Marked(q, eid, t);
      eid in m && m[eid] == Entry(q[eid].requestedAt, q[eid].requestedBy, q[eid].reason, Killed, Some(t))
  {}

  lemma {:induction false} ForgottenOrSame(q: Queue, eid: string, entry: Entry, calls: seq<Call>)
    requires entry.status == Killed && (eid in q ==> q[eid] == entry) && LeavesAlone(calls, eid)
    ensures eid in CalledAll(q, calls) ==> CalledAll(q, calls)[eid] == entry
  {
    if calls != [] {
      ForgottenOrSame(q, eid, entry, calls[..|calls| - 1]);
    }
  }

  class KillRequestQueue {
    var data: Queue

    constructor ()
      ensures data == map[]
    {
      data := map[];
    }

    /** The garbage-collection loop over the loaded entries. */
    method Gc(loaded: Queue, now: int) returns (keep: Queue)
      ensures keep == Collected(loaded, now)
      ensures forall eid :: eid in loaded ==>
        (eid in keep <==>
          loaded[eid].status == Pending
          || (var e := loaded[eid]; now - 86400 <= if e.killedAt.Some? then e.killedAt.value else e.requestedAt))
    {
      keep := map[];
      var todo := loaded.Keys;
      while todo != {}
        invariant todo <= loaded.Keys
        invariant keep == map eid | eid in loaded && eid !in todo && Keeps(loaded[eid], now) :: loaded[eid]
        decreases |todo|
      {
        var eid :| eid in todo;
        todo := todo - {eid};
        if loaded[eid].status == Pending {
          keep := keep[eid := loaded[eid]];
        } else {
          var ts := if loaded[eid].killedAt.Some? then loaded[eid].killedAt.value else loaded[eid].requestedAt;
          if ts >= now - GC_TTL {
            keep := keep[eid := loaded[eid]];
          }
        }
      }
    }

    method RequestKill(eid: string, who: string, reason: string, now: int) returns (entry: Entry)
      modifies this
      ensures data == Requested(old(data), eid, who, reason, now)
      ensures entry == data[eid] && entry.status == Pending && entry.killedAt == None && entry.reason == reason
      ensures entry.requestedAt == if old(IsPending(data, eid)) then old(data[eid].requestedAt) else now
      ensures entry.requestedBy == if who == "" then "anonymous" else who
    {
      var q := Gc(data, now);
      entry := Entry(now, if who == "" then "anonymous" else who, reason, Pending, None);
      if eid in q && q[eid].status == Pending {
        entry := entry.(requestedAt := q[eid].requestedAt);
      }
      data := q[eid := entry];
    }

    method Cancel(eid: string, now: int) returns (cancelled: bool)
      modifies this
      ensures data == Cancelled(old(data), eid, now)
      ensures cancelled <==> old(IsPending(data, eid))
    {
      var q := Gc(data, now);
      if eid !in q || q[eid].status != Pending {
        return false;
      }
      data := q - {eid};
      return true;
    }

    method MarkKilled(eid: string, now: int) returns (marked: bool)
      modifies this
      ensures data == Marked(old(data), eid, now)
      ensures marked <==> eid in old(data)
      ensures marked ==> data[eid].status == Killed && data[eid].killedAt == Some(now)
    {
      if eid !in data {
        return false;
      }
      data := data[eid := data[eid].(status := Killed, killedAt := Some(now))];
      return true;
    }

    method AllEntries(now: int) returns (q: Queue)
      ensures q == Collected(data, now)
    {
      q := Gc(data, now);
    }
  }
}
