/**
 Everything that can happen between two poll ticks (plenith/ssh_server.py, plenith/kill_queue.py):
 what is left of a kill request by the time the next tick comes.

 The view cached by the last tick stays what it was; requests, cancellations, connections, losses,
 exits and commands come in any order, of any engagement.
 */
module KillRuns {
  import opened Common
  import opened KillQueue
  import opened KillProtocol

  ghost predicate BetweenTicks<S>(run: seq<Timed<S>>) {
    forall i :: 0 <= i < |run| ==> !run[i].event.Tick?
  }

  /** The world in which the `i`-th event of a run happens. */
  ghost function Before<S>(w: World<S>, run: seq<Timed<S>>, i: nat): World<S>
    requires Possible(w, run) && i <= |run|
    decreases i
  {
    if i == 0 then w else Before(Step(At(w, run[0].at), run[0].event), run[1..], i - 1)
  }

  /** The event takes any pending request of the engagement out of the queue: an operator cancels
      it, or an open session of the engagement runs a command under a cached entry, which kills
      the session or is older than it. */
  ghost predicate Clears<S>(w: World<S>, e: Event<S>, eid: string) {
    || e == Event<S>.Cancel(eid)
    || (e.Command? && e.session in w.conns && w.conns[e.session].eid == eid && !w.conns[e.session].closed
        && IsPending(w.view, eid))
  }

  ghost predicate ClearedAt<S>(w: World<S>, run: seq<Timed<S>>, eid: string, i: nat)
    requires Possible(w, run)
  {
    i < |run| && Clears(Before(w, run, i), run[i].event, eid)
  }

  ghost predicate RequestedAt<S>(run: seq<Timed<S>>, eid: string, i: nat) {
    i < |run| && run[i].event.Request? && run[i].event.eid == eid
  }

  ghost predicate NeverCleared<S>(w: World<S>, run: seq<Timed<S>>, eid: string)
    requires Possible(w, run)
  {
    forall j: nat :: !ClearedAt(w, run, eid, j)
  }

  ghost predicate LastCall<S>(w: World<S>, run: seq<Timed<S>>, eid: string, i: nat)
    requires Possible(w, run)
  {
    RequestedAt(run, eid, i) && forall j: nat :: i < j ==> !ClearedAt(w, run, eid, j)
  }

  /** A request, pending at the start or made on the way, that nothing cleared afterwards. */
  ghost predicate Waiting<S>(w: World<S>, run: seq<Timed<S>>, eid: string)
    requires Possible(w, run)
  {
    (IsPending(w.queue, eid) && NeverCleared(w, run, eid)) || exists i: nat :: LastCall(w, run, eid, i)
  }

  /** The event closes the session: it exits, its connection is lost, or its own command meets a
      cached entry that reaches it. */
  ghost predicate Closes<S>(w: World<S>, e: Event<S>, s: S)
    requires s in w.conns
  {
    var c := w.conns[s];
    || e == Lose(s) || e == Exit(s)
    || (e == Event<S>.Command(s) && IsPending(w.view, c.eid) && c.started <= w.view[c.eid].requestedAt)
  }

  ghost predicate ClosedOnTheWay<S>(w: World<S>, run: seq<Timed<S>>, s: S)
    requires s in w.conns
  {
    exists i :: 0 <= i < |run| && Closes(w, run[i].event, s)
  }

  // ---- One step ----------------------------------------------------------------------------------

  lemma QueueStep<S>(w: World<S>, e: Event<S>, eid: string)
    requires Enabled(w, e) && !e.Tick?
    ensures var v := Step(w, e);
      && v.view == w.view && v.now == w.now
      && (IsPending(v.queue, eid) <==>
            (IsPending(w.queue, eid) && !Clears(w, e, eid)) || (e.Request? && e.eid == eid))
      && (IsPending(v.queue, eid) && IsPending(w.queue, eid) ==>
            v.queue[eid].requestedAt == w.queue[eid].requestedAt)
      && (IsPending(v.queue, eid) && !IsPending(w.queue, eid) ==> v.queue[eid].requestedAt == w.now)
  {
    if e.Command? {
      ApplyKillEffect(w, e.session, e.session, eid);
    }
  }

  lemma ConnStep<S>(w: World<S>, e: Event<S>, s: S)
    requires Enabled(w, e) && !e.Tick? && s in w.conns
    ensures var v := Step(w, e);
      && v.view == w.view && s in v.conns
      && v.conns[s].eid == w.conns[s].eid && v.conns[s].started == w.conns[s].started
      && (v.conns[s].closed <==> w.conns[s].closed || Closes(w, e, s))
  {
    if e.Command? {
      ApplyKillEffect(w, e.session, s, w.conns[s].eid);
    }
  }

  // ---- Runs ----------------------------------------------------------------------------------------

  /** Positions in a run and in the rest of it after its first event. */
  lemma ShiftedClears<S>(w: World<S>, run: seq<Timed<S>>, eid: string)
    requires run != [] && Possible(w, run)
    ensures var v := Step(At(w, run[0].at), run[0].event);
      && (ClearedAt(w, run, eid, 0) <==> Clears(w, run[0].event, eid))
      && (forall i: nat :: ClearedAt(w, run, eid, i + 1) <==> ClearedAt(v, run[1..], eid, i))
      && (NeverCleared(w, run, eid) <==> !Clears(w, run[0].event, eid) && NeverCleared(v, run[1..], eid))
  {
    hide Step, Enabled, IsPending;
    var v, rest := Step(At(w, run[0].at), run[0].event), run[1..];
    forall i: nat ensures ClearedAt(w, run, eid, i + 1) <==> ClearedAt(v, rest, eid, i) {
      if i < |rest| {
        assert Before(w, run, i + 1) == Before(v, rest, i) && run[i + 1] == rest[i];
      }
    }
    if !ClearedAt(w, run, eid, 0) && NeverCleared(v, rest, eid) {
      forall i: nat ensures !ClearedAt(w, run, eid, i) {
        if i > 0 { assert !ClearedAt(v, rest, eid, i - 1); }
      }
    }
    if NeverCleared(w, run, eid) {
      assert !ClearedAt(w, run, eid, 0);
      forall i: nat ensures !ClearedAt(v, rest, eid, i) {
        assert !ClearedAt(w, run, eid, i + 1);
      }
    }
  }

  lemma ShiftedCall<S>(w: World<S>, run: seq<Timed<S>>, eid: string, i: nat)
    requires run != [] && Possible(w, run)
    ensures var v := Step(At(w, run[0].at), run[0].event);
      && (LastCall(w, run, eid, i + 1) <==> LastCall(v, run[1..], eid, i))
      && (LastCall(w, run, eid, 0) <==> RequestedAt(run, eid, 0) && NeverCleared(v, run[1..], eid))
  {
    hide Step, Enabled, ClearedAt;
    var v, rest := Step(At(w, run[0].at), run[0].event), run[1..];
    ShiftedClears(w, run, eid);
    if LastCall(v, rest, eid, i) {
      forall j: nat | i + 1 < j ensures !ClearedAt(w, run, eid, j) {
        assert !ClearedAt(v, rest, eid, j - 1);
      }
    }
    if LastCall(w, run, eid, i + 1) {
      forall j: nat | i < j ensures !ClearedAt(v, rest, eid, j) {
        assert !ClearedAt(w, run, eid, j + 1);
      }
    }
    if LastCall(w, run, eid, 0) {
      forall j: nat ensures !ClearedAt(v, rest, eid, j) {
        assert !ClearedAt(w, run, eid, j + 1);
      }
    }
    if RequestedAt(run, eid, 0) && NeverCleared(v, rest, eid) {
      forall j: nat | 0 < j ensures !ClearedAt(w, run, eid, j) {
        assert !ClearedAt(v, rest, eid, j - 1);
      }
    }
  }

  lemma WaitingStep<S>(w: World<S>, run: seq<Timed<S>>, eid: string)
    requires run != [] && BetweenTicks(run) && Possible(w, run)
    ensures var v := Step(At(w, run[0].at), run[0].event);
      Waiting(w, run, eid) <==> Waiting(v, run[1..], eid)
  {
    hide Step, Enabled, ClearedAt, Clears, LastCall, NeverCleared, IsPending;
    var a, rest := At(w, run[0].at), run[1..];
    var v := Step(a, run[0].event);
    FirstEvent(w, run, eid);
    ShiftedClears(w, run, eid);
    ShiftedCall(w, run, eid, 0);
    if i: nat :| LastCall(w, run, eid, i) {
      if i > 0 {
        ShiftedCall(w, run, eid, i - 1);
        assert LastCall(v, rest, eid, i - 1);
      }
    }
    if i: nat :| LastCall(v, rest, eid, i) {
      ShiftedCall(w, run, eid, i);
      assert LastCall(w, run, eid, i + 1);
    }
  }

  /** What the first event of a run does to an engagement's request. */
  lemma FirstEvent<S>(w: World<S>, run: seq<Timed<S>>, eid: string)
    requires run != [] && BetweenTicks(run) && Possible(w, run)
    ensures var v := Step(At(w, run[0].at), run[0].event);
      && Possible(v, run[1..]) && BetweenTicks(run[1..])
      && v.view == w.view && w.now <= v.now
      && (IsPending(v.queue, eid) <==>
            (IsPending(w.queue, eid) && !Clears(w, run[0].event, eid)) || RequestedAt(run, eid, 0))
      && (IsPending(v.queue, eid) && IsPending(w.queue, eid) ==>
            v.queue[eid].requestedAt == w.queue[eid].requestedAt)
      && (IsPending(v.queue, eid) && !IsPending(w.queue, eid) ==> w.now <= v.queue[eid].requestedAt)
  {
    hide Step, Enabled;
    QueueStep(At(w, run[0].at), run[0].event, eid);
  }

  /** What a run leaves of an engagement's request: there is one exactly if one is waiting, with
      the time it had from the start if nothing ever cleared it, and a time within the run
      otherwise. */
  lemma {:induction false} RunQueue<S>(w: World<S>, run: seq<Timed<S>>, eid: string)
    requires BetweenTicks(run) && Possible(w, run)
    ensures var v := After(w, run);
      && v.view == w.view
      && (IsPending(v.queue, eid) <==> Waiting(w, run, eid))
      && (IsPending(w.queue, eid) && NeverCleared(w, run, eid) ==>
            IsPending(v.queue, eid) && v.queue[eid].requestedAt == w.queue[eid].requestedAt)
      && (IsPending(v.queue, eid) && !(IsPending(w.queue, eid) && NeverCleared(w, run, eid)) ==>
            w.now <= v.queue[eid].requestedAt)
    decreases |run|
  {
    if run == [] {
    } else {
      hide Clears, Step, At, Enabled, Waiting, NeverCleared, BetweenTicks;
      var v, rest := Step(At(w, run[0].at), run[0].event), run[1..];
      FirstEvent(w, run, eid);
      RunQueue(v, rest, eid);
      WaitingStep(w, run, eid);
      ShiftedClears(w, run, eid);
      RequestsKeep(w, run, eid);
    }
  }

  /** A request clears nothing. */
  lemma RequestsKeep<S>(w: World<S>, run: seq<Timed<S>>, eid: string)
    requires run != []
    ensures RequestedAt(run, eid, 0) ==> !Clears(w, run[0].event, eid)
  {}

  lemma {:induction false} RunConn<S>(w: World<S>, run: seq<Timed<S>>, s: S)
    requires BetweenTicks(run) && Possible(w, run) && s in w.conns
    ensures var v := After(w, run);
      && s in v.conns && v.conns[s].eid == w.conns[s].eid && v.conns[s].started == w.conns[s].started
      && (v.conns[s].closed <==> w.conns[s].closed || ClosedOnTheWay(w, run, s))
    decreases |run|
  {
    if run != [] {
      var a, rest := At(w, run[0].at), run[1..];
      var v := Step(a, run[0].event);
      ConnStep(a, run[0].event, s);
      hide Step;
      RunConn(v, rest, s);
      assert ClosedOnTheWay(w, run, s) <==> Closes(w, run[0].event, s) || ClosedOnTheWay(v, rest, s) by {
        assert forall i :: 0 <= i < |rest| ==> rest[i] == run[i + 1];
        assert forall e :: Closes(v, e, s) == Closes(w, e, s);
        if ClosedOnTheWay(w, run, s) && !Closes(w, run[0].event, s) {
          var i :| 0 <= i < |run| && Closes(w, run[i].event, s);
          assert rest[i - 1] == run[i];
        }
        if ClosedOnTheWay(v, rest, s) {
          var i :| 0 <= i < |rest| && Closes(v, rest[i].event, s);
          assert Closes(w, run[i + 1].event, s);
        }
      }
    }
  }

  /** A request, then anything but a tick, then a tick. The session ends closed exactly when an
      event on the way closed it, or when a request is still waiting at the tick and is not one
      that was pending from before the connection and never cleared: a repeated request keeps
      the old time, and a cleared one does not come back. A session that survives has used up the
      request. */
  lemma RequestRunTickIff<S>(w: World<S>, t: int, who: string, reason: string, run: seq<Timed<S>>, u: int,
                             order: seq<S>, s: S)
    requires Inv(w) && w.now <= t && Registered(w, s) && !w.conns[s].closed
    requires var r := Step(At(w, t), Request(w.conns[s].eid, who, reason));
      BetweenTicks(run) && Possible(r, run) && After(r, run).now <= u && Visits(At(After(r, run), u), order)
    ensures var r := Step(At(w, t), Request(w.conns[s].eid, who, reason));
      var v, eid := Step(At(After(r, run), u), Tick(order)), w.conns[s].eid;
      && s in r.conns && s in v.conns
      && (v.conns[s].closed <==>
            || ClosedOnTheWay(r, run, s)
            || (Waiting(r, run, eid)
                && !(NeverCleared(r, run, eid) && IsPending(w.queue, eid)
                     && w.queue[eid].requestedAt < w.conns[s].started)))
      && (!v.conns[s].closed ==> !IsPending(v.queue, eid))
  {
    hide Inv, Possible, After, Waiting, NeverCleared, ClosedOnTheWay, Requested, Refreshed, ApplyAll, BetweenTicks;
    var eid := w.conns[s].eid;
    var r := Step(At(w, t), Request(eid, who, reason));
    StepKeeps(w, t, Request(eid, who, reason));
    RequestFacts(w, t, who, reason, s);
    RunSafe(r, run);
    RunQueue(r, run, eid);
    RunConn(r, run, s);
    var a := After(r, run);
    AtKeeps(a, u);
    TickExact(At(a, u), order, s, eid);
    StillRegistered(w, At(a, u), s);
  }

  lemma StillRegistered<S>(w: World<S>, a: World<S>, s: S)
    requires Inv(w) && Inv(a) && s in w.conns && s in a.conns && a.conns[s].eid == w.conns[s].eid
    ensures !a.conns[s].closed ==> Registered(a, s) && HasOpen(a, a.conns[s].eid)
    ensures w.conns[s].started <= w.now
  {}
}
