/**
 The server side of the kill protocol as the source's objects (plenith/ssh_server.py): session
 objects that close, and the process-wide registry and pending view that callbacks and the poller
 change. Every method is proved to take exactly one step of `KillProtocol`, whose invariant every
 step keeps.
 */
module KillServer {
  import opened Common
  import opened KillQueue
  import opened KillProtocol

  /** One physical connection; construction stands for `connection_made`. */
  class HoneypotSession {
    const eid: string
    const connStarted: int
    var closed: bool
    ghost var lost: bool

    constructor (eid: string, now: int)
      ensures this.eid == eid && connStarted == now && !closed && !lost
    {
      this.eid, connStarted, closed, lost := eid, now, false, false;
    }
  }

  class Server {
    const queue: KillRequestQueue
    var live: map<string, set<HoneypotSession>>
    var view: Queue

    ghost var known: set<HoneypotSession>
    ghost var now: int
    ghost var requested: set<(string, int)>
    ghost var kills: seq<Kill<HoneypotSession>>

    ghost function Conns(): map<HoneypotSession, Conn>
      reads this`known, known
    {
      map s | s in known :: Conn(s.eid, s.connStarted, s.closed, s.lost)
    }

    ghost function W(): World<HoneypotSession>
      reads this, queue, known
    {
      World(now, queue.data, view, live, Conns(), requested, kills)
    }

    constructor (t: int)
      ensures W() == Start(t) && fresh(queue) && known == {}
    {
      queue := new KillRequestQueue();
      live, view, known, now, requested, kills := map[], map[], {}, t, {}, [];
      new;
      assert Conns() == map[];
    }

    method RequestKill(eid: string, who: string, reason: string, t: int)
      requires now <= t
      modifies this, queue
      ensures known == old(known) && W() == Step(At(old(W()), t), Request(eid, who, reason))
    {
      var entry := queue.RequestKill(eid, who, reason, t);
      now, requested := t, requested + {(eid, t)};
    }

    method CancelKill(eid: string, t: int)
      requires now <= t
      modifies this, queue
      ensures known == old(known) && W() == Step(At(old(W()), t), Cancel(eid))
    {
      var cancelled := queue.Cancel(eid, t);
      now := t;
    }

    method ConnectionMade(eid: string, t: int) returns (s: HoneypotSession)
      requires now <= t
      modifies this
      ensures fresh(s) && known == old(known) + {s}
      ensures s !in old(known) && W() == Step(At(old(W()), t), Connect(s, eid))
    {
      ghost var before := W();
      s := new HoneypotSession(eid, t);
      assert s !in known;
      live := live[eid := (if eid in live then live[eid] else {}) + {s}];
      known, now := known + {s}, t;
      assert Conns() == before.conns[s := Conn(eid, t, false, false)];
    }

    method ConnectionLost(s: HoneypotSession, t: int)
      requires now <= t && s in known
      modifies this, s
      ensures known == old(known) && W() == Step(At(old(W()), t), Lose(s))
    {
      ghost var before := W();
      s.closed := true;
      Deregister(s);
      s.lost, now := true, t;
      assert Conns() == before.conns[s := before.conns[s].(closed := true, lost := true)];
    }

    /** Takes a session out of the registry, leaving no empty set behind. */
    method Deregister(s: HoneypotSession)
      modifies this`live
      ensures var left := Registry(old(live), s.eid) - {s};
        live == if left == {} then old(live) - {s.eid} else old(live)[s.eid := left]
    {
      if s.eid in live {
        var left := live[s.eid] - {s};
        live := live[s.eid := left];
        if left == {} {
          live := live - {s.eid};
        }
      }
    }

    method Exit(s: HoneypotSession, t: int)
      requires now <= t && s in known
      modifies this, s
      ensures known == old(known) && W() == Step(At(old(W()), t), Event.Exit(s))
    {
      ghost var before := W();
      s.closed, now := true, t;
      assert Conns() == before.conns[s := before.conns[s].(closed := true)];
    }

    method ApplyKill(s: HoneypotSession, entry: Option<Entry>, t: int) returns (killed: bool)
      requires s in known && t == now
      modifies this`kills, queue, s`closed
      ensures (W(), killed) == KillProtocol.ApplyKill(old(W()), s, entry)
    {
      ghost var before := W();
      if s.closed {
        return false;
      }
      if entry == None || entry.value.status != Pending {
        return false;
      }
      if entry.value.requestedAt < s.connStarted {
        var cancelled := queue.Cancel(s.eid, t);
        assert Conns() == before.conns;
        return false;
      }
      s.closed := true;
      var marked := queue.MarkKilled(s.eid, t);
      kills := kills + [Kill(s, s.eid, entry.value.requestedAt, t)];
      assert Conns() == before.conns[s := before.conns[s].(closed := true)];
      return true;
    }

    /** The per-command fast path. */
    method RunCommand(s: HoneypotSession, t: int) returns (killed: bool)
      requires now <= t && s in known
      modifies this, queue, s
      ensures known == old(known) && W() == Step(At(old(W()), t), Command(s))
    {
      now := t;
      if s.closed || s.eid !in view {
        return false;
      }
      killed := ApplyKill(s, Some(view[s.eid]), t);
    }

    /** In the middle of a poll that started in `start`, having visited `order`. */
    ghost predicate During(start: World<HoneypotSession>, order: seq<HoneypotSession>)
      reads this, queue, known
    {
      && start.now == now && start.view == view && start.live == live && start.conns.Keys == known
      && (forall eid, s :: eid in live && s in live[eid] ==> s in known && s.eid == eid)
      && (forall s :: s in known ==> start.conns[s].eid == s.eid)
      && (forall i :: 0 <= i < |order| ==> order[i] in start.conns)
      && W() == ApplyAll(start, order)
    }

    /** One session of the inner loop of a poll. */
    method Visit(s: HoneypotSession, t: int, ghost start: World<HoneypotSession>, ghost order: seq<HoneypotSession>)
      requires t == now && s in known && s.eid in view && During(start, order)
      modifies this`kills, queue, known`closed
      ensures During(start, order + [s])
    {
      hide ApplyAll, KillProtocol.ApplyKill, Collected, Cancelled, Marked, Registry;
      ApplyAllSnoc(start, order, s);
      var killed := ApplyKill(s, Some(view[s.eid]), t);
    }

    /** The inner loop: one engagement's sessions, in any order, after `done`. */
    method Dispatch(eid: string, t: int, ghost start: World<HoneypotSession>, ghost done: seq<HoneypotSession>)
      returns (ghost order: seq<HoneypotSession>)
      requires t == now && eid in view && During(start, done)
      modifies this`kills, queue, known`closed
      ensures During(start, order)
      ensures forall x :: x in order <==> x in done || x in Registry(live, eid)
    {
      order := done;
      var sessions := if eid in live then live[eid] else {};
      while sessions != {}
        invariant sessions <= Registry(live, eid)
        invariant During(start, order)
        invariant forall x :: x in order <==> x in done || (x in Registry(live, eid) && x !in sessions)
        decreases |sessions|
      {
        var s :| s in sessions;
        sessions := sessions - {s};
        Visit(s, t, start, order);
        order := order + [s];
      }
    }

    /** The outer loop: every engagement in the view, in any order. */
    method DispatchAll(t: int, ghost start: World<HoneypotSession>) returns (ghost order: seq<HoneypotSession>)
      requires t == now && During(start, [])
      modifies this`kills, queue, known`closed
      ensures During(start, order)
      ensures forall x :: x in order <==> Due(start, x)
    {
      order := [];
      var todo := view.Keys;
      while todo != {}
        invariant todo <= view.Keys
        invariant During(start, order)
        invariant forall x :: x in order <==> Due(start, x) && start.conns[x].eid !in todo
        decreases |todo|
      {
        var eid :| eid in todo;
        todo := todo - {eid};
        order := Dispatch(eid, t, start, order);
      }
    }

    /** The start of a poll: the queue is read once and its pending entries become the view. */
    method RefreshView(t: int)
      modifies this`now, this`view
      ensures W() == Refreshed(At(old(W()), t))
    {
      var raw := queue.AllEntries(t);
      now := t;
      view := map eid | eid in raw && raw[eid].status == Pending :: raw[eid];
    }

    lemma RegistryKnown()
      requires RegistryExact(W())
      ensures forall eid, s :: eid in live && s in live[eid] ==> s in known && s.eid == eid
    {
      forall eid, s | eid in live && s in live[eid] ensures s in known && s.eid == eid {
        assert s in W().live[eid] && s in W().conns;
        assert W().conns[s].eid == eid;
      }
    }

    /** `_kill_poll_once`; the order in which sets are iterated is arbitrary. */
    method PollOnce(t: int) returns (ghost order: seq<HoneypotSession>)
      requires now <= t && RegistryExact(W())
      modifies this`now, this`view, this`kills, queue, known`closed
      ensures Visits(At(old(W()), t), order)
      ensures W() == Step(At(old(W()), t), Tick(order))
    {
      hide RegistryExact, Collected;
      ghost var before := At(W(), t);
      RegistryKnown();
      RefreshView(t);
      order := DispatchAll(t, W());
      VisitsAll(before, order);
    }
  }

  /** The session is registered under an engagement in the view. */
  ghost predicate Due<S>(w: World<S>, s: S) {
    s in w.conns && s in Registry(w.live, w.conns[s].eid) && w.conns[s].eid in w.view
  }

  lemma VisitsAll<S>(w: World<S>, order: seq<S>)
    requires forall x :: x in order <==> Due(Refreshed(w), x)
    ensures Visits(w, order)
  {
    assert forall e :: e in Refreshed(w).view <==> IsPending(w.queue, e);
    forall i | 0 <= i < |order| ensures Registered(w, order[i]) && IsPending(w.queue, w.conns[order[i]].eid) {
      assert order[i] in order;
    }
  }
}
