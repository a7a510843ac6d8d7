/**
 The kill protocol (plenith/ssh_server.py with plenith/kill_queue.py) as a state machine of
 atomic steps over a monotone clock: operator requests and cancellations, connections opening
 and going away, the shared poll tick, and the per-command fast path that consults the view
 cached at the last tick. `S` identifies a session object.

 `requested` and `kills` are history: every request ever made and every session a kill closed.
 */
module KillProtocol {
  import opened Common
  import opened KillQueue

  datatype Conn = Conn(eid: string, started: int, closed: bool, lost: bool)

  datatype Kill<S> = Kill(session: S, eid: string, requestedAt: int, at: int)

  datatype World<S> = World(
    now: int, queue: Queue, view: Queue, live: map<string, set<S>>, conns: map<S, Conn>,
    requested: set<(string, int)>, kills: seq<Kill<S>>)

  datatype Event<S> =
    | Request(eid: string, who: string, reason: string)
    | Cancel(eid: string)
    | Connect(session: S, eid: string)
    | Lose(session: S)
    | Exit(session: S)
    | Command(session: S)
    | Tick(order: seq<S>)

  // ---- Steps -----------------------------------------------------------------------------------

  /** `_apply_kill`: whether the session was killed, and the world after. */
  ghost function ApplyKill<S>(w: World<S>, s: S, entry: Option<Entry>): (World<S>, bool)
    requires s in w.conns
  {
    var c := w.conns[s];
    if c.closed || entry == None || entry.value.status != Pending then (w, false)
    else if entry.value.requestedAt < c.started then
      (w.(queue := Cancelled(w.queue, c.eid, w.now)), false)
    else
      (w.(conns := w.conns[s := c.(closed := true)],
          queue := Marked(w.queue, c.eid, w.now),
          kills := w.kills + [Kill(s, c.eid, entry.value.requestedAt, w.now)]), true)
  }

  ghost function ViewOf<S>(w: World<S>, eid: string): Option<Entry> {
    if eid in w.view then Some(w.view[eid]) else None
  }

  /** The start of a tick: one read of the queue into the pending view. */
  ghost function Refreshed<S>(w: World<S>): World<S> {
    var raw := Collected(w.queue, w.now);
    w.(view := map eid | eid in raw && raw[eid].status == Pending :: raw[eid])
  }

  ghost function ApplyAll<S>(w: World<S>, order: seq<S>): World<S>
    requires forall i :: 0 <= i < |order| ==> order[i] in w.conns
    decreases |order|
  {
    if order == [] then w
    else ApplyAll(ApplyKill(w, order[0], ViewOf(w, w.conns[order[0]].eid)).0, order[1..])
  }

  ghost predicate Registered<S>(w: World<S>, s: S) {
    s in w.conns && w.conns[s].eid in w.live && s in w.live[w.conns[s].eid]
  }

  /** `order` visits each registered session of a pending engagement, and no other session. */
  ghost predicate Visits<S>(w: World<S>, order: seq<S>) {
    && (forall i :: 0 <= i < |order| ==> Registered(w, order[i]) && IsPending(w.queue, w.conns[order[i]].eid))
    && (forall s :: s in w.conns && Registered(w, s) && IsPending(w.queue, w.conns[s].eid) ==> s in order)
  }

  ghost function Registry<S>(live: map<string, set<S>>, eid: string): set<S> {
    if eid in live then live[eid] else {}
  }

  /** When a step can be taken. Session objects are fresh, and act only while they exist. */
  ghost predicate Enabled<S>(w: World<S>, e: Event<S>) {
    match e
    case Request(_, _, _) => true
    case Cancel(_) => true
    case Connect(s, _) => s !in w.conns
    case Lose(s) => s in w.conns
    case Exit(s) => s in w.conns
    case Command(s) => s in w.conns
    case Tick(order) => Visits(w, order)
  }

  ghost function At<S>(w: World<S>, t: int): World<S> {
    w.(now := t)
  }

  /** One step, the clock already advanced. */
  ghost function Step<S>(w: World<S>, e: Event<S>): World<S>
    requires Enabled(w, e)
  {
    match e
    case Request(eid, who, reason) =>
      var q := Requested(w.queue, eid, who, reason, w.now);
      w.(queue := q, requested := w.requested + {(eid, w.now)})
    case Cancel(eid) => w.(queue := Cancelled(w.queue, eid, w.now))
    case Connect(s, eid) =>
      w.(conns := w.conns[s := Conn(eid, w.now, false, false)],
         live := w.live[eid := Registry(w.live, eid) + {s}])
    case Lose(s) =>
      var c := w.conns[s];
      var left := Registry(w.live, c.eid) - {s};
      w.(conns := w.conns[s := c.(closed := true, lost := true)],
         live := if left == {} then w.live - {c.eid} else w.live[c.eid := left])
    case Exit(s) => w.(conns := w.conns[s := w.conns[s].(closed := true)])
    case Command(s) => ApplyKill(w, s, ViewOf(w, w.conns[s].eid)).0
    case Tick(order) => ApplyAll(Refreshed(w), order)
  }

  // ---- Safety over every interleaving ------------------------------------------------------------

  /** The registry holds exactly the sessions opened and not yet lost, with no empty sets. */
  ghost predicate RegistryExact<S>(w: World<S>) {
    && (forall eid :: eid in w.live ==> w.live[eid] != {})
    && (forall eid, s :: eid in w.live && s in w.live[eid] ==>
          s in w.conns && w.conns[s].eid == eid && !w.conns[s].lost)
    && (forall s :: s in w.conns && !w.conns[s].lost ==> Registered(w, s))
  }

  /** Every recorded request time, in the queue or in the cached view, is one at which that
      engagement really was requested, and the view shows only pending entries. */
  ghost predicate RequestsReal<S>(w: World<S>) {
    && (forall eid :: eid in w.queue ==> (eid, w.queue[eid].requestedAt) in w.requested)
    && (forall eid :: eid in w.view ==> (eid, w.view[eid].requestedAt) in w.requested && w.view[eid].status == Pending)
    && (forall r :: r in w.requested ==> r.1 <= w.now)
  }

  ghost predicate Justified<S>(w: World<S>, k: Kill<S>) {
    && k.session in w.conns && w.conns[k.session].closed && w.conns[k.session].eid == k.eid
    && (k.eid, k.requestedAt) in w.requested
    && w.conns[k.session].started <= k.requestedAt <= k.at <= w.now
  }

  /** A kill closes a session at most once, and only for a request made no earlier than the
      session's connection opened. */
  ghost predicate KillsJustified<S>(w: World<S>) {
    && (forall i :: 0 <= i < |w.kills| ==> Justified(w, w.kills[i]))
    && (forall i, j :: 0 <= i < j < |w.kills| ==> w.kills[i].session != w.kills[j].session)
  }

  ghost predicate ConnsSane<S>(w: World<S>) {
    forall s :: s in w.conns ==> w.conns[s].started <= w.now && (w.conns[s].lost ==> w.conns[s].closed)
  }

  ghost predicate Inv<S>(w: World<S>) {
    RegistryExact(w) && RequestsReal(w) && KillsJustified(w) && ConnsSane(w)
  }

  ghost function Start<S>(t: int): World<S> {
    World(t, map[], map[], map[], map[], {}, [])
  }

  lemma StartInv<S>(t: int)
    ensures Inv(Start<S>(t))
  {}

  lemma AppliedRegistry<S>(w: World<S>, s: S, entry: Option<Entry>)
    requires RegistryExact(w) && s in w.conns
    ensures RegistryExact(ApplyKill(w, s, entry).0)
  {
    hide Collected;
    var w' := ApplyKill(w, s, entry).0;
    forall x | x in w'.conns && !w'.conns[x].lost ensures Registered(w', x) {
      assert Registered(w, x);
    }
  }

  lemma AppliedRequests<S>(w: World<S>, s: S, entry: Option<Entry>)
    requires RequestsReal(w) && s in w.conns
    ensures RequestsReal(ApplyKill(w, s, entry).0)
  {}

  lemma ApplyKillKeeps<S>(w: World<S>, s: S, entry: Option<Entry>)
    requires Inv(w) && s in w.conns
    requires entry.Some? ==> (w.conns[s].eid, entry.value.requestedAt) in w.requested
    ensures var (w', killed) := ApplyKill(w, s, entry);
      Inv(w') && w'.now == w.now && w'.view == w.view && w'.conns.Keys == w.conns.Keys && w'.requested == w.requested
  {
    hide RegistryExact, Collected;
    var (w', killed) := ApplyKill(w, s, entry);
    AppliedRegistry(w, s, entry);
    AppliedRequests(w, s, entry);
    forall i | 0 <= i < |w.kills| ensures Justified(w', w.kills[i]) && (killed ==> w.kills[i].session != s) {
      assert Justified(w, w.kills[i]);
    }
  }

  lemma {:induction false} ApplyAllKeeps<S>(w: World<S>, order: seq<S>)
    requires Inv(w) && forall i :: 0 <= i < |order| ==> order[i] in w.conns
    ensures Inv(ApplyAll(w, order))
    decreases |order|
  {
    if order != [] {
      var entry := ViewOf(w, w.conns[order[0]].eid);
      ApplyKillKeeps(w, order[0], entry);
      ApplyAllKeeps(ApplyKill(w, order[0], entry).0, order[1..]);
    }
  }

  lemma {:induction false} ApplyAllNow<S>(w: World<S>, order: seq<S>)
    requires forall i :: 0 <= i < |order| ==> order[i] in w.conns
    ensures ApplyAll(w, order).now == w.now
    decreases |order|
  {
    if order != [] {
      ApplyAllNow(ApplyKill(w, order[0], ViewOf(w, w.conns[order[0]].eid)).0, order[1..]);
    }
  }

  lemma {:induction false} ApplyAllSnoc<S>(w: World<S>, order: seq<S>, s: S)
    requires s in w.conns && forall i :: 0 <= i < |order| ==> order[i] in w.conns
    ensures var v := ApplyAll(w, order);
      && s in v.conns && v.conns[s].eid == w.conns[s].eid && v.view == w.view
      && ApplyAll(w, order + [s]) == ApplyKill(v, s, ViewOf(v, v.conns[s].eid)).0
    decreases |order|
  {
    if order == [] {
      assert order + [s] == [s];
    } else {
      var v := ApplyKill(w, order[0], ViewOf(w, w.conns[order[0]].eid)).0;
      ApplyAllSnoc(v, order[1..], s);
      assert (order + [s])[1..] == order[1..] + [s];
    }
  }

  ghost predicate Continues(c: Conn, d: Conn) {
    d.eid == c.eid && d.started == c.started && (c.closed ==> d.closed)
  }

  /** Steps that close no session by a kill and reopen none leave every past kill justified. */
  lemma KillsStay<S>(w: World<S>, w': World<S>)
    requires KillsJustified(w) && w'.kills == w.kills && w'.now == w.now && w.requested <= w'.requested
    requires forall s :: s in w.conns ==> s in w'.conns && Continues(w.conns[s], w'.conns[s])
    ensures KillsJustified(w')
  {
    forall i | 0 <= i < |w.kills| ensures Justified(w', w'.kills[i]) {
      assert Justified(w, w.kills[i]);
    }
  }

  lemma ConnectKeeps<S>(w: World<S>, s: S, eid: string)
    requires Inv(w) && s !in w.conns
    ensures RegistryExact(Step(w, Connect(s, eid)))
  {
    var w' := Step(w, Connect(s, eid));
    forall x | x in w'.conns && !w'.conns[x].lost ensures Registered(w', x) {
      if x != s { assert Registered(w, x); }
    }
  }

  lemma LoseKeeps<S>(w: World<S>, s: S)
    requires Inv(w) && s in w.conns
    ensures RegistryExact(Step(w, Lose(s)))
  {
    var w' := Step(w, Lose(s));
    forall x | x in w'.conns && !w'.conns[x].lost ensures Registered(w', x) {
      assert Registered(w, x);
      assert x in Registry(w.live, w.conns[x].eid) - {s};
    }
  }

  lemma AtKeeps<S>(w: World<S>, t: int)
    requires Inv(w) && w.now <= t
    ensures Inv(At(w, t))
  {
    forall i | 0 <= i < |w.kills| ensures Justified(At(w, t), w.kills[i]) {
      assert Justified(w, w.kills[i]);
    }
  }

  lemma QueueStepKeeps<S>(w: World<S>, e: Event<S>)
    requires Inv(w) && (e.Request? || e.Cancel?)
    ensures Inv(Step(w, e))
  {
    KillsStay(w, Step(w, e));
  }

  lemma SessionStepKeeps<S>(w: World<S>, e: Event<S>)
    requires Inv(w) && Enabled(w, e) && (e.Connect? || e.Lose? || e.Exit?)
    ensures Inv(Step(w, e))
  {
    KillsStay(w, Step(w, e));
    match e
    case Connect(s, eid) => ConnectKeeps(w, s, eid);
    case Lose(s) => LoseKeeps(w, s);
    case Exit(s) => ExitKeeps(w, s);
  }

  lemma ExitKeeps<S>(w: World<S>, s: S)
    requires Inv(w) && s in w.conns
    ensures RegistryExact(Step(w, Exit(s)))
  {
    var w' := Step(w, Exit(s));
    forall x | x in w'.conns && !w'.conns[x].lost ensures Registered(w', x) {
      assert Registered(w, x);
    }
  }

  lemma TickKeeps<S>(w: World<S>, order: seq<S>)
    requires Inv(w) && Visits(w, order)
    ensures Inv(Step(w, Tick(order))) && Step(w, Tick(order)).now == w.now
  {
    hide Inv, Refreshed, ApplyAll;
    RefreshedKeeps(w);
    assert forall i :: 0 <= i < |order| ==> Registered(w, order[i]);
    ApplyAllKeeps(Refreshed(w), order);
    ApplyAllNow(Refreshed(w), order);
  }

  lemma RefreshedKeeps<S>(w: World<S>)
    requires Inv(w)
    ensures Inv(Refreshed(w)) && Refreshed(w).now == w.now && Refreshed(w).conns == w.conns
  {
    KillsStay(w, Refreshed(w));
    assert forall s :: s in w.conns && Registered(w, s) ==> Registered(Refreshed(w), s);
  }

  lemma StepKeeps<S>(w: World<S>, t: int, e: Event<S>)
    requires Inv(w) && w.now <= t && Enabled(At(w, t), e)
    ensures Inv(Step(At(w, t), e)) && Step(At(w, t), e).now == t
  {
    var v := At(w, t);
    AtKeeps(w, t);
    if e.Request? || e.Cancel? { QueueStepKeeps(v, e); }
    else if e.Command? { ApplyKillKeeps(v, e.session, ViewOf(v, v.conns[e.session].eid)); }
    else if e.Tick? { TickKeeps(v, e.order); }
    else { SessionStepKeeps(v, e); }
  }

  datatype Timed<S> = Timed(at: int, event: Event<S>)

  /** A run: steps taken one after another at non-decreasing times. */
  ghost predicate Possible<S>(w: World<S>, run: seq<Timed<S>>)
    decreases |run|
  {
    run == [] ||
    (w.now <= run[0].at && Enabled(At(w, run[0].at), run[0].event) &&
     Possible(Step(At(w, run[0].at), run[0].event), run[1..]))
  }

  ghost function After<S>(w: World<S>, run: seq<Timed<S>>): World<S>
    requires Possible(w, run)
    decreases |run|
  {
    if run == [] then w else After(Step(At(w, run[0].at), run[0].event), run[1..])
  }

  /** Safety of every interleaving. */
  lemma {:induction false} RunSafe<S>(w: World<S>, run: seq<Timed<S>>)
    requires Inv(w) && Possible(w, run)
    ensures Inv(After(w, run))
    decreases |run|
  {
    if run != [] {
      StepKeeps(w, run[0].at, run[0].event);
      RunSafe(Step(At(w, run[0].at), run[0].event), run[1..]);
    }
  }

  // ---- One tick ------------------------------------------------------------------------------------

  /** The session is open and the view holds a kill raised against its connection. */
  ghost predicate Hit<S>(w: World<S>, s: S)
    requires s in w.conns
  {
    var c := w.conns[s];
    !c.closed && IsPending(w.view, c.eid) && c.started <= w.view[c.eid].requestedAt
  }

  /** The dispatch loop touches an engagement's queue entry exactly when it meets an open session
      of it under a pending view entry. */
  ghost predicate Touched<S>(w: World<S>, order: seq<S>, eid: string)
    requires forall i :: 0 <= i < |order| ==> order[i] in w.conns
  {
    IsPending(w.view, eid) && exists i :: 0 <= i < |order| && w.conns[order[i]].eid == eid && !w.conns[order[i]].closed
  }

  lemma ApplyKillEffect<S>(w: World<S>, s: S, x: S, eid: string)
    requires s in w.conns && x in w.conns
    ensures var v := ApplyKill(w, s, ViewOf(w, w.conns[s].eid)).0;
      var touched := IsPending(w.view, w.conns[s].eid) && !w.conns[s].closed;
      && v.view == w.view && v.conns.Keys == w.conns.Keys
      && v.conns[x] == w.conns[x].(closed := w.conns[x].closed || (x == s && Hit(w, s)))
      && (IsPending(v.queue, eid) <==> IsPending(w.queue, eid) && !(touched && eid == w.conns[s].eid))
      && (IsPending(v.queue, eid) ==> v.queue[eid] == w.queue[eid])
  {}

  lemma TouchedStep<S>(w: World<S>, order: seq<S>, eid: string)
    requires order != [] && forall i :: 0 <= i < |order| ==> order[i] in w.conns
    ensures var c := w.conns[order[0]];
      var v := ApplyKill(w, order[0], ViewOf(w, c.eid)).0;
      && v.view == w.view && v.conns.Keys == w.conns.Keys
      && (Touched(w, order, eid) <==>
            (IsPending(w.view, eid) && c.eid == eid && !c.closed) || Touched(v, order[1..], eid))
  {
    hide ApplyKill;
    var s, c, rest := order[0], w.conns[order[0]], order[1..];
    var v := ApplyKill(w, s, ViewOf(w, c.eid)).0;
    assert forall i :: 0 <= i < |rest| ==> rest[i] == order[i + 1];
    forall x | x in w.conns
      ensures v.view == w.view && v.conns.Keys == w.conns.Keys && v.conns[x].eid == w.conns[x].eid
      ensures v.conns[x].closed <==> w.conns[x].closed || (x == s && Hit(w, s))
    {
      ApplyKillEffect(w, s, x, eid);
    }
    if Touched(w, order, eid) && !(c.eid == eid && !c.closed) {
      var i :| 0 <= i < |order| && w.conns[order[i]].eid == eid && !w.conns[order[i]].closed;
      assert rest[i - 1] == order[i];
    }
    if Touched(v, rest, eid) {
      var i :| 0 <= i < |rest| && v.conns[rest[i]].eid == eid && !v.conns[rest[i]].closed;
      assert order[i + 1] == rest[i];
    }
  }

  /** What the dispatch loop does to one session and one engagement, whatever the order. */
  lemma {:induction false} ApplyAllEffect<S>(w: World<S>, order: seq<S>, x: S, eid: string)
    requires x in w.conns && forall i :: 0 <= i < |order| ==> order[i] in w.conns
    ensures var v := ApplyAll(w, order);
      && x in v.conns && v.conns[x] == w.conns[x].(closed := w.conns[x].closed || (x in order && Hit(w, x)))
      && (IsPending(v.queue, eid) <==> IsPending(w.queue, eid) && !Touched(w, order, eid))
      && (IsPending(v.queue, eid) ==> v.queue[eid] == w.queue[eid])
    decreases |order|
  {
    if order != [] {
      var s := order[0];
      var v := ApplyKill(w, s, ViewOf(w, w.conns[s].eid)).0;
      ApplyKillEffect(w, s, x, eid);
      ApplyAllEffect(v, order[1..], x, eid);
      TouchedStep(w, order, eid);
    }
  }

  lemma TickStart<S>(w: World<S>, order: seq<S>)
    requires Visits(w, order)
    ensures var r := Refreshed(w);
      && (forall i :: 0 <= i < |order| ==> order[i] in w.conns)
      && (forall e :: IsPending(r.view, e) <==> IsPending(w.queue, e))
      && (forall e :: IsPending(w.queue, e) ==> r.view[e] == w.queue[e])
      && r.conns == w.conns && r.queue == w.queue
  {
    assert forall i :: 0 <= i < |order| ==> Registered(w, order[i]);
  }

  ghost predicate HasOpen<S>(w: World<S>, eid: string) {
    exists x :: x in w.conns && w.conns[x].eid == eid && Registered(w, x) && !w.conns[x].closed
  }

  lemma TouchedIffOpen<S>(w: World<S>, order: seq<S>, eid: string)
    requires Visits(w, order) && forall i :: 0 <= i < |order| ==> order[i] in w.conns
    ensures Touched(Refreshed(w), order, eid) <==> IsPending(w.queue, eid) && HasOpen(w, eid)
  {
    var r := Refreshed(w);
    TickStart(w, order);
    if IsPending(w.queue, eid) && HasOpen(w, eid) {
      var x :| x in w.conns && w.conns[x].eid == eid && Registered(w, x) && !w.conns[x].closed;
      assert x in order;
      var i :| 0 <= i < |order| && order[i] == x;
      assert r.conns[order[i]].eid == eid;
    }
    if Touched(r, order, eid) {
      var i :| 0 <= i < |order| && r.conns[order[i]].eid == eid && !r.conns[order[i]].closed;
      assert Registered(w, order[i]);
    }
  }

  /** One poll tick closes exactly the open registered sessions of a pending engagement whose
      connection is no newer than the request, in whatever order they are visited; it leaves no
      engagement pending that had an open registered session, and every other pending request
      exactly as it was. */
  lemma TickExact<S>(w: World<S>, order: seq<S>, s: S, eid: string)
    requires Inv(w) && Visits(w, order) && s in w.conns
    ensures var v, c := Step(w, Tick(order)), w.conns[s];
      && s in v.conns
      && (v.conns[s].closed <==>
            c.closed || (Registered(w, s) && IsPending(w.queue, c.eid) && c.started <= w.queue[c.eid].requestedAt))
      && (IsPending(v.queue, eid) <==> IsPending(w.queue, eid) && !HasOpen(w, eid))
      && (IsPending(v.queue, eid) ==> v.queue[eid] == w.queue[eid])
  {
    hide Inv, Refreshed, ApplyAll, Touched, HasOpen, Collected;
    TickStart(w, order);
    TouchedIffOpen(w, order, eid);
    ApplyAllEffect(Refreshed(w), order, s, eid);
    if s in order { assert Registered(w, s); }
  }

  // ---- What a tick leaves on record --------------------------------------------------------------

  /** The first visited session of the engagement that is still open, if there is one. */
  ghost function FirstOpen<S>(w: World<S>, order: seq<S>, eid: string): (i: nat)
    requires forall i :: 0 <= i < |order| ==> order[i] in w.conns
    ensures i <= |order|
    ensures i < |order| ==> w.conns[order[i]].eid == eid && !w.conns[order[i]].closed
    ensures forall j :: 0 <= j < i ==> w.conns[order[j]].eid != eid || w.conns[order[j]].closed
    decreases |order|
  {
    if order == [] || (w.conns[order[0]].eid == eid && !w.conns[order[0]].closed) then 0
    else 1 + FirstOpen(w, order[1..], eid)
  }

  /** An entry that is killed at this time, or gone, stays so for the rest of the dispatch. */
  lemma {:induction false} RecordStays<S>(w: World<S>, order: seq<S>, eid: string)
    requires forall i :: 0 <= i < |order| ==> order[i] in w.conns
    requires eid in w.queue ==> w.queue[eid].status == Killed && w.queue[eid].killedAt == Some(w.now)
    ensures var v := ApplyAll(w, order);
      (eid in v.queue <==> eid in w.queue) && (eid in w.queue ==> v.queue[eid] == w.queue[eid])
    decreases |order|
  {
    if order != [] {
      RecordStays(ApplyKill(w, order[0], ViewOf(w, w.conns[order[0]].eid)).0, order[1..], eid);
    }
  }

  lemma {:induction false} FirstOpenSame<S>(w: World<S>, v: World<S>, order: seq<S>, eid: string)
    requires forall i :: 0 <= i < |order| ==> order[i] in w.conns && order[i] in v.conns
    requires forall s :: s in w.conns && s in v.conns && w.conns[s].eid == eid ==> v.conns[s] == w.conns[s]
    requires forall s :: s in w.conns && s in v.conns ==> v.conns[s].eid == w.conns[s].eid
    ensures FirstOpen(v, order, eid) == FirstOpen(w, order, eid)
    decreases |order|
  {
    if order != [] {
      FirstOpenSame(w, v, order[1..], eid);
    }
  }

  lemma OtherApplied<S>(w: World<S>, s: S, eid: string)
    requires s in w.conns && eid in w.queue && w.queue[eid].status == Pending
    requires w.conns[s].eid != eid || w.conns[s].closed
    ensures var v := ApplyKill(w, s, ViewOf(w, w.conns[s].eid)).0;
      && v.view == w.view && v.now == w.now && v.conns.Keys == w.conns.Keys
      && eid in v.queue && v.queue[eid] == w.queue[eid]
      && forall x :: x in w.conns ==>
           v.conns[x].eid == w.conns[x].eid && (w.conns[x].eid == eid ==> v.conns[x] == w.conns[x])
  {}

  lemma {:induction false} ApplyAllRecord<S>(w: World<S>, order: seq<S>, eid: string)
    requires forall i :: 0 <= i < |order| ==> order[i] in w.conns
    requires IsPending(w.view, eid) && IsPending(w.queue, eid)
    ensures var v, i := ApplyAll(w, order), FirstOpen(w, order, eid);
      if i == |order| then eid in v.queue && v.queue[eid] == w.queue[eid]
      else if w.view[eid].requestedAt < w.conns[order[i]].started then eid !in v.queue
      else eid in v.queue && v.queue[eid] == w.queue[eid].(status := Killed, killedAt := Some(w.now))
    decreases |order|
  {
    if order != [] {
      var s := order[0];
      var v := ApplyKill(w, s, ViewOf(w, w.conns[s].eid)).0;
      if w.conns[s].eid == eid && !w.conns[s].closed {
        RecordStays(v, order[1..], eid);
      } else {
        hide ApplyKill;
        OtherApplied(w, s, eid);
        FirstOpenSame(w, v, order[1..], eid);
        ApplyAllRecord(v, order[1..], eid);
        assert forall j :: 0 <= j < |order| - 1 ==> order[1..][j] == order[j + 1];
      }
    }
  }

  /** What a tick leaves of a pending request depends on the first open session it visits: if the
      request reaches that one it is on record as killed now, and otherwise it is gone without a
      record, even when it goes on to kill other sessions of the engagement. */
  lemma TickRecord<S>(w: World<S>, order: seq<S>, eid: string)
    requires Visits(w, order) && IsPending(w.queue, eid)
    ensures (forall i :: 0 <= i < |order| ==> order[i] in w.conns)
    ensures var v, i := Step(w, Tick(order)), FirstOpen(w, order, eid);
      if i == |order| then eid in v.queue && v.queue[eid] == w.queue[eid]
      else if w.queue[eid].requestedAt < w.conns[order[i]].started then eid !in v.queue
      else eid in v.queue && v.queue[eid] == w.queue[eid].(status := Killed, killedAt := Some(w.now))
  {
    hide ApplyAll, Refreshed, FirstOpen;
    TickStart(w, order);
    ApplyAllRecord(Refreshed(w), order, eid);
    FirstOpenSame(w, Refreshed(w), order, eid);
    RefreshedNow(w);
  }

  lemma RefreshedNow<S>(w: World<S>)
    ensures Refreshed(w).now == w.now
  {}

  // ---- What liveness depends on ----------------------------------------------------------------------

  /** An operator's request followed by a tick kills an open registered session unless an older
      request for the engagement was still pending from before the connection: a repeated request
      keeps the old time. */
  lemma RequestThenTickIff<S>(w: World<S>, t: int, u: int, who: string, reason: string, order: seq<S>, s: S)
    requires Inv(w) && w.now <= t <= u && Registered(w, s) && !w.conns[s].closed
    requires Visits(At(Step(At(w, t), Request(w.conns[s].eid, who, reason)), u), order)
    ensures var v := Step(At(Step(At(w, t), Request(w.conns[s].eid, who, reason)), u), Tick(order));
      var eid := w.conns[s].eid;
      && s in v.conns
      && (v.conns[s].closed <==> !(IsPending(w.queue, eid) && w.queue[eid].requestedAt < w.conns[s].started))
      && !IsPending(v.queue, eid)
  {
    var eid := w.conns[s].eid;
    var r := Step(At(w, t), Request(eid, who, reason));
    StepKeeps(w, t, Request(eid, who, reason));
    AtKeeps(r, u);
    assert Registered(At(r, u), s);
    TickExact(At(r, u), order, s, eid);
  }

  ghost predicate OnlyCommands<S>(run: seq<Timed<S>>) {
    forall i :: 0 <= i < |run| ==> run[i].event.Command?
  }

  /** The sessions that ran the commands of a run, in order. */
  ghost function Commanders<S>(run: seq<Timed<S>>): (order: seq<S>)
    requires OnlyCommands(run)
    ensures |order| == |run| && forall i :: 0 <= i < |run| ==> order[i] == run[i].event.session
  {
    seq(|run|, i requires 0 <= i < |run| => run[i].event.session)
  }

  /** Commands between two ticks act on one session and one engagement as a dispatch over the
      sessions that run them would, whatever the times. */
  lemma {:induction false} CommandsEffect<S>(w: World<S>, run: seq<Timed<S>>, x: S, eid: string)
    requires OnlyCommands(run) && Possible(w, run) && x in w.conns
    ensures var v, order := After(w, run), Commanders(run);
      && (forall i :: 0 <= i < |order| ==> order[i] in w.conns)
      && v.view == w.view && v.live == w.live && v.conns.Keys == w.conns.Keys
      && v.conns[x] == w.conns[x].(closed := w.conns[x].closed || (x in order && Hit(w, x)))
      && (IsPending(v.queue, eid) <==> IsPending(w.queue, eid) && !Touched(w, order, eid))
      && (IsPending(v.queue, eid) ==> v.queue[eid] == w.queue[eid])
    decreases |run|
  {
    if run != [] {
      hide Inv, Collected, Cancelled, Marked;
      var s, a := run[0].event.session, At(w, run[0].at);
      var v := Step(a, run[0].event);
      CommandStep(a, s, x, eid);
      CommandsEffect(v, run[1..], x, eid);
      assert Commanders(run)[1..] == Commanders(run[1..]);
      assert forall i :: 1 <= i < |run| ==> Commanders(run)[i] == Commanders(run)[1..][i - 1];
      TouchedStep(a, Commanders(run), eid);
      assert Touched(a, Commanders(run), eid) == Touched(w, Commanders(run), eid);
    }
  }

  lemma CommandStep<S>(w: World<S>, s: S, x: S, eid: string)
    requires s in w.conns && x in w.conns
    ensures var v := Step(w, Command(s));
      var touched := IsPending(w.view, w.conns[s].eid) && !w.conns[s].closed;
      && v == ApplyKill(w, s, ViewOf(w, w.conns[s].eid)).0 && v.live == w.live
      && v.view == w.view && v.conns.Keys == w.conns.Keys
      && v.conns[x] == w.conns[x].(closed := w.conns[x].closed || (x == s && Hit(w, s)))
      && (IsPending(v.queue, eid) <==> IsPending(w.queue, eid) && !(touched && eid == w.conns[s].eid))
      && (IsPending(v.queue, eid) ==> v.queue[eid] == w.queue[eid])
  {
    ApplyKillEffect(w, s, x, eid);
  }

  /** A request, then commands of any sessions at any times, then a tick. The session ends closed
      exactly when the cached entry reached it at a command of its own, or when no open session of
      the engagement ran a command while the view held an entry, so that the request was still
      there, and the request's time reaches its connection. A session killed by the cached entry
      uses up the new request for all the others. */
  lemma RequestCommandsTickIff<S>(w: World<S>, t: int, who: string, reason: string, run: seq<Timed<S>>, u: int,
                                  order: seq<S>, s: S)
    requires Inv(w) && w.now <= t && Registered(w, s) && !w.conns[s].closed
    requires var r := Step(At(w, t), Request(w.conns[s].eid, who, reason));
      OnlyCommands(run) && Possible(r, run) && After(r, run).now <= u && Visits(At(After(r, run), u), order)
    ensures var r := Step(At(w, t), Request(w.conns[s].eid, who, reason));
      var v := Step(At(After(r, run), u), Tick(order));
      var eid := w.conns[s].eid;
      && s in v.conns && (forall x :: x in Commanders(run) ==> x in w.conns)
      && (v.conns[s].closed <==>
            || (s in Commanders(run) && eid in w.view && w.conns[s].started <= w.view[eid].requestedAt)
            || (!(eid in w.view && exists x :: x in Commanders(run) && w.conns[x].eid == eid && !w.conns[x].closed)
                && !(IsPending(w.queue, eid) && w.queue[eid].requestedAt < w.conns[s].started)))
      && !IsPending(v.queue, eid)
  {
    hide Inv, Possible, After, Touched, Requested, Refreshed, ApplyAll;
    var eid, cmds := w.conns[s].eid, Commanders(run);
    var r := Step(At(w, t), Request(eid, who, reason));
    StepKeeps(w, t, Request(eid, who, reason));
    RequestFacts(w, t, who, reason, s);
    RunSafe(r, run);
    CommandsEffect(r, run, s, eid);
    var a := After(r, run);
    AtKeeps(a, u);
    TickExact(At(a, u), order, s, eid);
    assert Registered(At(a, u), s);
    assert Touched(r, cmds, eid) <==>
      eid in w.view && exists x :: x in cmds && w.conns[x].eid == eid && !w.conns[x].closed by {
      TouchedByMember(r, cmds, eid);
    }
    assert !a.conns[s].closed ==> HasOpen(At(a, u), eid);
  }

  lemma RequestFacts<S>(w: World<S>, t: int, who: string, reason: string, s: S)
    requires Inv(w) && w.now <= t && s in w.conns
    ensures var eid := w.conns[s].eid;
      var r := Step(At(w, t), Request(eid, who, reason));
      && r.view == w.view && r.conns == w.conns && r.live == w.live && IsPending(r.queue, eid)
      && (w.conns[s].started <= r.queue[eid].requestedAt <==>
            !(IsPending(w.queue, eid) && w.queue[eid].requestedAt < w.conns[s].started))
      && (eid in w.view <==> IsPending(w.view, eid))
  {}

  lemma TouchedByMember<S>(w: World<S>, order: seq<S>, eid: string)
    requires forall i :: 0 <= i < |order| ==> order[i] in w.conns
    ensures Touched(w, order, eid) <==>
      IsPending(w.view, eid) && exists x :: x in order && w.conns[x].eid == eid && !w.conns[x].closed
  {
    if Touched(w, order, eid) {
      var i :| 0 <= i < |order| && w.conns[order[i]].eid == eid && !w.conns[order[i]].closed;
      assert order[i] in order;
    }
  }

  /** The fast path acts on the view of the last tick. For an open session it kills, cancels
      whatever is pending by now, or does nothing, as that view entry is at least as new as the
      connection, older, or absent. */
  lemma FastPathOutcome<S>(w: World<S>, s: S)
    requires Inv(w) && s in w.conns && !w.conns[s].closed
    ensures var v, c := Step(w, Command(s)), w.conns[s];
      && (v.conns[s].closed <==> c.eid in w.view && c.started <= w.view[c.eid].requestedAt)
      && (IsPending(v.queue, c.eid) <==> IsPending(w.queue, c.eid) && c.eid !in w.view)
      && (v.queue != w.queue && !v.conns[s].closed ==>
            c.eid in w.view && w.view[c.eid].requestedAt < c.started && v.queue == Collected(w.queue, w.now) - {c.eid})
  {}

  /** So a request raised after the connection opened can be lost: requested before the
      connection, cached by a tick, withdrawn, requested again, and then dropped by the session's
      own next command because of the cached entry. */
  lemma NewerRequestLost<S>(s: S, eid: string, who: string, reason: string)
    ensures
      var w1 := Step(At(Start<S>(0), 1), Request(eid, who, reason));
      var w2 := Step(At(w1, 2), Tick([]));
      var w3 := Step(At(w2, 3), Connect(s, eid));
      var w4 := Step(At(w3, 4), Cancel(eid));
      var w5 := Step(At(w4, 5), Request(eid, who, reason));
      var w6 := Step(At(w5, 6), Command(s));
      && Visits(At(w1, 2), []) && s !in w2.conns && s in w5.conns
      && w5.queue[eid] == Entry(5, w5.queue[eid].requestedBy, reason, Pending, None) && w5.conns[s].started == 3
      && !w6.conns[s].closed && !IsPending(w6.queue, eid)
  {
    var w1 := Step(At(Start<S>(0), 1), Request(eid, who, reason));
    var w2 := Step(At(w1, 2), Tick([]));
    assert w2.view[eid].requestedAt == 1 && w2.conns == map[];
    var w4 := Step(At(Step(At(w2, 3), Connect(s, eid)), 4), Cancel(eid));
    assert !IsPending(w4.queue, eid) && w4.view == w2.view;
  }
}
