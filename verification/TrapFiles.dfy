/**
 Decoys that carry the counter-AI trap (`plant_decoy` in plenith/session.py, `maybe_inject_trap` in
 plenith/counter_ai.py): the filesystem and the detector of one engagement, together.

 A planted decoy is a file with a renderer that captured its clean body and adds the bait at each
 read if the trap is armed by then. A reconnect keeps the files and the detector, and no renderer
 of a decoy.
 */
module TrapFiles {
  import opened Common
  import opened Vfs
  import opened CounterAi
  import Paths

  /** What a decoy's renderer has captured. */
  datatype Trap = Trap(content: string, kind: Kind)

  datatype World = World(files: Vfs.State, detector: Option<CounterAi.State>, traps: map<Renderer, Trap>)

  /** `id` names the renderer that planting creates; `again` is what a new session registers. */
  datatype Event =
    | Ran(command: CounterAi.Command)
    | Plant(path: string, content: string, kind: Kind, id: Renderer)
    | File(op: Op)
    | Reopen(again: map<string, Renderer>)

  /** What renderers yield: a decoy's its body, with the bait or without, any other what `env` says. */
  function Rendered(w: World, env: Env): Env {
    r => if r in w.traps then Some(Injected(w.detector, w.traps[r].content, w.traps[r].kind)) else env(r)
  }

  function Shown(w: World, path: string, env: Env): Option<string> {
    ReadResult(w.files, path, Rendered(w, env))
  }

  function Planted(s: Vfs.State, path: string, content: string, id: Renderer): Vfs.State {
    Apply(Apply(s, Write(path, content, false, false)), Register(path, id))
  }

  function Step(w: World, e: Event, tag: string, sqrt: real -> real): World {
    match e
    case Ran(c) => w.(detector := Some(Stepped(w.detector, c, tag, sqrt)))
    case Plant(path, content, kind, id) =>
      w.(files := Planted(w.files, path, content, id), traps := w.traps[id := Trap(content, kind)])
    case File(op) =>
      w.(files := Apply(w.files, if op.Read? then Read(op.path, Rendered(w, op.env)) else op))
    case Reopen(again) => World(Reopened(w.files, again), Some(Reconnected(w.detector)), map[])
  }

  ghost function After(w: World, events: seq<Event>, tag: string, sqrt: real -> real): World {
    if events == [] then w
    else Step(After(w, events[..|events| - 1], tag, sqrt), events[|events| - 1], tag, sqrt)
  }

  /** `plant_decoy` on the filesystem object. */
  method PlantDecoy(vfs: VirtualFS, path: string, content: string, home: string, id: Renderer)
    requires vfs.Valid()
    modifies vfs
    ensures vfs.Valid()
    ensures var p := Paths.Canon(Paths.Canon(path, "", home), "", "");
      vfs.St() == Planted(old(vfs.St()), p, content, id)
  {
    var canon := Paths.Canon(path, "", home);
    vfs.Write(canon, content, "", "", false, false);
    vfs.RegisterDynamic(canon, id, "", "");
  }

  // ---- The bait ----------------------------------------------------------------------------------

  /** The bait a detector may hold is the engagement's own. */
  predicate Wired(d: Option<CounterAi.State>, tag: string) {
    d.Some? && d.value.payload.Some? ==> d.value.payload.value == Payload(Marker(tag))
  }

  /** The trap is armed and has something to show. */
  predicate Baits(d: Option<CounterAi.State>) {
    d.Some? && d.value.armed && d.value.payload.Some?
  }

  lemma BaitShown(d: Option<CounterAi.State>, content: string, kind: Kind, tag: string)
    requires Wired(d, tag)
    ensures Contains(Injected(d, content, kind), Marker(tag)) <==> Contains(content, Marker(tag)) || Baits(d)
  {
    hide Contains, Payload, Marker, RStrip;
    MarkerNonEmpty(tag);
    if Baits(d) {
      PayloadCarriesMarker(Marker(tag));
      ContainsSuffix(RStrip(content) + (if kind == Config then "\n\n" else "\n"), Payload(Marker(tag)), Marker(tag));
    }
  }

  // ---- One event ---------------------------------------------------------------------------------

  /** The event neither changes the decoy nor registers another renderer for it. */
  predicate Quiet(e: Event, path: string, id: Renderer) {
    match e
    case Ran(_) => true
    case Plant(p, _, _, i) => p != path && i != id
    case File(op) => !Mutates(op, path) && !(op.Register? && op.path == path)
    case Reopen(again) => path !in again
  }

  predicate Reads(e: Event, path: string) {
    e.File? && e.op.Read? && e.op.path == path
  }

  /** A decoy is in place, changed by the attacker before it was planted or never. */
  predicate InPlace(w: World, path: string, id: Renderer, trap: Trap, changed: bool) {
    && path in w.files.dynamic && w.files.dynamic[path] == id && id in w.traps && w.traps[id] == trap
    && path in w.files.files && path !in w.files.deleted && (path in w.files.tampered <==> changed)
  }

  lemma PlantPuts(w: World, path: string, trap: Trap, id: Renderer, tag: string, sqrt: real -> real)
    ensures var v := Step(w, Plant(path, trap.content, trap.kind, id), tag, sqrt);
      && InPlace(v, path, id, trap, path in w.files.tampered)
      && v.files.files[path] == trap.content && v.detector == w.detector
  {}

  lemma InPlaceStep(w: World, e: Event, path: string, id: Renderer, trap: Trap, changed: bool, tag: string,
                    sqrt: real -> real)
    requires InPlace(w, path, id, trap, changed) && Quiet(e, path, id) && !e.Reopen?
    ensures var v := Step(w, e, tag, sqrt);
      && InPlace(v, path, id, trap, changed)
      && v.files.files[path] ==
        if Reads(e, path) && !changed then Injected(w.detector, trap.content, trap.kind) else w.files.files[path]
  {
    hide Injected, Stepped;
  }

  lemma DetectorStep(w: World, e: Event, tag: string, sqrt: real -> real)
    requires Wired(w.detector, tag)
    ensures Wired(Step(w, e, tag, sqrt).detector, tag)
    ensures Baits(w.detector) ==> Baits(Step(w, e, tag, sqrt).detector)
  {
    hide Purity, Judged, LastOf, Echoes, LeakText, Marker, Payload, Apply, Reopened, Planted;
  }

  // ---- Until the attacker reconnects -----------------------------------------------------------

  ghost predicate AllQuiet(events: seq<Event>, path: string, id: Renderer) {
    forall i :: 0 <= i < |events| ==> Quiet(events[i], path, id)
  }

  ghost predicate OneConnection(events: seq<Event>) {
    forall i :: 0 <= i < |events| ==> !events[i].Reopen?
  }

  /** The decoy was read while the trap was armed. */
  ghost predicate SeenArmed(w: World, events: seq<Event>, path: string, tag: string, sqrt: real -> real) {
    exists i :: 0 <= i < |events| && Reads(events[i], path) && Baits(After(w, events[..i], tag, sqrt).detector)
  }

  lemma SeenArmedStep(w: World, events: seq<Event>, path: string, tag: string, sqrt: real -> real)
    requires events != []
    ensures var front, e := events[..|events| - 1], events[|events| - 1];
      SeenArmed(w, events, path, tag, sqrt) <==>
        SeenArmed(w, front, path, tag, sqrt) || (Reads(e, path) && Baits(After(w, front, tag, sqrt).detector))
  {
    hide After, Reads, Baits;
    var n := |events| - 1;
    var front := events[..n];
    forall i | 0 <= i < n ensures front[..i] == events[..i] && front[i] == events[i] {}
    if i :| 0 <= i < |events| && Reads(events[i], path) && Baits(After(w, events[..i], tag, sqrt).detector) {
      if i < n { assert Reads(front[i], path) && Baits(After(w, front[..i], tag, sqrt).detector); }
    }
    if i :| 0 <= i < n && Reads(front[i], path) && Baits(After(w, front[..i], tag, sqrt).detector) {
      assert Reads(events[i], path) && Baits(After(w, events[..i], tag, sqrt).detector);
    }
  }

  /** A decoy in place through one connection: it stays in place, and what is stored for it shows the
      marker exactly when its own text does or it was read armed. */
  lemma {:induction false} DecoyKept(w: World, events: seq<Event>, path: string, id: Renderer, trap: Trap,
                                     changed: bool, tag: string, sqrt: real -> real)
    requires InPlace(w, path, id, trap, changed) && w.files.files[path] == trap.content && Wired(w.detector, tag)
    requires AllQuiet(events, path, id) && OneConnection(events)
    ensures var v := After(w, events, tag, sqrt);
      && InPlace(v, path, id, trap, changed) && Wired(v.detector, tag)
      && (changed ==> v.files.files[path] == trap.content)
      && (Contains(v.files.files[path], Marker(tag)) <==>
            Contains(trap.content, Marker(tag)) || (!changed && SeenArmed(w, events, path, tag, sqrt)))
      && (SeenArmed(w, events, path, tag, sqrt) ==> Baits(v.detector))
  {
    hide InPlace, Wired, Baits, Contains, Marker, Injected, Step, Quiet, Reads;
    if events == [] {
    } else {
      hide SeenArmed;
      var front, e := events[..|events| - 1], events[|events| - 1];
      var u := After(w, front, tag, sqrt);
      DecoyKept(w, front, path, id, trap, changed, tag, sqrt);
      InPlaceStep(u, e, path, id, trap, changed, tag, sqrt);
      DetectorStep(u, e, tag, sqrt);
      SeenArmedStep(w, events, path, tag, sqrt);
      BaitShown(u.detector, trap.content, trap.kind, tag);
    }
  }

  /** From planting until the next reconnect, whatever else happens, a read shows the decoy's text,
      with the marker exactly when the trap is armed by then; unless the attacker had changed the
      path before, which keeps the trap out for good. */
  lemma PlantedShows(w: World, path: string, trap: Trap, id: Renderer, events: seq<Event>, env: Env, tag: string,
                     sqrt: real -> real)
    requires Wired(w.detector, tag) && AllQuiet(events, path, id) && OneConnection(events)
    ensures var v := After(Step(w, Plant(path, trap.content, trap.kind, id), tag, sqrt), events, tag, sqrt);
      var shown := Shown(v, path, env);
      && shown == Some(if path in w.files.tampered then trap.content else Injected(v.detector, trap.content, trap.kind))
      && (Contains(shown.value, Marker(tag)) <==>
            Contains(trap.content, Marker(tag)) || (path !in w.files.tampered && Baits(v.detector)))
  {
    hide Injected, Contains, Marker, Baits, Wired, After, Step, SeenArmed;
    var start, changed := Step(w, Plant(path, trap.content, trap.kind, id), tag, sqrt), path in w.files.tampered;
    PlantPuts(w, path, trap, id, tag, sqrt);
    DecoyKept(start, events, path, id, trap, changed, tag, sqrt);
    BaitShown(After(start, events, tag, sqrt).detector, trap.content, trap.kind, tag);
  }

  // ---- After a reconnect ---------------------------------------------------------------------------

  /** The path is a plain file, with no renderer left. */
  predicate Bare(w: World, path: string, body: string) {
    path in w.files.files && w.files.files[path] == body && path !in w.files.deleted && path !in w.files.dynamic
  }

  lemma BareStep(w: World, e: Event, path: string, id: Renderer, body: string, tag: string, sqrt: real -> real)
    requires Bare(w, path, body) && Quiet(e, path, id)
    ensures Bare(Step(w, e, tag, sqrt), path, body)
  {
    hide Stepped, Injected, Reconnected;
  }

  lemma {:induction false} BareKept(w: World, events: seq<Event>, path: string, id: Renderer, body: string, tag: string,
                                    sqrt: real -> real)
    requires Bare(w, path, body) && AllQuiet(events, path, id)
    ensures Bare(After(w, events, tag, sqrt), path, body)
  {
    hide Step, Bare, Quiet;
    if events != [] {
      BareKept(w, events[..|events| - 1], path, id, body, tag, sqrt);
      BareStep(After(w, events[..|events| - 1], tag, sqrt), events[|events| - 1], path, id, body, tag, sqrt);
    }
  }

  /** After a reconnect a decoy is a plain file for good: it shows the marker exactly when its own
      text does, or when it was read armed before the reconnect. Arming the trap later, or having
      armed it without a read of this decoy, shows nothing. */
  lemma PlantedLost(w: World, path: string, trap: Trap, id: Renderer, events: seq<Event>, again: map<string, Renderer>,
                    later: seq<Event>, env: Env, tag: string, sqrt: real -> real)
    requires Wired(w.detector, tag) && AllQuiet(events, path, id) && OneConnection(events)
    requires path !in again && AllQuiet(later, path, id)
    ensures var start := Step(w, Plant(path, trap.content, trap.kind, id), tag, sqrt);
      var v := After(start, events, tag, sqrt);
      var shown := Shown(After(Step(v, Reopen(again), tag, sqrt), later, tag, sqrt), path, env);
      && shown == Stored(v.files, path) && shown.Some?
      && (Contains(shown.value, Marker(tag)) <==>
            || Contains(trap.content, Marker(tag))
            || (path !in w.files.tampered && SeenArmed(start, events, path, tag, sqrt)))
  {
    hide Injected, Contains, Marker, Baits, Wired, After, SeenArmed, Reconnected, Stepped;
    var start, changed := Step(w, Plant(path, trap.content, trap.kind, id), tag, sqrt), path in w.files.tampered;
    PlantPuts(w, path, trap, id, tag, sqrt);
    DecoyKept(start, events, path, id, trap, changed, tag, sqrt);
    var v := After(start, events, tag, sqrt);
    var body := v.files.files[path];
    assert Bare(Step(v, Reopen(again), tag, sqrt), path, body);
    BareKept(Step(v, Reopen(again), tag, sqrt), later, path, id, body, tag, sqrt);
  }
}
