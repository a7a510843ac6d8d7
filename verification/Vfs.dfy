/**
 The virtual filesystem (plenith/vfs.py): five mutable collections behind canonical paths.

 `State` and `Apply` give the meaning of one operation on an already canonical path; the class
 `VirtualFS` is the source's object, each method proved to perform exactly that operation. The
 theorems are about runs: attacker changes behave like writes to a plain path-to-content map,
 whatever renderers do, and persistence is transparent exactly when no live renderer is lost.
 */
module Vfs {
  import opened Common
  import Paths

  /** Names a registered callable. What it yields at a read is up to the environment of that
      read: `None` when it raises. */
  type Renderer = int
  type Env = Renderer -> Option<string>

  datatype State = State(
    files: map<string, string>, baseline: map<string, string>, deleted: set<string>,
    dynamic: map<string, Renderer>, tampered: set<string>)

  datatype Op =
    | Register(path: string, renderer: Renderer)
    | Read(path: string, env: Env)
    | Write(path: string, content: string, append: bool, tamper: bool)
    | Touch(path: string)
    | Unlink(path: string)

  function SetDefault(m: map<string, string>, k: string, v: string): map<string, string> {
    if k in m then m else m[k := v]
  }

  /** The stored content of a path, which a read serves when no renderer applies. */
  function Stored(s: State, path: string): Option<string> {
    if path in s.files && path !in s.deleted then Some(s.files[path]) else None
  }

  /** The fresh content a read of `path` would render, if it renders at all. */
  function Fresh(s: State, path: string, env: Env): Option<string> {
    if path !in s.deleted && path in s.dynamic && path !in s.tampered then env(s.dynamic[path]) else None
  }

  function ReadResult(s: State, path: string, env: Env): Option<string> {
    if Fresh(s, path, env).Some? then Fresh(s, path, env) else Stored(s, path)
  }

  function Apply(s: State, op: Op): State {
    match op
    case Register(p, r) => s.(dynamic := s.dynamic[p := r])
    case Read(p, env) =>
      var seen := ReadResult(s, p, env);
      if seen == None then s
      else s.(files := s.files[p := seen.value], baseline := SetDefault(s.baseline, p, seen.value))
    case Write(p, content, append, tamper) =>
      var prior := if p in s.files then s.files[p] else "";
      State(s.files[p := if append && p in s.files then prior + content else content],
            SetDefault(s.baseline, p, prior),
            s.deleted - {p},
            s.dynamic,
            if tamper then s.tampered + {p} else s.tampered)
    case Touch(p) =>
      s.(files := SetDefault(s.files, p, ""), deleted := s.deleted - {p}, tampered := s.tampered + {p})
    case Unlink(p) =>
      s.(files := s.files - {p}, deleted := s.deleted + {p}, tampered := s.tampered + {p})
  }

  function Run(s: State, ops: seq<Op>): State
    decreases |ops|
  {
    if ops == [] then s else Run(Apply(s, ops[0]), ops[1..])
  }

  // ---- Invariants of every run -------------------------------------------------------------

  ghost predicate Inv(s: State) {
    && s.deleted !! s.files.Keys
    && s.deleted <= s.tampered
    // A file without a recorded baseline was only ever touched into existence.
    && forall p :: p in s.files && p !in s.baseline ==> s.files[p] == ""
  }

  /** What never goes back: tamper marks stay and baselines are write-once. */
  ghost predicate Later(s: State, t: State) {
    && s.tampered <= t.tampered
    && s.baseline.Keys <= t.baseline.Keys
    && forall p :: p in s.baseline ==> t.baseline[p] == s.baseline[p]
  }

  lemma StepKeeps(s: State, op: Op)
    requires Inv(s)
    ensures Inv(Apply(s, op)) && Later(s, Apply(s, op))
  {}

  lemma {:induction false} RunKeeps(s: State, ops: seq<Op>)
    requires Inv(s)
    ensures Inv(Run(s, ops)) && Later(s, Run(s, ops))
    decreases |ops|
  {
    if ops != [] {
      StepKeeps(s, ops[0]);
      RunKeeps(Apply(s, ops[0]), ops[1..]);
    }
  }

  /** The baseline the path will have for good once it is written: the recorded one, or what is
      stored before the write. */
  function Before(s: State, path: string): string {
    if path in s.baseline then s.baseline[path] else if path in s.files then s.files[path] else ""
  }

  /** The documentation calls the baseline the planted content. After planting a decoy the baseline
      is what the path held before, whatever happens later; so it is the planted content exactly when
      the path held that already, and at a path the filesystem knows nothing of it is empty. */
  lemma PlantedBaseline(s: State, path: string, content: string, ops: seq<Op>)
    requires Inv(s)
    ensures var t := Run(Apply(s, Write(path, content, false, false)), ops);
      && path in t.baseline && t.baseline[path] == Before(s, path)
      && (t.baseline[path] == content <==> Before(s, path) == content)
      && (path !in s.files && path !in s.baseline ==> t.baseline[path] == "")
  {
    StepKeeps(s, Write(path, content, false, false));
    RunKeeps(Apply(s, Write(path, content, false, false)), ops);
  }

  // ---- Every read --------------------------------------------------------------------------------

  /** A renderer applies to the path and does not raise. */
  predicate Answers(s: State, path: string, env: Env) {
    path !in s.deleted && path !in s.tampered && path in s.dynamic && env(s.dynamic[path]) != None
  }

  /** What one path holds after an operation, knowing only what it held and whether a renderer
      answered: the last content rendered or written. */
  function Put(held: Option<string>, s: State, op: Op, path: string): Option<string> {
    if op.path != path then held
    else
      match op
      case Register(_, _) => held
      case Read(_, env) => if Answers(s, path, env) then env(s.dynamic[path]) else held
      case Write(_, content, append, _) => Some(if append && held.Some? then held.value + content else content)
      case Touch(_) => if held == None then Some("") else held
      case Unlink(_) => None
  }

  function LastPut(held: Option<string>, s: State, ops: seq<Op>, path: string): Option<string>
    decreases |ops|
  {
    if ops == [] then held else LastPut(Put(held, s, ops[0], path), Apply(s, ops[0]), ops[1..], path)
  }

  /** The cell of a path: what is stored for it, as the five collections say. */
  function Cell(s: State, path: string): Option<string> {
    if path in s.files then Some(s.files[path]) else None
  }

  lemma PutStep(s: State, op: Op, path: string)
    requires Inv(s)
    ensures Cell(Apply(s, op), path) == Put(Cell(s, path), s, op, path)
  {}

  lemma {:induction false} CellIsLastPut(s: State, ops: seq<Op>, path: string)
    requires Inv(s)
    ensures Cell(Run(s, ops), path) == LastPut(Cell(s, path), s, ops, path) && Inv(Run(s, ops))
    decreases |ops|
  {
    if ops != [] {
      hide Inv, Apply, Put, Cell;
      StepKeeps(s, ops[0]);
      PutStep(s, ops[0], path);
      CellIsLastPut(Apply(s, ops[0]), ops[1..], path);
    }
  }

  /** Every read after every run: what the renderer says if one answers, and otherwise the last
      content that was rendered or written there, so that a renderer that raises is never seen. */
  lemma ReadsLastPut(s: State, ops: seq<Op>, path: string, env: Env)
    requires Inv(s)
    ensures var t := Run(s, ops);
      ReadResult(t, path, env) ==
        if Answers(t, path, env) then env(t.dynamic[path])
        else LastPut(if path in s.files then Some(s.files[path]) else None, s, ops, path)
  {
    CellIsLastPut(s, ops, path);
  }

  /** A path that has once held something reads as something until it is unlinked. */
  lemma {:induction false} NeverLost(s: State, ops: seq<Op>, path: string, env: Env)
    requires Inv(s) && path in s.files
    requires forall i :: 0 <= i < |ops| && ops[i].Unlink? ==> ops[i].path != path
    ensures ReadResult(Run(s, ops), path, env) != None
    decreases |ops|
  {
    if ops != [] {
      StepKeeps(s, ops[0]);
      NeverLost(Apply(s, ops[0]), ops[1..], path, env);
    }
  }

  // ---- Attacker changes win over renderers ---------------------------------------------------

  predicate Mutates(op: Op, path: string) {
    (op.Write? || op.Touch? || op.Unlink?) && op.path == path
  }

  predicate ByAttacker(op: Op) {
    op.Touch? || op.Unlink? || (op.Write? && op.tamper)
  }

  /** What the changed path holds right after a change, as if files were a plain map. */
  function Outcome(prior: Option<string>, op: Op): Option<string>
    requires op.Write? || op.Touch? || op.Unlink?
  {
    match op
    case Write(_, content, append, _) =>
      Some(if append && prior.Some? then prior.value + content else content)
    case Touch(_) => if prior.Some? then prior else Some("")
    case Unlink(_) => None
  }

  lemma {:induction false} UnmutatedKeeps(s: State, path: string, ops: seq<Op>)
    requires Inv(s) && path in s.tampered
    requires forall i :: 0 <= i < |ops| ==> !Mutates(ops[i], path)
    ensures Stored(Run(s, ops), path) == Stored(s, path) && path in Run(s, ops).tampered
    decreases |ops|
  {
    if ops != [] {
      StepKeeps(s, ops[0]);
      UnmutatedKeeps(Apply(s, ops[0]), path, ops[1..]);
    }
  }

  /** If the last change of a path was the attacker's, every later read of it returns exactly
      that change's outcome, whatever was registered, rendered, read or written elsewhere. */
  lemma AttackerChangeSticks(s: State, op: Op, later: seq<Op>, env: Env)
    requires Inv(s) && ByAttacker(op)
    requires forall i :: 0 <= i < |later| ==> !Mutates(later[i], op.path)
    ensures ReadResult(Run(Apply(s, op), later), op.path, env) == Outcome(Stored(s, op.path), op)
  {
    StepKeeps(s, op);
    UnmutatedKeeps(Apply(s, op), op.path, later);
    RunKeeps(Apply(s, op), later);
  }

  // ---- Refinement of a plain map -------------------------------------------------------------

  /** The paths an attacker has ever changed, with what they hold; `None` is a removed file. */
  type Plain = map<string, Option<string>>

  /** One operation on the plain map. `stored` is what the path held before its first change. */
  function PlainApply(m: Plain, op: Op, stored: Option<string>): Plain {
    if (op.Write? || op.Touch? || op.Unlink?) && (ByAttacker(op) || op.path in m)
    then m[op.path := Outcome(if op.path in m then m[op.path] else stored, op)]
    else m
  }

  function PlainRun(m: Plain, s: State, ops: seq<Op>): Plain
    decreases |ops|
  {
    if ops == [] then m
    else PlainRun(PlainApply(m, ops[0], Stored(s, ops[0].path)), Apply(s, ops[0]), ops[1..])
  }

  ghost predicate Refines(s: State, m: Plain) {
    && m.Keys == s.tampered
    && forall p :: p in m ==> m[p] == Stored(s, p)
  }

  lemma RefinesStep(s: State, m: Plain, op: Op)
    requires Inv(s) && Refines(s, m)
    ensures Refines(Apply(s, op), PlainApply(m, op, Stored(s, op.path)))
  {}

  /** No renderer applies to a path the attacker has changed. */
  lemma RefinesReads(s: State, m: Plain)
    requires Refines(s, m)
    ensures forall path, env :: path in m ==> ReadResult(s, path, env) == m[path]
  {}

  /** Along every run, each path the attacker has changed reads as the plain map says. */
  lemma {:induction false} RefinesPlainMap(s: State, m: Plain, ops: seq<Op>)
    requires Inv(s) && Refines(s, m)
    ensures var t, n := Run(s, ops), PlainRun(m, s, ops);
      && Refines(t, n)
      && forall path, env :: path in n ==> ReadResult(t, path, env) == n[path]
    decreases |ops|
  {
    if ops == [] {
      RefinesReads(s, m);
    } else {
      hide Inv, Refines, Apply, PlainApply, ReadResult, Stored;
      StepKeeps(s, ops[0]);
      RefinesStep(s, m, ops[0]);
      RefinesPlainMap(Apply(s, ops[0]), PlainApply(m, ops[0], Stored(s, ops[0].path)), ops[1..]);
    }
  }

  // ---- Persistence ---------------------------------------------------------------------------

  datatype Saved = Saved(
    files: map<string, string>, baseline: map<string, string>, deleted: set<string>, tampered: set<string>)

  function ToDict(s: State): Saved {
    Saved(s.files, s.baseline, s.deleted, s.tampered)
  }

  function Restored(data: Saved): State {
    State(data.files, data.baseline, data.deleted, map[], data.tampered)
  }

  /** A restored filesystem after the session has registered `again`. */
  function Reopened(s: State, again: map<string, Renderer>): State {
    Restored(ToDict(s)).(dynamic := again)
  }

  /** Paths whose renderer was still in force when saving and is not the same afterwards. */
  ghost predicate Lost(s: State, again: map<string, Renderer>, path: string) {
    && path !in s.tampered
    && (path in s.dynamic || path in again)
    && !(path in s.dynamic && path in again && s.dynamic[path] == again[path])
  }

  predicate SameAt(m: map<string, string>, n: map<string, string>, path: string) {
    if path in m then path in n && m[path] == n[path] else path !in n
  }

  /** Two filesystems agree about one path; a tampered path's renderer no longer matters. */
  predicate AgreeAt(s: State, t: State, path: string) {
    && SameAt(s.files, t.files, path)
    && SameAt(s.baseline, t.baseline, path)
    && (path in s.tampered ||
        if path in s.dynamic then path in t.dynamic && s.dynamic[path] == t.dynamic[path] else path !in t.dynamic)
  }

  /** Agreement of two filesystems outside a set of paths. */
  ghost predicate Agree(s: State, t: State, except: set<string>) {
    && s.deleted == t.deleted && s.tampered == t.tampered
    && forall p :: p !in except ==> AgreeAt(s, t, p)
  }

  lemma StepAgreesAt(s: State, t: State, op: Op, path: string)
    requires s.deleted == t.deleted && s.tampered == t.tampered && AgreeAt(s, t, path)
    ensures AgreeAt(Apply(s, op), Apply(t, op), path)
  {
    if op.path != path {
      UnmovedAt(s, op, path);
      UnmovedAt(t, op, path);
    } else if op.Read? {
      ReadAgreesAt(s, t, op);
    } else if op.Write? {
      WriteAgreesAt(s, t, op);
    }
  }

  /** An operation on another path leaves everything about this one as it was. */
  lemma UnmovedAt(s: State, op: Op, path: string)
    requires op.path != path
    ensures AgreeAt(s, Apply(s, op), path) && (path in Apply(s, op).tampered <==> path in s.tampered)
    ensures path in Apply(s, op).dynamic <==> path in s.dynamic
    ensures path in s.dynamic ==> Apply(s, op).dynamic[path] == s.dynamic[path]
  {}

  lemma ReadAgreesAt(s: State, t: State, op: Op)
    requires op.Read? && s.deleted == t.deleted && s.tampered == t.tampered && AgreeAt(s, t, op.path)
    ensures AgreeAt(Apply(s, op), Apply(t, op), op.path)
  {
    assert ReadResult(s, op.path, op.env) == ReadResult(t, op.path, op.env);
  }

  lemma WriteAgreesAt(s: State, t: State, op: Op)
    requires op.Write? && s.deleted == t.deleted && s.tampered == t.tampered && AgreeAt(s, t, op.path)
    ensures AgreeAt(Apply(s, op), Apply(t, op), op.path)
  {}

  lemma StepAgrees(s: State, t: State, op: Op, except: set<string>)
    requires Agree(s, t, except)
    ensures Agree(Apply(s, op), Apply(t, op), except)
  {
    forall p | p !in except ensures AgreeAt(Apply(s, op), Apply(t, op), p) {
      StepAgreesAt(s, t, op, p);
    }
  }

  lemma {:induction false} RunAgrees(s: State, t: State, ops: seq<Op>, except: set<string>)
    requires Agree(s, t, except)
    ensures Agree(Run(s, ops), Run(t, ops), except)
    decreases |ops|
  {
    if ops != [] {
      StepAgrees(s, t, ops[0], except);
      RunAgrees(Apply(s, ops[0]), Apply(t, ops[0]), ops[1..], except);
    }
  }

  /** Reconnecting is invisible, now and after any operations, on every path outside `lost`. */
  lemma ReopenedAgrees(s: State, again: map<string, Renderer>, lost: set<string>, ops: seq<Op>, path: string, env: Env)
    requires forall p :: Lost(s, again, p) ==> p in lost
    requires path !in lost
    ensures ReadResult(Run(Reopened(s, again), ops), path, env) == ReadResult(Run(s, ops), path, env)
  {
    assert forall p :: p !in lost ==> AgreeAt(s, Reopened(s, again), p);
    RunAgrees(s, Reopened(s, again), ops, lost);
    assert AgreeAt(Run(s, ops), Run(Reopened(s, again), ops), path);
  }

  /** Save and restore change no later read at all exactly when no live renderer is lost. */
  lemma ReopenTransparentIff(s: State, again: map<string, Renderer>)
    requires Inv(s)
    ensures (forall ops, path, env ::
               ReadResult(Run(Reopened(s, again), ops), path, env) == ReadResult(Run(s, ops), path, env))
      <==> (forall p :: !Lost(s, again, p))
  {
    if forall p :: !Lost(s, again, p) {
      forall ops, path, env
        ensures ReadResult(Run(Reopened(s, again), ops), path, env) == ReadResult(Run(s, ops), path, env)
      {
        ReopenedAgrees(s, again, {}, ops, path, env);
      }
    } else {
      var p :| Lost(s, again, p);
      LostIsVisible(s, again, p);
    }
  }

  lemma LostIsVisible(s: State, again: map<string, Renderer>, p: string)
    requires Inv(s) && Lost(s, again, p)
    ensures exists env :: ReadResult(Run(Reopened(s, again), []), p, env) != ReadResult(Run(s, []), p, env)
  {
    var held := if Stored(s, p).Some? then Stored(s, p).value else "";
    var env: Env := r => if p in s.dynamic && r == s.dynamic[p] then Some(held + "x") else Some(held + "xx");
    assert p !in s.deleted;
    assert Stored(Reopened(s, again), p) == Stored(s, p);
    assert ReadResult(Reopened(s, again), p, env) != ReadResult(s, p, env) by {
      assert |held + "x"| == |held| + 1 && |held + "xx"| == |held| + 2;
    }
    assert Run(Reopened(s, again), []) == Reopened(s, again) && Run(s, []) == s;
  }

  // ---- The object ------------------------------------------------------------------------------

  /** The filesystem seeded from (path, content) pairs in order; later pairs win. */
  function Seeded(seed: seq<(string, string)>): State {
    if seed == [] then State(map[], map[], {}, map[], {})
    else
      var s := Seeded(seed[..|seed| - 1]);
      var (path, content) := seed[|seed| - 1];
      var p := Paths.Canon(path, "", "");
      s.(files := s.files[p := content], baseline := s.baseline[p := content])
  }

  lemma {:induction false} SeededInv(seed: seq<(string, string)>)
    ensures var s := Seeded(seed);
      Inv(s) && s.baseline == s.files && s.deleted == {} && s.tampered == {} && s.dynamic == map[]
  {
    if seed != [] { SeededInv(seed[..|seed| - 1]); }
  }

  /** The baseline of a seeded path is its seed, after any operations at all. */
  lemma SeedBaseline(seed: seq<(string, string)>, ops: seq<Op>, path: string)
    requires path in Seeded(seed).files
    ensures var t := Run(Seeded(seed), ops);
      path in t.baseline && t.baseline[path] == Seeded(seed).files[path]
  {
    SeededInv(seed);
    RunKeeps(Seeded(seed), ops);
  }

  /** Each path holds the content of the last pair that names it. */
  lemma {:induction false} SeededLast(seed: seq<(string, string)>, i: nat)
    requires i < |seed|
    requires forall j :: i < j < |seed| ==> Paths.Canon(seed[j].0, "", "") != Paths.Canon(seed[i].0, "", "")
    ensures var p := Paths.Canon(seed[i].0, "", ""); p in Seeded(seed).files && Seeded(seed).files[p] == seed[i].1
    ensures forall p :: p in Seeded(seed).files ==>
      exists j :: 0 <= j < |seed| && Paths.Canon(seed[j].0, "", "") == p
  {
    hide Paths.Canon;
    var front := seed[..|seed| - 1];
    if i < |front| {
      SeededLast(front, i);
    }
    SeededOnly(seed);
  }

  lemma {:induction false} SeededOnly(seed: seq<(string, string)>)
    ensures forall p :: p in Seeded(seed).files ==>
      exists j :: 0 <= j < |seed| && Paths.Canon(seed[j].0, "", "") == p
  {
    hide Paths.Canon;
    if seed != [] {
      var front := seed[..|seed| - 1];
      SeededOnly(front);
      assert seed[|seed| - 1] == seed[|front|];
      forall p | p in Seeded(front).files ensures exists j :: 0 <= j < |seed| && Paths.Canon(seed[j].0, "", "") == p {
        var j :| 0 <= j < |front| && Paths.Canon(front[j].0, "", "") == p;
        assert seed[j] == front[j];
      }
    }
  }

  class VirtualFS {
    var files: map<string, string>
    var baseline: map<string, string>
    var deleted: set<string>
    var dynamic: map<string, Renderer>
    var tampered: set<string>

    ghost function St(): State
      reads this
    {
      State(files, baseline, deleted, dynamic, tampered)
    }

    ghost predicate Valid()
      reads this
    {
      Inv(St())
    }

    constructor (seed: seq<(string, string)>)
      ensures Valid() && St() == Seeded(seed)
    {
      files, baseline, deleted, dynamic, tampered := map[], map[], {}, map[], {};
      new;
      for i := 0 to |seed|
        invariant St() == Seeded(seed[..i])
      {
        var p := Paths.Canon(seed[i].0, "", "");
        files := files[p := seed[i].1];
        baseline := baseline[p := seed[i].1];
        assert seed[..i + 1][..i] == seed[..i];
      }
      assert seed[..|seed|] == seed;
      SeededInv(seed);
    }

    method RegisterDynamic(path: string, renderer: Renderer, cwd: string, home: string)
      requires Valid()
      modifies this
      ensures Valid() && St() == Apply(old(St()), Register(Paths.Canon(path, cwd, home), renderer))
    {
      dynamic := dynamic[Paths.Canon(path, cwd, home) := renderer];
    }

    method Read(path: string, cwd: string, home: string, env: Env) returns (body: Option<string>)
      requires Valid()
      modifies this
      ensures var p := Paths.Canon(path, cwd, home);
        body == ReadResult(old(St()), p, env) && St() == Apply(old(St()), Op.Read(p, env))
      // The renderer's answer, or else what is stored: also when the renderer raises.
      ensures var p := Paths.Canon(path, cwd, home);
        body ==
          if p in old(deleted) then None
          else if p in old(dynamic) && p !in old(tampered) && env(old(dynamic)[p]) != None then env(old(dynamic)[p])
          else if p in old(files) then Some(old(files)[p])
          else None
      ensures var p := Paths.Canon(path, cwd, home);
        && files == (if body == None then old(files) else old(files)[p := body.value])
        && baseline == (if body == None || p in old(baseline) then old(baseline) else old(baseline)[p := body.value])
        && deleted == old(deleted) && dynamic == old(dynamic) && tampered == old(tampered)
      ensures Valid()
    {
      StepKeeps(St(), Op.Read(Paths.Canon(path, cwd, home), env));
      var p := Paths.Canon(path, cwd, home);
      if p in deleted {
        return None;
      }
      if p in dynamic && p !in tampered {
        var rendered := env(dynamic[p]);
        if rendered.Some? {
          files := files[p := rendered.value];
          if p !in baseline { baseline := baseline[p := rendered.value]; }
          return rendered;
        }
      }
      if p in files {
        if p !in baseline { baseline := baseline[p := files[p]]; }
        assert files == old(files)[p := files[p]];
        return Some(files[p]);
      }
      return None;
    }

    method Write(path: string, content: string, cwd: string, home: string, append: bool, tamper: bool)
      requires Valid()
      modifies this
      ensures Valid()
      ensures St() == Apply(old(St()), Op.Write(Paths.Canon(path, cwd, home), content, append, tamper))
    {
      var p := Paths.Canon(path, cwd, home);
      StepKeeps(St(), Op.Write(p, content, append, tamper));
      deleted := deleted - {p};
      if p !in baseline {
        baseline := baseline[p := if p in files then files[p] else ""];
      }
      if tamper { tampered := tampered + {p}; }
      if append && p in files {
        files := files[p := files[p] + content];
      } else {
        files := files[p := content];
      }
    }

    method Touch(path: string, cwd: string, home: string)
      requires Valid()
      modifies this
      ensures Valid() && St() == Apply(old(St()), Op.Touch(Paths.Canon(path, cwd, home)))
    {
      var p := Paths.Canon(path, cwd, home);
      StepKeeps(St(), Op.Touch(p));
      deleted := deleted - {p};
      tampered := tampered + {p};
      if p !in files { files := files[p := ""]; }
    }

    method Unlink(path: string, cwd: string, home: string)
      requires Valid()
      modifies this
      ensures Valid() && St() == Apply(old(St()), Op.Unlink(Paths.Canon(path, cwd, home)))
    {
      var p := Paths.Canon(path, cwd, home);
      StepKeeps(St(), Op.Unlink(p));
      files := files - {p};
      tampered := tampered + {p};
      deleted := deleted + {p};
    }

    /** The live files; in a valid state no stored file is deleted. */
    function Snapshot(): (live: map<string, string>)
      requires Valid()
      reads this
      ensures forall p :: (p in live ==> Stored(St(), p) == Some(live[p])) && (p !in live ==> Stored(St(), p) == None)
      ensures live == files
    {
      map p | p in files && p !in deleted :: files[p]
    }

    method Restore(data: Saved)
      modifies this
      ensures St() == Restored(data)
    {
      files, baseline, deleted, tampered := data.files, data.baseline, data.deleted, data.tampered;
      dynamic := map[];
    }
  }

  // ---- mv ----------------------------------------------------------------------------------------

  /** `mv src dst` reads the source, writes the target and then removes the source. */
  method Move(vfs: VirtualFS, src: string, dst: string, cwd: string, home: string, env: Env) returns (moved: bool)
    requires vfs.Valid()
    modifies vfs
    ensures vfs.Valid()
    ensures var s, p, q := old(vfs.St()), Paths.Canon(src, cwd, home), Paths.Canon(dst, cwd, home);
      && moved == ReadResult(s, p, env).Some?
      && (moved ==> vfs.St() == Run(s, MoveOps(p, q, env, ReadResult(s, p, env).value)))
      && (!moved ==> vfs.St() == s)
  {
    ghost var s := vfs.St();
    var body := vfs.Read(src, cwd, home, env);
    if body == None {
      return false;
    }
    vfs.Write(dst, body.value, cwd, home, false, true);
    vfs.Unlink(src, cwd, home);
    MoveRun(s, Paths.Canon(src, cwd, home), Paths.Canon(dst, cwd, home), env, body.value);
    return true;
  }

  function MoveOps(src: string, dst: string, env: Env, body: string): seq<Op> {
    [Read(src, env), Write(dst, body, false, true), Unlink(src)]
  }

  lemma MoveRun(s: State, src: string, dst: string, env: Env, body: string)
    ensures Run(s, MoveOps(src, dst, env, body))
      == Apply(Apply(Apply(s, Read(src, env)), Write(dst, body, false, true)), Unlink(src))
  {
    var ops := MoveOps(src, dst, env, body);
    var s1 := Apply(s, ops[0]);
    var s2 := Apply(s1, ops[1]);
    assert ops[1..] == [ops[1], ops[2]] && ops[1..][1..] == [ops[2]];
    assert Run(s2, [ops[2]]) == Run(Apply(s2, ops[2]), []);
    assert Run(s1, ops[1..]) == Run(s2, [ops[2]]);
  }

  /** A move leaves the body at the target, whatever is rendered later, exactly when the two
      paths differ; moving a file onto itself deletes it. The source is gone either way and no
      other path changes. */
  lemma MoveKeepsIff(s: State, src: string, dst: string, env: Env, later: Env)
    requires Inv(s) && ReadResult(s, src, env).Some?
    ensures var body := ReadResult(s, src, env).value;
      var t := Run(s, MoveOps(src, dst, env, body));
      && (ReadResult(t, dst, later) == Some(body) <==> src != dst)
      && ReadResult(t, src, later) == None
      && forall p :: p != src && p != dst ==> ReadResult(t, p, later) == ReadResult(s, p, later)
  {
    MoveRun(s, src, dst, env, ReadResult(s, src, env).value);
  }
}
