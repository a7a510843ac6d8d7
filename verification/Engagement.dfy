/**
 One engagement across any number of sequential connections: events update the observations, the
 ladder is drained after each, and a reconnect restores what the previous connection persisted
 (plenith/session.py with plenith/heuristics.py).
 */
module Engagement {
  import opened Common
  import opened Observations
  import opened Heuristics

  datatype Step =
    | Observe(update: Update)
    | Drain(clock: nat -> real, decoys: Rule -> Option<string>)
    | Reconnect

  ghost function Next(o: Observed, s: Step): (Observed, seq<Rule>) {
    match s
    case Observe(u) => (Updated(o, u), [])
    case Drain(clock, decoys) => (ActedAll(o, Drained(o, clock), decoys), Drained(o, clock))
    case Reconnect => (Reconnected(o), [])
  }

  /** Every rule that fires during a run, in order. */
  ghost function Firings(o: Observed, steps: seq<Step>): seq<Rule>
    decreases |steps|
  {
    if steps == [] then [] else Next(o, steps[0]).1 + Firings(Next(o, steps[0]).0, steps[1..])
  }

  /** Raised gates stay raised. */
  ghost predicate GatesKept(o: Observed, o': Observed) {
    forall r: Rule :: Has(o, Gate(r)) ==> Has(o', Gate(r))
  }

  /** What is settled once `fired` has fired: its gates are up, and proof closes detection too. */
  ghost predicate Settled(o: Observed, fired: seq<Rule>) {
    forall r: Rule :: r in fired ==> Has(o, Gate(r)) && (r == LlmProven ==> Has(o, Gate(LlmDetected)))
  }

  ghost predicate OnceEach(fired: seq<Rule>) {
    && (forall i, j :: 0 <= i < j < |fired| ==> fired[i] != fired[j])
    && (forall i, j :: 0 <= i < j < |fired| ==> !(fired[i] == LlmProven && fired[j] == LlmDetected))
  }

  // ---- Events and reconnects keep the gates --------------------------------------------------------

  ghost predicate Keeps(o: Observed, o': Observed) {
    WellFormed(o) ==> WellFormed(o') && GatesKept(o, o')
  }

  ghost predicate IsGate(f: Field) {
    exists r :: f == Gate(r)
  }

  lemma GatesAreFlags(f: Field)
    requires IsGate(f)
    ensures !NamesField(f) && f !in {AttackerLikelyLlm, AttackerLlmConfidence, AttackerLlmSignals, ReverseShellCommand}
  {}

  lemma SetKeeps(o: Observed, f: Field, v: Value)
    requires v.Names? <==> NamesField(f)
    requires IsGate(f) ==> Truthy(v)
    ensures Keeps(o, Set(o, f, v))
  {
    forall r: Rule ensures Gate(r) == f ==> IsGate(f) {}
  }

  lemma RaiseKeeps(o: Observed, on: bool, f: Field)
    requires !NamesField(f)
    ensures Keeps(o, RaiseIf(o, on, f))
  {
    SetKeeps(o, f, Flag(true));
  }

  lemma AddKeeps(o: Observed, f: Field, more: set<string>)
    requires NamesField(f)
    ensures Keeps(o, Add(o, f, more))
  {
    if IsGate(f) { GatesAreFlags(f); }
    SetKeeps(o, f, Names(NamesOf(o, f) + more));
  }

  lemma NotedKeeps(o: Observed, found: set<string>, flag: Field, names: Field)
    requires !NamesField(flag) && NamesField(names)
    ensures Keeps(o, Noted(o, found, flag, names))
  {
    RaiseKeeps(o, true, flag);
    AddKeeps(Raise(o, flag), names, found);
  }

  lemma OutputKeeps(o: Observed, f: Field, v: Value)
    requires f in {AttackerLikelyLlm, AttackerLlmConfidence, AttackerLlmSignals, ReverseShellCommand} && !v.Names?
    ensures Keeps(o, Set(o, f, v))
  {
    if IsGate(f) { GatesAreFlags(f); }
    SetKeeps(o, f, v);
  }

  lemma JudgedKeeps(o: Observed, v: LlmVerdict)
    ensures Keeps(o, Judged(o, v))
  {
    var a := Set(o, AttackerLikelyLlm, Flag(v.likely));
    var b := Set(a, AttackerLlmConfidence, Number(v.confidence));
    var c := Set(b, AttackerLlmSignals, Table(v.signals));
    var d := c.(extra := c.extra["attacker_llm_history" := v.history]);
    OutputKeeps(o, AttackerLikelyLlm, Flag(v.likely));
    OutputKeeps(a, AttackerLlmConfidence, Number(v.confidence));
    OutputKeeps(b, AttackerLlmSignals, Table(v.signals));
    assert Keeps(c, d);
    RaiseKeeps(d, v.armedNow, CounterAiTrapArmed);
    RaiseKeeps(RaiseIf(d, v.armedNow, CounterAiTrapArmed), v.leaked, AttackerLlmProvenViaTrap);
  }

  lemma ShellSeenKeeps(o: Observed, command: string)
    ensures Keeps(o, ShellSeen(o, command))
  {
    RaiseKeeps(o, true, ReverseShellAttempted);
    OutputKeeps(Raise(o, ReverseShellAttempted), ReverseShellCommand, Text(command));
  }

  lemma CommandKeeps(o: Observed, u: Update)
    requires u.Command?
    ensures Keeps(o, Updated(o, u))
  {
    var a := Judged(o, u.llm);
    var b := RaiseIf(a, u.sudo, RanSudo);
    var c := Add(b, ServicesProbed, u.services);
    var d := RaiseIf(c, u.lateral, AttemptedLateral);
    var e := RaiseIf(d, u.crownJewel, FoundCrownJewel);
    var f := ShellSeen(e, u.reverseShell);
    var g := Noted(f, u.exfil, DnsExfilAttempted, DnsExfilCommands);
    var h := Noted(g, u.decoyHosts, LateralToDecoy, DecoyTargets);
    var i := Noted(h, u.logTamper, LogTampering, TamperingCommands);
    JudgedKeeps(o, u.llm);
    RaiseKeeps(a, u.sudo, RanSudo);
    AddKeeps(b, ServicesProbed, u.services);
    RaiseKeeps(c, u.lateral, AttemptedLateral);
    RaiseKeeps(d, u.crownJewel, FoundCrownJewel);
    ShellSeenKeeps(e, u.reverseShell);
    NotedKeeps(f, u.exfil, DnsExfilAttempted, DnsExfilCommands);
    NotedKeeps(g, u.decoyHosts, LateralToDecoy, DecoyTargets);
    NotedKeeps(h, u.logTamper, LogTampering, TamperingCommands);
    RaiseKeeps(i, u.elevation, AttemptedSudoElevation);
  }

  /** No event ever lowers a gate or breaks the template's shape. */
  lemma UpdatedKeeps(o: Observed, u: Update)
    ensures Keeps(o, Updated(o, u))
  {
    match u
    case Command(_, _, _, _, _, _, _, _, _, _) => CommandKeeps(o, u);
    case FileRead(path, honeytoken, credential, history) =>
      var a := if honeytoken && credential then Add(o, CredentialFilesRead, {path}) else o;
      AddKeeps(o, CredentialFilesRead, {path});
      RaiseKeeps(a, history, BashHistoryInspected);
      AddKeeps(RaiseIf(a, history, BashHistoryInspected), DecoysSwallowed, {path});
    case FileWrite(path, honeytoken, persistence, payloadDir) =>
      var a := RaiseIf(o, persistence, SshPersistenceAttempt);
      var b := if honeytoken then Add(a, HoneytokenModifications, {path}) else a;
      RaiseKeeps(o, persistence, SshPersistenceAttempt);
      AddKeeps(a, HoneytokenModifications, {path});
      AddKeeps(b, PayloadDrops, {path});
    case FileUnlink(path, honeytoken) =>
      AddKeeps(o, HoneytokenModifications, {path});
      AddKeeps(Add(o, HoneytokenModifications, {path}), HoneytokenDeletions, {path});
    case Search(hits) => NotedKeeps(o, hits, CredentialSearchAttempted, CredentialSearchTerms);
  }

  // ---- Firing --------------------------------------------------------------------------------------

  lemma FiredKeeps(o: Observed, r: Rule)
    ensures Keeps(o, Fired(o, r))
    ensures Has(Fired(o, r), Gate(r)) && (r == LlmProven ==> Has(Fired(o, r), Gate(LlmDetected)))
  {
    hide Keeps, Gate, NamesField;
    assert IsGate(Gate(r)) && IsGate(Gate(LlmDetected));
    GatesAreFlags(Gate(r));
    GatesAreFlags(Gate(LlmDetected));
    RaiseKeeps(o, true, Gate(r));
    RaiseKeeps(Raise(o, Gate(r)), true, Gate(LlmDetected));
    KeepsTransitive(o, Raise(o, Gate(r)), Fired(o, r));
    GateDistinct(LlmDetected, r);
  }

  lemma KeepsTransitive(a: Observed, b: Observed, c: Observed)
    requires Keeps(a, b) && (c == b || Keeps(b, c))
    ensures Keeps(a, c)
  {}

  lemma PlantedKeeps(o: Observed, path: string)
    ensures Keeps(o, Planted(o, path))
    ensures forall r: Rule :: Has(Planted(o, path), Gate(r)) == Has(o, Gate(r))
  {
    hide Keeps, Gate, Truthy;
    forall r: Rule ensures Gate(r) != DecoysPlanted {
      GateDistinct(r, r);
    }
    assert !IsGate(DecoysPlanted);
    SetKeeps(o, DecoysPlanted, Names(NamesOf(o, DecoysPlanted) + {path}));
  }

  lemma ActedKeeps(o: Observed, r: Rule, decoys: Rule -> Option<string>)
    ensures Keeps(o, Acted(o, r, decoys))
    ensures Has(Acted(o, r, decoys), Gate(r)) && (r == LlmProven ==> Has(Acted(o, r, decoys), Gate(LlmDetected)))
  {
    hide Keeps, Gate, Has, Fired, Planted;
    FiredKeeps(o, r);
    if decoys(r).Some? {
      PlantedKeeps(Fired(o, r), decoys(r).value);
    }
    KeepsTransitive(o, Fired(o, r), Acted(o, r, decoys));
  }

  lemma {:induction false} ActedAllKeeps(o: Observed, rules: seq<Rule>, decoys: Rule -> Option<string>)
    requires WellFormed(o)
    ensures Keeps(o, ActedAll(o, rules, decoys)) && Settled(ActedAll(o, rules, decoys), rules)
    decreases |rules|
  {
    if rules != [] {
      var front, last := rules[..|rules| - 1], rules[|rules| - 1];
      ActedAllKeeps(o, front, decoys);
      ActedKeeps(ActedAll(o, front, decoys), last, decoys);
      assert rules == front + [last];
    }
  }

  lemma DueGateDown(r: Rule, o: Observed, late: bool)
    requires Due(r, o, late)
    ensures !Has(o, Gate(r))
  {}

  lemma ProofSilences(o: Observed, late: bool)
    ensures !(Due(LlmProven, o, late) && Due(LlmDetected, o, late))
  {
    ClockFree(LlmProven, o, if late then 601.0 else 0.0, 0.0);
  }

  lemma OrderedOnce(p: seq<Rule>)
    requires Ascending(p)
    requires !(LlmProven in p && LlmDetected in p)
    ensures OnceEach(p)
  {
    forall i, j | 0 <= i < j < |p| ensures p[i] != p[j] && !(p[i] == LlmProven && p[j] == LlmDetected) {
      assert Rank(p[i]) < Rank(p[j]);
      assert p[i] in p && p[j] in p;
    }
  }

  lemma PassOnce(o: Observed, late: bool, i: nat)
    requires i <= |LADDER|
    ensures OnceEach(Pass(o, late, i))
    ensures forall r: Rule :: r in Pass(o, late, i) ==> !Has(o, Gate(r))
  {
    PassIsDue(o, late, i);
    ProofSilences(o, late);
    forall r: Rule | r in Pass(o, late, i) ensures !Has(o, Gate(r)) {
      DueGateDown(r, o, late);
    }
    OrderedOnce(Pass(o, late, i));
  }

  /** One drain fires each rule at most once, only rules whose gate was down, and never detection
      beside proof. */
  lemma DrainedOnce(o: Observed, clock: nat -> real)
    ensures OnceEach(Drained(o, clock))
    ensures forall r: Rule :: r in Drained(o, clock) ==> !Has(o, Gate(r))
  {
    PassOnce(o, true, 0);
    PassOnce(o, false, 0);
  }

  lemma NextKeeps(o: Observed, s: Step)
    requires WellFormed(o)
    ensures var (o', e) := Next(o, s);
      && WellFormed(o') && GatesKept(o, o') && Settled(o', e) && OnceEach(e)
      && forall r: Rule :: r in e ==> !Has(o, Gate(r))
  {
    match s
    case Observe(u) => UpdatedKeeps(o, u);
    case Drain(clock, decoys) =>
      DrainedOnce(o, clock);
      ActedAllKeeps(o, Drained(o, clock), decoys);
    case Reconnect => ReconnectIdentity(o);
  }

  /** What fires from a state on never includes a rule whose gate is already up there. */
  lemma {:induction false} FiringsOnce(o: Observed, steps: seq<Step>)
    requires WellFormed(o)
    ensures OnceEach(Firings(o, steps))
    ensures forall r: Rule :: r in Firings(o, steps) ==> !Has(o, Gate(r))
    decreases |steps|
  {
    if steps != [] {
      var (o', e) := Next(o, steps[0]);
      var rest := Firings(o', steps[1..]);
      NextKeeps(o, steps[0]);
      FiringsOnce(o', steps[1..]);
      OnceConcat(o', e, rest);
    }
  }

  lemma OnceConcat(o: Observed, e: seq<Rule>, rest: seq<Rule>)
    requires OnceEach(e) && OnceEach(rest) && Settled(o, e)
    requires forall r: Rule :: r in rest ==> !Has(o, Gate(r))
    ensures OnceEach(e + rest)
  {
    var all := e + rest;
    forall i, j | 0 <= i < j < |all| ensures all[i] != all[j] && !(all[i] == LlmProven && all[j] == LlmDetected) {
      if i < |e| && |e| <= j {
        assert all[i] in e && all[j] in rest;
      }
    }
  }

  /** Over a whole engagement, however often it disconnects and whatever the clocks show, each
      rule fires at most once and the high-severity LLM alert never follows the critical one. */
  lemma EachRuleOncePerEngagement(steps: seq<Step>)
    ensures OnceEach(Firings(Fresh(), steps))
  {
    FiringsOnce(Fresh(), steps);
  }
}
