/**
 What the recorded evidence always says about itself (plenith/session.py), over whole engagements:
 flags go with the items that raised them.
 */
module Evidence {
  import opened Common
  import opened Observations
  import opened Heuristics
  import opened Engagement

  predicate Paired(o: Observed, flag: Field, names: Field) {
    Has(o, flag) <==> NamesOf(o, names) != {}
  }

  /** Every flag has its evidence and every piece of evidence its flag; only planted decoys are
      swallowed, and only modified honeytokens deleted. */
  predicate Coherent(o: Observed) {
    && NamesOf(o, DecoysSwallowed) <= NamesOf(o, DecoysPlanted)
    && NamesOf(o, HoneytokenDeletions) <= NamesOf(o, HoneytokenModifications)
    && Paired(o, CredentialSearchAttempted, CredentialSearchTerms)
    && Paired(o, DnsExfilAttempted, DnsExfilCommands)
    && Paired(o, LateralToDecoy, DecoyTargets)
    && Paired(o, LogTampering, TamperingCommands)
    && (Has(o, ReverseShellAttempted) <==> Has(o, ReverseShellCommand))
  }

  predicate Tracked(f: Field) {
    f in {DecoysSwallowed, DecoysPlanted, HoneytokenDeletions, HoneytokenModifications, CredentialSearchAttempted,
          CredentialSearchTerms, DnsExfilAttempted, DnsExfilCommands, LateralToDecoy, DecoyTargets, LogTampering,
          TamperingCommands, ReverseShellAttempted, ReverseShellCommand}
  }

  lemma SetUntracked(o: Observed, f: Field, v: Value)
    requires Coherent(o) && !Tracked(f)
    ensures Coherent(Set(o, f, v))
  {}

  lemma NotedOwn(o: Observed, found: set<string>, flag: Field, names: Field)
    requires Paired(o, flag, names) && flag != names
    ensures Paired(Noted(o, found, flag, names), flag, names)
  {}

  lemma SetElsewhere(o: Observed, g: Field, v: Value, f: Field)
    requires f != g
    ensures Has(Set(o, g, v), f) == Has(o, f) && NamesOf(Set(o, g, v), f) == NamesOf(o, f)
  {
    hide Truthy;
  }

  lemma NotedElsewhere(o: Observed, found: set<string>, flag: Field, names: Field, f: Field)
    requires f != flag && f != names
    ensures Has(Noted(o, found, flag, names), f) == Has(o, f)
    ensures NamesOf(Noted(o, found, flag, names), f) == NamesOf(o, f)
  {
    hide Has, NamesOf, Set;
    SetElsewhere(o, flag, Flag(true), f);
    SetElsewhere(Raise(o, flag), names, Names(NamesOf(Raise(o, flag), names) + found), f);
  }

  lemma NotedCoherent(o: Observed, found: set<string>, flag: Field, names: Field)
    requires Coherent(o)
    requires match flag
      case CredentialSearchAttempted => names == CredentialSearchTerms
      case DnsExfilAttempted => names == DnsExfilCommands
      case LateralToDecoy => names == DecoyTargets
      case LogTampering => names == TamperingCommands
      case _ => false
    ensures Coherent(Noted(o, found, flag, names))
  {
    hide Has, NamesOf, Noted;
    NotedOwn(o, found, flag, names);
    forall f | f != flag && f != names
      ensures Has(Noted(o, found, flag, names), f) == Has(o, f)
      ensures NamesOf(Noted(o, found, flag, names), f) == NamesOf(o, f)
    {
      NotedElsewhere(o, found, flag, names, f);
    }
  }

  lemma ShellCoherent(o: Observed, command: string)
    requires Coherent(o)
    ensures Coherent(ShellSeen(o, command))
  {}

  lemma RaisedCoherent(o: Observed, on: bool, f: Field)
    requires Coherent(o) && !Tracked(f)
    ensures Coherent(RaiseIf(o, on, f))
  {
    hide Coherent;
    SetUntracked(o, f, Flag(true));
  }

  lemma AddedCoherent(o: Observed, f: Field, more: set<string>)
    requires Coherent(o) && !Tracked(f)
    ensures Coherent(Add(o, f, more))
  {
    hide Coherent;
    SetUntracked(o, f, Names(NamesOf(o, f) + more));
  }

  lemma ExtraCoherent(o: Observed, extra: map<string, Value>)
    requires Coherent(o)
    ensures Coherent(o.(extra := extra))
  {}

  lemma JudgedCoherent(o: Observed, v: LlmVerdict)
    requires Coherent(o)
    ensures Coherent(Judged(o, v))
  {
    hide Coherent;
    var a := Set(o, AttackerLikelyLlm, Flag(v.likely));
    var b := Set(a, AttackerLlmConfidence, Number(v.confidence));
    var c := Set(b, AttackerLlmSignals, Table(v.signals));
    var d := c.(extra := c.extra["attacker_llm_history" := v.history]);
    var e := RaiseIf(d, v.armedNow, CounterAiTrapArmed);
    var f := RaiseIf(e, v.leaked, AttackerLlmProvenViaTrap);
    SetUntracked(o, AttackerLikelyLlm, Flag(v.likely));
    SetUntracked(a, AttackerLlmConfidence, Number(v.confidence));
    SetUntracked(b, AttackerLlmSignals, Table(v.signals));
    ExtraCoherent(c, c.extra["attacker_llm_history" := v.history]);
    RaisedCoherent(d, v.armedNow, CounterAiTrapArmed);
    RaisedCoherent(e, v.leaked, AttackerLlmProvenViaTrap);
    ExtraCoherent(f, f.extra["counter_ai_trap_proof" := v.proof]);
  }

  lemma CommandCoherent(o: Observed, u: Update)
    requires Coherent(o) && u.Command?
    ensures Coherent(Updated(o, u))
  {
    hide Coherent, Judged, ShellSeen, Noted, Add, RaiseIf, Has, NamesOf, Raise;
    var a := Judged(o, u.llm);
    var b := RaiseIf(a, u.sudo, RanSudo);
    var c := Add(b, ServicesProbed, u.services);
    var d := RaiseIf(c, u.lateral, AttemptedLateral);
    var e := RaiseIf(d, u.crownJewel, FoundCrownJewel);
    var f := ShellSeen(e, u.reverseShell);
    var g := Noted(f, u.exfil, DnsExfilAttempted, DnsExfilCommands);
    var h := Noted(g, u.decoyHosts, LateralToDecoy, DecoyTargets);
    var i := Noted(h, u.logTamper, LogTampering, TamperingCommands);
    JudgedCoherent(o, u.llm);
    RaisedCoherent(a, u.sudo, RanSudo);
    AddedCoherent(b, ServicesProbed, u.services);
    RaisedCoherent(c, u.lateral, AttemptedLateral);
    RaisedCoherent(d, u.crownJewel, FoundCrownJewel);
    ShellCoherent(e, u.reverseShell);
    NotedCoherent(f, u.exfil, DnsExfilAttempted, DnsExfilCommands);
    NotedCoherent(g, u.decoyHosts, LateralToDecoy, DecoyTargets);
    NotedCoherent(h, u.logTamper, LogTampering, TamperingCommands);
    RaisedCoherent(i, u.elevation, AttemptedSudoElevation);
  }

  lemma SwallowedCoherent(o: Observed, path: string)
    requires Coherent(o) && path in NamesOf(o, DecoysPlanted)
    ensures Coherent(Add(o, DecoysSwallowed, {path}))
  {}

  lemma ModifiedCoherent(o: Observed, path: string)
    requires Coherent(o)
    ensures Coherent(Add(o, HoneytokenModifications, {path}))
    ensures path in NamesOf(Add(o, HoneytokenModifications, {path}), HoneytokenModifications)
  {}

  lemma DeletedCoherent(o: Observed, path: string)
    requires Coherent(o) && path in NamesOf(o, HoneytokenModifications)
    ensures Coherent(Add(o, HoneytokenDeletions, {path}))
  {}

  lemma FileCoherent(o: Observed, u: Update)
    requires Coherent(o) && (u.FileRead? || u.FileWrite? || u.FileUnlink?)
    ensures Coherent(Updated(o, u))
  {
    hide Coherent, Add, RaiseIf;
    match u
    case FileRead(path, honeytoken, credential, history) =>
      var a := if honeytoken && credential then Add(o, CredentialFilesRead, {path}) else o;
      var b := RaiseIf(a, history, BashHistoryInspected);
      AddedCoherent(o, CredentialFilesRead, {path});
      RaisedCoherent(a, history, BashHistoryInspected);
      if path in NamesOf(b, DecoysPlanted) { SwallowedCoherent(b, path); }
    case FileWrite(path, honeytoken, persistence, payloadDir) =>
      var a := RaiseIf(o, persistence, SshPersistenceAttempt);
      var b := if honeytoken then Add(a, HoneytokenModifications, {path}) else a;
      RaisedCoherent(o, persistence, SshPersistenceAttempt);
      ModifiedCoherent(a, path);
      AddedCoherent(b, PayloadDrops, {path});
    case FileUnlink(path, honeytoken) =>
      ModifiedCoherent(o, path);
      DeletedCoherent(Add(o, HoneytokenModifications, {path}), path);
  }

  lemma UpdatedCoherent(o: Observed, u: Update)
    requires Coherent(o)
    ensures Coherent(Updated(o, u))
  {
    hide Coherent, Noted;
    if u.Command? {
      CommandCoherent(o, u);
    } else if u.Search? {
      NotedCoherent(o, u.hits, CredentialSearchAttempted, CredentialSearchTerms);
    } else {
      FileCoherent(o, u);
    }
  }

  lemma PlantedCoherent(o: Observed, path: string)
    requires Coherent(o)
    ensures Coherent(Planted(o, path))
  {}

  lemma GateUntracked(r: Rule)
    ensures !Tracked(Gate(r))
  {}

  lemma ActedCoherent(o: Observed, r: Rule, decoys: Rule -> Option<string>)
    requires Coherent(o)
    ensures Coherent(Acted(o, r, decoys))
  {
    hide Coherent, Tracked, Gate;
    GateUntracked(r);
    GateUntracked(LlmDetected);
    SetUntracked(o, Gate(r), Flag(true));
    SetUntracked(Raise(o, Gate(r)), Gate(LlmDetected), Flag(true));
    if decoys(r).Some? {
      PlantedCoherent(Fired(o, r), decoys(r).value);
    }
  }

  lemma {:induction false} ActedAllCoherent(o: Observed, rules: seq<Rule>, decoys: Rule -> Option<string>)
    requires Coherent(o)
    ensures Coherent(ActedAll(o, rules, decoys))
    decreases |rules|
  {
    hide Coherent, Acted;
    if rules != [] {
      ActedAllCoherent(o, rules[..|rules| - 1], decoys);
      ActedCoherent(ActedAll(o, rules[..|rules| - 1], decoys), rules[|rules| - 1], decoys);
    }
  }

  lemma FreshField(f: Field)
    ensures f in Fresh().known && Fresh().known[f] == FreshValue(f) && !Has(Fresh(), f) && NamesOf(Fresh(), f) == {}
  {}

  lemma FreshCoherent()
    ensures WellFormed(Fresh()) && Coherent(Fresh())
  {
    hide Fresh, Has, NamesOf, FreshValue, NamesField;
    forall f: Field
      ensures f in Fresh().known && Fresh().known[f] == FreshValue(f) && !Has(Fresh(), f) && NamesOf(Fresh(), f) == {}
    {
      FreshField(f);
    }
  }

  /** The observations after a whole engagement. */
  ghost function Lived(o: Observed, steps: seq<Step>): Observed
    decreases |steps|
  {
    if steps == [] then o else Lived(Next(o, steps[0]).0, steps[1..])
  }

  lemma NextCoherent(o: Observed, s: Step)
    requires WellFormed(o) && Coherent(o)
    ensures WellFormed(Next(o, s).0) && Coherent(Next(o, s).0)
  {
    hide WellFormed, Coherent, Updated, ActedAll, Drained;
    NextKeeps(o, s);
    match s
    case Observe(u) => UpdatedCoherent(o, u);
    case Drain(clock, decoys) => ActedAllCoherent(o, Drained(o, clock), decoys);
    case Reconnect =>
      ReconnectIdentity(o);
      ExtraCoherent(o, map[]);
  }

  lemma {:induction false} LivedCoherent(o: Observed, steps: seq<Step>)
    requires WellFormed(o) && Coherent(o)
    ensures WellFormed(Lived(o, steps)) && Coherent(Lived(o, steps))
    decreases |steps|
  {
    hide WellFormed, Coherent, Next;
    if steps != [] {
      NextCoherent(o, steps[0]);
      LivedCoherent(Next(o, steps[0]).0, steps[1..]);
    }
  }

  /** Over every engagement, across events, drains and reconnects, the evidence is coherent. */
  lemma EvidenceCoherent(steps: seq<Step>)
    ensures Coherent(Lived(Fresh(), steps))
  {
    hide WellFormed, Coherent;
    FreshCoherent();
    LivedCoherent(Fresh(), steps);
  }
}
