/**
 What one event leaves in the observations, key by key (plenith/session.py): the flags it raises
 and the names it brings. `Updated` follows the source statement by statement; the tables here say
 what that comes to for each key.
 */
module Sightings {
  import opened Observations

  /** The event raises the flag. */
  predicate Raises(u: Update, f: Field) {
    match u
    case Command(llm, sudo, _, lateral, crownJewel, shell, exfil, hosts, tamper, elevation) =>
      || (f == CounterAiTrapArmed && llm.armedNow) || (f == AttackerLlmProvenViaTrap && llm.leaked)
      || (f == RanSudo && sudo) || (f == AttemptedLateral && lateral) || (f == FoundCrownJewel && crownJewel)
      || ((f == ReverseShellAttempted || f == ReverseShellCommand) && shell != "")
      || (f == DnsExfilAttempted && exfil != {}) || (f == LateralToDecoy && hosts != {})
      || (f == LogTampering && tamper != {}) || (f == AttemptedSudoElevation && elevation)
    case FileRead(_, _, _, history) => f == BashHistoryInspected && history
    case FileWrite(_, _, persistence, _) => f == SshPersistenceAttempt && persistence
    case FileUnlink(_, _) => false
    case Search(hits) => f == CredentialSearchAttempted && hits != {}
  }

  /** The event brings the name under a key of names. Swallowed decoys depend on what is planted. */
  predicate Brings(u: Update, f: Field, n: string) {
    match u
    case Command(_, _, services, _, _, _, exfil, hosts, tamper, _) =>
      || (f == ServicesProbed && n in services) || (f == DnsExfilCommands && n in exfil)
      || (f == DecoyTargets && n in hosts) || (f == TamperingCommands && n in tamper)
    case FileRead(path, honeytoken, credential, _) => n == path && f == CredentialFilesRead && honeytoken && credential
    case FileWrite(path, honeytoken, _, payloadDir) =>
      n == path && ((f == HoneytokenModifications && honeytoken) || (f == PayloadDrops && payloadDir))
    case FileUnlink(path, honeytoken) =>
      n == path && (f == HoneytokenModifications || f == HoneytokenDeletions) && honeytoken
    case Search(hits) => f == CredentialSearchTerms && n in hits
  }

  /** The event reads a planted decoy. */
  predicate Swallows(o: Observed, u: Update, n: string) {
    u.FileRead? && u.path == n && n in NamesOf(o, DecoysPlanted)
  }

  /** Whether a key was true before the event, or is by the verdict of a command's detector, which
      overwrites what the last one said. */
  predicate Stands(o: Observed, u: Update, f: Field) {
    if u.Command? && f == AttackerLikelyLlm then u.llm.likely
    else if u.Command? && f == AttackerLlmConfidence then u.llm.confidence != 0.0
    else if u.Command? && f == AttackerLlmSignals then u.llm.signals != map[]
    else Has(o, f)
  }

  // ---- The building blocks -----------------------------------------------------------------------

  lemma SetEffect(o: Observed, g: Field, v: Value, f: Field)
    ensures f != g ==> Has(Set(o, g, v), f) == Has(o, f) && NamesOf(Set(o, g, v), f) == NamesOf(o, f)
    ensures f == g ==> Has(Set(o, g, v), f) == Truthy(v) && NamesOf(Set(o, g, v), f) == if v.Names? then v.names else {}
  {
    hide Truthy;
  }

  lemma ExtraEffect(o: Observed, extra: map<string, Value>, f: Field)
    ensures Has(o.(extra := extra), f) == Has(o, f) && NamesOf(o.(extra := extra), f) == NamesOf(o, f)
  {}

  lemma RaiseEffect(o: Observed, on: bool, g: Field, f: Field, n: string)
    ensures Has(RaiseIf(o, on, g), f) <==> Has(o, f) || (on && f == g)
    ensures f != g ==> (n in NamesOf(RaiseIf(o, on, g), f) <==> n in NamesOf(o, f))
  {
    hide Has, NamesOf, Set;
    SetEffect(o, g, Flag(true), f);
  }

  lemma AddEffect(o: Observed, g: Field, more: set<string>, f: Field, n: string)
    ensures f != g ==> Has(Add(o, g, more), f) == Has(o, f)
    ensures n in NamesOf(Add(o, g, more), f) <==> n in NamesOf(o, f) || (f == g && n in more)
  {
    hide Has, NamesOf, Set;
    SetEffect(o, g, Names(NamesOf(o, g) + more), f);
  }

  lemma NotedEffect(o: Observed, found: set<string>, flag: Field, names: Field, f: Field, n: string)
    ensures f != names ==> (Has(Noted(o, found, flag, names), f) <==> Has(o, f) || (found != {} && f == flag))
    ensures f != flag ==>
      (n in NamesOf(Noted(o, found, flag, names), f) <==> n in NamesOf(o, f) || (f == names && n in found))
  {
    hide Has, NamesOf, Add, Set;
    RaiseEffect(o, true, flag, f, n);
    AddEffect(Raise(o, flag), names, found, f, n);
  }

  lemma ShellEffect(o: Observed, command: string, f: Field, n: string)
    ensures Has(ShellSeen(o, command), f) <==>
      Has(o, f) || (command != "" && (f == ReverseShellAttempted || f == ReverseShellCommand))
    ensures f != ReverseShellAttempted && f != ReverseShellCommand ==>
      (n in NamesOf(ShellSeen(o, command), f) <==> n in NamesOf(o, f))
  {
    hide Has, NamesOf, Set;
    SetEffect(o, ReverseShellAttempted, Flag(true), f);
    SetEffect(o, ReverseShellAttempted, Flag(true), ReverseShellCommand);
    SetEffect(Raise(o, ReverseShellAttempted), ReverseShellCommand, Text(command), f);
  }

  /** What the verdict overwrites. */
  function Overwritten(o: Observed, v: LlmVerdict): Observed {
    Set(Set(Set(o, AttackerLikelyLlm, Flag(v.likely)), AttackerLlmConfidence, Number(v.confidence)),
        AttackerLlmSignals, Table(v.signals))
  }

  lemma OverwrittenEffect(o: Observed, u: Update, f: Field, n: string)
    requires u.Command?
    ensures Has(Overwritten(o, u.llm), f) == Stands(o, u, f)
    ensures NamesField(f) ==> (n in NamesOf(Overwritten(o, u.llm), f) <==> n in NamesOf(o, f))
  {
    hide Has, NamesOf, Set;
    var a := Set(o, AttackerLikelyLlm, Flag(u.llm.likely));
    var b := Set(a, AttackerLlmConfidence, Number(u.llm.confidence));
    SetEffect(o, AttackerLikelyLlm, Flag(u.llm.likely), f);
    SetEffect(a, AttackerLlmConfidence, Number(u.llm.confidence), f);
    SetEffect(b, AttackerLlmSignals, Table(u.llm.signals), f);
  }

  lemma JudgedEffect(o: Observed, u: Update, f: Field, n: string)
    requires u.Command?
    ensures Has(Judged(o, u.llm), f) <==>
      || Stands(o, u, f)
      || (u.llm.armedNow && f == CounterAiTrapArmed) || (u.llm.leaked && f == AttackerLlmProvenViaTrap)
    ensures NamesField(f) ==> (n in NamesOf(Judged(o, u.llm), f) <==> n in NamesOf(o, f))
  {
    hide Has, NamesOf, Set, RaiseIf, Stands;
    var v := u.llm;
    var c := Overwritten(o, v);
    var d := c.(extra := c.extra["attacker_llm_history" := v.history]);
    var e := RaiseIf(d, v.armedNow, CounterAiTrapArmed);
    var g := RaiseIf(e, v.leaked, AttackerLlmProvenViaTrap);
    OverwrittenEffect(o, u, f, n);
    ExtraEffect(c, c.extra["attacker_llm_history" := v.history], f);
    RaiseEffect(d, v.armedNow, CounterAiTrapArmed, f, n);
    RaiseEffect(e, v.leaked, AttackerLlmProvenViaTrap, f, n);
    ExtraEffect(g, g.extra["counter_ai_trap_proof" := v.proof], f);
  }

  // ---- One event, key by key ---------------------------------------------------------------------

  /** Which keys an event's flags and names are. */
  lemma Kinds(f: Field)
    ensures NamesField(f) ==>
      && f != RanSudo && f != AttemptedLateral && f != FoundCrownJewel && f != ReverseShellAttempted
      && f != ReverseShellCommand && f != DnsExfilAttempted && f != LateralToDecoy && f != LogTampering
      && f != AttemptedSudoElevation && f != SshPersistenceAttempt && f != BashHistoryInspected
    ensures !NamesField(f) ==>
      && f != ServicesProbed && f != DnsExfilCommands && f != DecoyTargets && f != TamperingCommands
      && f != CredentialFilesRead && f != HoneytokenModifications && f != PayloadDrops && f != DecoysSwallowed
  {}

  /** A command's update in two halves. */
  function Head(o: Observed, u: Update): Observed
    requires u.Command?
  {
    var probed := Add(RaiseIf(Judged(o, u.llm), u.sudo, RanSudo), ServicesProbed, u.services);
    ShellSeen(RaiseIf(RaiseIf(probed, u.lateral, AttemptedLateral), u.crownJewel, FoundCrownJewel), u.reverseShell)
  }

  function Rest(o: Observed, u: Update): Observed
    requires u.Command?
  {
    var exfil := Noted(o, u.exfil, DnsExfilAttempted, DnsExfilCommands);
    var found := Noted(exfil, u.decoyHosts, LateralToDecoy, DecoyTargets);
    RaiseIf(Noted(found, u.logTamper, LogTampering, TamperingCommands), u.elevation, AttemptedSudoElevation)
  }

  predicate HeadRaises(u: Update, f: Field)
    requires u.Command?
  {
    || (u.llm.armedNow && f == CounterAiTrapArmed) || (u.llm.leaked && f == AttackerLlmProvenViaTrap)
    || (u.sudo && f == RanSudo) || (u.lateral && f == AttemptedLateral) || (u.crownJewel && f == FoundCrownJewel)
    || (u.reverseShell != "" && (f == ReverseShellAttempted || f == ReverseShellCommand))
  }

  predicate RestRaises(u: Update, f: Field)
    requires u.Command?
  {
    || (u.exfil != {} && f == DnsExfilAttempted) || (u.decoyHosts != {} && f == LateralToDecoy)
    || (u.logTamper != {} && f == LogTampering) || (u.elevation && f == AttemptedSudoElevation)
  }

  predicate RestBrings(u: Update, f: Field, n: string)
    requires u.Command?
  {
    || (f == DnsExfilCommands && n in u.exfil) || (f == DecoyTargets && n in u.decoyHosts)
    || (f == TamperingCommands && n in u.logTamper)
  }

  lemma Parts(u: Update, f: Field, n: string)
    requires u.Command?
    ensures Raises(u, f) <==> HeadRaises(u, f) || RestRaises(u, f)
    ensures Brings(u, f, n) <==> (f == ServicesProbed && n in u.services) || RestBrings(u, f, n)
  {}

  lemma Halves(o: Observed, u: Update)
    requires u.Command?
    ensures Updated(o, u) == Rest(Head(o, u), u)
  {
    hide Judged, ShellSeen, Noted, Add, RaiseIf;
  }

  lemma HeadEffect(o: Observed, u: Update, f: Field, n: string)
    requires u.Command?
    ensures !NamesField(f) ==> (Has(Head(o, u), f) <==> Stands(o, u, f) || HeadRaises(u, f))
    ensures NamesField(f) ==>
      (n in NamesOf(Head(o, u), f) <==> n in NamesOf(o, f) || (f == ServicesProbed && n in u.services))
  {
    hide Has, NamesOf, Judged, ShellSeen, Add, RaiseIf, Stands, NamesField;
    Kinds(f);
    var a := Judged(o, u.llm);
    var b := RaiseIf(a, u.sudo, RanSudo);
    var c := Add(b, ServicesProbed, u.services);
    var d := RaiseIf(c, u.lateral, AttemptedLateral);
    JudgedEffect(o, u, f, n);
    RaiseEffect(a, u.sudo, RanSudo, f, n);
    AddEffect(b, ServicesProbed, u.services, f, n);
    RaiseEffect(c, u.lateral, AttemptedLateral, f, n);
    RaiseEffect(d, u.crownJewel, FoundCrownJewel, f, n);
    ShellEffect(RaiseIf(d, u.crownJewel, FoundCrownJewel), u.reverseShell, f, n);
  }

  lemma RestEffect(o: Observed, u: Update, f: Field, n: string)
    requires u.Command?
    ensures !NamesField(f) ==> (Has(Rest(o, u), f) <==> Has(o, f) || RestRaises(u, f))
    ensures NamesField(f) ==> (n in NamesOf(Rest(o, u), f) <==> n in NamesOf(o, f) || RestBrings(u, f, n))
  {
    hide Has, NamesOf, Noted, RaiseIf, NamesField;
    Kinds(f);
    var h := Noted(o, u.exfil, DnsExfilAttempted, DnsExfilCommands);
    var i := Noted(h, u.decoyHosts, LateralToDecoy, DecoyTargets);
    var j := Noted(i, u.logTamper, LogTampering, TamperingCommands);
    NotedEffect(o, u.exfil, DnsExfilAttempted, DnsExfilCommands, f, n);
    NotedEffect(h, u.decoyHosts, LateralToDecoy, DecoyTargets, f, n);
    NotedEffect(i, u.logTamper, LogTampering, TamperingCommands, f, n);
    RaiseEffect(j, u.elevation, AttemptedSudoElevation, f, n);
  }

  lemma CommandEffect(o: Observed, u: Update, f: Field, n: string)
    requires u.Command?
    ensures !NamesField(f) ==> (Has(Updated(o, u), f) <==> Stands(o, u, f) || Raises(u, f))
    ensures NamesField(f) ==> (n in NamesOf(Updated(o, u), f) <==> n in NamesOf(o, f) || Brings(u, f, n))
  {
    hide *;
    Parts(u, f, n);
    Halves(o, u);
    HeadEffect(o, u, f, n);
    RestEffect(Head(o, u), u, f, n);
  }

  /** A read up to the question whether it was of a decoy. */
  function Glanced(o: Observed, u: Update): Observed
    requires u.FileRead?
  {
    RaiseIf(if u.honeytoken && u.credential then Add(o, CredentialFilesRead, {u.path}) else o,
            u.history, BashHistoryInspected)
  }

  lemma GlancedEffect(o: Observed, u: Update, f: Field, n: string)
    requires u.FileRead?
    ensures !NamesField(f) ==> (Has(Glanced(o, u), f) <==> Has(o, f) || (f == BashHistoryInspected && u.history))
    ensures NamesField(f) ==> (n in NamesOf(Glanced(o, u), f) <==>
      n in NamesOf(o, f) || (n == u.path && f == CredentialFilesRead && u.honeytoken && u.credential))
  {
    hide Has, NamesOf, Add, RaiseIf, NamesField;
    Kinds(f);
    AddEffect(o, CredentialFilesRead, {u.path}, f, n);
    RaiseEffect(if u.honeytoken && u.credential then Add(o, CredentialFilesRead, {u.path}) else o,
                u.history, BashHistoryInspected, f, n);
  }

  lemma GlancedDecoys(o: Observed, u: Update)
    requires u.FileRead?
    ensures Updated(o, u) ==
      if u.path in NamesOf(o, DecoysPlanted) then Add(Glanced(o, u), DecoysSwallowed, {u.path}) else Glanced(o, u)
  {
    hide Has, NamesOf, Add, RaiseIf;
    GlancedEffect(o, u, DecoysPlanted, u.path);
  }

  lemma ReadEffect(o: Observed, u: Update, f: Field, n: string)
    requires u.FileRead?
    ensures !NamesField(f) ==> (Has(Updated(o, u), f) <==> Has(o, f) || Raises(u, f))
    ensures NamesField(f) ==> (n in NamesOf(Updated(o, u), f) <==>
      n in NamesOf(o, f) || Brings(u, f, n) || (f == DecoysSwallowed && Swallows(o, u, n)))
  {
    hide Has, NamesOf, Add, Glanced, Updated, NamesField;
    Kinds(f);
    GlancedDecoys(o, u);
    GlancedEffect(o, u, f, n);
    AddEffect(Glanced(o, u), DecoysSwallowed, {u.path}, f, n);
  }

  lemma WriteEffect(o: Observed, u: Update, f: Field, n: string)
    requires u.FileWrite?
    ensures !NamesField(f) ==> (Has(Updated(o, u), f) <==> Has(o, f) || Raises(u, f))
    ensures NamesField(f) ==> (n in NamesOf(Updated(o, u), f) <==> n in NamesOf(o, f) || Brings(u, f, n))
  {
    hide Has, NamesOf, Add, RaiseIf, NamesField;
    Kinds(f);
    var a := RaiseIf(o, u.persistence, SshPersistenceAttempt);
    var b := if u.honeytoken then Add(a, HoneytokenModifications, {u.path}) else a;
    RaiseEffect(o, u.persistence, SshPersistenceAttempt, f, n);
    AddEffect(a, HoneytokenModifications, {u.path}, f, n);
    AddEffect(b, PayloadDrops, {u.path}, f, n);
  }

  lemma UnlinkEffect(o: Observed, u: Update, f: Field, n: string)
    requires u.FileUnlink?
    ensures !NamesField(f) ==> Has(Updated(o, u), f) == Has(o, f)
    ensures NamesField(f) ==> (n in NamesOf(Updated(o, u), f) <==> n in NamesOf(o, f) || Brings(u, f, n))
  {
    hide Has, NamesOf, Add;
    AddEffect(o, HoneytokenModifications, {u.path}, f, n);
    AddEffect(Add(o, HoneytokenModifications, {u.path}), HoneytokenDeletions, {u.path}, f, n);
  }

  lemma SearchEffect(o: Observed, u: Update, f: Field, n: string)
    requires u.Search?
    ensures !NamesField(f) ==> (Has(Updated(o, u), f) <==> Has(o, f) || Raises(u, f))
    ensures NamesField(f) ==> (n in NamesOf(Updated(o, u), f) <==> n in NamesOf(o, f) || Brings(u, f, n))
  {
    hide Has, NamesOf, Noted;
    NotedEffect(o, u.hits, CredentialSearchAttempted, CredentialSearchTerms, f, n);
  }

  lemma EventEffect(o: Observed, u: Update, f: Field, n: string)
    ensures !NamesField(f) ==> (Has(Updated(o, u), f) <==> Stands(o, u, f) || Raises(u, f))
    ensures NamesField(f) ==> (n in NamesOf(Updated(o, u), f) <==>
      n in NamesOf(o, f) || Brings(u, f, n) || (f == DecoysSwallowed && Swallows(o, u, n)))
  {
    hide Has, NamesOf, Updated, NamesField, Brings, Raises;
    if u.Command? {
      CommandEffect(o, u, f, n);
    } else if u.FileRead? {
      ReadEffect(o, u, f, n);
    } else if u.FileWrite? {
      WriteEffect(o, u, f, n);
    } else if u.FileUnlink? {
      UnlinkEffect(o, u, f, n);
      RemovalRaisesNothing(u, f);
    } else {
      SearchEffect(o, u, f, n);
    }
  }

  lemma RemovalRaisesNothing(u: Update, f: Field)
    requires u.FileUnlink?
    ensures !Raises(u, f)
  {}

  /** An event raises exactly its own flags, and leaves every other as it stood. */
  lemma FlagStep(o: Observed, u: Update, f: Field)
    requires !NamesField(f)
    ensures Has(Updated(o, u), f) <==> Stands(o, u, f) || Raises(u, f)
  {
    hide *;
    EventEffect(o, u, f, "");
  }

  /** An event brings exactly its own names, and swallows the decoy it reads. */
  lemma NamesStep(o: Observed, u: Update, f: Field)
    requires NamesField(f)
    ensures forall n :: n in NamesOf(Updated(o, u), f) <==>
      n in NamesOf(o, f) || Brings(u, f, n) || (f == DecoysSwallowed && Swallows(o, u, n))
  {
    hide *;
    forall n ensures n in NamesOf(Updated(o, u), f) <==>
      n in NamesOf(o, f) || Brings(u, f, n) || (f == DecoysSwallowed && Swallows(o, u, n))
    {
      EventEffect(o, u, f, n);
    }
  }

  // ---- What the detector writes down ---------------------------------------------------------------

  /** The keys outside the template that a command leaves: the history always, the proof once there is
      one; and no other event touches any. */
  lemma ExtraStep(o: Observed, u: Update, k: string)
    ensures var before, after := o.extra, Updated(o, u).extra;
      if u.Command? && k == "attacker_llm_history" then k in after && after[k] == u.llm.history
      else if u.Command? && u.llm.leaked && k == "counter_ai_trap_proof" then k in after && after[k] == u.llm.proof
      else (k in after <==> k in before) && (k in after ==> after[k] == before[k])
  {
    hide Updated, Head, Rest, Judged;
    if u.Command? {
      JudgedExtra(o, u.llm);
      Halves(o, u);
      HalvesExtra(o, u);
    } else {
      FileExtra(o, u);
    }
  }

  lemma HalvesExtra(o: Observed, u: Update)
    requires u.Command?
    ensures Rest(Head(o, u), u).extra == Judged(o, u.llm).extra
  {
    hide Judged, Add, RaiseIf, Noted, ShellSeen;
    var a := Judged(o, u.llm);
    var b := RaiseIf(a, u.sudo, RanSudo);
    var c := Add(b, ServicesProbed, u.services);
    var d := RaiseIf(c, u.lateral, AttemptedLateral);
    var e := RaiseIf(d, u.crownJewel, FoundCrownJewel);
    var g := ShellSeen(e, u.reverseShell);
    var h := Noted(g, u.exfil, DnsExfilAttempted, DnsExfilCommands);
    var i := Noted(h, u.decoyHosts, LateralToDecoy, DecoyTargets);
    var j := Noted(i, u.logTamper, LogTampering, TamperingCommands);
    RaiseExtra(a, u.sudo, RanSudo);
    AddExtra(b, ServicesProbed, u.services);
    RaiseExtra(c, u.lateral, AttemptedLateral);
    RaiseExtra(d, u.crownJewel, FoundCrownJewel);
    ShellExtra(e, u.reverseShell);
    NotedExtra(g, u.exfil, DnsExfilAttempted, DnsExfilCommands);
    NotedExtra(h, u.decoyHosts, LateralToDecoy, DecoyTargets);
    NotedExtra(i, u.logTamper, LogTampering, TamperingCommands);
    RaiseExtra(j, u.elevation, AttemptedSudoElevation);
  }

  lemma RaiseExtra(o: Observed, on: bool, g: Field)
    ensures RaiseIf(o, on, g).extra == o.extra
  {}

  lemma AddExtra(o: Observed, g: Field, more: set<string>)
    ensures Add(o, g, more).extra == o.extra
  {}

  lemma NotedExtra(o: Observed, found: set<string>, flag: Field, names: Field)
    ensures Noted(o, found, flag, names).extra == o.extra
  {}

  lemma ShellExtra(o: Observed, command: string)
    ensures ShellSeen(o, command).extra == o.extra
  {}

  lemma FileExtra(o: Observed, u: Update)
    requires !u.Command?
    ensures Updated(o, u).extra == o.extra
  {
    hide Has, NamesOf;
  }

  lemma JudgedExtra(o: Observed, v: LlmVerdict)
    ensures var noted := o.extra["attacker_llm_history" := v.history];
      Judged(o, v).extra == if v.leaked then noted["counter_ai_trap_proof" := v.proof] else noted
  {
    hide Has, NamesOf;
  }

  /** The values a command leaves: the score and its signals, and the first reverse shell seen. */
  lemma ValueStep(o: Observed, u: Update)
    requires u.Command?
    ensures var known := Updated(o, u).known;
      && AttackerLikelyLlm in known && known[AttackerLikelyLlm] == Flag(u.llm.likely)
      && AttackerLlmConfidence in known && known[AttackerLlmConfidence] == Number(u.llm.confidence)
      && AttackerLlmSignals in known && known[AttackerLlmSignals] == Table(u.llm.signals)
      && (u.reverseShell != "" && !Has(o, ReverseShellCommand) ==>
            ReverseShellCommand in known && known[ReverseShellCommand] == Text(u.reverseShell))
      && (u.reverseShell == "" || Has(o, ReverseShellCommand) ==>
            (ReverseShellCommand in known <==> ReverseShellCommand in o.known)
            && (ReverseShellCommand in known ==> known[ReverseShellCommand] == o.known[ReverseShellCommand]))
  {
    hide Has, NamesOf, Updated, Head, Rest;
    Halves(o, u);
    RestKey(Head(o, u), u, AttackerLikelyLlm);
    RestKey(Head(o, u), u, AttackerLlmConfidence);
    RestKey(Head(o, u), u, AttackerLlmSignals);
    RestKey(Head(o, u), u, ReverseShellCommand);
    HeadKeys(o, u);
  }

  predicate SameKey(a: Observed, b: Observed, f: Field) {
    (f in a.known <==> f in b.known) && (f in a.known ==> a.known[f] == b.known[f])
  }

  lemma SetKey(o: Observed, g: Field, v: Value, f: Field)
    ensures f != g ==> SameKey(Set(o, g, v), o, f)
    ensures g in Set(o, g, v).known && Set(o, g, v).known[g] == v
  {}

  lemma RaiseKey(o: Observed, on: bool, g: Field, f: Field)
    ensures f != g ==> SameKey(RaiseIf(o, on, g), o, f)
  {
    SetKey(o, g, Flag(true), f);
  }

  lemma AddKey(o: Observed, g: Field, more: set<string>, f: Field)
    ensures f != g ==> SameKey(Add(o, g, more), o, f)
  {
    SetKey(o, g, Names(NamesOf(o, g) + more), f);
  }

  lemma NotedKey(o: Observed, found: set<string>, flag: Field, names: Field, f: Field)
    ensures f != flag && f != names ==> SameKey(Noted(o, found, flag, names), o, f)
  {
    hide Set, RaiseIf, Add;
    SetKey(o, flag, Flag(true), f);
    AddKey(Raise(o, flag), names, found, f);
  }

  lemma RestKey(o: Observed, u: Update, f: Field)
    requires u.Command?
    requires f == AttackerLikelyLlm || f == AttackerLlmConfidence || f == AttackerLlmSignals || f == ReverseShellCommand
    ensures SameKey(Rest(o, u), o, f)
  {
    hide Noted, RaiseIf;
    var h := Noted(o, u.exfil, DnsExfilAttempted, DnsExfilCommands);
    var i := Noted(h, u.decoyHosts, LateralToDecoy, DecoyTargets);
    var j := Noted(i, u.logTamper, LogTampering, TamperingCommands);
    NotedKey(o, u.exfil, DnsExfilAttempted, DnsExfilCommands, f);
    NotedKey(h, u.decoyHosts, LateralToDecoy, DecoyTargets, f);
    NotedKey(i, u.logTamper, LogTampering, TamperingCommands, f);
    RaiseKey(j, u.elevation, AttemptedSudoElevation, f);
  }

  lemma HeadKeys(o: Observed, u: Update)
    requires u.Command?
    ensures var known := Head(o, u).known;
      && AttackerLikelyLlm in known && known[AttackerLikelyLlm] == Flag(u.llm.likely)
      && AttackerLlmConfidence in known && known[AttackerLlmConfidence] == Number(u.llm.confidence)
      && AttackerLlmSignals in known && known[AttackerLlmSignals] == Table(u.llm.signals)
    ensures if u.reverseShell != "" && !Has(o, ReverseShellCommand)
      then ReverseShellCommand in Head(o, u).known && Head(o, u).known[ReverseShellCommand] == Text(u.reverseShell)
      else SameKey(Head(o, u), o, ReverseShellCommand)
  {
    hide Judged, ShellSeen, Middle, Truthy;
    var a := Judged(o, u.llm);
    var e := Middle(a, u);
    JudgedKeys(o, u.llm);
    MiddleKey(a, u, AttackerLikelyLlm);
    MiddleKey(a, u, AttackerLlmConfidence);
    MiddleKey(a, u, AttackerLlmSignals);
    MiddleKey(a, u, ReverseShellCommand);
    ShellKeys(e, u.reverseShell);
    HeadByMiddle(o, u);
  }

  function Middle(a: Observed, u: Update): Observed
    requires u.Command?
  {
    var probed := Add(RaiseIf(a, u.sudo, RanSudo), ServicesProbed, u.services);
    RaiseIf(RaiseIf(probed, u.lateral, AttemptedLateral), u.crownJewel, FoundCrownJewel)
  }

  lemma HeadByMiddle(o: Observed, u: Update)
    requires u.Command?
    ensures Head(o, u) == ShellSeen(Middle(Judged(o, u.llm), u), u.reverseShell)
  {
    hide Judged, ShellSeen, Add, RaiseIf;
  }

  lemma MiddleKey(a: Observed, u: Update, f: Field)
    requires u.Command?
    requires f == AttackerLikelyLlm || f == AttackerLlmConfidence || f == AttackerLlmSignals || f == ReverseShellCommand
    ensures SameKey(Middle(a, u), a, f)
  {
    hide Add, RaiseIf;
    var b := RaiseIf(a, u.sudo, RanSudo);
    var c := Add(b, ServicesProbed, u.services);
    var d := RaiseIf(c, u.lateral, AttemptedLateral);
    RaiseKey(a, u.sudo, RanSudo, f);
    AddKey(b, ServicesProbed, u.services, f);
    RaiseKey(c, u.lateral, AttemptedLateral, f);
    RaiseKey(d, u.crownJewel, FoundCrownJewel, f);
  }

  lemma JudgedKeys(o: Observed, v: LlmVerdict)
    ensures var known := Judged(o, v).known;
      && AttackerLikelyLlm in known && known[AttackerLikelyLlm] == Flag(v.likely)
      && AttackerLlmConfidence in known && known[AttackerLlmConfidence] == Number(v.confidence)
      && AttackerLlmSignals in known && known[AttackerLlmSignals] == Table(v.signals)
    ensures SameKey(Judged(o, v), o, ReverseShellCommand)
  {
    hide Truthy, Has, NamesOf;
  }

  lemma ShellKeys(o: Observed, command: string)
    ensures SameKey(ShellSeen(o, command), o, AttackerLikelyLlm)
    ensures SameKey(ShellSeen(o, command), o, AttackerLlmConfidence)
    ensures SameKey(ShellSeen(o, command), o, AttackerLlmSignals)
    ensures if command != "" && !Has(o, ReverseShellCommand)
      then var known := ShellSeen(o, command).known;
        ReverseShellCommand in known && known[ReverseShellCommand] == Text(command)
      else SameKey(ShellSeen(o, command), o, ReverseShellCommand)
  {}
}
