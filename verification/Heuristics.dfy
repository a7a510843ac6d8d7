/**
 The heuristic engine: the rule ladder (plenith/heuristics.py), the executors it drives
 (plenith/responses.py) and the loop that drains it (`_maybe_record_action` in
 plenith/orchestrator.py), over engagements that span many connections (plenith/session.py).

 `Trigger` and `Gate` tabulate the rules; the ladder itself is `Session.DecideAction`.
 */
module Heuristics {
  import opened Common
  import opened Observations

  datatype Rule =
    | ReverseShell | SshPersistence | HoneytokenTamper | DnsExfil | LlmProven | LlmDetected
    | LateralDecoy | LogTamper | CredentialExfil | DecoySwallowed | CredentialSearch | PayloadStaging
    | SudoVulnerability | FakeMysql | IsolateSession | AwsCredentials

  /** The ladder, highest priority first. */
  const LADDER: seq<Rule> := [
    ReverseShell, SshPersistence, HoneytokenTamper, DnsExfil, LlmProven, LlmDetected,
    LateralDecoy, LogTamper, CredentialExfil, DecoySwallowed, CredentialSearch, PayloadStaging,
    SudoVulnerability, FakeMysql, IsolateSession, AwsCredentials]

  function Rank(r: Rule): (i: nat)
    ensures i < |LADDER| && LADDER[i] == r
  {
    match r
    case ReverseShell => 0
    case SshPersistence => 1
    case HoneytokenTamper => 2
    case DnsExfil => 3
    case LlmProven => 4
    case LlmDetected => 5
    case LateralDecoy => 6
    case LogTamper => 7
    case CredentialExfil => 8
    case DecoySwallowed => 9
    case CredentialSearch => 10
    case PayloadStaging => 11
    case SudoVulnerability => 12
    case FakeMysql => 13
    case IsolateSession => 14
    case AwsCredentials => 15
  }

  /** What a rule reacts to. Only the last rule looks at the clock. */
  predicate Trigger(r: Rule, o: Observed, elapsed: real) {
    match r
    case ReverseShell => Has(o, ReverseShellAttempted)
    case SshPersistence => Has(o, SshPersistenceAttempt)
    case HoneytokenTamper => Has(o, HoneytokenModifications)
    case DnsExfil => Has(o, DnsExfilAttempted)
    case LlmProven => Has(o, AttackerLlmProvenViaTrap)
    case LlmDetected => Has(o, AttackerLikelyLlm)
    case LateralDecoy => Has(o, LateralToDecoy)
    case LogTamper => Has(o, LogTampering)
    case CredentialExfil => Has(o, CredentialFilesRead)
    case DecoySwallowed => Has(o, DecoysSwallowed)
    case CredentialSearch => Has(o, CredentialSearchAttempted)
    case PayloadStaging => |NamesOf(o, PayloadDrops)| >= 3
    case SudoVulnerability => Has(o, RanSudo)
    case FakeMysql => "mysql" in NamesOf(o, ServicesProbed)
    case IsolateSession => Has(o, AttemptedLateral)
    case AwsCredentials => elapsed > 600.0
  }

  /** The flag that disables a rule once it has fired. */
  function Gate(r: Rule): Field {
    match r
    case ReverseShell => AlertedReverseShell
    case SshPersistence => AlertedSshPersistence
    case HoneytokenTamper => AlertedHoneytokenTamper
    case DnsExfil => AlertedDnsExfil
    case LlmProven => AlertedAttackerLlmProven
    case LlmDetected => AlertedAttackerLlmDetected
    case LateralDecoy => AlertedLateralDecoy
    case LogTamper => AlertedLogTampering
    case CredentialExfil => AlertedCredentialExfil
    case DecoySwallowed => AlertedDecoySwallowed
    case CredentialSearch => AlertedCredentialSearch
    case PayloadStaging => AlertedPayloadStaging
    case SudoVulnerability => PlantedSudoCve
    case FakeMysql => SpawnedMysql
    case IsolateSession => Isolated
    case AwsCredentials => FoundCrownJewel
  }

  predicate Enabled(r: Rule, o: Observed, elapsed: real) {
    Trigger(r, o, elapsed) && !Has(o, Gate(r))
  }

  /** Firing a rule raises its gate; the proven alert also takes the detected one's. */
  function Fired(o: Observed, r: Rule): Observed {
    if r == LlmProven then Raise(Raise(o, Gate(r)), Gate(LlmDetected)) else Raise(o, Gate(r))
  }

  /** No rule of higher priority than `i` is enabled. */
  predicate QuietBelow(o: Observed, elapsed: real, i: nat) {
    forall r: Rule :: Rank(r) < i ==> !Enabled(r, o, elapsed)
  }

  /** The same, rule by rule as the ladder is walked. */
  predicate Quiet(o: Observed, elapsed: real, i: nat)
    requires i <= |LADDER|
  {
    i == 0 || (Quiet(o, elapsed, i - 1) && !Enabled(LADDER[i - 1], o, elapsed))
  }

  lemma QuietStep(o: Observed, elapsed: real, r: Rule)
    requires Quiet(o, elapsed, Rank(r)) && !Enabled(r, o, elapsed)
    ensures Quiet(o, elapsed, Rank(r) + 1)
  {}

  lemma {:induction false} QuietAll(o: Observed, elapsed: real, i: nat)
    requires i <= |LADDER|
    ensures Quiet(o, elapsed, i) <==> QuietBelow(o, elapsed, i)
  {
    if i > 0 {
      QuietAll(o, elapsed, i - 1);
      RankOfLadder(i - 1);
      forall r: Rule | Rank(r) == i - 1 ensures r == LADDER[i - 1] {}
    }
  }

  /** The decision the ladder owes: the first enabled rule, if any. */
  predicate Decides(o: Observed, elapsed: real, action: Option<Rule>) {
    match action
    case None => Quiet(o, elapsed, |LADDER|)
    case Some(r) => Enabled(r, o, elapsed) && Quiet(o, elapsed, Rank(r))
  }

  /** The executors plant a decoy; its path is all the rules could ever see of it. `decoys` gives
      that path, or `None` when the executor raised before recording one. */
  predicate Plants(r: Rule) {
    r == SudoVulnerability || r == FakeMysql || r == AwsCredentials
  }

  function Planted(o: Observed, path: string): Observed {
    Set(o, DecoysPlanted, Names(NamesOf(o, DecoysPlanted) + {path}))
  }

  function Executed(o: Observed, r: Rule, decoys: Rule -> Option<string>): Observed {
    if Plants(r) && decoys(r).Some? then Planted(o, decoys(r).value) else o
  }

  function Acted(o: Observed, r: Rule, decoys: Rule -> Option<string>): Observed {
    Executed(Fired(o, r), r, decoys)
  }

  /** The keys that firing a rule may set. */
  ghost predicate MarksFiring(f: Field) {
    f == DecoysPlanted || exists r :: f == Gate(r)
  }

  lemma GateMarks(r: Rule)
    ensures MarksFiring(Gate(r)) && MarksFiring(DecoysPlanted)
  {}

  /** No trigger reads a gate flag or the set of planted decoys. */
  lemma TriggerUnmoved(o: Observed, f: Field, v: Value, x: Rule, elapsed: real)
    requires MarksFiring(f)
    ensures Trigger(x, Set(o, f, v), elapsed) == Trigger(x, o, elapsed)
  {
    assert f == DecoysPlanted || f in {
      AlertedReverseShell, AlertedSshPersistence, AlertedHoneytokenTamper, AlertedDnsExfil, AlertedAttackerLlmProven,
      AlertedAttackerLlmDetected, AlertedLateralDecoy, AlertedLogTampering, AlertedCredentialExfil,
      AlertedDecoySwallowed, AlertedCredentialSearch, AlertedPayloadStaging, PlantedSudoCve, SpawnedMysql,
      Isolated, FoundCrownJewel};
  }

  lemma RaisedEnabled(o: Observed, r: Rule, x: Rule, elapsed: real)
    ensures Enabled(x, Raise(o, Gate(r)), elapsed) <==> Enabled(x, o, elapsed) && x != r
  {
    hide Trigger, Gate, MarksFiring;
    GateMarks(r);
    TriggerUnmoved(o, Gate(r), Flag(true), x, elapsed);
    GateDistinct(r, x);
  }

  lemma PlantedEnabled(o: Observed, v: Value, x: Rule, elapsed: real)
    ensures Enabled(x, Set(o, DecoysPlanted, v), elapsed) <==> Enabled(x, o, elapsed)
  {
    hide Trigger, Gate, MarksFiring;
    GateMarks(x);
    TriggerUnmoved(o, DecoysPlanted, v, x, elapsed);
    GateDistinct(x, x);
  }

  /** Acting on a rule leaves every other rule as it was, except that proof silences detection. */
  lemma ActedEnabled(o: Observed, r: Rule, decoys: Rule -> Option<string>, x: Rule, elapsed: real)
    ensures Enabled(x, Acted(o, r, decoys), elapsed) <==>
      Enabled(x, o, elapsed) && x != r && !(r == LlmProven && x == LlmDetected)
  {
    hide Trigger, Gate, Enabled;
    RaisedEnabled(o, r, x, elapsed);
    RaisedEnabled(Raise(o, Gate(r)), LlmDetected, x, elapsed);
    if decoys(r).Some? {
      PlantedEnabled(Fired(o, r), Names(NamesOf(Fired(o, r), DecoysPlanted) + {decoys(r).value}), x, elapsed);
    }
  }

  lemma GateDistinct(r: Rule, x: Rule)
    ensures Gate(r) == Gate(x) ==> r == x
    ensures Gate(r) != DecoysPlanted
  {}

  // ---- One ordered pass ------------------------------------------------------------------------

  /** The rules a drain must emit: those enabled at its start, in ladder order, with the proven
      alert suppressing the detected one. `late` says whether the clock rule is due. */
  predicate Due(r: Rule, o: Observed, late: bool) {
    && Enabled(r, o, if late then 601.0 else 0.0)
    && !(r == LlmDetected && Enabled(LlmProven, o, 0.0))
  }

  function Pass(o: Observed, late: bool, i: nat): (emitted: seq<Rule>)
    requires i <= |LADDER|
    ensures |emitted| <= |LADDER| - i
    decreases |LADDER| - i
  {
    if i == |LADDER| then []
    else if Due(LADDER[i], o, late) then [LADDER[i]] + Pass(o, late, i + 1)
    else Pass(o, late, i + 1)
  }

  /** In ladder order, and so without repetition. */
  ghost predicate Ascending(rules: seq<Rule>) {
    forall a, b :: 0 <= a < b < |rules| ==> Rank(rules[a]) < Rank(rules[b])
  }

  /** The pass lists exactly the due rules, each once and in ladder order. */
  lemma {:induction false} PassIsDue(o: Observed, late: bool, i: nat)
    requires i <= |LADDER|
    ensures forall r: Rule :: r in Pass(o, late, i) <==> Due(r, o, late) && Rank(r) >= i
    ensures Ascending(Pass(o, late, i))
    decreases |LADDER| - i
  {
    if i < |LADDER| {
      hide Due, Rank, Ascending;
      PassIsDue(o, late, i + 1);
      RankOfLadder(i);
      forall r: Rule | Rank(r) == i ensures r == LADDER[i] {
        assert LADDER[Rank(r)] == r;
      }
      AscendingCons(LADDER[i], Pass(o, late, i + 1));
    } else {
      forall r: Rule ensures Rank(r) < i {}
    }
  }

  lemma AscendingCons(r: Rule, rest: seq<Rule>)
    requires Ascending(rest)
    ensures (forall x :: x in rest ==> Rank(x) > Rank(r)) ==> Ascending([r] + rest)
  {
    hide Rank;
    forall a, b | 0 <= a < b < |[r] + rest| && (forall x :: x in rest ==> Rank(x) > Rank(r))
      ensures Rank(([r] + rest)[a]) < Rank(([r] + rest)[b])
    {
      assert rest[b - 1] in rest;
    }
  }

  lemma RankOfLadder(i: nat)
    requires i < |LADDER|
    ensures Rank(LADDER[i]) == i
  {}

  /** Sixteen rules, but never more than fifteen actions. */
  lemma PassBound(o: Observed, late: bool)
    ensures |Pass(o, late, 0)| <= 15
  {
    hide Pass;
    PassGrows(o, late, 0, Rank(LlmProven));
    ProvenOrDetected(o, late, Rank(LlmProven));
  }

  lemma {:induction false} PassGrows(o: Observed, late: bool, i: nat, k: nat)
    requires i <= k <= |LADDER|
    ensures |Pass(o, late, i)| <= |Pass(o, late, k)| + (k - i)
    decreases k - i
  {
    hide Due;
    if i < k {
      PassGrows(o, late, i + 1, k);
    }
  }

  /** The proven and the detected alert are never both due. */
  lemma ProvenOrDetected(o: Observed, late: bool, i: nat)
    requires i == Rank(LlmProven)
    ensures |Pass(o, late, i)| <= |LADDER| - i - 1
  {
    hide Enabled;
    assert LADDER[i] == LlmProven && LADDER[i + 1] == LlmDetected;
    ClockFree(LlmProven, o, if late then 601.0 else 0.0, 0.0);
    assert !Due(LlmProven, o, late) || !Due(LlmDetected, o, late);
  }

  lemma PassTakes(o: Observed, late: bool, i: nat)
    requires i < |LADDER| && Due(LADDER[i], o, late)
    ensures Pass(o, late, i) == [LADDER[i]] + Pass(o, late, i + 1)
  {}

  lemma {:induction false} PassSkips(o: Observed, late: bool, i: nat, k: nat)
    requires i <= k <= |LADDER|
    requires forall r: Rule :: i <= Rank(r) < k ==> !Due(r, o, late)
    ensures Pass(o, late, i) == Pass(o, late, k)
    decreases k - i
  {
    if i < k {
      RankOfLadder(i);
      PassSkips(o, late, i + 1, k);
    }
  }

  lemma {:induction false} PassSame(o: Observed, o': Observed, late: bool, i: nat)
    requires i <= |LADDER|
    requires forall r: Rule :: i <= Rank(r) ==> Due(r, o, late) == Due(r, o', late)
    ensures Pass(o, late, i) == Pass(o', late, i)
    decreases |LADDER| - i
  {
    if i < |LADDER| {
      RankOfLadder(i);
      PassSame(o, o', late, i + 1);
    }
  }

  /** Only the last rule depends on the clock. */
  lemma ClockFree(r: Rule, o: Observed, t: real, u: real)
    requires r != AwsCredentials
    ensures Enabled(r, o, t) == Enabled(r, o, u)
  {}

  lemma EnabledAt(r: Rule, o: Observed, elapsed: real, late: bool)
    requires Enabled(r, o, elapsed) && (r == AwsCredentials ==> late)
    ensures Enabled(r, o, if late then 601.0 else 0.0)
  {
    if r != AwsCredentials { ClockFree(r, o, elapsed, if late then 601.0 else 0.0); }
  }

  /** The rule taken was due, and acting on it settles it. */
  lemma HeadDue(o: Observed, r: Rule, decoys: Rule -> Option<string>, late: bool, elapsed: real)
    requires Enabled(r, o, elapsed) && QuietBelow(o, elapsed, Rank(r))
    requires r == AwsCredentials ==> late
    ensures Due(r, o, late) && !Due(r, Acted(o, r, decoys), late)
  {
    hide Enabled, Acted;
    EnabledAt(r, o, elapsed, late);
    if r == LlmDetected { ClockFree(LlmProven, o, elapsed, 0.0); }
    ActedEnabled(o, r, decoys, r, if late then 601.0 else 0.0);
  }

  lemma HeadBelow(o: Observed, r: Rule, decoys: Rule -> Option<string>, late: bool, elapsed: real, x: Rule)
    requires QuietBelow(o, elapsed, Rank(r)) && Rank(x) < Rank(r)
    ensures !Due(x, o, late) && !Due(x, Acted(o, r, decoys), late)
  {
    hide Enabled, Acted;
    ClockFree(x, o, elapsed, if late then 601.0 else 0.0);
    ActedEnabled(o, r, decoys, x, if late then 601.0 else 0.0);
  }

  lemma HeadAbove(o: Observed, r: Rule, decoys: Rule -> Option<string>, late: bool, elapsed: real, x: Rule)
    requires Enabled(r, o, elapsed) && Rank(x) > Rank(r)
    ensures Due(x, o, late) == Due(x, Acted(o, r, decoys), late)
  {
    hide Enabled, Acted;
    ActedEnabled(o, r, decoys, x, if late then 601.0 else 0.0);
    ActedEnabled(o, r, decoys, LlmProven, 0.0);
    if r == LlmProven { ClockFree(LlmProven, o, elapsed, 0.0); }
  }

  /** Taking the first enabled rule takes the head off the pass. */
  lemma PassHead(o: Observed, r: Rule, decoys: Rule -> Option<string>, late: bool, elapsed: real)
    requires Enabled(r, o, elapsed) && QuietBelow(o, elapsed, Rank(r))
    requires r == AwsCredentials ==> late
    ensures Pass(o, late, 0) == [r] + Pass(Acted(o, r, decoys), late, 0)
  {
    hide Enabled, Due, QuietBelow, Acted, Pass, Rank;
    var k, o' := Rank(r), Acted(o, r, decoys);
    forall x: Rule | Rank(x) < k ensures !Due(x, o, late) && !Due(x, o', late) {
      HeadBelow(o, r, decoys, late, elapsed, x);
    }
    forall x: Rule | Rank(x) > k ensures Due(x, o, late) == Due(x, o', late) {
      HeadAbove(o, r, decoys, late, elapsed, x);
    }
    HeadDue(o, r, decoys, late, elapsed);
    PassSkips(o, late, 0, k);
    PassTakes(o, late, k);
    PassSame(o, o', late, k + 1);
    forall x: Rule | Rank(x) == k ensures x == r {
      assert LADDER[Rank(x)] == x;
    }
    PassSkips(o', late, 0, k + 1);
  }

  // ---- The session -----------------------------------------------------------------------------

  class Session {
    var observed: Observed

    constructor ()
      ensures observed == Fresh()
    {
      observed := Fresh();
    }

    /** Resuming an engagement from what its last connection persisted. */
    constructor Resumed(persisted: Observed)
      ensures observed == Deserialized(persisted)
    {
      new;
      observed := DeserializeObserved(persisted);
    }

    /** `observe_vfs_event` for a file whose body was shown. */
    method ObserveRead(path: string, honeytoken: bool, credential: bool, history: bool)
      modifies this
      ensures observed == Updated(old(observed), FileRead(path, honeytoken, credential, history))
    {
      if honeytoken && credential {
        observed := Add(observed, CredentialFilesRead, {path});
      }
      if history {
        observed := Raise(observed, BashHistoryInspected);
      }
      if path in NamesOf(observed, DecoysPlanted) {
        observed := Add(observed, DecoysSwallowed, {path});
      }
    }

    /** `observe_vfs_event` for a path written or touched. */
    method ObserveWrite(path: string, honeytoken: bool, persistence: bool, payloadDir: bool)
      modifies this
      ensures observed == Updated(old(observed), FileWrite(path, honeytoken, persistence, payloadDir))
    {
      if persistence {
        observed := Raise(observed, SshPersistenceAttempt);
      }
      if honeytoken {
        observed := Add(observed, HoneytokenModifications, {path});
      }
      if payloadDir {
        observed := Add(observed, PayloadDrops, {path});
      }
    }

    /** `observe_vfs_event` for a removed path. */
    method ObserveUnlink(path: string, honeytoken: bool)
      modifies this
      ensures observed == Updated(old(observed), FileUnlink(path, honeytoken))
    {
      if honeytoken {
        observed := Add(observed, HoneytokenModifications, {path});
        observed := Add(observed, HoneytokenDeletions, {path});
      }
    }

    /** `observe_search_event`. */
    method ObserveSearch(hits: set<string>)
      modifies this
      ensures observed == Updated(old(observed), Search(hits))
    {
      if hits != {} {
        observed := Raise(observed, CredentialSearchAttempted);
        observed := Add(observed, CredentialSearchTerms, hits);
      }
    }

    /** `update_observations`, given what the patterns found in the command. */
    method ObserveCommand(u: Update)
      requires u.Command?
      modifies this
      ensures observed == Updated(old(observed), u)
    {
      hide Judged, ShellSeen, Add, Raise;
      observed := Judged(observed, u.llm);
      if u.sudo {
        observed := Raise(observed, RanSudo);
      }
      observed := Add(observed, ServicesProbed, u.services);
      if u.lateral {
        observed := Raise(observed, AttemptedLateral);
      }
      if u.crownJewel {
        observed := Raise(observed, FoundCrownJewel);
      }
      observed := ShellSeen(observed, u.reverseShell);
      NoteFound(u.exfil, DnsExfilAttempted, DnsExfilCommands);
      NoteFound(u.decoyHosts, LateralToDecoy, DecoyTargets);
      NoteFound(u.logTamper, LogTampering, TamperingCommands);
      if u.elevation {
        observed := Raise(observed, AttemptedSudoElevation);
      }
    }

    method NoteFound(found: set<string>, flag: Field, names: Field)
      modifies this
      ensures observed == Noted(old(observed), found, flag, names)
    {
      if found != {} {
        observed := Add(Raise(observed, flag), names, found);
      }
    }

    /** The top of the ladder: everything above lateral movement. */
    method DecideUrgent(elapsed: real) returns (action: Option<Rule>)
      modifies this
      ensures action == None ==> Quiet(old(observed), elapsed, 6)
      ensures action.Some? ==> Decides(old(observed), elapsed, action)
      ensures observed == if action.Some? then Fired(old(observed), action.value) else old(observed)
    {
      var obs := observed;
      if Has(obs, ReverseShellAttempted) && !Has(obs, AlertedReverseShell) {
        observed := Raise(obs, AlertedReverseShell);
        return Some(ReverseShell);
      }
      QuietStep(obs, elapsed, ReverseShell);
      if Has(obs, SshPersistenceAttempt) && !Has(obs, AlertedSshPersistence) {
        observed := Raise(obs, AlertedSshPersistence);
        return Some(SshPersistence);
      }
      QuietStep(obs, elapsed, SshPersistence);
      if Has(obs, HoneytokenModifications) && !Has(obs, AlertedHoneytokenTamper) {
        observed := Raise(obs, AlertedHoneytokenTamper);
        return Some(HoneytokenTamper);
      }
      QuietStep(obs, elapsed, HoneytokenTamper);
      if Has(obs, DnsExfilAttempted) && !Has(obs, AlertedDnsExfil) {
        observed := Raise(obs, AlertedDnsExfil);
        return Some(DnsExfil);
      }
      QuietStep(obs, elapsed, DnsExfil);
      if Has(obs, AttackerLlmProvenViaTrap) && !Has(obs, AlertedAttackerLlmProven) {
        observed := Raise(Raise(obs, AlertedAttackerLlmProven), AlertedAttackerLlmDetected);
        return Some(LlmProven);
      }
      QuietStep(obs, elapsed, LlmProven);
      if Has(obs, AttackerLikelyLlm) && !Has(obs, AlertedAttackerLlmDetected) {
        observed := Raise(obs, AlertedAttackerLlmDetected);
        return Some(LlmDetected);
      }
      QuietStep(obs, elapsed, LlmDetected);
      return None;
    }

    /** The upper ladder: critical, high and medium alerts. */
    method DecideAlert(elapsed: real) returns (action: Option<Rule>)
      modifies this
      ensures action == None ==> Quiet(old(observed), elapsed, 12)
      ensures action.Some? ==> Decides(old(observed), elapsed, action)
      ensures observed == if action.Some? then Fired(old(observed), action.value) else old(observed)
    {
      hide Has, NamesOf, Raise, Quiet;
      action := DecideUrgent(elapsed);
      if action.Some? {
        return;
      }
      var obs := observed;
      if Has(obs, LateralToDecoy) && !Has(obs, AlertedLateralDecoy) {
        observed := Raise(obs, AlertedLateralDecoy);
        return Some(LateralDecoy);
      }
      QuietStep(obs, elapsed, LateralDecoy);
      if Has(obs, LogTampering) && !Has(obs, AlertedLogTampering) {
        observed := Raise(obs, AlertedLogTampering);
        return Some(LogTamper);
      }
      QuietStep(obs, elapsed, LogTamper);
      if Has(obs, CredentialFilesRead) && !Has(obs, AlertedCredentialExfil) {
        observed := Raise(obs, AlertedCredentialExfil);
        return Some(CredentialExfil);
      }
      QuietStep(obs, elapsed, CredentialExfil);
      if Has(obs, DecoysSwallowed) && !Has(obs, AlertedDecoySwallowed) {
        observed := Raise(obs, AlertedDecoySwallowed);
        return Some(DecoySwallowed);
      }
      QuietStep(obs, elapsed, DecoySwallowed);
      if Has(obs, CredentialSearchAttempted) && !Has(obs, AlertedCredentialSearch) {
        observed := Raise(obs, AlertedCredentialSearch);
        return Some(CredentialSearch);
      }
      QuietStep(obs, elapsed, CredentialSearch);
      if |NamesOf(obs, PayloadDrops)| >= 3 && !Has(obs, AlertedPayloadStaging) {
        observed := Raise(obs, AlertedPayloadStaging);
        return Some(PayloadStaging);
      }
      QuietStep(obs, elapsed, PayloadStaging);
      return None;
    }

    /** The if-ladder: at most one action per call, the first enabled rule's. */
    method DecideAction(elapsed: real) returns (action: Option<Rule>)
      modifies this
      ensures Decides(old(observed), elapsed, action)
      ensures observed == if action.Some? then Fired(old(observed), action.value) else old(observed)
    {
      action := DecideAlert(elapsed);
      if action.Some? {
        return;
      }
      var obs := observed;
      if Has(obs, RanSudo) && !Has(obs, PlantedSudoCve) {
        observed := Raise(obs, PlantedSudoCve);
        return Some(SudoVulnerability);
      }
      QuietStep(obs, elapsed, SudoVulnerability);
      if "mysql" in NamesOf(obs, ServicesProbed) && !Has(obs, SpawnedMysql) {
        observed := Raise(obs, SpawnedMysql);
        return Some(FakeMysql);
      }
      QuietStep(obs, elapsed, FakeMysql);
      if Has(obs, AttemptedLateral) && !Has(obs, Isolated) {
        observed := Raise(obs, Isolated);
        return Some(IsolateSession);
      }
      QuietStep(obs, elapsed, IsolateSession);
      if elapsed > 600.0 && !Has(obs, FoundCrownJewel) {
        observed := Raise(obs, FoundCrownJewel);
        return Some(AwsCredentials);
      }
      QuietStep(obs, elapsed, AwsCredentials);
      return None;
    }

    /** `responses.execute`, as far as the rules can see it. An executor that raises is logged and
        otherwise ignored. */
    method Execute(r: Rule, decoys: Rule -> Option<string>)
      modifies this
      ensures observed == Executed(old(observed), r, decoys)
    {
      if Plants(r) {
        var planted := decoys(r);
        if planted.Some? {
          observed := Planted(observed, planted.value);
        }
      }
    }

    /** The draining loop. `clock(n)` is the elapsed time that its n-th decision sees; nothing is
        assumed about it. */
    method MaybeRecordAction(clock: nat -> real, decoys: Rule -> Option<string>) returns (emitted: seq<Rule>)
      modifies this
      ensures emitted == Drained(old(observed), clock)
      ensures observed == ActedAll(old(observed), emitted, decoys)
      ensures |emitted| <= 15
      // The cap of twenty never cuts the loop: it ended because no rule was left to fire.
      ensures QuietBelow(observed, clock(|emitted|), |LADDER|)
    {
      emitted := [];
      ghost var start := observed;
      for n := 0 to 20
        invariant n == |emitted| && observed == ActedAll(start, emitted, decoys)
        invariant Draining(start, observed, emitted, clock)
      {
        var action := DecideAction(clock(n));
        if action == None {
          QuietAll(observed, clock(n), |LADDER|);
          break;
        }
        QuietAll(ActedAll(start, emitted, decoys), clock(n), Rank(action.value));
        DrainStep(start, ActedAll(start, emitted, decoys), emitted, clock, action.value, decoys);
        Execute(action.value, decoys);
        emitted := emitted + [action.value];
        assert emitted[..n] == emitted[..|emitted| - 1];
      }
      DrainEnd(start, observed, emitted, clock);
    }
  }

  ghost predicate ToCome(start: Observed, o: Observed, emitted: seq<Rule>) {
    emitted + Pass(o, true, 0) == Pass(start, true, 0) && emitted + Pass(o, false, 0) == Pass(start, false, 0)
  }

  /** In the middle of a drain: either what is left of the pass is still to come, or the clock
      rule has fired and nothing is left at all. */
  ghost predicate Draining(start: Observed, o: Observed, emitted: seq<Rule>, clock: nat -> real) {
    || ToCome(start, o, emitted)
    || (emitted == Drained(start, clock) && Pass(o, true, 0) == [])
  }

  ghost function ActedAll(o: Observed, rules: seq<Rule>, decoys: Rule -> Option<string>): Observed
    decreases |rules|
  {
    if rules == [] then o else Acted(ActedAll(o, rules[..|rules| - 1], decoys), rules[|rules| - 1], decoys)
  }

  /** What a drain emits: one ordered pass, the clock rule judged when its turn comes. */
  function Drained(o: Observed, clock: nat -> real): seq<Rule> {
    Pass(o, clock(|Pass(o, false, 0)|) > 600.0, 0)
  }

  lemma PassEnds(o: Observed, late: bool)
    ensures Pass(o, late, |LADDER|) == []
  {}

  lemma QuietNoPass(o: Observed, elapsed: real)
    requires QuietBelow(o, elapsed, |LADDER|)
    ensures Pass(o, elapsed > 600.0, 0) == []
    ensures Pass(o, false, 0) == []
  {
    hide Pass;
    PassEnds(o, elapsed > 600.0);
    PassEnds(o, false);
    forall r: Rule ensures !Due(r, o, elapsed > 600.0) && !Due(r, o, false) {
      assert Rank(r) < |LADDER|;
      if r != AwsCredentials {
        ClockFree(r, o, elapsed, 601.0);
        ClockFree(r, o, elapsed, 0.0);
      }
    }
    PassSkips(o, elapsed > 600.0, 0, |LADDER|);
    PassSkips(o, false, 0, |LADDER|);
  }

  lemma EnabledIsDue(o: Observed, r: Rule, elapsed: real)
    requires Enabled(r, o, elapsed) && QuietBelow(o, elapsed, Rank(r))
    ensures Pass(o, true, 0) != []
  {
    hide Enabled, Pass, Acted, QuietBelow;
    HeadDue(o, r, x => None, true, elapsed);
    PassIsDue(o, true, 0);
  }

  lemma DrainStep(start: Observed, o: Observed, emitted: seq<Rule>, clock: nat -> real, r: Rule,
                  decoys: Rule -> Option<string>)
    requires Draining(start, o, emitted, clock)
    requires Enabled(r, o, clock(|emitted|)) && QuietBelow(o, clock(|emitted|), Rank(r))
    ensures Draining(start, Acted(o, r, decoys), emitted + [r], clock)
  {
    hide Pass, Acted, Enabled, QuietBelow;
    var o', elapsed := Acted(o, r, decoys), clock(|emitted|);
    EnabledIsDue(o, r, elapsed);
    assert ToCome(start, o, emitted);
    PassHead(o, r, decoys, true, elapsed);
    if r == AwsCredentials {
      LastIsAlone(o, elapsed);
      assert elapsed > 600.0 by { LateEnough(o, elapsed); }
      assert |[r] + Pass(o', true, 0)| == 1;
      assert emitted + [] == emitted;
    } else {
      PassHead(o, r, decoys, false, elapsed);
      assert emitted + [r] + Pass(o', true, 0) == emitted + ([r] + Pass(o', true, 0));
      assert emitted + [r] + Pass(o', false, 0) == emitted + ([r] + Pass(o', false, 0));
    }
  }

  lemma LateEnough(o: Observed, elapsed: real)
    requires Enabled(AwsCredentials, o, elapsed)
    ensures elapsed > 600.0
  {}

  /** When only the clock rule is left, it is the whole pass. */
  lemma LastIsAlone(o: Observed, elapsed: real)
    requires QuietBelow(o, elapsed, Rank(AwsCredentials)) && Enabled(AwsCredentials, o, elapsed)
    ensures Pass(o, false, 0) == [] && Pass(o, true, 0) == [AwsCredentials]
  {
    hide Enabled, Due, QuietBelow, Pass, Rank;
    var k := Rank(AwsCredentials);
    forall r: Rule | Rank(r) < k ensures !Due(r, o, false) && !Due(r, o, true) {
      HeadBelow(o, AwsCredentials, x => None, false, elapsed, r);
      HeadBelow(o, AwsCredentials, x => None, true, elapsed, r);
    }
    HeadDue(o, AwsCredentials, x => None, true, elapsed);
    PassSkips(o, false, 0, k);
    PassSkips(o, true, 0, k);
    PassTakes(o, true, k);
    LastNotEarly(o, k);
  }

  lemma LastNotEarly(o: Observed, k: nat)
    requires k == Rank(AwsCredentials)
    ensures k + 1 == |LADDER| && Pass(o, false, k) == [] && Pass(o, true, k + 1) == []
  {}

  lemma DrainEnd(start: Observed, o: Observed, emitted: seq<Rule>, clock: nat -> real)
    requires Draining(start, o, emitted, clock)
    requires |emitted| == 20 || QuietBelow(o, clock(|emitted|), |LADDER|)
    ensures emitted == Drained(start, clock) && |emitted| <= 15
  {
    hide Pass;
    PassBound(start, false);
    PassBound(start, true);
    if ToCome(start, o, emitted) {
      QuietNoPass(o, clock(|emitted|));
    }
  }
}
