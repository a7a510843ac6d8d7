/**
 From events to alerts (plenith/session.py with plenith/heuristics.py): which rules an engagement
 fires, told from what the attacker did and when the ladder was drained, and from nothing that
 the session keeps.
 */
module Causes {
  import opened Common
  import opened Observations
  import opened Heuristics
  import opened Engagement
  import opened Sightings
  import opened Evidence

  // ---- What an engagement has shown --------------------------------------------------------------

  /** The event alone is a reason for the rule. */
  predicate Reason(u: Update, r: Rule) {
    match r
    case ReverseShell => u.Command? && u.reverseShell != ""
    case SshPersistence => u.FileWrite? && u.persistence
    case HoneytokenTamper => (u.FileWrite? || u.FileUnlink?) && u.honeytoken
    case DnsExfil => u.Command? && u.exfil != {}
    case LlmProven => u.Command? && u.llm.leaked
    case LateralDecoy => u.Command? && u.decoyHosts != {}
    case LogTamper => u.Command? && u.logTamper != {}
    case CredentialExfil => u.FileRead? && u.honeytoken && u.credential
    case CredentialSearch => u.Search? && u.hits != {}
    case SudoVulnerability => u.Command? && u.sudo
    case FakeMysql => u.Command? && "mysql" in u.services
    case IsolateSession => u.Command? && u.lateral
    case _ => false
  }

  predicate Shows(s: Step, r: Rule) {
    s.Observe? && Reason(s.update, r)
  }

  ghost predicate Seen(before: seq<Step>, r: Rule) {
    exists i :: 0 <= i < |before| && Shows(before[i], r)
  }

  /** The verdict of the last command so far is that an LLM is at work. */
  predicate LastLikely(before: seq<Step>) {
    if before == [] then false
    else
      var s := before[|before| - 1];
      if s.Observe? && s.update.Command? then s.update.llm.likely else LastLikely(before[..|before| - 1])
  }

  predicate Drops(s: Step, path: string) {
    s.Observe? && s.update.FileWrite? && s.update.payloadDir && s.update.path == path
  }

  /** The paths written so far in payload directories. */
  function Payloads(before: seq<Step>): set<string> {
    set i | 0 <= i < |before| && before[i].Observe? && before[i].update.FileWrite? && before[i].update.payloadDir ::
      before[i].update.path
  }

  predicate FindsJewel(s: Step) {
    s.Observe? && s.update.Command? && s.update.crownJewel
  }

  ghost predicate SeenJewel(before: seq<Step>) {
    exists i :: 0 <= i < |before| && FindsJewel(before[i])
  }

  /** The drain fires the rule. */
  ghost predicate FiredAt(steps: seq<Step>, j: nat, r: Rule) {
    && j < |steps| && steps[j].Drain?
    && r in Firings(Fresh(), steps[..j + 1]) && r !in Firings(Fresh(), steps[..j])
  }

  /** The drain fires one of the three rules that plant a decoy, and its executor plants this one. */
  ghost predicate PlantedAt(steps: seq<Step>, j: nat, path: string) {
    exists r :: r in {SudoVulnerability, FakeMysql, AwsCredentials} && FiredAt(steps, j, r)
                && steps[j].decoys(r) == Some(path)
  }

  ghost predicate PlantedBy(before: seq<Step>, path: string) {
    exists j: nat :: PlantedAt(before, j, path)
  }

  /** The event reads a decoy planted earlier. */
  ghost predicate SwallowsAt(before: seq<Step>, i: nat, path: string) {
    && i < |before| && before[i].Observe? && before[i].update.FileRead? && before[i].update.path == path
    && PlantedBy(before[..i], path)
  }

  ghost predicate SwallowedBy(before: seq<Step>, path: string) {
    exists i: nat :: SwallowsAt(before, i, path)
  }

  ghost predicate SeenSwallowed(before: seq<Step>) {
    exists path :: SwallowedBy(before, path)
  }

  /** The rule has its reason by now. The clock is left to `Fires`. */
  ghost predicate Caused(before: seq<Step>, r: Rule) {
    match r
    case LlmDetected => LastLikely(before) && !Seen(before, LlmProven)
    case DecoySwallowed => SeenSwallowed(before)
    case PayloadStaging => |Payloads(before)| >= 3
    case AwsCredentials => !SeenJewel(before)
    case _ => Seen(before, r)
  }

  /** The other rules that a drain would now fire for the first time. */
  ghost function NewCauses(before: seq<Step>): set<Rule> {
    set r: Rule | r != AwsCredentials && Caused(before, r) && r !in Firings(Fresh(), before)
  }

  /** What a drain finds due: a rule with its reason; the clock rule also needs ten minutes to have
      passed when its turn comes, after all other rules that fire. */
  ghost predicate Fires(before: seq<Step>, clock: nat -> real, r: Rule) {
    Caused(before, r) && (r == AwsCredentials ==> clock(|NewCauses(before)|) > 600.0)
  }

  // ---- Runs from their last step -----------------------------------------------------------------

  lemma {:induction false} LivedConcat(o: Observed, a: seq<Step>, b: seq<Step>)
    ensures Lived(o, a + b) == Lived(Lived(o, a), b)
    ensures Firings(o, a + b) == Firings(o, a) + Firings(Lived(o, a), b)
    decreases |a|
  {
    hide Next;
    if a == [] {
      assert a + b == b;
    } else {
      LivedConcat(Next(o, a[0]).0, a[1..], b);
      assert (a + b)[1..] == a[1..] + b;
    }
  }

  lemma LivedOne(o: Observed, s: Step)
    ensures Lived(o, [s]) == Next(o, s).0 && Firings(o, [s]) == Next(o, s).1
  {
    hide Next;
    assert [s][1..] == [];
    assert Firings(Next(o, s).0, []) == [];
    assert Next(o, s).1 + [] == Next(o, s).1;
  }

  lemma LivedSnoc(steps: seq<Step>)
    requires steps != []
    ensures var front, s := steps[..|steps| - 1], steps[|steps| - 1];
      var o := Lived(Fresh(), front);
      && Lived(Fresh(), steps) == Next(o, s).0
      && Firings(Fresh(), steps) == Firings(Fresh(), front) + Next(o, s).1
  {
    hide Next, Fresh;
    var front, s := steps[..|steps| - 1], steps[|steps| - 1];
    assert steps == front + [s];
    LivedConcat(Fresh(), front, [s]);
    LivedOne(Lived(Fresh(), front), s);
  }

  lemma {:induction false} LivedShape(steps: seq<Step>)
    ensures WellFormed(Lived(Fresh(), steps))
  {
    hide WellFormed, Next, Coherent;
    FreshCoherent();
    LivedCoherent(Fresh(), steps);
  }

  // ---- What firing leaves ------------------------------------------------------------------------

  /** Firing the rule raises the flag. */
  predicate Marks(r: Rule, f: Field) {
    f == Gate(r) || (r == LlmProven && f == Gate(LlmDetected))
  }

  lemma GatePlain(r: Rule)
    ensures !NamesField(Gate(r)) && Gate(r) != AttackerLikelyLlm
  {}

  lemma FiredEffect(o: Observed, r: Rule, f: Field, n: string)
    ensures Has(Fired(o, r), f) <==> Has(o, f) || Marks(r, f)
    ensures NamesField(f) ==> (n in NamesOf(Fired(o, r), f) <==> n in NamesOf(o, f))
  {
    hide Has, NamesOf, Set, Gate;
    GatePlain(r);
    GatePlain(LlmDetected);
    RaiseEffect(o, true, Gate(r), f, n);
    RaiseEffect(Raise(o, Gate(r)), true, Gate(LlmDetected), f, n);
  }

  /** The rules whose executors plant a decoy. */
  predicate Planter(r: Rule) {
    r in {SudoVulnerability, FakeMysql, AwsCredentials}
  }

  lemma ActedEffect(o: Observed, r: Rule, decoys: Rule -> Option<string>, f: Field, n: string)
    ensures !NamesField(f) ==> (Has(Acted(o, r, decoys), f) <==> Has(o, f) || Marks(r, f))
    ensures NamesField(f) ==> (n in NamesOf(Acted(o, r, decoys), f) <==>
      n in NamesOf(o, f) || (f == DecoysPlanted && Planter(r) && decoys(r) == Some(n)))
  {
    hide Has, NamesOf, Fired, Set, Marks;
    FiredEffect(o, r, f, n);
    if decoys(r).Some? {
      SetEffect(Fired(o, r), DecoysPlanted, Names(NamesOf(Fired(o, r), DecoysPlanted) + {decoys(r).value}), f);
    }
  }

  lemma {:induction false} ActedAllEffect(o: Observed, rules: seq<Rule>, decoys: Rule -> Option<string>, f: Field,
                                          n: string)
    ensures !NamesField(f) ==>
      (Has(ActedAll(o, rules, decoys), f) <==> Has(o, f) || exists r :: r in rules && Marks(r, f))
    ensures NamesField(f) ==> (n in NamesOf(ActedAll(o, rules, decoys), f) <==>
      n in NamesOf(o, f) || (f == DecoysPlanted && exists r :: r in rules && Planter(r) && decoys(r) == Some(n)))
    decreases |rules|
  {
    hide Has, NamesOf, Acted, Marks, Planter, NamesField;
    if rules != [] {
      var front, last := rules[..|rules| - 1], rules[|rules| - 1];
      ActedAllEffect(o, front, decoys, f, n);
      ActedEffect(ActedAll(o, front, decoys), last, decoys, f, n);
      assert rules == front + [last];
    }
  }

  // ---- What the observations say is what has been seen -------------------------------------------

  predicate RaisesStep(s: Step, f: Field) {
    s.Observe? && Raises(s.update, f)
  }

  predicate BringsStep(s: Step, f: Field, n: string) {
    s.Observe? && Brings(s.update, f, n)
  }

  ghost predicate SeenFlag(before: seq<Step>, f: Field) {
    exists i :: 0 <= i < |before| && RaisesStep(before[i], f)
  }

  ghost predicate SeenName(before: seq<Step>, f: Field, n: string) {
    exists i :: 0 <= i < |before| && BringsStep(before[i], f, n)
  }

  /** Set by the last verdict alone. */
  predicate Overwritable(f: Field) {
    f == AttackerLikelyLlm || f == AttackerLlmConfidence || f == AttackerLlmSignals
  }

  ghost predicate Marked(before: seq<Step>, f: Field) {
    exists r :: r in Firings(Fresh(), before) && Marks(r, f)
  }

  lemma SeenFlagSnoc(steps: seq<Step>, f: Field)
    requires steps != []
    ensures SeenFlag(steps, f) <==> SeenFlag(steps[..|steps| - 1], f) || RaisesStep(steps[|steps| - 1], f)
  {
    hide RaisesStep;
    var front := steps[..|steps| - 1];
    assert forall i :: 0 <= i < |front| ==> front[i] == steps[i];
  }

  lemma SeenNameSnoc(steps: seq<Step>, f: Field, n: string)
    requires steps != []
    ensures SeenName(steps, f, n) <==> SeenName(steps[..|steps| - 1], f, n) || BringsStep(steps[|steps| - 1], f, n)
  {
    hide BringsStep;
    var front := steps[..|steps| - 1];
    assert forall i :: 0 <= i < |front| ==> front[i] == steps[i];
  }

  lemma FreshKeys(f: Field)
    ensures !Has(Fresh(), f) && NamesOf(Fresh(), f) == {}
  {
    FreshField(f);
  }

  lemma NextFlag(o: Observed, s: Step, f: Field)
    requires WellFormed(o) && !NamesField(f) && !Overwritable(f)
    ensures Has(Next(o, s).0, f) <==>
      Has(o, f) || RaisesStep(s, f) || exists r :: r in Next(o, s).1 && Marks(r, f)
  {
    hide Has, NamesOf, Updated, ActedAll, Drained, Raises, Marks, Reconnected, WellFormed;
    match s
    case Observe(u) => FlagStep(o, u, f);
    case Drain(clock, decoys) => ActedAllEffect(o, Drained(o, clock), decoys, f, "");
    case Reconnect =>
      ReconnectIdentity(o);
      ExtraEffect(o, map[], f);
  }

  /** A flag is up exactly when an event raised it or a firing did. */
  lemma {:induction false} FlagHistory(steps: seq<Step>, f: Field)
    requires !NamesField(f) && !Overwritable(f)
    ensures Has(Lived(Fresh(), steps), f) <==> SeenFlag(steps, f) || Marked(steps, f)
  {
    hide Has, Next, Fresh, RaisesStep, Marks, WellFormed, SeenFlag;
    if steps == [] {
      FreshKeys(f);
      NoneSeen(f, "");
    } else {
      var front, s := steps[..|steps| - 1], steps[|steps| - 1];
      FlagHistory(front, f);
      LivedSnoc(steps);
      LivedShape(front);
      NextFlag(Lived(Fresh(), front), s, f);
      SeenFlagSnoc(steps, f);
    }
  }

  lemma NoneSeen(f: Field, n: string)
    ensures !SeenFlag([], f) && !SeenName([], f, n) && Lived(Fresh(), []) == Fresh() && Firings(Fresh(), []) == []
  {}

  lemma NextName(o: Observed, s: Step, f: Field, n: string)
    requires WellFormed(o) && NamesField(f)
    ensures n in NamesOf(Next(o, s).0, f) <==>
      || n in NamesOf(o, f) || BringsStep(s, f, n)
      || (f == DecoysSwallowed && s.Observe? && Swallows(o, s.update, n))
      || (f == DecoysPlanted && s.Drain? && exists r :: r in Next(o, s).1 && Planter(r) && s.decoys(r) == Some(n))
  {
    hide Has, NamesOf, Updated, ActedAll, Drained, Brings, Swallows, Planter, Reconnected, WellFormed;
    match s
    case Observe(u) => NamesStep(o, u, f);
    case Drain(clock, decoys) => ActedAllEffect(o, Drained(o, clock), decoys, f, n);
    case Reconnect =>
      ReconnectIdentity(o);
      ExtraEffect(o, map[], f);
  }

  /** A name is recorded exactly when an event brought it. */
  lemma {:induction false} NameHistory(steps: seq<Step>, f: Field, n: string)
    requires NamesField(f) && f != DecoysPlanted && f != DecoysSwallowed
    ensures n in NamesOf(Lived(Fresh(), steps), f) <==> SeenName(steps, f, n)
  {
    hide NamesOf, Next, Fresh, BringsStep, WellFormed, SeenName;
    if steps == [] {
      FreshKeys(f);
      NoneSeen(f, n);
    } else {
      var front, s := steps[..|steps| - 1], steps[|steps| - 1];
      NameHistory(front, f, n);
      LivedSnoc(steps);
      LivedShape(front);
      NextName(Lived(Fresh(), front), s, f, n);
      SeenNameSnoc(steps, f, n);
    }
  }

  /** A drain fires a rule exactly when it emits it: no rule fires twice. */
  lemma FiredByLast(steps: seq<Step>, r: Rule)
    requires steps != []
    ensures var j := |steps| - 1;
      FiredAt(steps, j, r) <==> steps[j].Drain? && r in Next(Lived(Fresh(), steps[..j]), steps[j]).1
  {
    hide Next, Fresh;
    var j := |steps| - 1;
    var front, out := Firings(Fresh(), steps[..j]), Next(Lived(Fresh(), steps[..j]), steps[j]).1;
    assert steps[..j + 1] == steps;
    LivedSnoc(steps);
    EachRuleOncePerEngagement(steps);
    OnceSplit(front, out);
  }

  lemma OnceSplit(a: seq<Rule>, b: seq<Rule>)
    requires OnceEach(a + b)
    ensures forall r :: r in a ==> r !in b
  {
    forall i, j | 0 <= i < |a| && 0 <= j < |b| ensures a[i] != b[j] {
      assert (a + b)[i] != (a + b)[|a| + j];
    }
  }

  lemma PlantedBySnoc(steps: seq<Step>, n: string)
    requires steps != []
    ensures PlantedBy(steps, n) <==> PlantedBy(steps[..|steps| - 1], n) || PlantedAt(steps, |steps| - 1, n)
  {
    hide Fresh, Firings;
    var front := steps[..|steps| - 1];
    forall j: nat | j < |front| ensures PlantedAt(steps, j, n) == PlantedAt(front, j, n) {
      assert front[j] == steps[j] && front[..j] == steps[..j] && front[..j + 1] == steps[..j + 1];
    }
  }

  lemma LastPlants(steps: seq<Step>, n: string)
    requires steps != []
    ensures var s := steps[|steps| - 1];
      PlantedAt(steps, |steps| - 1, n) <==>
        s.Drain? && exists r ::
          r in Next(Lived(Fresh(), steps[..|steps| - 1]), s).1 && Planter(r) && s.decoys(r) == Some(n)
  {
    hide Fresh, Firings, Next, FiredAt;
    var j := |steps| - 1;
    var out := Next(Lived(Fresh(), steps[..j]), steps[j]).1;
    forall r ensures FiredAt(steps, j, r) <==> steps[j].Drain? && r in out {
      FiredByLast(steps, r);
    }
  }

  /** The decoys on record are those that a firing planted. */
  lemma {:induction false} PlantedHistory(steps: seq<Step>, n: string)
    ensures n in NamesOf(Lived(Fresh(), steps), DecoysPlanted) <==> PlantedBy(steps, n)
  {
    hide NamesOf, Next, Fresh, WellFormed, PlantedBy, PlantedAt, Planter;
    if steps == [] {
      FreshKeys(DecoysPlanted);
      NoneSeen(DecoysPlanted, n);
      NonePlanted(n);
    } else {
      var front, s := steps[..|steps| - 1], steps[|steps| - 1];
      PlantedHistory(front, n);
      LivedSnoc(steps);
      LivedShape(front);
      NextName(Lived(Fresh(), front), s, DecoysPlanted, n);
      PlantedBySnoc(steps, n);
      LastPlants(steps, n);
    }
  }

  lemma NonePlanted(n: string)
    ensures !PlantedBy([], n)
  {}

  lemma SwallowedBySnoc(steps: seq<Step>, n: string)
    requires steps != []
    ensures SwallowedBy(steps, n) <==> SwallowedBy(steps[..|steps| - 1], n) || SwallowsAt(steps, |steps| - 1, n)
  {
    hide PlantedBy;
    var front := steps[..|steps| - 1];
    forall i: nat | i < |front| ensures SwallowsAt(steps, i, n) == SwallowsAt(front, i, n) {
      assert front[i] == steps[i] && front[..i] == steps[..i];
    }
  }

  /** The decoys on record as swallowed are those read after they were planted. */
  lemma {:induction false} SwallowedHistory(steps: seq<Step>, n: string)
    ensures n in NamesOf(Lived(Fresh(), steps), DecoysSwallowed) <==> SwallowedBy(steps, n)
  {
    hide NamesOf, Next, Fresh, WellFormed, PlantedBy, SwallowedBy;
    if steps == [] {
      FreshKeys(DecoysSwallowed);
      NoneSeen(DecoysSwallowed, n);
      assert !SwallowedBy([], n) by { NoneSwallowed(n); }
    } else {
      var front, s := steps[..|steps| - 1], steps[|steps| - 1];
      SwallowedHistory(front, n);
      PlantedHistory(front, n);
      LivedSnoc(steps);
      LivedShape(front);
      NextName(Lived(Fresh(), front), s, DecoysSwallowed, n);
      SwallowedBySnoc(steps, n);
    }
  }

  lemma NoneSwallowed(n: string)
    ensures !SwallowedBy([], n)
  {}

  /** The detector's judgement is that of the last command. */
  lemma {:induction false} LikelyHistory(steps: seq<Step>)
    ensures Has(Lived(Fresh(), steps), AttackerLikelyLlm) <==> LastLikely(steps)
  {
    hide Has, Next, Fresh, WellFormed;
    if steps == [] {
      FreshKeys(AttackerLikelyLlm);
      NoneSeen(AttackerLikelyLlm, "");
    } else {
      var front, s := steps[..|steps| - 1], steps[|steps| - 1];
      LikelyHistory(front);
      LivedSnoc(steps);
      LivedShape(front);
      NextLikely(Lived(Fresh(), front), s);
    }
  }

  lemma NextLikely(o: Observed, s: Step)
    requires WellFormed(o)
    ensures Has(Next(o, s).0, AttackerLikelyLlm) <==>
      if s.Observe? && s.update.Command? then s.update.llm.likely else Has(o, AttackerLikelyLlm)
  {
    hide Has, NamesOf, Updated, ActedAll, Drained, Reconnected, WellFormed, Marks;
    match s
    case Observe(u) => FlagStep(o, u, AttackerLikelyLlm);
    case Drain(clock, decoys) =>
      ActedAllEffect(o, Drained(o, clock), decoys, AttackerLikelyLlm, "");
      forall r: Rule ensures !Marks(r, AttackerLikelyLlm) { NoMark(r); }
    case Reconnect =>
      ReconnectIdentity(o);
      ExtraEffect(o, map[], AttackerLikelyLlm);
  }

  lemma NoMark(r: Rule)
    ensures !Marks(r, AttackerLikelyLlm)
  {}

  // ---- What a drain fires --------------------------------------------------------------------------

  /** A rule has fired, or what closes it has. */
  lemma GateHistory(steps: seq<Step>, r: Rule)
    ensures Has(Lived(Fresh(), steps), Gate(r)) <==>
      || r in Firings(Fresh(), steps)
      || (r == LlmDetected && LlmProven in Firings(Fresh(), steps))
      || (r == AwsCredentials && SeenJewel(steps))
  {
    hide Has, Fresh, Firings, RaisesStep, Gate, FindsJewel, Marks, NamesField, Overwritable, Lived, SeenFlag, SeenJewel;
    hide Marked;
    GatePlain(r);
    GateKind(r);
    FlagHistory(steps, Gate(r));
    JewelSeen(steps, r);
    GateMarked(steps, r);
  }

  lemma JewelSeen(steps: seq<Step>, r: Rule)
    ensures SeenFlag(steps, Gate(r)) <==> r == AwsCredentials && SeenJewel(steps)
  {
    hide RaisesStep, Gate, FindsJewel;
    forall s ensures RaisesStep(s, Gate(r)) <==> r == AwsCredentials && FindsJewel(s) {
      JewelGate(s, r);
    }
  }

  lemma GateMarked(steps: seq<Step>, r: Rule)
    ensures Marked(steps, Gate(r)) <==>
      r in Firings(Fresh(), steps) || (r == LlmDetected && LlmProven in Firings(Fresh(), steps))
  {
    hide Fresh, Firings, Gate, Marks;
    forall x: Rule ensures Marks(x, Gate(r)) <==> x == r || (x == LlmProven && r == LlmDetected) {
      MarksGate(x, r);
    }
  }

  lemma MarksGate(x: Rule, r: Rule)
    ensures Marks(x, Gate(r)) <==> x == r || (x == LlmProven && r == LlmDetected)
  {
    hide Gate;
    GateDistinct(x, r);
    GateDistinct(LlmDetected, r);
  }

  lemma GateKind(r: Rule)
    ensures !Overwritable(Gate(r))
  {}

  lemma JewelGate(s: Step, r: Rule)
    ensures RaisesStep(s, Gate(r)) <==> r == AwsCredentials && FindsJewel(s)
  {}

  /** The flag, or the key of names, that a rule reads. */
  predicate Reads(r: Rule, f: Field) {
    match r
    case ReverseShell => f == ReverseShellAttempted
    case SshPersistence => f == SshPersistenceAttempt
    case DnsExfil => f == DnsExfilAttempted
    case LlmProven => f == AttackerLlmProvenViaTrap
    case LateralDecoy => f == LateralToDecoy
    case LogTamper => f == LogTampering
    case CredentialSearch => f == CredentialSearchAttempted
    case SudoVulnerability => f == RanSudo
    case IsolateSession => f == AttemptedLateral
    case _ => false
  }

  lemma ReasonRaises(s: Step, r: Rule, f: Field)
    requires Reads(r, f)
    ensures Shows(s, r) <==> RaisesStep(s, f)
  {}

  lemma ReadsPlain(r: Rule, f: Field, x: Rule)
    requires Reads(r, f)
    ensures !NamesField(f) && !Overwritable(f) && !Marks(x, f)
  {}

  lemma TriggerReads(r: Rule, f: Field, o: Observed, t: real)
    requires Reads(r, f)
    ensures Trigger(r, o, t) == Has(o, f)
  {}

  lemma FlagSeen(steps: seq<Step>, r: Rule, f: Field, t: real)
    requires Reads(r, f)
    ensures Trigger(r, Lived(Fresh(), steps), t) <==> Seen(steps, r)
  {
    hide Has, Fresh, Firings, Trigger, Reads, Shows, RaisesStep, Marks;
    TriggerReads(r, f, Lived(Fresh(), steps), t);
    forall s ensures Shows(s, r) <==> RaisesStep(s, f) { ReasonRaises(s, r, f); }
    forall x ensures !NamesField(f) && !Overwritable(f) && !Marks(x, f) { ReadsPlain(r, f, x); }
    ReadsPlain(r, f, r);
    FlagHistory(steps, f);
  }

  /** A key of names says that something was brought under it. */
  lemma NamesSeen(steps: seq<Step>, r: Rule, f: Field, t: real)
    requires (r == HoneytokenTamper && f == HoneytokenModifications)
      || (r == CredentialExfil && f == CredentialFilesRead)
    ensures Trigger(r, Lived(Fresh(), steps), t) <==> Seen(steps, r)
  {
    hide Fresh, NamesOf, Shows, BringsStep;
    var o := Lived(Fresh(), steps);
    LivedShape(steps);
    HasNames(o, f);
    forall n ensures n in NamesOf(o, f) <==> SeenName(steps, f, n) { NameHistory(steps, f, n); }
    forall s ensures Shows(s, r) <==> exists n :: BringsStep(s, f, n) { ReasonBrings(s, r, f); }
    if Seen(steps, r) {
      var i :| 0 <= i < |steps| && Shows(steps[i], r);
      var n :| BringsStep(steps[i], f, n);
      assert SeenName(steps, f, n);
    }
    if n :| n in NamesOf(o, f) {
      var i :| 0 <= i < |steps| && BringsStep(steps[i], f, n);
      assert Shows(steps[i], r);
    }
  }

  lemma HasNames(o: Observed, f: Field)
    requires WellFormed(o) && NamesField(f)
    ensures Has(o, f) <==> exists n :: n in NamesOf(o, f)
  {
    if NamesOf(o, f) != {} {
      var n :| n in NamesOf(o, f);
    }
  }

  lemma ReasonBrings(s: Step, r: Rule, f: Field)
    requires (r == HoneytokenTamper && f == HoneytokenModifications)
      || (r == CredentialExfil && f == CredentialFilesRead)
    ensures Shows(s, r) <==> exists n :: BringsStep(s, f, n)
  {
    if Shows(s, r) { assert BringsStep(s, f, s.update.path); }
  }

  lemma MysqlSeen(steps: seq<Step>, t: real)
    ensures Trigger(FakeMysql, Lived(Fresh(), steps), t) <==> Seen(steps, FakeMysql)
  {
    hide Fresh, NamesOf;
    NameHistory(steps, ServicesProbed, "mysql");
    assert forall s :: Shows(s, FakeMysql) <==> BringsStep(s, ServicesProbed, "mysql");
  }

  lemma PayloadsAreDrops(steps: seq<Step>, n: string)
    ensures SeenName(steps, PayloadDrops, n) <==> n in Payloads(steps)
  {
    hide BringsStep;
    forall s ensures BringsStep(s, PayloadDrops, n) <==> Drops(s, n) { BringsDrop(s, n); }
    forall i | 0 <= i < |steps| ensures Drops(steps[i], n) ==> n in Payloads(steps) {}
  }

  lemma BringsDrop(s: Step, n: string)
    ensures BringsStep(s, PayloadDrops, n) <==> Drops(s, n)
  {}

  lemma PayloadsSeen(steps: seq<Step>, t: real)
    ensures Trigger(PayloadStaging, Lived(Fresh(), steps), t) <==> |Payloads(steps)| >= 3
  {
    hide Fresh, NamesOf, Payloads, SeenName, Lived;
    var names := NamesOf(Lived(Fresh(), steps), PayloadDrops);
    forall n ensures n in names <==> n in Payloads(steps) {
      NameHistory(steps, PayloadDrops, n);
      PayloadsAreDrops(steps, n);
    }
    assert names == Payloads(steps);
  }

  lemma SwallowedSeen(steps: seq<Step>, t: real)
    ensures Trigger(DecoySwallowed, Lived(Fresh(), steps), t) <==> SeenSwallowed(steps)
  {
    hide Fresh, NamesOf, PlantedBy;
    var o := Lived(Fresh(), steps);
    LivedShape(steps);
    HasNames(o, DecoysSwallowed);
    forall n ensures n in NamesOf(o, DecoysSwallowed) <==> SwallowedBy(steps, n) { SwallowedHistory(steps, n); }
  }

  /** What a rule reacts to is that it has been caused, clock and silence apart. */
  lemma TriggerCaused(steps: seq<Step>, r: Rule, t: real)
    requires r != LlmDetected && r != AwsCredentials
    ensures Trigger(r, Lived(Fresh(), steps), t) <==> Caused(steps, r)
  {
    hide Fresh, Firings, Seen, SeenSwallowed, Payloads, Trigger, Has;
    match r
    case ReverseShell => FlagSeen(steps, r, ReverseShellAttempted, t);
    case SshPersistence => FlagSeen(steps, r, SshPersistenceAttempt, t);
    case HoneytokenTamper => NamesSeen(steps, r, HoneytokenModifications, t);
    case DnsExfil => FlagSeen(steps, r, DnsExfilAttempted, t);
    case LlmProven => FlagSeen(steps, r, AttackerLlmProvenViaTrap, t);
    case LateralDecoy => FlagSeen(steps, r, LateralToDecoy, t);
    case LogTamper => FlagSeen(steps, r, LogTampering, t);
    case CredentialExfil => NamesSeen(steps, r, CredentialFilesRead, t);
    case DecoySwallowed => SwallowedSeen(steps, t);
    case CredentialSearch => FlagSeen(steps, r, CredentialSearchAttempted, t);
    case PayloadStaging => PayloadsSeen(steps, t);
    case SudoVulnerability => FlagSeen(steps, r, RanSudo, t);
    case FakeMysql => MysqlSeen(steps, t);
    case IsolateSession => FlagSeen(steps, r, AttemptedLateral, t);
  }

  /** Detection is due on the last verdict, unless an attacker proven by now makes it moot. */
  lemma DetectedCaused(steps: seq<Step>, t: real)
    ensures Trigger(LlmDetected, Lived(Fresh(), steps), t) <==> LastLikely(steps)
  {
    hide Has;
    LikelyHistory(steps);
  }

  lemma ProvenEarly(steps: seq<Step>, t: real)
    requires LlmProven in Firings(Fresh(), steps) ==> Seen(steps, LlmProven)
    ensures Enabled(LlmProven, Lived(Fresh(), steps), t) || LlmProven in Firings(Fresh(), steps) <==>
      Seen(steps, LlmProven)
  {
    hide Has, Fresh, Firings, Trigger, Gate, Seen, Lived;
    TriggerCaused(steps, LlmProven, t);
    GateHistory(steps, LlmProven);
  }

  /** Which rules a drain finds due after an engagement so far. */
  lemma DueCaused(steps: seq<Step>, r: Rule, late: bool)
    requires LlmProven in Firings(Fresh(), steps) ==> Seen(steps, LlmProven)
    ensures Due(r, Lived(Fresh(), steps), late) <==>
      && Caused(steps, r) && (r == AwsCredentials ==> late) && r !in Firings(Fresh(), steps)
  {
    hide Has, Fresh, Firings, Gate, Seen, SeenSwallowed, Payloads, SeenJewel, Lived, LastLikely;
    var t := if late then 601.0 else 0.0;
    GateHistory(steps, r);
    if r == LlmDetected {
      DetectedCaused(steps, t);
      ProvenEarly(steps, 0.0);
    } else if r != AwsCredentials {
      hide Trigger;
      TriggerCaused(steps, r, t);
    }
  }

  lemma {:induction false} DistinctCount(s: seq<Rule>)
    requires forall i, j :: 0 <= i < j < |s| ==> s[i] != s[j]
    ensures |set r | r in s| == |s|
  {
    if s == [] {
    } else {
      var front, last := s[..|s| - 1], s[|s| - 1];
      DistinctCount(front);
      assert (set r | r in s) == (set r | r in front) + {last};
    }
  }

  /** The rules other than the clock rule that a drain fires are those newly caused. */
  lemma PassCount(steps: seq<Step>)
    requires LlmProven in Firings(Fresh(), steps) ==> Seen(steps, LlmProven)
    ensures |Pass(Lived(Fresh(), steps), false, 0)| == |NewCauses(steps)|
  {
    hide Due, Fresh, Firings, Caused, Lived, Pass;
    var o := Lived(Fresh(), steps);
    var pass := Pass(o, false, 0);
    PassIsDue(o, false, 0);
    PassOnce(o, false, 0);
    DistinctCount(pass);
    forall r: Rule ensures r in pass <==> r in NewCauses(steps) {
      DueCaused(steps, r, false);
    }
    assert (set r | r in pass) == NewCauses(steps);
  }

  lemma DrainFires(steps: seq<Step>, clock: nat -> real, r: Rule)
    requires LlmProven in Firings(Fresh(), steps) ==> Seen(steps, LlmProven)
    ensures r in Drained(Lived(Fresh(), steps), clock) <==> Fires(steps, clock, r) && r !in Firings(Fresh(), steps)
  {
    hide Due, Fresh, Firings, Caused, Lived, Pass, NewCauses;
    var o := Lived(Fresh(), steps);
    var late := clock(|Pass(o, false, 0)|) > 600.0;
    PassCount(steps);
    PassIsDue(o, late, 0);
    DueCaused(steps, r, late);
  }

  // ---- Whole engagements -------------------------------------------------------------------------

  ghost predicate FiresAt(steps: seq<Step>, k: nat, r: Rule) {
    k < |steps| && steps[k].Drain? && Fires(steps[..k], steps[k].clock, r)
  }

  ghost predicate EverFires(steps: seq<Step>, r: Rule) {
    exists k: nat :: FiresAt(steps, k, r)
  }

  lemma EverFiresSnoc(steps: seq<Step>, r: Rule)
    requires steps != []
    ensures EverFires(steps, r) <==>
      EverFires(steps[..|steps| - 1], r) || FiresAt(steps, |steps| - 1, r)
  {
    hide Fires;
    var front := steps[..|steps| - 1];
    forall k: nat | k < |front| ensures FiresAt(steps, k, r) == FiresAt(front, k, r) {
      assert front[k] == steps[k] && front[..k] == steps[..k];
    }
  }

  lemma ProvenFiresSeen(steps: seq<Step>)
    requires EverFires(steps, LlmProven)
    ensures Seen(steps, LlmProven)
  {
    hide Shows;
    var k: nat :| FiresAt(steps, k, LlmProven);
    assert Seen(steps[..k], LlmProven);
    var i :| 0 <= i < k && Shows(steps[..k][i], LlmProven);
    assert Shows(steps[i], LlmProven);
  }

  /** An engagement has fired a rule exactly when at some drain the rule had its reason in what the
      attacker had done by then. */
  lemma {:induction false} FiredIffCaused(steps: seq<Step>, r: Rule)
    ensures r in Firings(Fresh(), steps) <==> EverFires(steps, r)
    decreases |steps|
  {
    hide Fresh, Fires, Drained, Seen, FiresAt, EverFires;
    if steps == [] {
      NoneSeen(RanSudo, "");
      NoneFires(r);
    } else {
      var n := |steps| - 1;
      var front, s := steps[..n], steps[n];
      LivedSnoc(steps);
      FiredIffCaused(front, r);
      FiredIffCaused(front, LlmProven);
      EverFiresSnoc(steps, r);
      if LlmProven in Firings(Fresh(), front) { ProvenFiresSeen(front); }
      LastFires(steps, r);
    }
  }

  lemma NoneFires(r: Rule)
    ensures !EverFires([], r)
  {}

  lemma LastFires(steps: seq<Step>, r: Rule)
    requires steps != []
    requires var front := steps[..|steps| - 1]; LlmProven in Firings(Fresh(), front) ==> Seen(front, LlmProven)
    ensures var front, s := steps[..|steps| - 1], steps[|steps| - 1];
      r in Next(Lived(Fresh(), front), s).1 <==> FiresAt(steps, |steps| - 1, r) && r !in Firings(Fresh(), front)
  {
    hide Fresh, Fires, Drained, Seen, Updated, ActedAll, Reconnected, Firings, Lived;
    var front, s := steps[..|steps| - 1], steps[|steps| - 1];
    if s.Drain? { DrainFires(front, s.clock, r); }
  }

  lemma SeenGrows(steps: seq<Step>, k: nat, r: Rule)
    requires k <= |steps| && Seen(steps[..k], r)
    ensures Seen(steps, r)
  {
    hide Shows;
    var i :| 0 <= i < k && Shows(steps[..k][i], r);
    assert Shows(steps[i], r);
  }

  lemma SwallowedGrows(steps: seq<Step>, k: nat)
    requires k <= |steps| && SeenSwallowed(steps[..k])
    ensures SeenSwallowed(steps)
  {
    hide PlantedBy;
    var path :| SwallowedBy(steps[..k], path);
    var i: nat :| SwallowsAt(steps[..k], i, path);
    assert steps[..k][..i] == steps[..i] && steps[..k][i] == steps[i];
    assert SwallowsAt(steps, i, path);
    assert SwallowedBy(steps, path);
  }

  lemma PayloadsGrow(steps: seq<Step>, k: nat)
    requires k <= |steps|
    ensures |Payloads(steps[..k])| <= |Payloads(steps)|
  {
    forall path | path in Payloads(steps[..k]) ensures path in Payloads(steps) {
      var i :| 0 <= i < k && Drops(steps[..k][i], path);
      assert Drops(steps[i], path);
    }
    SubsetSize(Payloads(steps[..k]), Payloads(steps));
  }

  lemma {:induction false} SubsetSize(a: set<string>, b: set<string>)
    requires a <= b
    ensures |a| <= |b|
  {
    if a != {} {
      var x :| x in a;
      SubsetSize(a - {x}, b - {x});
    }
  }

  /** After a drain every rule but detection and the clock rule has fired exactly if its reason has
      been seen at all: none is missed, whenever the drains came, and none fires without one. */
  lemma DrainedIffCaused(steps: seq<Step>, clock: nat -> real, decoys: Rule -> Option<string>, r: Rule)
    requires r != LlmDetected && r != AwsCredentials
    ensures r in Firings(Fresh(), steps + [Drain(clock, decoys)]) <==> Caused(steps, r)
  {
    hide Fresh, Firings, Seen, SeenSwallowed, Payloads;
    var all := steps + [Drain(clock, decoys)];
    FiredIffCaused(all, r);
    assert all[..|steps|] == steps;
    if Caused(steps, r) {
      assert FiresAt(all, |steps|, r);
    }
    if EverFires(all, r) {
      var k: nat :| FiresAt(all, k, r);
      assert all[..k] == steps[..k];
      if r == DecoySwallowed { SwallowedGrows(steps, k); }
      else if r == PayloadStaging { PayloadsGrow(steps, k); }
      else { SeenGrows(steps, k, r); }
    }
  }

  // ---- The order of one drain ----------------------------------------------------------------------

  /** The rules that only plant, spawn or isolate. */
  predicate Deceives(r: Rule) {
    r in {SudoVulnerability, FakeMysql, IsolateSession, AwsCredentials}
  }

  /** How grave an alert is: critical, high, medium, or not an alert at all. */
  function Gravity(r: Rule): nat {
    match r
    case ReverseShell | SshPersistence | LlmProven => 0
    case HoneytokenTamper | DnsExfil | LlmDetected | LateralDecoy | LogTamper | CredentialExfil => 1
    case DecoySwallowed | CredentialSearch | PayloadStaging => 2
    case SudoVulnerability | FakeMysql | IsolateSession | AwsCredentials => 3
  }

  /** The order in which the source tries its rules. */
  function Listing(): seq<Rule> {
    [ReverseShell, SshPersistence, HoneytokenTamper, DnsExfil, LlmProven, LlmDetected, LateralDecoy, LogTamper,
     CredentialExfil, DecoySwallowed, CredentialSearch, PayloadStaging, SudoVulnerability, FakeMysql, IsolateSession,
     AwsCredentials]
  }

  /** One drain speaks in the order of the source's listing. So graver alerts come first, but for the
      proof of an LLM, which may follow high ones; a reverse shell comes before anything else, every
      alert before every deception, and the clock rule last. */
  lemma DrainOrder(o: Observed, clock: nat -> real, i: nat, j: nat)
    requires i < j < |Drained(o, clock)|
    ensures var emitted := Drained(o, clock);
      && emitted[j] != ReverseShell && emitted[i] != AwsCredentials
      && (emitted[j] == SshPersistence ==> emitted[i] == ReverseShell)
      && (Deceives(emitted[i]) ==> Deceives(emitted[j]))
      && (Gravity(emitted[i]) <= Gravity(emitted[j]) || emitted[j] == LlmProven)
      && exists a, b :: 0 <= a < b < |Listing()| && Listing()[a] == emitted[i] && Listing()[b] == emitted[j]
  {
    hide Due, Pass;
    PassIsDue(o, true, 0);
    PassIsDue(o, false, 0);
    var emitted := Drained(o, clock);
    assert Rank(emitted[i]) < Rank(emitted[j]);
    assert Listing()[Rank(emitted[i])] == emitted[i] && Listing()[Rank(emitted[j])] == emitted[j];
  }
}
