/**
 From the trap to the critical alert: the counter-AI detector (plenith/counter_ai.py), the
 observations it writes (plenith/session.py) and the rule they trigger (plenith/heuristics.py),
 taken together over one engagement.
 */
module TrapAlert {
  import opened Common
  import opened Observations
  import opened Heuristics
  import opened Engagement
  import Causes
  import Evidence
  import CounterAi
  import Scoring
  import Sightings

  /** What happens in an engagement. With a command comes what the patterns found in it; the
      detector's part of that is computed here, but for how its tables are written down. */
  datatype Event =
    | Ran(command: CounterAi.Command, found: Update)
    | Saw(update: Update)
    | Drains(clock: nat -> real, decoys: Rule -> Option<string>)
    | Reconnects

  predicate Sane(e: Event) {
    (e.Ran? ==> e.found.Command?) && (e.Saw? ==> !e.update.Command?)
  }

  datatype World = World(detector: Option<CounterAi.State>, observed: Observed)

  function Start(): World {
    World(None, Fresh())
  }

  predicate Leaked(w: World) {
    w.detector.Some? && w.detector.value.leak.Some?
  }

  function Armed(d: Option<CounterAi.State>): bool {
    d.Some? && d.value.armed
  }

  /** What `observe_command` writes into the observations. */
  function Verdict(llm: LlmVerdict, d: Option<CounterAi.State>, s: CounterAi.State): LlmVerdict {
    llm.(likely := s.confidence >= Scoring.LIKELY, confidence := s.confidence,
         armedNow := s.armed && !Armed(d), leaked := s.leak.Some?)
  }

  function Detector(w: World, e: Event, tag: string, sqrt: real -> real): Option<CounterAi.State> {
    match e
    case Ran(c, _) => Some(CounterAi.Stepped(w.detector, c, tag, sqrt))
    case Reconnects => Some(CounterAi.Reconnected(w.detector))
    case _ => w.detector
  }

  /** The engagement step that an event is to the session. */
  function StepOf(w: World, e: Event, tag: string, sqrt: real -> real): Step
    requires Sane(e)
  {
    match e
    case Ran(c, found) =>
      Observe(found.(llm := Verdict(found.llm, w.detector, CounterAi.Stepped(w.detector, c, tag, sqrt))))
    case Saw(u) => Observe(u)
    case Drains(clock, decoys) => Drain(clock, decoys)
    case Reconnects => Reconnect
  }

  ghost function After(w: World, e: Event, tag: string, sqrt: real -> real): World
    requires Sane(e)
  {
    World(Detector(w, e, tag, sqrt), Next(w.observed, StepOf(w, e, tag, sqrt)).0)
  }

  ghost function Emitted(w: World, e: Event, tag: string, sqrt: real -> real): seq<Rule>
    requires Sane(e)
  {
    Next(w.observed, StepOf(w, e, tag, sqrt)).1
  }

  predicate AllSane(events: seq<Event>) {
    forall i :: 0 <= i < |events| ==> Sane(events[i])
  }

  ghost function Lived(w: World, events: seq<Event>, tag: string, sqrt: real -> real): World
    requires AllSane(events)
    decreases |events|
  {
    if events == [] then w else Lived(After(w, events[0], tag, sqrt), events[1..], tag, sqrt)
  }

  /** Every alert and action of a run, in order. */
  ghost function Alerts(w: World, events: seq<Event>, tag: string, sqrt: real -> real): seq<Rule>
    requires AllSane(events)
    decreases |events|
  {
    if events == [] then []
    else Emitted(w, events[0], tag, sqrt) + Alerts(After(w, events[0], tag, sqrt), events[1..], tag, sqrt)
  }

  // ---- What touches the two flags ----------------------------------------------------------------

  /** The flag of a proven attacker and the gate of its alert. */
  predicate OfProof(f: Field) {
    f == AttackerLlmProvenViaTrap || f == AlertedAttackerLlmProven
  }

  lemma UpdatedProof(o: Observed, u: Update, f: Field)
    requires OfProof(f)
    ensures Has(Updated(o, u), f) <==> Has(o, f) || (f == AttackerLlmProvenViaTrap && u.Command? && u.llm.leaked)
  {
    hide Has, Updated, Sightings.Raises, Sightings.Stands, NamesField;
    ProofTable(o, u, f);
    Sightings.FlagStep(o, u, f);
  }

  lemma ProofTable(o: Observed, u: Update, f: Field)
    requires OfProof(f)
    ensures !NamesField(f) && Sightings.Stands(o, u, f) == Has(o, f)
    ensures Sightings.Raises(u, f) <==> f == AttackerLlmProvenViaTrap && u.Command? && u.llm.leaked
  {
    hide Has;
    if f == AttackerLlmProvenViaTrap {
      assert Sightings.Raises(u, AttackerLlmProvenViaTrap) <==> u.Command? && u.llm.leaked;
    } else {
      assert !Sightings.Raises(u, AlertedAttackerLlmProven);
    }
  }

  lemma MarksProof(r: Rule, f: Field)
    requires OfProof(f)
    ensures Causes.Marks(r, f) <==> f == AlertedAttackerLlmProven && r == LlmProven
  {}

  lemma ActedAllProof(o: Observed, rules: seq<Rule>, decoys: Rule -> Option<string>, f: Field)
    requires OfProof(f)
    ensures Has(ActedAll(o, rules, decoys), f) <==> Has(o, f) || (f == AlertedAttackerLlmProven && LlmProven in rules)
  {
    hide Has, ActedAll, Causes.Marks;
    Causes.ActedAllEffect(o, rules, decoys, f, "");
    forall r: Rule ensures Causes.Marks(r, f) <==> f == AlertedAttackerLlmProven && r == LlmProven {
      MarksProof(r, f);
    }
  }

  lemma PassProof(o: Observed, late: bool, i: nat)
    requires i == 0
    ensures LlmProven in Pass(o, late, i) <==>
      Has(o, AttackerLlmProvenViaTrap) && !Has(o, AlertedAttackerLlmProven)
  {
    hide Pass, Has;
    PassIsDue(o, late, i);
  }

  /** A drain emits the critical alert exactly when the attacker is proven and not yet reported. */
  lemma DrainedProof(o: Observed, clock: nat -> real)
    ensures LlmProven in Drained(o, clock) <==>
      Has(o, AttackerLlmProvenViaTrap) && !Has(o, AlertedAttackerLlmProven)
  {
    hide Pass, Has;
    PassProof(o, clock(|Pass(o, false, 0)|) > 600.0, 0);
  }

  // ---- One event ---------------------------------------------------------------------------------

  /** The observations know of a proof exactly when the detector holds one. */
  ghost predicate InStep(w: World) {
    WellFormed(w.observed) && (Has(w.observed, AttackerLlmProvenViaTrap) <==> Leaked(w))
  }

  lemma StartInStep()
    ensures InStep(Start()) && !Has(Start().observed, AlertedAttackerLlmProven)
  {
    hide WellFormed, Has;
    Evidence.FreshCoherent();
    Evidence.FreshField(AttackerLlmProvenViaTrap);
    Evidence.FreshField(AlertedAttackerLlmProven);
  }

  /** The state a command meets, and whether it echoes the marker held there. */
  predicate EchoesNow(w: World, c: CounterAi.Command, tag: string) {
    CounterAi.Echoes((if w.detector.Some? then w.detector.value else CounterAi.Begun(tag)).marker, c)
  }

  lemma DetectorProof(w: World, e: Event, tag: string, sqrt: real -> real)
    requires Sane(e)
    ensures Leaked(After(w, e, tag, sqrt)) <==> Leaked(w) || (e.Ran? && EchoesNow(w, e.command, tag))
  {
    hide CounterAi.Echoes, CounterAi.Judged, CounterAi.Purity, CounterAi.Payload, CounterAi.Marker, CounterAi.LastOf;
  }

  /** One event keeps both in step, never forgets a proof, and emits the critical alert exactly on a
      drain that finds a proof unreported. */
  lemma StepProof(w: World, e: Event, tag: string, sqrt: real -> real)
    requires Sane(e) && InStep(w)
    ensures var v, emitted, gate := After(w, e, tag, sqrt), Emitted(w, e, tag, sqrt), AlertedAttackerLlmProven;
      && InStep(v)
      && (Has(v.observed, gate) <==> Has(w.observed, gate) || LlmProven in emitted)
      && (LlmProven in emitted <==> e.Drains? && Leaked(w) && !Has(w.observed, gate))
  {
    hide WellFormed, Has, Updated, Judged, ActedAll, Drained, EchoesNow, CounterAi.Stepped, CounterAi.Reconnected;
    var o, proof, gate := w.observed, AttackerLlmProvenViaTrap, AlertedAttackerLlmProven;
    NextKeeps(o, StepOf(w, e, tag, sqrt));
    DetectorProof(w, e, tag, sqrt);
    match e
    case Ran(c, found) =>
      var u := StepOf(w, e, tag, sqrt).update;
      UpdatedProof(o, u, proof);
      UpdatedProof(o, u, gate);
    case Saw(u) =>
      UpdatedProof(o, u, proof);
      UpdatedProof(o, u, gate);
    case Drains(clock, decoys) =>
      DrainedProof(o, clock);
      ActedAllProof(o, Drained(o, clock), decoys, proof);
      ActedAllProof(o, Drained(o, clock), decoys, gate);
    case Reconnects =>
      ReconnectIdentity(o);
      SameKnown(o, proof);
      SameKnown(o, gate);
  }

  lemma SameKnown(o: Observed, f: Field)
    ensures Has(o.(extra := map[]), f) == Has(o, f)
  {}

  // ---- Whole engagements -------------------------------------------------------------------------

  lemma {:induction false} RunProof(w: World, events: seq<Event>, tag: string, sqrt: real -> real)
    requires AllSane(events) && InStep(w)
    ensures var v, gate := Lived(w, events, tag, sqrt), AlertedAttackerLlmProven;
      && InStep(v) && (Leaked(w) ==> Leaked(v))
      && (Has(v.observed, gate) <==> Has(w.observed, gate) || LlmProven in Alerts(w, events, tag, sqrt))
    decreases |events|
  {
    if events != [] {
      hide InStep, Has, After, Emitted, EchoesNow, Leaked;
      StepProof(w, events[0], tag, sqrt);
      DetectorProof(w, events[0], tag, sqrt);
      RunProof(After(w, events[0], tag, sqrt), events[1..], tag, sqrt);
    }
  }

  lemma {:induction false} RunConcat(w: World, a: seq<Event>, b: seq<Event>, tag: string, sqrt: real -> real)
    requires AllSane(a) && AllSane(b)
    ensures var v := Lived(w, a, tag, sqrt);
      && Lived(w, a + b, tag, sqrt) == Lived(v, b, tag, sqrt)
      && Alerts(w, a + b, tag, sqrt) == Alerts(w, a, tag, sqrt) + Alerts(v, b, tag, sqrt)
    decreases |a|
  {
    hide After, Emitted;
    if a == [] {
      assert a + b == b;
    } else {
      RunConcat(After(w, a[0], tag, sqrt), a[1..], b, tag, sqrt);
      assert (a + b)[1..] == a[1..] + b;
    }
  }

  ghost function Steps(w: World, events: seq<Event>, tag: string, sqrt: real -> real): seq<Step>
    requires AllSane(events)
    decreases |events|
  {
    if events == [] then []
    else [StepOf(w, events[0], tag, sqrt)] + Steps(After(w, events[0], tag, sqrt), events[1..], tag, sqrt)
  }

  /** To the rules, a run is an engagement like any other. */
  lemma {:induction false} AlertsAreFirings(w: World, events: seq<Event>, tag: string, sqrt: real -> real)
    requires AllSane(events)
    ensures Alerts(w, events, tag, sqrt) == Firings(w.observed, Steps(w, events, tag, sqrt))
    decreases |events|
  {
    if events != [] {
      hide StepOf, Next, Detector;
      AlertsAreFirings(After(w, events[0], tag, sqrt), events[1..], tag, sqrt);
      assert Steps(w, events, tag, sqrt)[1..] == Steps(After(w, events[0], tag, sqrt), events[1..], tag, sqrt);
    }
  }

  lemma AlertsOnce(events: seq<Event>, tag: string, sqrt: real -> real)
    requires AllSane(events)
    ensures OnceEach(Alerts(Start(), events, tag, sqrt))
  {
    hide OnceEach;
    AlertsAreFirings(Start(), events, tag, sqrt);
    EachRuleOncePerEngagement(Steps(Start(), events, tag, sqrt));
  }

  lemma OneEvent(w: World, e: Event, tag: string, sqrt: real -> real)
    requires Sane(e)
    ensures Lived(w, [e], tag, sqrt) == After(w, e, tag, sqrt) && Alerts(w, [e], tag, sqrt) == Emitted(w, e, tag, sqrt)
  {
    hide After, Emitted;
    assert [e][1..] == [];
    assert Alerts(After(w, e, tag, sqrt), [], tag, sqrt) == [];
    assert Emitted(w, e, tag, sqrt) + [] == Emitted(w, e, tag, sqrt);
  }

  /** By the end of any drain, the critical alert has been raised exactly when the detector holds a
      proof by then. */
  lemma AlertIffProven(events: seq<Event>, clock: nat -> real, decoys: Rule -> Option<string>,
                       tag: string, sqrt: real -> real)
    requires AllSane(events)
    ensures AllSane(events + [Drains(clock, decoys)])
    ensures LlmProven in Alerts(Start(), events + [Drains(clock, decoys)], tag, sqrt) <==>
      Leaked(Lived(Start(), events, tag, sqrt))
  {
    hide InStep, Has, After, Emitted, Lived, Alerts, Leaked;
    var drain, w := Drains(clock, decoys), Lived(Start(), events, tag, sqrt);
    StartInStep();
    RunProof(Start(), events, tag, sqrt);
    RunConcat(Start(), events, [drain], tag, sqrt);
    OneEvent(w, drain, tag, sqrt);
    StepProof(w, drain, tag, sqrt);
    ReportedIsLeaked(events, tag, sqrt);
  }

  /** Nothing is reported before it is proven. */
  lemma {:induction false} ReportedIsLeaked(events: seq<Event>, tag: string, sqrt: real -> real)
    requires AllSane(events)
    ensures var w := Lived(Start(), events, tag, sqrt);
      Has(w.observed, AlertedAttackerLlmProven) ==> Leaked(w)
    decreases |events|
  {
    hide InStep, Has, After, Emitted, Lived, Alerts, Leaked, EchoesNow;
    StartInStep();
    if events == [] {
      assert Lived(Start(), [], tag, sqrt) == Start() by { NoEvents(tag, sqrt); }
    } else {
      var front, last := events[..|events| - 1], events[|events| - 1];
      var w := Lived(Start(), front, tag, sqrt);
      assert events == front + [last];
      ReportedIsLeaked(front, tag, sqrt);
      RunProof(Start(), front, tag, sqrt);
      RunConcat(Start(), front, [last], tag, sqrt);
      OneEvent(w, last, tag, sqrt);
      StepProof(w, last, tag, sqrt);
      DetectorProof(w, last, tag, sqrt);
    }
  }

  lemma NoEvents(tag: string, sqrt: real -> real)
    ensures Lived(Start(), [], tag, sqrt) == Start() && Alerts(Start(), [], tag, sqrt) == []
  {}

  /** The first echo of the marker makes the next drain raise the critical alert. It had not been
      raised before, and however the engagement goes on it is never raised again. */
  lemma FirstEchoAlertsOnce(earlier: seq<Event>, c: CounterAi.Command, found: Update, quiet: seq<Event>,
                            clock: nat -> real, decoys: Rule -> Option<string>, later: seq<Event>,
                            tag: string, sqrt: real -> real)
    requires AllSane(earlier) && Sane(Ran(c, found)) && AllSane(quiet) && AllSane(later)
    requires forall i :: 0 <= i < |quiet| ==> !quiet[i].Drains?
    requires var w := Lived(Start(), earlier, tag, sqrt); !Leaked(w) && EchoesNow(w, c, tag)
    ensures var before := earlier + [Ran(c, found)] + quiet;
      && LlmProven !in Alerts(Start(), before, tag, sqrt)
      && LlmProven in Emitted(Lived(Start(), before, tag, sqrt), Drains(clock, decoys), tag, sqrt)
      && OnceEach(Alerts(Start(), before + [Drains(clock, decoys)] + later, tag, sqrt))
  {
    hide InStep, Has, After, Emitted, Lived, Alerts, Leaked, EchoesNow, OnceEach;
    var e := Ran(c, found);
    var w := Lived(Start(), earlier, tag, sqrt);
    StartInStep();
    RunProof(Start(), earlier, tag, sqrt);
    ReportedIsLeaked(earlier, tag, sqrt);
    RunConcat(Start(), earlier, [e], tag, sqrt);
    OneEvent(w, e, tag, sqrt);
    StepProof(w, e, tag, sqrt);
    DetectorProof(w, e, tag, sqrt);
    var v := Lived(Start(), earlier + [e], tag, sqrt);
    RunConcat(Start(), earlier + [e], quiet, tag, sqrt);
    RunProof(v, quiet, tag, sqrt);
    QuietEmitsNothing(v, quiet, tag, sqrt);
    StepProof(Lived(v, quiet, tag, sqrt), Drains(clock, decoys), tag, sqrt);
    AlertsOnce(earlier + [e] + quiet + [Drains(clock, decoys)] + later, tag, sqrt);
  }

  lemma {:induction false} QuietEmitsNothing(w: World, events: seq<Event>, tag: string, sqrt: real -> real)
    requires AllSane(events) && forall i :: 0 <= i < |events| ==> !events[i].Drains?
    ensures Alerts(w, events, tag, sqrt) == []
    decreases |events|
  {
    if events != [] {
      hide Updated, Detector, Reconnected;
      QuietEmitsNothing(After(w, events[0], tag, sqrt), events[1..], tag, sqrt);
    }
  }

  // ---- From rhythm to the detection alert --------------------------------------------------------

  /** The detector holds the attacker for an LLM. */
  predicate Sure(w: World) {
    w.detector.Some? && w.detector.value.confidence >= 0.55
  }

  ghost predicate LikelyInStep(w: World) {
    WellFormed(w.observed) && (Has(w.observed, AttackerLikelyLlm) <==> Sure(w))
  }

  lemma StepLikely(w: World, e: Event, tag: string, sqrt: real -> real)
    requires Sane(e) && LikelyInStep(w)
    ensures LikelyInStep(After(w, e, tag, sqrt))
  {
    hide WellFormed, Has, Updated, Judged, ActedAll, Drained, CounterAi.Stepped, Next;
    var s := StepOf(w, e, tag, sqrt);
    NextKeeps(w.observed, s);
    Causes.NextLikely(w.observed, s);
    if e.Reconnects? { RestoredConfidence(w.detector); }
  }

  lemma RestoredConfidence(d: Option<CounterAi.State>)
    ensures CounterAi.Reconnected(d).confidence == if d.Some? then d.value.confidence else 0.0
  {}

  lemma {:induction false} RunLikely(w: World, events: seq<Event>, tag: string, sqrt: real -> real)
    requires AllSane(events) && LikelyInStep(w)
    ensures LikelyInStep(Lived(w, events, tag, sqrt))
    decreases |events|
  {
    if events != [] {
      hide LikelyInStep, After;
      StepLikely(w, events[0], tag, sqrt);
      RunLikely(After(w, events[0], tag, sqrt), events[1..], tag, sqrt);
    }
  }

  lemma {:induction false} StepsOfPrefix(w: World, events: seq<Event>, k: nat, tag: string, sqrt: real -> real)
    requires AllSane(events) && k <= |events|
    ensures var steps := Steps(w, events, tag, sqrt);
      && |steps| == |events| && steps[..k] == Steps(w, events[..k], tag, sqrt)
      && (k < |events| ==> (steps[k].Drain? <==> events[k].Drains?))
      && Evidence.Lived(w.observed, steps) == Lived(w, events, tag, sqrt).observed
    decreases |events|
  {
    if events != [] {
      hide Next, Detector;
      var v := After(w, events[0], tag, sqrt);
      StepsOfPrefix(v, events[1..], if k > 0 then k - 1 else 0, tag, sqrt);
      assert Steps(w, events, tag, sqrt)[1..] == Steps(v, events[1..], tag, sqrt);
      if k > 0 {
        assert events[..k][1..] == events[1..][..k - 1];
      }
    }
  }

  /** The detection alert has been raised exactly when some drain found the detector sure, and holding
      no proof yet: what the last command's confidence was by then is all that counts. */
  lemma DetectedIffSure(events: seq<Event>, tag: string, sqrt: real -> real)
    requires AllSane(events)
    ensures LlmDetected in Alerts(Start(), events, tag, sqrt) <==>
      exists k :: 0 <= k < |events| && FoundSure(events, k, tag, sqrt)
  {
    hide Has, Alerts, Steps, Lived, FoundSure, Firings, Causes.FiresAt;
    var steps := Steps(Start(), events, tag, sqrt);
    AlertsAreFirings(Start(), events, tag, sqrt);
    Causes.FiredIffCaused(steps, LlmDetected);
    StepsOfPrefix(Start(), events, 0, tag, sqrt);
    forall k: nat | k < |events| ensures FoundSure(events, k, tag, sqrt) <==> Causes.FiresAt(steps, k, LlmDetected) {
      SureAt(events, k, tag, sqrt);
    }
    forall k: nat ensures Causes.FiresAt(steps, k, LlmDetected) ==> k < |events| {
      FiresInside(steps, k);
    }
  }

  lemma FiresInside(steps: seq<Step>, k: nat)
    ensures Causes.FiresAt(steps, k, LlmDetected) ==> k < |steps|
  {}

  ghost predicate FoundSure(events: seq<Event>, k: nat, tag: string, sqrt: real -> real)
    requires AllSane(events)
  {
    k < |events| && events[k].Drains? &&
    var w := Lived(Start(), events[..k], tag, sqrt);
    Sure(w) && !Leaked(w)
  }

  lemma SureAt(events: seq<Event>, k: nat, tag: string, sqrt: real -> real)
    requires AllSane(events) && k < |events|
    ensures FoundSure(events, k, tag, sqrt) <==> Causes.FiresAt(Steps(Start(), events, tag, sqrt), k, LlmDetected)
  {
    hide Has, Steps, Lived, Sure, Leaked, Causes.Seen, Causes.LastLikely, Fresh, Evidence.Lived, Trigger;
    var before := Steps(Start(), events[..k], tag, sqrt);
    StepsOfPrefix(Start(), events, k, tag, sqrt);
    StepsOfPrefix(Start(), events[..k], 0, tag, sqrt);
    StartInStep();
    StartLikely();
    RunProof(Start(), events[..k], tag, sqrt);
    RunLikely(Start(), events[..k], tag, sqrt);
    Causes.LikelyHistory(before);
    Causes.TriggerCaused(before, LlmProven, 0.0);
    ProvenTrigger(Evidence.Lived(Fresh(), before));
  }

  lemma ProvenTrigger(o: Observed)
    ensures Trigger(LlmProven, o, 0.0) == Has(o, AttackerLlmProvenViaTrap)
  {}

  lemma StartLikely()
    ensures LikelyInStep(Start()) && Start().observed == Fresh()
  {
    hide WellFormed, Has;
    Evidence.FreshCoherent();
    Evidence.FreshField(AttackerLikelyLlm);
  }

  // ---- The armed flag ------------------------------------------------------------------------------

  ghost predicate ArmedInStep(w: World) {
    WellFormed(w.observed) && (Has(w.observed, CounterAiTrapArmed) <==> Armed(w.detector))
  }

  lemma ArmedTable(o: Observed, u: Update)
    ensures Sightings.Raises(u, CounterAiTrapArmed) <==> u.Command? && u.llm.armedNow
    ensures Sightings.Stands(o, u, CounterAiTrapArmed) == Has(o, CounterAiTrapArmed)
    ensures !NamesField(CounterAiTrapArmed) && forall r: Rule :: !Causes.Marks(r, CounterAiTrapArmed)
  {
    hide Has;
    forall r: Rule ensures !Causes.Marks(r, CounterAiTrapArmed) {}
  }

  /** The observations know of an armed trap exactly when the detector has one. */
  lemma StepArmed(w: World, e: Event, tag: string, sqrt: real -> real)
    requires Sane(e) && ArmedInStep(w)
    ensures ArmedInStep(After(w, e, tag, sqrt))
  {
    hide WellFormed, Has, Updated, Judged, ActedAll, Drained, Sightings.Raises, Sightings.Stands, Causes.Marks;
    hide CounterAi.Purity, CounterAi.Judged, CounterAi.LastOf, CounterAi.Echoes, CounterAi.LeakText;
    hide CounterAi.Marker, CounterAi.Payload, NamesField;
    var o, armed := w.observed, CounterAiTrapArmed;
    NextKeeps(o, StepOf(w, e, tag, sqrt));
    match e
    case Ran(c, found) =>
      var u := StepOf(w, e, tag, sqrt).update;
      ArmedTable(o, u);
      Sightings.FlagStep(o, u, armed);
    case Saw(u) =>
      ArmedTable(o, u);
      Sightings.FlagStep(o, u, armed);
    case Drains(clock, decoys) =>
      ArmedTable(o, Search({}));
      Causes.ActedAllEffect(o, Drained(o, clock), decoys, armed, "");
    case Reconnects =>
      ReconnectIdentity(o);
      SameKnown(o, armed);
  }

  /** So it is in every engagement. */
  lemma ArmedFlagged(events: seq<Event>, tag: string, sqrt: real -> real)
    requires AllSane(events)
    ensures var w := Lived(Start(), events, tag, sqrt);
      Has(w.observed, CounterAiTrapArmed) <==> Armed(w.detector)
  {
    hide WellFormed, Has, Lived;
    Evidence.FreshCoherent();
    Evidence.FreshField(CounterAiTrapArmed);
    RunArmed(Start(), events, tag, sqrt);
  }

  lemma {:induction false} RunArmed(w: World, events: seq<Event>, tag: string, sqrt: real -> real)
    requires AllSane(events) && ArmedInStep(w)
    ensures ArmedInStep(Lived(w, events, tag, sqrt))
    decreases |events|
  {
    if events != [] {
      hide ArmedInStep, After;
      StepArmed(w, events[0], tag, sqrt);
      RunArmed(After(w, events[0], tag, sqrt), events[1..], tag, sqrt);
    }
  }
}
