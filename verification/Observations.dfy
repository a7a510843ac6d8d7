/**
 What a session has observed about its attacker (plenith/session.py): the `observed` dict with
 its fixed template, how events change it, and how it survives a reconnect.
 */
module Observations {

  /** The keys of the fresh template. */
  datatype Field =
    | RanSudo | ServicesProbed | AttemptedLateral | FoundCrownJewel | Isolated | PlantedSudoCve | SpawnedMysql
    | CredentialFilesRead | HoneytokenModifications | HoneytokenDeletions | PayloadDrops
    | SshPersistenceAttempt | BashHistoryInspected | CredentialSearchAttempted | CredentialSearchTerms
    | ReverseShellAttempted | ReverseShellCommand | DnsExfilAttempted | DnsExfilCommands
    | LateralToDecoy | DecoyTargets | LogTampering | TamperingCommands | AttemptedSudoElevation
    | DecoysPlanted | DecoysSwallowed
    | AlertedSshPersistence | AlertedHoneytokenTamper | AlertedCredentialExfil | AlertedPayloadStaging
    | AlertedCredentialSearch | AlertedReverseShell | AlertedDnsExfil | AlertedLateralDecoy
    | AlertedLogTampering | AlertedDecoySwallowed
    | AttackerLikelyLlm | AttackerLlmConfidence | AttackerLlmSignals | CounterAiTrapArmed
    | AttackerLlmProvenViaTrap | AlertedAttackerLlmDetected | AlertedAttackerLlmProven

  datatype Value =
    | Flag(on: bool)
    | Text(text: string)
    | Number(number: real)
    | Names(names: set<string>)
    | Items(items: seq<string>)
    | Table(entries: map<string, real>)

  /** The dict, with its template keys apart from any others. */
  datatype Observed = Observed(known: map<Field, Value>, extra: map<string, Value>)

  predicate NamesField(f: Field) {
    f in {ServicesProbed, CredentialFilesRead, HoneytokenModifications, HoneytokenDeletions, PayloadDrops,
          CredentialSearchTerms, DnsExfilCommands, DecoyTargets, TamperingCommands, DecoysPlanted, DecoysSwallowed}
  }

  function FreshValue(f: Field): (v: Value)
    ensures v.Names? <==> NamesField(f)
  {
    if NamesField(f) then Names({})
    else if f == ReverseShellCommand then Text("")
    else if f == AttackerLlmConfidence then Number(0.0)
    else if f == AttackerLlmSignals then Table(map[])
    else Flag(false)
  }

  function Fresh(): Observed {
    Observed(map f: Field | true :: FreshValue(f), map[])
  }

  /** The fresh template: nothing seen, no flag up, no score. */
  lemma FreshTemplate(f: Field)
    ensures f in Fresh().known && Fresh().extra == map[]
    ensures Fresh().known[f] ==
      if f == ReverseShellCommand then Text("") else if f == AttackerLlmConfidence then Number(0.0)
      else if f == AttackerLlmSignals then Table(map[]) else if NamesField(f) then Names({}) else Flag(false)
  {}

  /** Every template key is present, and holds a set exactly when the template does. */
  ghost predicate WellFormed(o: Observed) {
    forall f: Field :: f in o.known && (o.known[f].Names? <==> NamesField(f))
  }

  predicate Truthy(v: Value) {
    match v
    case Flag(on) => on
    case Text(text) => text != ""
    case Number(number) => number != 0.0
    case Names(names) => names != {}
    case Items(items) => items != []
    case Table(entries) => entries != map[]
  }

  predicate Has(o: Observed, f: Field) {
    f in o.known && Truthy(o.known[f])
  }

  function NamesOf(o: Observed, f: Field): set<string> {
    if f in o.known && o.known[f].Names? then o.known[f].names else {}
  }

  function Set(o: Observed, f: Field, v: Value): Observed {
    o.(known := o.known[f := v])
  }

  function Raise(o: Observed, f: Field): Observed {
    Set(o, f, Flag(true))
  }

  function RaiseIf(o: Observed, when: bool, f: Field): Observed {
    if when then Raise(o, f) else o
  }

  function Add(o: Observed, f: Field, more: set<string>): Observed {
    if more == {} then o else Set(o, f, Names(NamesOf(o, f) + more))
  }

  // ---- What events change ----------------------------------------------------------------------

  /** The verdict of the counter-AI detector after a command. */
  datatype LlmVerdict = LlmVerdict(
    likely: bool, confidence: real, signals: map<string, real>, armedNow: bool, leaked: bool,
    history: Value, proof: Value)

  /** What the recognisers found in one event. A found command comes clipped, as it is stored. */
  datatype Update =
    | Command(llm: LlmVerdict, sudo: bool, services: set<string>, lateral: bool, crownJewel: bool,
              reverseShell: string, exfil: set<string>, decoyHosts: set<string>, logTamper: set<string>,
              elevation: bool)
    | FileRead(path: string, honeytoken: bool, credential: bool, history: bool)
    | FileWrite(path: string, honeytoken: bool, persistence: bool, payloadDir: bool)
    | FileUnlink(path: string, honeytoken: bool)
    | Search(hits: set<string>)

  function Judged(o: Observed, v: LlmVerdict): Observed {
    var o1 := Set(Set(Set(o, AttackerLikelyLlm, Flag(v.likely)), AttackerLlmConfidence, Number(v.confidence)),
                  AttackerLlmSignals, Table(v.signals));
    var o2 := o1.(extra := o1.extra["attacker_llm_history" := v.history]);
    var o3 := RaiseIf(RaiseIf(o2, v.armedNow, CounterAiTrapArmed), v.leaked, AttackerLlmProvenViaTrap);
    if v.leaked then o3.(extra := o3.extra["counter_ai_trap_proof" := v.proof]) else o3
  }

  /** `command` is the matching command, or "" for none; the first one seen is kept. */
  function ShellSeen(o: Observed, command: string): Observed {
    if command == "" then o
    else
      var o1 := Raise(o, ReverseShellAttempted);
      if Has(o1, ReverseShellCommand) then o1 else Set(o1, ReverseShellCommand, Text(command))
  }

  function Noted(o: Observed, found: set<string>, flag: Field, names: Field): Observed {
    if found == {} then o else Add(Raise(o, flag), names, found)
  }

  /** `update_observations`, `observe_vfs_event` and `observe_search_event`. */
  function Updated(o: Observed, u: Update): Observed {
    match u
    case Command(llm, sudo, services, lateral, crownJewel, shell, exfil, hosts, tamper, elevation) =>
      var o1 := RaiseIf(Judged(o, llm), sudo, RanSudo);
      var probed := RaiseIf(Add(o1, ServicesProbed, services), lateral, AttemptedLateral);
      var o2 := RaiseIf(probed, crownJewel, FoundCrownJewel);
      var o3 := Noted(ShellSeen(o2, shell), exfil, DnsExfilAttempted, DnsExfilCommands);
      var o4 := Noted(Noted(o3, hosts, LateralToDecoy, DecoyTargets), tamper, LogTampering, TamperingCommands);
      RaiseIf(o4, elevation, AttemptedSudoElevation)
    case FileRead(path, honeytoken, credential, history) =>
      var o1 := if honeytoken && credential then Add(o, CredentialFilesRead, {path}) else o;
      var o2 := RaiseIf(o1, history, BashHistoryInspected);
      if path in NamesOf(o2, DecoysPlanted) then Add(o2, DecoysSwallowed, {path}) else o2
    case FileWrite(path, honeytoken, persistence, payloadDir) =>
      var o1 := RaiseIf(o, persistence, SshPersistenceAttempt);
      var o2 := if honeytoken then Add(o1, HoneytokenModifications, {path}) else o1;
      if payloadDir then Add(o2, PayloadDrops, {path}) else o2
    case FileUnlink(path, honeytoken) =>
      if honeytoken then Add(Add(o, HoneytokenModifications, {path}), HoneytokenDeletions, {path}) else o
    case Search(hits) => Noted(o, hits, CredentialSearchAttempted, CredentialSearchTerms)
  }

  // ---- Persistence -----------------------------------------------------------------------------

  /** Some listing of a set; the source sorts it, which no later step depends on. */
  ghost function Listed(names: set<string>): (items: seq<string>)
    ensures forall n :: n in items <==> n in names
    ensures |items| == |names|
  {
    if names == {} then [] else
      var n :| n in names;
      [n] + Listed(names - {n})
  }

  ghost function SerializedValue(v: Value): Value {
    if v.Names? then Items(Listed(v.names)) else v
  }

  ghost function Serialized(o: Observed): Observed {
    Observed(map f | f in o.known :: SerializedValue(o.known[f]), map k | k in o.extra :: SerializedValue(o.extra[k]))
  }

  function RestoredValue(f: Field, v: Value): Value {
    if NamesField(f) && v.Items? then Names(set n | n in v.items) else v
  }

  /** Keys outside the template are dropped, missing ones backfilled. */
  function Deserialized(p: Observed): Observed {
    Observed(map f: Field | true :: if f in p.known then RestoredValue(f, p.known[f]) else FreshValue(f), map[])
  }

  /** The restoring loop over the persisted items. */
  method DeserializeObserved(p: Observed) returns (out: Observed)
    ensures out == Deserialized(p)
  {
    out := Fresh();
    var todo := p.known.Keys;
    while todo != {}
      invariant todo <= p.known.Keys
      invariant out == Observed(
        map f: Field | true ::
          if f in p.known && f !in todo then RestoredValue(f, p.known[f]) else FreshValue(f),
        map[])
      decreases |todo|
    {
      var f :| f in todo;
      todo := todo - {f};
      if out.known[f].Names? && p.known[f].Items? {
        out := Set(out, f, Names(set n | n in p.known[f].items));
      } else {
        out := Set(out, f, p.known[f]);
      }
    }
  }

  ghost function Reconnected(o: Observed): Observed {
    Deserialized(Serialized(o))
  }

  /** A reconnect restores every template key as it was and drops every other key. */
  lemma ReconnectIdentity(o: Observed)
    requires WellFormed(o)
    ensures Reconnected(o) == o.(extra := map[])
  {
    var r := Reconnected(o);
    forall f: Field ensures f in r.known && r.known[f] == o.known[f] {
      if NamesField(f) {
        assert (set n | n in Listed(o.known[f].names)) == o.known[f].names;
      }
    }
  }

  /** Per key, the round trip loses nothing exactly when a list is not stored under a set's key nor a
      set under any other: the one comes back as a set, the other as a list. */
  lemma RoundTripIff(f: Field, v: Value)
    ensures RestoredValue(f, SerializedValue(v)) == v <==> (NamesField(f) ==> !v.Items?) && (v.Names? ==> NamesField(f))
  {
    if v.Names? {
      assert (set n | n in Listed(v.names)) == v.names;
    }
  }
}
