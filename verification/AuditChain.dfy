/**
 The hash-chained audit log (plenith/audit_chain.py).

 The hash is a parameter: an arbitrary function from entry bodies to digests. Nothing assumes
 that it is injective, so tamper evidence is proved as collision extraction: from two different
 logs accepted against one tip, `Extract` computes a pair of bodies with equal hash, or a body
 that hashes to the genesis constant.
 */
module AuditChain {
  import opened Common

  /** A SHA-256 hex digest, as the number it spells: two digests are equal as strings exactly
      when the numbers are. */
  type Digest = nat

  /** What a chain key or a recorded tip may hold in a log read from disk. */
  datatype HashField = Hex(digest: Digest) | Junk(value: Json)

  /** A logged action as a dict: its two chain keys, when present, and every other key. */
  datatype Entry = Entry(prevHash: Option<HashField>, entryHash: Option<HashField>, fields: map<string, Json>)

  type Hash = Entry -> Digest

  /** The synthetic predecessor of the first entry: sixty-four zero digits. */
  const GENESIS_HASH: Digest := 0

  /** The part of an entry that is hashed: everything but its own hash field. */
  function Body(entry: Entry): Entry {
    entry.(entryHash := None)
  }

  function CanonicalHash(hash: Hash, entry: Entry): Digest {
    hash(Body(entry))
  }

  // ---- Building the chain ----------------------------------------------------------------

  function ChainEntry(hash: Hash, entry: Entry, prev: Digest): (out: Entry)
    ensures out.fields == entry.fields && Fault(hash, out, prev) == None
  {
    var linked := entry.(prevHash := Some(Hex(prev)));
    linked.(entryHash := Some(Hex(CanonicalHash(hash, linked))))
  }

  /** The chained form of `actions` after a predecessor whose hash is `prev`. */
  function Chained(hash: Hash, actions: seq<Entry>, prev: Digest): (out: seq<Entry>)
    ensures |out| == |actions|
    decreases |actions|
  {
    if actions == [] then [] else
      var first := ChainEntry(hash, actions[0], prev);
      [first] + Chained(hash, actions[1..], CanonicalHash(hash, first))
  }

  method ChainActions(hash: Hash, actions: seq<Entry>, startingFrom: Digest) returns (out: seq<Entry>)
    ensures out == Chained(hash, actions, startingFrom)
  {
    var prev := startingFrom;
    out := [];
    for i := 0 to |actions|
      invariant out + Chained(hash, actions[i..], prev) == Chained(hash, actions, startingFrom)
    {
      var chained := ChainEntry(hash, actions[i], prev);
      assert actions[i..][0] == actions[i] && actions[i..][1..] == actions[i + 1..];
      out := out + [chained];
      prev := CanonicalHash(hash, chained);
    }
  }

  predicate Falsy(value: Json) {
    value in {Null, Bool(false), Num(0), Str(""), Arr([]), Obj(map[])}
  }

  /** The recorded tip; `None` stands for the source's ValueError on an unhashed last entry. */
  function ChainTip(actions: seq<Entry>): Option<HashField> {
    if actions == [] then Some(Hex(GENESIS_HASH))
    else
      var tip := actions[|actions| - 1].entryHash;
      if tip.Some? && tip.value.Junk? && Falsy(tip.value.value) then None else tip
  }

  /** The tip is the genesis hash of an empty log and the last entry's hash otherwise, refused exactly
      when that is missing or empty. */
  lemma TipRefused(actions: seq<Entry>)
    ensures ChainTip([]) == Some(Hex(0))
    ensures actions != [] ==>
      var h := actions[|actions| - 1].entryHash;
      if h == None || exists junk :: h == Some(Junk(junk))
                                     && junk in [Null, Bool(false), Num(0), Str(""), Arr([]), Obj(map[])]
      then ChainTip(actions) == None
      else ChainTip(actions) == h
  {
    if actions != [] {
      var h := actions[|actions| - 1].entryHash;
      if h.Some? && h.value.Junk? {
        var all := [Null, Bool(false), Num(0), Str(""), Arr([]), Obj(map[])];
        assert all[0] == Null && all[1] == Bool(false) && all[2] == Num(0) && all[3] == Str("");
        assert all[4] == Arr([]) && all[5] == Obj(map[]);
      }
    }
  }

  // ---- Verification ------------------------------------------------------------------------

  datatype Reason =
    | EmptyChainButTipClaimed
    | MissingPrevHash
    | MissingEntryHash
    | PrevHashMismatch
    | EntryHashMismatch
    | TipMismatch

  datatype ChainResult = ChainResult(
    ok: bool, length: nat, tip: Digest, legacy: bool, breakAt: Option<nat>, reason: Option<Reason>)

  predicate HasChainFields(actions: seq<Entry>) {
    exists i :: 0 <= i < |actions| && (actions[i].entryHash.Some? || actions[i].prevHash.Some?)
  }

  /** What is wrong with one entry whose predecessor hashes to `prev`, if anything. */
  function Fault(hash: Hash, entry: Entry, prev: Digest): Option<Reason> {
    if entry.prevHash == None then Some(MissingPrevHash)
    else if entry.entryHash == None then Some(MissingEntryHash)
    else if entry.prevHash.value != Hex(prev) then Some(PrevHashMismatch)
    else if entry.entryHash.value != Hex(CanonicalHash(hash, entry)) then Some(EntryHashMismatch)
    else None
  }

  /** The tip of the first `n` entries, recomputed from their contents. */
  function PrefixTip(hash: Hash, actions: seq<Entry>, n: nat): Digest
    requires n <= |actions|
  {
    if n == 0 then GENESIS_HASH else CanonicalHash(hash, actions[n - 1])
  }

  /** What is wrong with entry `i`, given the entries before it. */
  function FaultAt(hash: Hash, actions: seq<Entry>, i: nat): Option<Reason>
    requires i < |actions|
  {
    Fault(hash, actions[i], PrefixTip(hash, actions, i))
  }

  predicate LinkedUpTo(hash: Hash, actions: seq<Entry>, n: nat)
    requires n <= |actions|
  {
    forall i :: 0 <= i < n ==> FaultAt(hash, actions, i) == None
  }

  lemma LinkedPrefix(hash: Hash, actions: seq<Entry>, n: nat)
    requires n <= |actions|
    ensures PrefixTip(hash, actions[..n], n) == PrefixTip(hash, actions, n)
    ensures LinkedUpTo(hash, actions[..n], n) <==> LinkedUpTo(hash, actions, n)
  {
    forall i | 0 <= i < n ensures FaultAt(hash, actions[..n], i) == FaultAt(hash, actions, i) {}
  }

  /** Entry `i` is the first one that breaks the chain. */
  predicate FirstBreak(hash: Hash, actions: seq<Entry>, i: nat) {
    i < |actions| && LinkedUpTo(hash, actions, i) && FaultAt(hash, actions, i) != None
  }

  /** No tip is recorded: the key is missing, or it is there and null. */
  predicate NoTip(expected: Option<HashField>) {
    expected == None || expected == Some(Junk(Null))
  }

  predicate Claims(expected: Option<HashField>, tip: Digest) {
    NoTip(expected) || expected == Some(Hex(tip))
  }

  /** The logs for which verification asserts integrity: accepted, and not merely as legacy. */
  predicate Accepts(hash: Hash, actions: seq<Entry>, expected: Option<HashField>) {
    && (actions != [] ==> HasChainFields(actions))
    && LinkedUpTo(hash, actions, |actions|)
    && Claims(expected, PrefixTip(hash, actions, |actions|))
  }

  /** What each reason says of an entry whose predecessor hashes to `prev`. */
  predicate Diagnosis(hash: Hash, entry: Entry, prev: Digest, reason: Reason) {
    match reason
    case MissingPrevHash => entry.prevHash == None
    case MissingEntryHash => entry.prevHash.Some? && entry.entryHash == None
    case PrevHashMismatch => entry.prevHash.Some? && entry.entryHash.Some? && entry.prevHash != Some(Hex(prev))
    case EntryHashMismatch =>
      && entry.prevHash == Some(Hex(prev)) && entry.entryHash.Some?
      && entry.entryHash != Some(Hex(hash(Entry(entry.prevHash, None, entry.fields))))
    case _ => false
  }

  lemma Diagnosed(hash: Hash, entry: Entry, prev: Digest)
    ensures Fault(hash, entry, prev).Some? ==> Diagnosis(hash, entry, prev, Fault(hash, entry, prev).value)
    ensures Fault(hash, entry, prev) == None <==>
      entry.prevHash == Some(Hex(prev)) && entry.entryHash == Some(Hex(hash(Entry(entry.prevHash, None, entry.fields))))
  {}

  lemma FaultlessHash(hash: Hash, actions: seq<Entry>, i: nat)
    requires i < |actions| && LinkedUpTo(hash, actions, i + 1)
    ensures actions[i].entryHash == Some(Hex(PrefixTip(hash, actions, i + 1)))
  {
    assert FaultAt(hash, actions, i) == None;
  }

  method VerifyChain(hash: Hash, actions: seq<Entry>, expected: Option<HashField>) returns (r: ChainResult)
    ensures r.length == |actions|
    ensures r.ok && !r.legacy <==> Accepts(hash, actions, expected)
    ensures r.legacy <==> actions != [] && !HasChainFields(actions)
    ensures r.legacy ==> r.ok && r.tip == GENESIS_HASH
    ensures r.ok <==> r.reason == None
    // The reported break is the first one, and the tip is that of the valid prefix.
    ensures r.breakAt.Some? ==> FirstBreak(hash, actions, r.breakAt.value)
    ensures r.breakAt == None && !r.legacy ==> LinkedUpTo(hash, actions, |actions|)
    ensures r.breakAt.Some? ==>
      var i := r.breakAt.value;
      r.reason == FaultAt(hash, actions, i) && r.tip == PrefixTip(hash, actions, i)
    ensures r.breakAt == None && !r.legacy ==> r.tip == PrefixTip(hash, actions, |actions|)
    ensures r.reason == Some(TipMismatch) <==>
      HasChainFields(actions) && LinkedUpTo(hash, actions, |actions|) && !Claims(expected, r.tip)
    // A recorded tip must be the tip itself; only a missing or null one is not checked.
    ensures r.ok && !r.legacy ==> expected == None || expected == Some(Junk(Null)) || expected == Some(Hex(r.tip))
    ensures !r.ok && r.breakAt == None ==>
      expected.Some? && expected != Some(Junk(Null)) && expected != Some(Hex(r.tip))
    ensures r.reason == Some(EmptyChainButTipClaimed) <==> actions == [] && !r.ok
    // The reason says what the first bad entry lacks, against the tip of the entries before it.
    ensures r.breakAt.Some? ==>
      var i := r.breakAt.value;
      && (if i == 0 then r.tip == 0 else actions[i - 1].entryHash == Some(Hex(r.tip)))
      && Diagnosis(hash, actions[i], r.tip, r.reason.value)
  {
    hide Fault, CanonicalHash;
    if actions == [] {
      if !Claims(expected, GENESIS_HASH) {
        return ChainResult(false, 0, GENESIS_HASH, false, None, Some(EmptyChainButTipClaimed));
      }
      return ChainResult(true, 0, GENESIS_HASH, false, None, None);
    }
    if !HasChainFields(actions) {
      return ChainResult(true, |actions|, GENESIS_HASH, true, None, None);
    }
    var prev := GENESIS_HASH;
    for i := 0 to |actions|
      invariant prev == PrefixTip(hash, actions, i)
      invariant LinkedUpTo(hash, actions, i)
    {
      var fault := Fault(hash, actions[i], prev);
      assert fault == FaultAt(hash, actions, i);
      if fault != None {
        Diagnosed(hash, actions[i], prev);
        if i > 0 { FaultlessHash(hash, actions, i - 1); }
        return ChainResult(false, |actions|, prev, false, Some(i), fault);
      }
      prev := CanonicalHash(hash, actions[i]);
    }
    if !Claims(expected, prev) {
      return ChainResult(false, |actions|, prev, false, None, Some(TipMismatch));
    }
    return ChainResult(true, |actions|, prev, false, None, None);
  }

  // ---- Tamper evidence ---------------------------------------------------------------------

  datatype Evidence =
    | Collision(left: Entry, right: Entry)
    | GenesisPreimage(body: Entry)

  predicate BodyOf(body: Entry, actions: seq<Entry>) {
    exists i :: 0 <= i < |actions| && body == Body(actions[i])
  }

  /** Evidence against the hash, built only from bodies found in the two logs. */
  predicate Convincing(hash: Hash, a: seq<Entry>, b: seq<Entry>, e: Evidence) {
    match e
    case Collision(x, y) => BodyOf(x, a) && BodyOf(y, b) && x != y && hash(x) == hash(y)
    case GenesisPreimage(x) => (BodyOf(x, a) || BodyOf(x, b)) && hash(x) == GENESIS_HASH
  }

  /** Two fully linked logs with one tip that differ yield evidence, read off from their ends. */
  function Extract(hash: Hash, a: seq<Entry>, b: seq<Entry>): (e: Evidence)
    requires a != b
    requires LinkedUpTo(hash, a, |a|) && LinkedUpTo(hash, b, |b|)
    requires PrefixTip(hash, a, |a|) == PrefixTip(hash, b, |b|)
    ensures Convincing(hash, a, b, e)
  {
    if a == [] then
      assert BodyOf(Body(b[|b| - 1]), b);
      GenesisPreimage(Body(b[|b| - 1]))
    else if b == [] then
      assert BodyOf(Body(a[|a| - 1]), a);
      GenesisPreimage(Body(a[|a| - 1]))
    else
      var x, y := a[|a| - 1], b[|b| - 1];
      if Body(x) != Body(y) then
        CollidingEnds(hash, a, b);
        Collision(Body(x), Body(y))
      else
        PeelEnds(hash, a, b);
        var e := Extract(hash, a[..|a| - 1], b[..|b| - 1]);
        EvidenceLifts(hash, a, b, e);
        e
  }

  lemma LastLink(hash: Hash, a: seq<Entry>)
    requires a != [] && LinkedUpTo(hash, a, |a|)
    ensures var n := |a| - 1;
      && FaultAt(hash, a, n) == None
      && LinkedUpTo(hash, a[..n], n) && PrefixTip(hash, a[..n], n) == PrefixTip(hash, a, n)
  {
    var n := |a| - 1;
    LinkedPrefix(hash, a, n);
    assert FaultAt(hash, a, n) == None;
  }

  lemma CollidingEnds(hash: Hash, a: seq<Entry>, b: seq<Entry>)
    requires a != [] && b != [] && Body(a[|a| - 1]) != Body(b[|b| - 1])
    requires PrefixTip(hash, a, |a|) == PrefixTip(hash, b, |b|)
    ensures Convincing(hash, a, b, Collision(Body(a[|a| - 1]), Body(b[|b| - 1])))
  {
    assert BodyOf(Body(a[|a| - 1]), a) && BodyOf(Body(b[|b| - 1]), b);
  }

  /** Logs that end in the same body end in the same entry, so they agree on the previous tip
      and differ before it. */
  lemma PeelEnds(hash: Hash, a: seq<Entry>, b: seq<Entry>)
    requires a != b && a != [] && b != [] && Body(a[|a| - 1]) == Body(b[|b| - 1])
    requires LinkedUpTo(hash, a, |a|) && LinkedUpTo(hash, b, |b|)
    ensures var a', b' := a[..|a| - 1], b[..|b| - 1];
      && a' != b' && LinkedUpTo(hash, a', |a'|) && LinkedUpTo(hash, b', |b'|)
      && PrefixTip(hash, a', |a'|) == PrefixTip(hash, b', |b'|)
  {
    LastLink(hash, a);
    LastLink(hash, b);
    SameBodySameEntry(hash, a[|a| - 1], PrefixTip(hash, a, |a| - 1), b[|b| - 1], PrefixTip(hash, b, |b| - 1));
    DifferBefore(a, b);
  }

  lemma SameBodySameEntry(hash: Hash, x: Entry, prevX: Digest, y: Entry, prevY: Digest)
    requires Body(x) == Body(y) && Fault(hash, x, prevX) == None && Fault(hash, y, prevY) == None
    ensures x == y && prevX == prevY
  {
    var digest := CanonicalHash(hash, x);
    assert x == Body(x).(entryHash := Some(Hex(digest)));
    assert y == Body(y).(entryHash := Some(Hex(digest)));
    assert Body(x).prevHash == Some(Hex(prevX)) && Body(y).prevHash == Some(Hex(prevY));
  }

  lemma DifferBefore(a: seq<Entry>, b: seq<Entry>)
    requires a != b && a != [] && b != [] && a[|a| - 1] == b[|b| - 1]
    ensures a[..|a| - 1] != b[..|b| - 1]
  {
    assert a == a[..|a| - 1] + [a[|a| - 1]] && b == b[..|b| - 1] + [b[|b| - 1]];
  }

  lemma BodyOfPrefix(body: Entry, actions: seq<Entry>, n: nat)
    requires n <= |actions| && BodyOf(body, actions[..n])
    ensures BodyOf(body, actions)
  {
    var i :| 0 <= i < n && body == Body(actions[..n][i]);
    assert actions[i] == actions[..n][i];
  }

  lemma EvidenceLifts(hash: Hash, a: seq<Entry>, b: seq<Entry>, e: Evidence)
    requires a != [] && b != [] && Convincing(hash, a[..|a| - 1], b[..|b| - 1], e)
    ensures Convincing(hash, a, b, e)
  {
    var m, n := |a| - 1, |b| - 1;
    match e
    case Collision(x, y) => BodyOfPrefix(x, a, m); BodyOfPrefix(y, b, n);
    case GenesisPreimage(x) =>
      if BodyOf(x, a[..m]) { BodyOfPrefix(x, a, m); } else { BodyOfPrefix(x, b, n); }
  }

  /** Any modification, deletion, reordering, insertion or truncation that stays accepted
      against the recorded tip exhibits a break of the hash. */
  lemma TamperEvidence(hash: Hash, original: seq<Entry>, tampered: seq<Entry>, tip: Digest)
    requires original != tampered
    requires Accepts(hash, original, Some(Hex(tip))) && Accepts(hash, tampered, Some(Hex(tip)))
    ensures exists e :: Convincing(hash, original, tampered, e)
  {
    var e := Extract(hash, original, tampered);
  }

  // ---- What an edit, a removal and a swap look like ---------------------------------------------

  /** Editing what an entry of a linked log says is found at that entry, as a hash that does not fit
      its contents, unless the two contents collide. */
  lemma EditFound(hash: Hash, actions: seq<Entry>, i: nat, fields: map<string, Json>)
    requires i < |actions| && LinkedUpTo(hash, actions, |actions|)
    ensures var edited := actions[i].(fields := fields);
      var log := actions[i := edited];
      if hash(Body(edited)) == hash(Body(actions[i])) then LinkedUpTo(hash, log, |log|)
      else FirstBreak(hash, log, i) && FaultAt(hash, log, i) == Some(EntryHashMismatch)
  {
    var edited := actions[i].(fields := fields);
    var log := actions[i := edited];
    assert FaultAt(hash, actions, i) == None;
    forall j | 0 <= j < |log| && (j == i ==> hash(Body(edited)) == hash(Body(actions[i])))
               && (j > i ==> hash(Body(edited)) == hash(Body(actions[i])))
      ensures FaultAt(hash, log, j) == None
    {
      assert FaultAt(hash, actions, j) == None;
      assert PrefixTip(hash, log, j) == PrefixTip(hash, actions, j);
    }
  }

  /** Removing an entry from inside a linked log is found at the entry that followed it, as a link
      that does not fit, unless the hash of the removed one is that of its predecessor. */
  lemma RemovalFound(hash: Hash, actions: seq<Entry>, i: nat)
    requires i + 1 < |actions| && LinkedUpTo(hash, actions, |actions|)
    ensures var log := actions[..i] + actions[i + 1..];
      PrefixTip(hash, actions, i) != PrefixTip(hash, actions, i + 1) ==>
        FirstBreak(hash, log, i) && FaultAt(hash, log, i) == Some(PrevHashMismatch)
  {
    var log := actions[..i] + actions[i + 1..];
    assert log[i] == actions[i + 1];
    assert FaultAt(hash, actions, i + 1) == None;
    assert PrefixTip(hash, log, i) == PrefixTip(hash, actions, i);
    forall j | 0 <= j < i ensures FaultAt(hash, log, j) == None {
      assert FaultAt(hash, actions, j) == None;
      assert PrefixTip(hash, log, j) == PrefixTip(hash, actions, j);
    }
  }

  // ---- What the chain does not protect -----------------------------------------------------

  function Strip(entry: Entry): Entry {
    Entry(None, None, entry.fields)
  }

  function StripAll(actions: seq<Entry>): (out: seq<Entry>)
    ensures |out| == |actions|
    ensures forall i :: 0 <= i < |out| ==> out[i] == Strip(actions[i])
  {
    seq(|actions|, i requires 0 <= i < |actions| => Strip(actions[i]))
  }

  /** A log is let through without any integrity assertion, whatever tip is recorded, exactly
      when it is non-empty and has every chain field removed. */
  lemma LegacyIffStripped(actions: seq<Entry>)
    ensures !HasChainFields(actions) <==> StripAll(actions) == actions
    ensures !HasChainFields(StripAll(actions))
  {
    if !HasChainFields(actions) {
      assert StripAll(actions) == actions;
    } else {
      var i :| 0 <= i < |actions| && (actions[i].entryHash.Some? || actions[i].prevHash.Some?);
      var stripped := StripAll(actions);
      assert stripped[i] == Strip(actions[i]);
    }
  }

  /** With the tip checked, cutting the tail off an accepted log is accepted exactly when the
      shorter log has the same tip; without a recorded tip, every truncation is accepted. */
  lemma TruncationNeedsTip(hash: Hash, actions: seq<Entry>, expected: Option<HashField>, n: nat)
    requires Accepts(hash, actions, expected) && n <= |actions|
    ensures Accepts(hash, actions[..n], expected) <==>
      NoTip(expected) || PrefixTip(hash, actions, n) == PrefixTip(hash, actions, |actions|)
  {
    var cut := actions[..n];
    LinkedPrefix(hash, actions, n);
    if n > 0 {
      assert FaultAt(hash, actions, 0) == None;
      assert cut[0].prevHash.Some?;
    }
  }

  // ---- Session records ---------------------------------------------------------------------

  datatype SessionRecord = SessionRecord(
    actionsTaken: seq<Entry>, chainTip: Option<HashField>, chainLength: Option<nat>, chainVersion: Option<nat>,
    rest: map<string, Json>)

  lemma {:induction false} ChainedLinks(hash: Hash, actions: seq<Entry>, prev: Digest, i: nat)
    requires i < |actions|
    ensures var out := Chained(hash, actions, prev);
      && Fault(hash, out[i], if i == 0 then prev else CanonicalHash(hash, out[i - 1])) == None
      && Strip(out[i]) == Strip(actions[i])
  {
    var first := ChainEntry(hash, actions[0], prev);
    var rest := Chained(hash, actions[1..], CanonicalHash(hash, first));
    if i > 0 {
      ChainedLinks(hash, actions[1..], CanonicalHash(hash, first), i - 1);
      assert Chained(hash, actions, prev)[i] == rest[i - 1];
    }
  }

  /** The stamped record: the re-chained actions, their tip and their count. */
  function Stamped(hash: Hash, session: SessionRecord): SessionRecord {
    var chained := Chained(hash, StripAll(session.actionsTaken), GENESIS_HASH);
    session.(actionsTaken := chained, chainTip := Some(Hex(PrefixTip(hash, chained, |chained|))),
             chainLength := Some(|chained|), chainVersion := Some(1))
  }

  /** The tip is read back from the last chained entry; it is always there. */
  lemma StampedTip(hash: Hash, session: SessionRecord)
    ensures ChainTip(Stamped(hash, session).actionsTaken) == Stamped(hash, session).chainTip
  {
    var stripped := StripAll(session.actionsTaken);
    if stripped != [] {
      ChainedLinks(hash, stripped, GENESIS_HASH, |stripped| - 1);
    }
  }

  method StampSessionChain(hash: Hash, session: SessionRecord) returns (out: SessionRecord)
    ensures out == Stamped(hash, session)
    ensures |out.actionsTaken| == |session.actionsTaken| && out.chainLength == Some(|session.actionsTaken|)
    ensures out.chainTip ==
      if out.actionsTaken == [] then Some(Hex(0)) else out.actionsTaken[|out.actionsTaken| - 1].entryHash
    ensures out.chainVersion == Some(1) && out.rest == session.rest
  {
    var chained := ChainActions(hash, StripAll(session.actionsTaken), GENESIS_HASH);
    StampedTip(hash, session);
    assert chained != [] ==> ChainTip(chained) == chained[|chained| - 1].entryHash;
    out := session.(actionsTaken := chained, chainTip := ChainTip(chained),
                    chainLength := Some(|chained|), chainVersion := Some(1));
  }

  method VerifySession(hash: Hash, session: SessionRecord) returns (r: ChainResult)
    ensures r.ok && !r.legacy <==> Accepts(hash, session.actionsTaken, session.chainTip)
    ensures session == Stamped(hash, session) ==> r.ok && !r.legacy && session.chainTip == Some(Hex(r.tip))
    ensures r.ok && !r.legacy ==>
      session.chainTip == None || session.chainTip == Some(Junk(Null)) || session.chainTip == Some(Hex(r.tip))
    ensures !r.ok && r.breakAt == None ==>
      session.chainTip.Some? && session.chainTip != Some(Junk(Null)) && session.chainTip != Some(Hex(r.tip))
  {
    StampedVerifies(hash, session);
    r := VerifyChain(hash, session.actionsTaken, session.chainTip);
  }

  /** Every stamped session verifies against its own tip, with full integrity. */
  lemma StampedVerifies(hash: Hash, session: SessionRecord)
    ensures var s := Stamped(hash, session); Accepts(hash, s.actionsTaken, s.chainTip)
  {
    var stripped := StripAll(session.actionsTaken);
    var out := Stamped(hash, session).actionsTaken;
    forall i | 0 <= i < |out| ensures FaultAt(hash, out, i) == None {
      ChainedLinks(hash, stripped, GENESIS_HASH, i);
    }
    if out != [] {
      assert FaultAt(hash, out, 0) == None;
    }
  }

  /** Stamping keeps what each action says and is idempotent. */
  lemma StampIdempotent(hash: Hash, session: SessionRecord)
    ensures StripAll(Stamped(hash, session).actionsTaken) == StripAll(session.actionsTaken)
    ensures Stamped(hash, Stamped(hash, session)) == Stamped(hash, session)
  {
    var stripped := StripAll(session.actionsTaken);
    var out := Stamped(hash, session).actionsTaken;
    forall i | 0 <= i < |out| ensures Strip(out[i]) == stripped[i] {
      ChainedLinks(hash, stripped, GENESIS_HASH, i);
      assert Strip(stripped[i]) == stripped[i];
    }
    assert StripAll(out) == stripped;
  }

  /** A log is fully linked exactly when re-chaining its stripped actions reproduces it. */
  lemma LinkedIffRechained(hash: Hash, actions: seq<Entry>)
    ensures LinkedUpTo(hash, actions, |actions|) <==>
      Chained(hash, StripAll(actions), GENESIS_HASH) == actions
  {
    var out := Chained(hash, StripAll(actions), GENESIS_HASH);
    if LinkedUpTo(hash, actions, |actions|) {
      forall i | 0 <= i < |actions| ensures out[i] == actions[i] {
        SameAtIndex(hash, actions, i);
      }
    } else if out == actions {
      forall i | 0 <= i < |actions| ensures FaultAt(hash, actions, i) == None {
        ChainedLinks(hash, StripAll(actions), GENESIS_HASH, i);
      }
    }
  }

  lemma {:induction false} SameAtIndex(hash: Hash, actions: seq<Entry>, i: nat)
    requires i < |actions| && LinkedUpTo(hash, actions, |actions|)
    ensures Chained(hash, StripAll(actions), GENESIS_HASH)[i] == actions[i]
  {
    var out := Chained(hash, StripAll(actions), GENESIS_HASH);
    ChainedLinks(hash, StripAll(actions), GENESIS_HASH, i);
    var prev := PrefixTip(hash, actions, i);
    if i > 0 { SameAtIndex(hash, actions, i - 1); }
    assert FaultAt(hash, actions, i) == None && Fault(hash, out[i], prev) == None;
  }
}
