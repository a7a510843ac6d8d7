/**
 The trained policy's guards (`TrainedRLPolicy.decide` in plenith/policy.py) and the loop that
 drains it (`_maybe_record_action` in plenith/orchestrator.py). The network is whatever it likes:
 any vector of non-negative probabilities, a different one for every call.
 */
module RlPolicy {
  import opened Common
  import opened Numbers

  /** What `actions_taken` may record: a member of the action space, or anything else. */
  datatype Action =
    | Noop | PlantSudoVulnerability | SpawnFakeMysql | PlantAwsCredentials | IsolateSession
    | AlertCredentialSearch | AlertCredentialExfil | AlertHoneytokenTamper | AlertPayloadStaging | AlertDecoySwallowed
    | AlertDnsExfil | AlertLateralDecoy | AlertLogTampering | AlertSshPersistence | AlertReverseShell
    | AlertAttackerLlmDetected
    | Other(name: string)

  const ACTION_SPACE: seq<Action> := [
    Noop, PlantSudoVulnerability, SpawnFakeMysql, PlantAwsCredentials, IsolateSession,
    AlertCredentialSearch, AlertCredentialExfil, AlertHoneytokenTamper, AlertPayloadStaging, AlertDecoySwallowed,
    AlertDnsExfil, AlertLateralDecoy, AlertLogTampering, AlertSshPersistence, AlertReverseShell,
    AlertAttackerLlmDetected]

  const N: nat := 16

  lemma ActionsDiffer(i: nat, j: nat)
    requires i < j < |ACTION_SPACE|
    ensures ACTION_SPACE[i] != ACTION_SPACE[j]
  {}

  // ---- Vectors ---------------------------------------------------------------------------------

  /** What a network's softmax can return: one non-negative mass per action. */
  ghost predicate Masses(v: seq<real>) {
    |v| == N && NonNegative(v)
  }

  ghost predicate Distribution(v: seq<real>) {
    Masses(v) && Total(v) == 1.0
  }

  /** All a sampler must promise: from a distribution it draws an index of positive mass. */
  ghost predicate PicksMass(sampler: seq<real> -> nat) {
    forall v: seq<real> :: Distribution(v) ==> sampler(v) < N && v[sampler(v)] > 0.0
  }

  /** The first index of the greatest entry, as `argmax` returns it. */
  ghost predicate FirstMax(v: seq<real>, k: nat) {
    k < |v| && (forall i :: 0 <= i < |v| ==> v[i] <= v[k]) && (forall i :: 0 <= i < k ==> v[i] < v[k])
  }

  lemma {:induction false} SumPositive(v: seq<real>)
    requires NonNegative(v) && Total(v) > 0.0
    ensures exists i :: 0 <= i < |v| && v[i] > 0.0
  {
    var front := v[..|v| - 1];
    if v[|v| - 1] <= 0.0 {
      SumPositive(front);
      var i :| 0 <= i < |front| && front[i] > 0.0;
      assert v[i] > 0.0;
    }
  }

  lemma {:induction false} SumScaled(v: seq<real>, w: seq<real>, s: real)
    requires s > 0.0 && |v| == |w| && forall i :: 0 <= i < |v| ==> w[i] == v[i] / s
    ensures Total(w) == Total(v) / s
  {
    if v == [] {
    } else {
      SumScaled(v[..|v| - 1], w[..|w| - 1], s);
      QuotientSum(Total(v[..|v| - 1]), v[|v| - 1], s);
    }
  }

  lemma QuotientSum(x: real, y: real, s: real)
    requires s > 0.0
    ensures x / s + y / s == (x + y) / s
  {}

  method SumOf(v: seq<real>) returns (total: real)
    ensures total == Total(v)
  {
    total := 0.0;
    for i := 0 to |v|
      invariant total == Total(v[..i])
    {
      assert v[..i + 1][..i] == v[..i];
      total := total + v[i];
    }
    assert v[..|v|] == v;
  }

  method Divided(v: seq<real>, s: real) returns (w: seq<real>)
    requires s > 0.0 && NonNegative(v) && s == Total(v)
    ensures |w| == |v| && NonNegative(w) && Total(w) == 1.0
    ensures forall i :: 0 <= i < |v| ==> w[i] == v[i] / s
  {
    w := seq(|v|, i requires 0 <= i < |v| => v[i] / s);
    SumScaled(v, w, s);
    QuotientSelf(s);
  }

  lemma QuotientSelf(s: real)
    requires s != 0.0
    ensures s / s == 1.0
  {}

  method ArgMax(v: seq<real>) returns (k: nat)
    requires v != []
    ensures FirstMax(v, k)
  {
    k := 0;
    for i := 1 to |v|
      invariant k < i && FirstMax(v[..i], k)
    {
      if v[i] > v[k] {
        k := i;
      }
    }
    assert v[..|v|] == v;
  }

  lemma QuotientOrder(x: real, y: real, s: real)
    requires s > 0.0
    ensures x / s <= y / s <==> x <= y
    ensures x / s > 0.0 <==> x > 0.0
  {
    assert x == (x / s) * s && y == (y / s) * s;
  }

  /** Normalising does not move the maximum. */
  lemma FirstMaxScaled(v: seq<real>, w: seq<real>, s: real, k: nat)
    requires s > 0.0 && |v| == |w| && forall i :: 0 <= i < |v| ==> w[i] == v[i] / s
    requires FirstMax(w, k)
    ensures FirstMax(v, k)
  {
    forall i | 0 <= i < |v| ensures v[i] <= v[k] && (i < k ==> v[i] < v[k]) {
      QuotientOrder(v[i], v[k], s);
      QuotientOrder(v[k], v[i], s);
    }
  }

  // ---- The policy ------------------------------------------------------------------------------

  /** An action the mask leaves open: the no-op, or one not taken yet. */
  predicate Open(i: nat, taken: seq<Action>)
    requires i < N
  {
    i == 0 || ACTION_SPACE[i] !in taken
  }

  /** `masked` is `probs` with exactly the closed actions zeroed. */
  ghost predicate IsMasked(masked: seq<real>, probs: seq<real>, taken: seq<Action>) {
    |masked| == |probs| == N && forall i :: 0 <= i < N ==> masked[i] == if Open(i, taken) then probs[i] else 0.0
  }

  /** The greedy choice among the open actions: greatest mass, lowest index first. */
  ghost predicate Preferred(i: nat, probs: seq<real>, taken: seq<Action>)
    requires i < N && |probs| == N
  {
    && Open(i, taken)
    && forall j: nat :: j < N && Open(j, taken) ==> probs[j] <= probs[i] && (j < i ==> probs[j] < probs[i])
  }

  /** The mass the mask leaves. */
  ghost function OpenMass(probs: seq<real>, taken: seq<Action>): real
    requires |probs| == N
  {
    Total(seq(N, i requires 0 <= i < N => if Open(i, taken) then probs[i] else 0.0))
  }

  lemma MaskMass(masked: seq<real>, probs: seq<real>, taken: seq<Action>)
    requires IsMasked(masked, probs, taken)
    ensures Total(masked) == OpenMass(probs, taken)
  {
    assert masked == seq(N, i requires 0 <= i < N => if Open(i, taken) then probs[i] else 0.0);
  }

  /** The first maximum of the masked vector, when it holds any mass, is the preferred action. */
  lemma MaxPreferred(masked: seq<real>, probs: seq<real>, taken: seq<Action>, k: nat)
    requires Masses(probs) && IsMasked(masked, probs, taken) && Total(masked) > 0.0 && FirstMax(masked, k)
    ensures masked[k] > 0.0 && Preferred(k, probs, taken)
  {
    SumPositive(masked);
    var p :| 0 <= p < |masked| && masked[p] > 0.0;
    assert masked[p] <= masked[k];
    forall j: nat | j < N && Open(j, taken) ensures probs[j] <= probs[k] && (j < k ==> probs[j] < probs[k]) {
      assert masked[j] == probs[j] && masked[k] == probs[k];
    }
  }

  /** Normalises and picks: by `argmax`, or with the sampler. Either way the pick has mass. */
  method Draw(masked: seq<real>, s: real, sampling: bool, sampler: seq<real> -> nat) returns (id: nat)
    requires Masses(masked) && s == Total(masked) > 0.0 && PicksMass(sampler)
    ensures id < N && masked[id] > 0.0
    ensures !sampling ==> FirstMax(masked, id)
  {
    var scaled := Divided(masked, s);
    if sampling {
      assert Distribution(scaled);
      id := sampler(scaled);
      QuotientOrder(masked[id], masked[id], s);
    } else {
      id := ArgMax(scaled);
      FirstMaxScaled(masked, scaled, s, id);
      SumPositive(masked);
    }
  }

  class Session {
    var actionsTaken: seq<Action>

    /** Every connection starts with an empty list. */
    constructor ()
      ensures actionsTaken == []
    {
      actionsTaken := [];
    }

    /** Zeroes the mass of everything already taken, except the no-op's. */
    method Mask(probs: seq<real>) returns (masked: seq<real>)
      requires |probs| == N
      ensures IsMasked(masked, probs, actionsTaken)
    {
      masked := probs;
      for i := 0 to |ACTION_SPACE|
        invariant |masked| == N
        invariant forall j :: 0 <= j < i ==> masked[j] == if Open(j, actionsTaken) then probs[j] else 0.0
        invariant forall j :: i <= j < N ==> masked[j] == probs[j]
      {
        if i != 0 && ACTION_SPACE[i] in actionsTaken {
          masked := masked[i := 0.0];
        }
      }
    }

    /** One decision. Whatever the model says, the action is real, not the no-op and not taken yet. */
    method Decide(probs: seq<real>, sampling: bool, sampler: seq<real> -> nat) returns (action: Option<Action>)
      requires Masses(probs) && PicksMass(sampler)
      ensures action.Some? ==>
        action.value in ACTION_SPACE && action.value != Noop && action.value !in actionsTaken
      ensures OpenMass(probs, actionsTaken) <= 0.000000000001 ==> action == None
      ensures !sampling && OpenMass(probs, actionsTaken) > 0.000000000001 ==>
        (action == None <==> Preferred(0, probs, actionsTaken))
      ensures !sampling && action.Some? ==>
        exists i: nat :: i < N && action.value == ACTION_SPACE[i] && Preferred(i, probs, actionsTaken)
    {
      var masked := Mask(probs);
      MaskMass(masked, probs, actionsTaken);
      var s := SumOf(masked);
      if s <= 0.000000000001 {
        return None;
      }
      var id := Draw(masked, s, sampling, sampler);
      if !sampling {
        MaxPreferred(masked, probs, actionsTaken, id);
      }
      assert masked[id] > 0.0 && Open(id, actionsTaken);
      if id == 0 {
        return None;
      }
      ActionsDiffer(0, id);
      return Some(ACTION_SPACE[id]);
    }

    /** The draining loop. It always ends because the policy declined: the cap of twenty is never
        what stops it, since fifteen actions exhaust the space. */
    method MaybeRecordAction(model: nat -> seq<real>, sampling: bool, sampler: seq<real> -> nat)
      returns (emitted: seq<Action>, declined: bool)
      requires PicksMass(sampler) && forall n :: Masses(model(n))
      modifies this
      ensures actionsTaken == old(actionsTaken) + emitted
      ensures Extends(old(actionsTaken), actionsTaken)
      ensures |emitted| <= 15 && declined
      ensures !sampling ==> var probs := model(|emitted|);
        |probs| == N && (OpenMass(probs, actionsTaken) <= 0.000000000001 || Preferred(0, probs, actionsTaken))
    {
      emitted, declined := [], false;
      for n := 0 to 20
        invariant n == |emitted| <= 15 && !declined
        invariant actionsTaken == old(actionsTaken) + emitted
        invariant Extends(old(actionsTaken), actionsTaken)
      {
        var action := Decide(model(n), sampling, sampler);
        if action == None {
          declined := true;
          break;
        }
        ghost var was := actionsTaken;
        actionsTaken := actionsTaken + [action.value];
        emitted := emitted + [action.value];
        assert actionsTaken == old(actionsTaken) + emitted;
        ExtendsStep(old(actionsTaken), was, action.value);
        NewBound(old(actionsTaken), emitted);
      }
    }
  }

  /** A list grown only by fresh, real actions. */
  ghost predicate Extends(taken: seq<Action>, taken': seq<Action>) {
    && taken <= taken'
    && (forall i :: |taken| <= i < |taken'| ==> taken'[i] in ACTION_SPACE && taken'[i] != Noop)
    && (forall i, j :: 0 <= i < j < |taken'| && |taken| <= j ==> taken'[i] != taken'[j])
  }

  lemma ExtendsStep(taken: seq<Action>, grown: seq<Action>, a: Action)
    requires Extends(taken, grown) && a in ACTION_SPACE && a != Noop && a !in grown
    ensures Extends(taken, grown + [a])
  {}

  /** Drains compose, so the guarantee holds over a whole connection. */
  lemma ExtendsTransitive(a: seq<Action>, b: seq<Action>, c: seq<Action>)
    requires Extends(a, b) && Extends(b, c)
    ensures Extends(a, c)
  {
    forall i | |a| <= i < |c| ensures c[i] in ACTION_SPACE && c[i] != Noop {
      if i < |b| { assert c[i] == b[i]; }
    }
    forall i, j | 0 <= i < j < |c| && |a| <= j ensures c[i] != c[j] {
      if j < |b| { assert c[i] == b[i] && c[j] == b[j]; }
    }
  }

  ghost function Real(k: nat): set<Action>
    requires 1 <= k <= N
  {
    set i | 1 <= i < k :: ACTION_SPACE[i]
  }

  lemma {:induction false} RealSize(k: nat)
    requires 1 <= k <= N
    ensures |Real(k)| <= k - 1
  {
    if k > 1 {
      RealSize(k - 1);
      assert Real(k) == Real(k - 1) + {ACTION_SPACE[k - 1]};
    }
  }

  ghost function Elements(s: seq<Action>): set<Action> {
    set x | x in s
  }

  lemma {:induction false} DistinctSize(s: seq<Action>)
    requires forall i, j :: 0 <= i < j < |s| ==> s[i] != s[j]
    ensures |Elements(s)| == |s|
  {
    if s != [] {
      var front, last := s[..|s| - 1], s[|s| - 1];
      DistinctSize(front);
      assert Elements(s) == Elements(front) + {last};
      assert last !in front;
    }
  }

  lemma {:induction false} SubsetSize(a: set<Action>, b: set<Action>)
    requires a <= b
    ensures |a| <= |b|
  {
    if a != {} {
      var x :| x in a;
      SubsetSize(a - {x}, b - {x});
    }
  }

  /** However often a connection is drained, at most fifteen actions come out of it. */
  lemma NewBound(taken: seq<Action>, more: seq<Action>)
    requires Extends(taken, taken + more)
    ensures |more| <= 15
  {
    var all := taken + more;
    forall i, j | 0 <= i < j < |more| ensures more[i] != more[j] {
      assert all[|taken| + i] != all[|taken| + j];
    }
    forall x | x in Elements(more) ensures x in Real(N) {
      var i :| 0 <= i < |more| && more[i] == x;
      assert all[|taken| + i] == x;
    }
    DistinctSize(more);
    SubsetSize(Elements(more), Real(N));
    RealSize(N);
  }
}
