/** Sums and the order of products, shared by the models that count and score. */
module Numbers {

  // ---- Naturals ----------------------------------------------------------------------------------

  ghost function Sum(v: seq<nat>): nat {
    if v == [] then 0 else Sum(v[..|v| - 1]) + v[|v| - 1]
  }

  lemma {:induction false} SumBump(v: seq<nat>, v': seq<nat>, i: nat)
    requires |v| == |v'| && i < |v|
    requires forall h :: 0 <= h < |v| ==> v'[h] == v[h] + if h == i then 1 else 0
    ensures Sum(v') == Sum(v) + 1
  {
    var n := |v| - 1;
    if i < n {
      SumBump(v[..n], v'[..n], i);
    } else {
      assert v'[..n] == v[..n];
    }
  }

  lemma {:induction false} SumAdd(a: seq<nat>, b: seq<nat>, c: seq<nat>)
    requires |a| == |b| == |c| && forall h :: 0 <= h < |a| ==> c[h] == a[h] + b[h]
    ensures Sum(c) == Sum(a) + Sum(b)
  {
    if a != [] {
      var n := |a| - 1;
      SumAdd(a[..n], b[..n], c[..n]);
    }
  }

  lemma {:induction false} SumZero(v: seq<nat>)
    requires forall h :: 0 <= h < |v| ==> v[h] == 0
    ensures Sum(v) == 0
  {
    if v != [] {
      SumZero(v[..|v| - 1]);
    }
  }

  // ---- Reals ---------------------------------------------------------------------------------------

  predicate AllPositive(v: seq<real>) {
    forall i :: 0 <= i < |v| ==> v[i] > 0.0
  }

  predicate NonNegative(v: seq<real>) {
    forall i :: 0 <= i < |v| ==> v[i] >= 0.0
  }

  function Total(v: seq<real>): (t: real)
    ensures AllPositive(v) && v != [] ==> t > 0.0
    ensures NonNegative(v) ==> t >= 0.0
  {
    if v == [] then 0.0 else Total(v[..|v| - 1]) + v[|v| - 1]
  }

  lemma TotalOne(x: real)
    ensures Total([x]) == x
  {
    assert [x][..0] == [];
  }

  lemma {:induction false} TotalConcat(a: seq<real>, b: seq<real>)
    ensures Total(a + b) == Total(a) + Total(b)
  {
    if b == [] {
      assert a + b == a;
    } else {
      TotalConcat(a, b[..|b| - 1]);
      assert (a + b)[..|a + b| - 1] == a + b[..|b| - 1];
    }
  }

  lemma ProductPositive(a: real, b: real)
    requires a > 0.0 && b > 0.0
    ensures a * b > 0.0
  {}

  lemma ScaleOrder(a: real, b: real, s: real)
    requires s > 0.0
    ensures a <= b <==> a * s <= b * s
  {
    if a > b {
      ProductPositive(a - b, s);
    }
  }
}
