/**
 The weighted choice among an InferenceModel's target models, with Go's int32 arithmetic written
 out.  `roll` is the value Int31n(n) returns: any value from 0 to n - 1; it panics unless n > 0.
 */
module WeightedDraw {
  import opened Wrappers

  const MAX_INT32 := 0x7fff_ffff

  /** What 32-bit addition or subtraction of two int32 values leaves of the true result. */
  function Wrap32(n: int): int {
    if n > MAX_INT32 then n - 0x1_0000_0000 else if n < -0x8000_0000 then n + 0x1_0000_0000 else n
  }

  datatype Target = Target(name: string, weight: Option<int>)

  datatype Drawn = Name(name: string) | Panic

  function Weight(t: Target): int { if t.weight.Some? then t.weight.value else 0 }

  /** What the code computes, overflow and missing weights included. */
  function Sum32(targets: seq<Target>): int {
    if targets == [] then 0
    else Wrap32(Sum32(targets[..|targets| - 1]) + Weight(targets[|targets| - 1]))
  }

  function Walk32(targets: seq<Target>, v: int): string
    decreases |targets|
  {
    if targets == [] then ""
    else if v < Weight(targets[0]) then targets[0].name
    else Walk32(targets[1..], Wrap32(v - Weight(targets[0])))
  }

  /** The argument of Int31n. */
  function Range(targets: seq<Target>): int
    requires targets != []
  {
    if targets[0].weight.None? then |targets| else Sum32(targets)
  }

  predicate Possible(targets: seq<Target>, roll: int)
    requires targets != []
  {
    Range(targets) > 0 ==> 0 <= roll < Range(targets)
  }

  function Draw(targets: seq<Target>, roll: int): Drawn
    requires targets != [] && Possible(targets, roll)
  {
    if targets[0].weight.None? then Name(targets[roll].name)
    else if !AllWeighted(targets) || Sum32(targets) <= 0 then Panic
    else Name(Walk32(targets, roll))
  }

  predicate AllWeighted(targets: seq<Target>) { forall i :: 0 <= i < |targets| ==> targets[i].weight.Some? }

  /** The summing loop; None if it meets a missing weight, which the code dereferences. */
  method SumWeights(targets: seq<Target>) returns (weights: Option<int>)
    ensures weights == if AllWeighted(targets) then Some(Sum32(targets)) else None
  {
    var sum := 0;
    for i := 0 to |targets|
      invariant sum == Sum32(targets[..i]) && AllWeighted(targets[..i])
    {
      if targets[i].weight.None? { return None; }
      assert targets[..i + 1][..i] == targets[..i];
      sum := Wrap32(sum + targets[i].weight.value);
    }
    assert targets[..|targets|] == targets;
    return Some(sum);
  }

  method RandomWeightedDraw(targets: seq<Target>, roll: int) returns (drawn: Drawn)
    requires targets != [] && Possible(targets, roll)
    ensures drawn == Draw(targets, roll)
  {
    if targets[0].weight.None? {
      return Name(targets[roll].name);
    }
    var weights := SumWeights(targets);
    if weights.None? || weights.value <= 0 { return Panic; }
    var randomVal := roll;
    for i := 0 to |targets|
      invariant Walk32(targets[i..], randomVal) == Walk32(targets, roll)
    {
      if randomVal < targets[i].weight.value {
        return Name(targets[i].name);
      }
      assert targets[i..][1..] == targets[i + 1..];
      randomVal := Wrap32(randomVal - targets[i].weight.value);
    }
    return Name("");
  }

  // ----- panics -----

  const TWO_TO_THE_32 := 0x1_0000_0000

  predicate FitInt32(targets: seq<Target>) {
    forall i :: 0 <= i < |targets| ==> -0x8000_0000 <= Weight(targets[i]) <= MAX_INT32
  }

  /** How often, and in which direction, the 32-bit sum wraps around. */
  function Wraps(targets: seq<Target>): int {
    if targets == [] then 0
    else
      var n := Sum32(targets[..|targets| - 1]) + Weight(targets[|targets| - 1]);
      Wraps(targets[..|targets| - 1]) + (if n > MAX_INT32 then 1 else if n < -0x8000_0000 then -1 else 0)
  }

  lemma {:induction false} SumWraps(targets: seq<Target>)
    requires FitInt32(targets)
    ensures -0x8000_0000 <= Sum32(targets) <= MAX_INT32
    ensures Sum32(targets) == Total(targets) - TWO_TO_THE_32 * Wraps(targets)
  {
    if targets != [] { SumWraps(targets[..|targets| - 1]); }
  }

  /** A value in the int32 range is not positive if and only if its residue is zero or too large. */
  lemma Residue(sum: int, total: int, k: int)
    requires -0x8000_0000 <= sum <= MAX_INT32 && sum == total - TWO_TO_THE_32 * k
    ensures sum <= 0 <==> total % TWO_TO_THE_32 == 0 || total % TWO_TO_THE_32 > MAX_INT32
  {
    if sum >= 0 {
      assert total == TWO_TO_THE_32 * k + sum && total / TWO_TO_THE_32 == k;
    } else {
      assert total == TWO_TO_THE_32 * (k - 1) + (sum + TWO_TO_THE_32) && total / TWO_TO_THE_32 == k - 1;
    }
  }

  /** Exactly when the draw panics: the first target has a weight, and another has none or the true
      total is, modulo 2^32, zero or a negative int32. */
  lemma {:induction false} PanicsExactly(targets: seq<Target>, roll: int)
    requires targets != [] && Possible(targets, roll) && FitInt32(targets)
    ensures Draw(targets, roll).Panic? <==>
            && targets[0].weight.Some?
            && ((exists i :: 0 <= i < |targets| && targets[i].weight.None?)
                || Total(targets) % TWO_TO_THE_32 == 0 || Total(targets) % TWO_TO_THE_32 > MAX_INT32)
  {
    hide Sum32, Total, Walk32, Wraps;
    SumWraps(targets);
    Residue(Sum32(targets), Total(targets), Wraps(targets));
  }

  lemma {:induction false} ZeroSum(targets: seq<Target>)
    requires forall i :: 0 <= i < |targets| ==> Weight(targets[i]) == 0
    ensures Sum32(targets) == Total(targets) == 0
  {
    if targets != [] { ZeroSum(targets[..|targets| - 1]); }
  }

  /** Weights that are all zero panic whatever the random value; there is no unweighted fallback. */
  lemma {:induction false} ZeroWeightsPanic(targets: seq<Target>, roll: int)
    requires targets != [] && forall i :: 0 <= i < |targets| ==> targets[i].weight == Some(0)
    ensures Possible(targets, roll) && Draw(targets, roll) == Panic
  {
    ZeroSum(targets);
  }

  // ----- proportionality -----

  /** What the API server's validation of InferenceModel lets through with weights. */
  predicate Weighted(targets: seq<Target>) {
    && 1 <= |targets| <= 10
    && forall i :: 0 <= i < |targets| ==> targets[i].weight.Some? && 1 <= targets[i].weight.value <= 1_000_000
  }

  function Total(targets: seq<Target>): int {
    if targets == [] then 0 else Total(targets[..|targets| - 1]) + Weight(targets[|targets| - 1])
  }

  /** Where the share of target `i` starts. */
  function Start(targets: seq<Target>, i: nat): int
    requires i <= |targets|
  {
    Total(targets[..i])
  }

  lemma StartNext(targets: seq<Target>, i: nat)
    requires i < |targets|
    ensures Start(targets, i + 1) == Start(targets, i) + Weight(targets[i])
  {
    assert targets[..i + 1][..i] == targets[..i];
  }

  /** For validated targets the 32-bit sum is the true one, and each prefix is within bounds. */
  lemma {:induction false} NoOverflow(targets: seq<Target>, i: nat)
    requires Weighted(targets) && i <= |targets|
    ensures i <= Start(targets, i) <= 1_000_000 * i
    ensures Sum32(targets[..i]) == Start(targets, i)
  {
    if i > 0 {
      NoOverflow(targets, i - 1);
      StartNext(targets, i - 1);
      assert targets[..i][..i - 1] == targets[..i - 1];
    }
  }

  /** The target whose share `[Start(i), Start(i + 1))` holds `v` is the one that is drawn. */
  lemma {:induction false} WalkReaches(targets: seq<Target>, i: nat, k: nat, v: int)
    requires Weighted(targets) && k <= i < |targets|
    requires Start(targets, i) <= v < Start(targets, i + 1)
    ensures Walk32(targets[k..], v - Start(targets, k)) == targets[i].name
    decreases i - k
  {
    StartNext(targets, k);
    if k < i {
      StartsGrow(targets, k + 1, i);
      NoOverflow(targets, i + 1);
      NoOverflow(targets, k);
      WalkReaches(targets, i, k + 1, v);
      assert targets[k..][1..] == targets[k + 1..];
    }
  }

  lemma {:induction false} StartsGrow(targets: seq<Target>, i: nat, j: nat)
    requires Weighted(targets) && i <= j <= |targets|
    ensures Start(targets, i) <= Start(targets, j)
    ensures i < j ==> Start(targets, i) < Start(targets, j)
    decreases j - i
  {
    if i < j {
      StartNext(targets, j - 1);
      StartsGrow(targets, i, j - 1);
    }
  }

  function Interval(a: int, b: int): (r: set<int>)
    ensures forall v :: v in r <==> a <= v < b
    ensures a <= b ==> |r| == b - a
    decreases b - a
  {
    if a >= b then {} else Interval(a, b - 1) + {b - 1}
  }

  /** The random values that select target `i`. */
  function Share(targets: seq<Target>, i: nat): set<int>
    requires i < |targets|
  {
    Interval(Start(targets, i), Start(targets, i + 1))
  }

  /** The random values below `Start(k)` that end up on the given name. */
  function Hits(targets: seq<Target>, k: nat, name: string): set<int>
    requires k <= |targets|
  {
    set v | v in Interval(0, Start(targets, k)) && Walk32(targets, v) == name
  }

  function NamedWeight(targets: seq<Target>, k: nat, name: string): int
    requires k <= |targets|
  {
    if k == 0 then 0
    else NamedWeight(targets, k - 1, name) + (if targets[k - 1].name == name then Weight(targets[k - 1]) else 0)
  }

  /** Every random value selects a target, and exactly `weight[i]` of them select target `i`. */
  lemma {:induction false} ExactShares(targets: seq<Target>, i: nat)
    requires Weighted(targets) && i < |targets|
    ensures |Share(targets, i)| == Weight(targets[i])
    ensures forall v :: v in Share(targets, i) ==> 0 <= v < Range(targets) && Draw(targets, v) == Name(targets[i].name)
    ensures forall v, j :: v in Share(targets, i) && i < j < |targets| ==> v !in Share(targets, j)
    ensures forall v :: v in Interval(0, Range(targets)) ==> exists j :: 0 <= j < |targets| && v in Share(targets, j)
  {
    StartNext(targets, i);
    NoOverflow(targets, |targets|);
    NoOverflow(targets, i);
    assert targets[..|targets|] == targets;
    forall v | v in Share(targets, i)
      ensures 0 <= v < Range(targets) && Draw(targets, v) == Name(targets[i].name)
    {
      StartsGrow(targets, i + 1, |targets|);
      ShareIsDrawn(targets, i, v);
    }
    forall v, j | v in Share(targets, i) && i < j < |targets| ensures v !in Share(targets, j) {
      StartsGrow(targets, i + 1, j);
    }
    forall v | v in Interval(0, Range(targets)) ensures exists j :: 0 <= j < |targets| && v in Share(targets, j) {
      Covered(targets, |targets|, v);
    }
  }

  lemma {:induction false} Covered(targets: seq<Target>, k: nat, v: int)
    requires k <= |targets| && 0 <= v < Start(targets, k)
    ensures exists j :: 0 <= j < k && v in Share(targets, j)
  {
    assert v >= Start(targets, k - 1) ==> v in Share(targets, k - 1);
    if v < Start(targets, k - 1) { Covered(targets, k - 1, v); }
  }

  lemma ShareIsDrawn(targets: seq<Target>, i: nat, v: int)
    requires Weighted(targets) && i < |targets| && v in Share(targets, i)
    ensures 0 <= v && Walk32(targets, v) == targets[i].name
  {
    assert targets[0..] == targets;
    NoOverflow(targets, i);
    WalkReaches(targets, i, 0, v);
  }

  lemma HitsNext(targets: seq<Target>, i: nat, name: string)
    requires Weighted(targets) && i < |targets|
    ensures Hits(targets, i, name) !! Share(targets, i)
    ensures Hits(targets, i + 1, name)
            == if targets[i].name == name then Hits(targets, i, name) + Share(targets, i) else Hits(targets, i, name)
  {
    StartsGrow(targets, i, i + 1);
    NoOverflow(targets, i);
    forall v | v in Share(targets, i) ensures Walk32(targets, v) == targets[i].name {
      ShareIsDrawn(targets, i, v);
    }
  }

  lemma {:induction false} HitsCount(targets: seq<Target>, k: nat, name: string)
    requires Weighted(targets) && k <= |targets|
    ensures |Hits(targets, k, name)| == NamedWeight(targets, k, name)
  {
    if k > 0 {
      HitsCount(targets, k - 1, name);
      HitsNext(targets, k - 1, name);
      StartNext(targets, k - 1);
    }
  }

  /** The random values, among all the equally likely ones, for which a name is returned. */
  function Chances(targets: seq<Target>, name: string): set<int>
    requires targets != []
  {
    set v | v in Interval(0, Range(targets)) && Draw(targets, v) == Name(name)
  }

  /** The draw is exactly proportional: a name comes out for as many of the random values as the
      weights listed under it add up to, and no value falls through to the empty result. */
  lemma {:induction false} Proportional(targets: seq<Target>, name: string)
    requires Weighted(targets)
    ensures Sum32(targets) == Total(targets) && 1 <= Total(targets) <= MAX_INT32
    ensures |Chances(targets, name)| == NamedWeight(targets, |targets|, name)
    ensures forall v :: v in Interval(0, Range(targets)) ==>
              exists i :: 0 <= i < |targets| && v in Share(targets, i) && Draw(targets, v) == Name(targets[i].name)
  {
    hide Share;
    NoOverflow(targets, |targets|);
    assert targets[..|targets|] == targets;
    HitsCount(targets, |targets|, name);
    assert Chances(targets, name) == Hits(targets, |targets|, name);
    forall v | v in Interval(0, Range(targets))
      ensures exists i :: 0 <= i < |targets| && v in Share(targets, i) && Draw(targets, v) == Name(targets[i].name)
    {
      Covered(targets, |targets|, v);
      var i: nat :| i < |targets| && v in Share(targets, i);
      ShareIsDrawn(targets, i, v);
    }
  }

  // ----- targets without weights -----

  /** Where a name is listed. */
  function Listed(targets: seq<Target>, name: string): set<int> {
    set i | 0 <= i < |targets| && targets[i].name == name
  }

  /** If the first target has no weight, each listed position has one of the equally likely random
      values, so a name comes out as often as it is listed, and nothing else comes out. */
  lemma {:induction false} Uniform(targets: seq<Target>, name: string)
    requires targets != [] && targets[0].weight.None?
    ensures Range(targets) == |targets|
    ensures |Chances(targets, name)| == |Listed(targets, name)|
    ensures forall roll :: roll in Interval(0, |targets|) ==>
              Draw(targets, roll).Name? && exists i :: 0 <= i < |targets| && targets[i].name == Draw(targets, roll).name
  {
    assert Chances(targets, name) == Listed(targets, name);
  }
}
