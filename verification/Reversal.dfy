/** Splitting a requested volume into the three legs of a NEWS_REVERSAL side. Volumes are broker integer units. */
module ReversalVolume {
  import opened Basics

  datatype VolumeMode = SplitTotal | FullEach

  datatype Allocation = Allocation(legs: seq<int>, total: int)

  const MAX_SAFE: int := 9_007_199_254_740_991

  predicate SafeInteger(n: int) {
    -MAX_SAFE <= n <= MAX_SAFE
  }

  function Sum(xs: seq<int>): int {
    if xs == [] then 0 else Sum(xs[..|xs| - 1]) + xs[|xs| - 1]
  }

  function Allocate(requested: int, step: int, mode: VolumeMode, targets: int): Result<Allocation> {
    if !SafeInteger(requested) || requested <= 0 then Err("Requested volume must be a positive integer")
    else if !SafeInteger(step) || step <= 0 then Err("Volume step must be a positive integer")
    else if targets < 1 then Err("Target count must be positive")
    else
      var normalized := requested / step * step;
      if normalized <= 0 then Err("Requested volume is below the broker step")
      else if mode == FullEach then Ok(Allocation(seq(targets, _ => normalized), normalized * targets))
      else
        var totalSteps := normalized / step;
        if totalSteps < targets then Err("Total volume is too small to split")
        else
          var base := totalSteps / targets;
          var remainder := totalSteps - base * targets;
          var legs := seq(targets, i => (base + (if i >= targets - remainder then 1 else 0)) * step);
          Ok(Allocation(legs, Sum(legs)))
  }

  function Steps(base: int, extraFrom: int, n: nat): seq<int> {
    seq(n, i => base + (if i >= extraFrom then 1 else 0))
  }

  lemma {:induction false} StepsSum(base: int, extraFrom: nat, n: nat)
    ensures Sum(Steps(base, extraFrom, n)) == base * n + (if n > extraFrom then n - extraFrom else 0)
  {
    if n > 0 {
      StepsSum(base, extraFrom, n - 1);
      assert Steps(base, extraFrom, n)[..n - 1] == Steps(base, extraFrom, n - 1);
      assert base * n == base * (n - 1) + base;
    }
  }

  lemma {:induction false} ScaledSum(xs: seq<int>, c: int)
    ensures Sum(seq(|xs|, i requires 0 <= i < |xs| => xs[i] * c)) == Sum(xs) * c
  {
    if xs != [] {
      var most := xs[..|xs| - 1];
      ScaledSum(most, c);
      var scaled := seq(|xs|, i requires 0 <= i < |xs| => xs[i] * c);
      assert scaled[..|xs| - 1] == seq(|most|, i requires 0 <= i < |most| => most[i] * c);
      assert (Sum(most) + xs[|xs| - 1]) * c == Sum(most) * c + xs[|xs| - 1] * c;
    }
  }

  lemma Factor(k: int, d: int)
    requires d > 0
    ensures k >= 1 ==> k * d >= d
    ensures k <= -1 ==> k * d <= -d
    ensures k == 0 ==> k * d == 0
  {
  }

  lemma Quotient(n: int, d: int, q: int, r: int)
    requires d > 0 && n == q * d + r && 0 <= r < d
    ensures n / d == q && n % d == r
  {
    var k := q - n / d;
    assert n == n / d * d + n % d;
    assert k * d == q * d - n / d * d;
    Factor(k, d);
  }

  lemma MultipleOfStep(n: int, step: int)
    requires n > 0 && step > 0
    ensures n / step * step / step == n / step
    ensures n - step < n / step * step <= n
  {
    assert n == n / step * step + n % step;
    Quotient(n / step * step, step, n / step, 0);
  }

  // The legs of a split: valid volumes, at most one step apart, the larger ones last, adding up to the whole request
  // rounded down to a step.
  lemma SplitConserves(requested: int, step: int, targets: int)
    requires Allocate(requested, step, SplitTotal, targets).Ok?
    ensures var a := Allocate(requested, step, SplitTotal, targets).value;
            && |a.legs| == targets
            && (forall i :: 0 <= i < targets ==> a.legs[i] > 0 && a.legs[i] % step == 0)
            && (forall i, j :: 0 <= i <= j < targets ==> a.legs[i] <= a.legs[j] <= a.legs[i] + step)
            && Sum(a.legs) == a.total
            && requested - step < a.total <= requested && a.total % step == 0
  {
    MultipleOfStep(requested, step);
    var totalSteps := requested / step;
    var base := totalSteps / targets;
    var remainder := totalSteps - base * targets;
    assert totalSteps == base * targets + totalSteps % targets;
    var legs := Allocate(requested, step, SplitTotal, targets).value.legs;
    var steps := Steps(base, targets - remainder, targets);
    StepsSum(base, targets - remainder, targets);
    ScaledSum(steps, step);
    assert legs == seq(|steps|, i requires 0 <= i < |steps| => steps[i] * step);
    assert base >= 1 by { BaseAtLeastOne(totalSteps, targets); }
    forall i | 0 <= i < targets ensures legs[i] > 0 && legs[i] % step == 0 {
      Multiple(steps[i], step);
    }
    forall i, j | 0 <= i <= j < targets ensures legs[i] <= legs[j] <= legs[i] + step {
      assert steps[i] <= steps[j] <= steps[i] + 1;
      Ordered(steps[i], steps[j], step);
    }
    Multiple(totalSteps, step);
  }

  lemma BaseAtLeastOne(n: int, d: int)
    requires d >= 1 && n >= d
    ensures n / d >= 1
  {
    Factor(n / d, d);
  }

  lemma Multiple(k: int, step: int)
    requires step > 0
    ensures k * step % step == 0
    ensures k > 0 <==> k * step > 0
  {
    Quotient(k * step, step, k, 0);
    Factor(k, step);
  }

  lemma Ordered(x: int, y: int, step: int)
    requires x <= y <= x + 1 && step > 0
    ensures x * step <= y * step <= x * step + step
  {
  }

  lemma FullConserves(requested: int, step: int, targets: int)
    requires Allocate(requested, step, FullEach, targets).Ok?
    ensures var a := Allocate(requested, step, FullEach, targets).value;
            && |a.legs| == targets
            && (forall i :: 0 <= i < targets ==> a.legs[i] > 0 && a.legs[i] % step == 0
                                                 && requested - step < a.legs[i] <= requested)
            && Sum(a.legs) == a.total
  {
    MultipleOfStep(requested, step);
    Multiple(requested / step, step);
    var n := requested / step * step;
    var a := Allocate(requested, step, FullEach, targets).value;
    StepsSum(n, targets, targets);
    assert a.legs == Steps(n, targets, targets);
  }

  // Which requests are refused.
  lemma RefusedExactly(requested: int, step: int, mode: VolumeMode, targets: int)
    ensures Allocate(requested, step, mode, targets).Err? <==>
            || !SafeInteger(requested) || requested <= 0 || !SafeInteger(step) || step <= 0 || targets < 1
            || requested < (if mode == SplitTotal then targets * step else step)
  {
    if SafeInteger(requested) && requested > 0 && SafeInteger(step) && step > 0 && targets >= 1 {
      var q := requested / step;
      MultipleOfStep(requested, step);
      Multiple(q, step);
      AtLeast(requested, step, targets);
      AtLeast(requested, step, 1);
    }
  }

  lemma AtLeast(n: int, step: int, k: int)
    requires step > 0
    ensures n / step >= k <==> n >= k * step
  {
    var q := n / step;
    assert n == q * step + n % step;
    assert (q - k) * step == q * step - k * step;
    Factor(q - k, step);
  }
}
