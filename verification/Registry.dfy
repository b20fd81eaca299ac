/** The arithmetic handlers of worker/registry.py, on the integer that int(job["payload"]["n"]) gives. */
module Registry {
  import opened Schema
  import opened Arithmetic

  method IsPrimeHandler(n: int) returns (r: PrimeResult)
    ensures PrimeSpec(n, r)
  {
    if n < 2 {
      return PrimeResult(n, false, 0);
    }
    if n == 2 {
      TwoOrEven(n);
      return PrimeResult(n, true, 1);
    }
    if n % 2 == 0 {
      TwoOrEven(n);
      return PrimeResult(n, false, 1);
    }
    r := TryOddDivisors(n);
  }

  /** The loop of the handler. */
  method TryOddDivisors(n: int) returns (r: PrimeResult)
    requires n >= 3 && n % 2 == 1
    ensures PrimeSpec(n, r)
  {
    var checked := 1;
    var limit := Isqrt(n) + 1;
    FirstOddFactor(n);
    RootOfThree(n);
    var d := 3;
    while d < limit
      invariant d == 2 * checked + 1 && 3 <= d <= limit + 1 && d <= LeastFactor(n)
    {
      checked := checked + 1;
      if n % d == 0 {
        FactorFound(n, d, checked);
        return PrimeResult(n, false, checked);
      }
      SkipEven(n, d, checked - 1);
      d := d + 2;
    }
    NoFactorFound(n, d, checked);
    return PrimeResult(n, true, checked);
  }

  /** Exits, within `fuel` iterations, exactly when the walk reaches 1 that soon. */
  method CollatzHandler(n: int, fuel: nat) returns (r: Option<CollatzResult>)
    ensures r.Some? ==> CollatzSpec(n, r.value) && r.value.steps <= fuel
    ensures r == None <==> 1 !in Walk(n, fuel)
  {
    var cur := n;
    var steps: nat := 0;
    var maxVal := n;
    var totalSum := n;
    WalkingStart(n);
    while cur != 1 && steps < fuel
      invariant steps <= fuel && Walking(n, steps, cur, maxVal, totalSum)
      decreases fuel - steps
    {
      WalkingStep(n, steps, cur, maxVal, totalSum);
      if cur % 2 == 0 {
        cur := cur / 2;
      } else {
        cur := 3 * cur + 1;
      }
      steps := steps + 1;
      maxVal := if maxVal >= cur then maxVal else cur;
      totalSum := totalSum + cur;
    }
    if cur == 1 {
      ReachesOne(n, steps, maxVal, totalSum, fuel);
      return Some(CollatzResult(n, steps, maxVal, totalSum));
    }
    WalkingOn(n, steps, cur, maxVal, totalSum);
    return None;
  }
}
