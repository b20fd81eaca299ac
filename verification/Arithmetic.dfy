/** What the arithmetic job types mean, independently of any loop. */
module Arithmetic {

  import opened Schema

  // ----- Primality -----

  ghost predicate Prime(n: int) {
    n >= 2 && forall d | 2 <= d < n :: n % d != 0
  }

  /** The least divisor of n that is at least d. */
  function LeastFrom(n: int, d: int): int
    requires 2 <= d <= n
    decreases n - d
  {
    if d == n || n % d == 0 then d else LeastFrom(n, d + 1)
  }

  function LeastFactor(n: int): int
    requires n >= 2
  {
    LeastFrom(n, 2)
  }

  lemma DividesItself(n: int)
    requires n > 0
    ensures n % n == 0
  {
  }

  lemma {:induction false} LeastFromIsLeast(n: int, d: int)
    requires 2 <= d <= n
    ensures d <= LeastFrom(n, d) <= n && n % LeastFrom(n, d) == 0
    ensures forall k | d <= k < LeastFrom(n, d) :: n % k != 0
    decreases n - d
  {
    if d == n {
      DividesItself(n);
    } else if n % d != 0 {
      LeastFromIsLeast(n, d + 1);
    }
  }

  /** The least factor divides n and nothing smaller does; primes are their own least factor. */
  lemma LeastFactorIsLeast(n: int)
    requires n >= 2
    ensures 2 <= LeastFactor(n) <= n && n % LeastFactor(n) == 0
    ensures forall k | 2 <= k < LeastFactor(n) :: n % k != 0
    ensures Prime(n) <==> LeastFactor(n) == n
  {
    LeastFromIsLeast(n, 2);
  }

  /** k * k, as the sum of the first k odd numbers. */
  function Square(k: nat): nat {
    if k == 0 then 0 else Square(k - 1) + 2 * k - 1
  }

  lemma {:induction false} SquareIsProduct(k: nat)
    ensures Square(k) == k * k
  {
    if k > 0 {
      SquareIsProduct(k - 1);
      assert (k - 1) * (k - 1) == k * k - 2 * k + 1;
    }
  }

  /** math.isqrt */
  function Isqrt(n: nat): nat {
    if n == 0 then 0
    else
      var s := Isqrt(n - 1);
      if Square(s + 1) <= n then s + 1 else s
  }

  lemma {:induction false} IsqrtBounds(n: nat)
    ensures Square(Isqrt(n)) <= n < Square(Isqrt(n) + 1)
  {
    if n > 0 { IsqrtBounds(n - 1); }
  }

  lemma IsqrtIsRoot(n: nat)
    ensures Isqrt(n) * Isqrt(n) <= n < (Isqrt(n) + 1) * (Isqrt(n) + 1)
  {
    IsqrtBounds(n);
    SquareIsProduct(Isqrt(n));
    SquareIsProduct(Isqrt(n) + 1);
  }

  datatype PrimeResult = PrimeResult(n: int, isPrime: bool, divisorsChecked: int)

  /** The flag, and the number of trial divisions: by 2, and then by odd numbers up to the least
      factor or up to the square root. */
  ghost predicate PrimeSpec(n: int, r: PrimeResult) {
    && r.n == n
    && (r.isPrime <==> Prime(n))
    && r.divisorsChecked == (if n < 2 then 0
                             else if n % 2 == 0 then 1
                             else if Prime(n) then 1 + (Isqrt(n) - 1) / 2
                             else (LeastFactor(n) + 1) / 2)
  }

  lemma DividesBy(n: int, d: int, q: int)
    requires d > 0 && n == d * q
    ensures n % d == 0
  {
    var r, k := n % d, q - n / d;
    assert r == d * k by { assert n == d * (n / d) + r; }
    assert k >= 1 ==> d * k >= d;
    assert k <= -1 ==> d * k <= -d;
  }

  /** An odd number has no even factor. */
  lemma OddHasNoEvenFactor(n: int, k: int)
    requires n % 2 == 1 && k >= 2 && k % 2 == 0
    ensures n % k != 0
  {
    if n % k == 0 {
      var h, q := k / 2, n / k;
      assert n == k * q;
      assert k * q == 2 * (h * q) by { assert k == 2 * h; }
      DividesBy(n, 2, h * q);
    }
  }

  lemma NonNegative(a: int, b: int)
    requires a >= 0 && b >= 0
    ensures a * b >= 0
  {
  }

  lemma BigProduct(a: int, b: int, m: int)
    requires 0 <= m <= a && m <= b
    ensures m * m <= a * b
  {
    NonNegative(a - m, b);
    NonNegative(m, b - m);
    assert a * b - m * m == (a - m) * b + m * (b - m);
  }

  /** Of a proper factor and its cofactor one is at most the square root. */
  lemma Cofactor(n: int, d: int) returns (q: int)
    requires 2 <= d < n && n % d == 0
    ensures 2 <= q && n % q == 0 && (d <= Isqrt(n) || q <= Isqrt(n))
  {
    q := n / d;
    assert n == d * q;
    assert q <= 1 ==> d * q <= d;
    DividesBy(n, q, d);
    IsqrtIsRoot(n);
    if d > Isqrt(n) && q > Isqrt(n) {
      BigProduct(d, q, Isqrt(n) + 1);
    }
  }

  /** A number whose least factor exceeds its square root is prime. */
  lemma PastTheRoot(n: int)
    requires n >= 2 && LeastFactor(n) > Isqrt(n)
    ensures Prime(n)
  {
    LeastFactorIsLeast(n);
    var p := LeastFactor(n);
    if p < n {
      var q := Cofactor(n, p);
    }
  }

  /** A factor up to the square root is a proper one. */
  lemma ProperFactor(n: int, d: int)
    requires n >= 3 && 2 <= d <= Isqrt(n)
    ensures d < n
  {
    IsqrtIsRoot(n);
    BigProduct(Isqrt(n), Isqrt(n), d);
    Doubles(d);
  }

  lemma Doubles(d: int)
    requires d >= 2
    ensures d * d >= 2 * d
  {
    NonNegative(d - 2, d);
    assert (d - 2) * d == d * d - 2 * d;
  }

  /** Trial division by odd d found nothing: the next candidate is d + 2. */
  lemma SkipEven(n: int, d: int, c: int)
    requires n >= 3 && n % 2 == 1 && d == 2 * c + 1 && 3 <= d <= LeastFactor(n) && n % d != 0
    ensures d + 2 <= LeastFactor(n)
  {
    LeastFactorIsLeast(n);
    OddHasNoEvenFactor(n, d + 1);
  }

  /** The specification determines the result. */
  lemma PrimeSpecUnique(n: int, a: PrimeResult, b: PrimeResult)
    requires PrimeSpec(n, a) && PrimeSpec(n, b)
    ensures a == b
  {
  }

  lemma TwoOrEven(n: int)
    requires n >= 2 && n % 2 == 0
    ensures PrimeSpec(n, PrimeResult(n, n == 2, 1))
  {
  }

  lemma FirstOddFactor(n: int)
    requires n >= 3 && n % 2 == 1
    ensures LeastFactor(n) >= 3
  {
    LeastFactorIsLeast(n);
  }

  lemma FactorFound(n: int, d: int, checked: int)
    requires n >= 3 && n % 2 == 1 && 3 <= d <= LeastFactor(n) && d <= Isqrt(n) && n % d == 0
    requires d + 1 == 2 * checked
    ensures PrimeSpec(n, PrimeResult(n, false, checked))
  {
    LeastFactorIsLeast(n);
    ProperFactor(n, d);
  }

  lemma NoFactorFound(n: int, d: int, checked: int)
    requires n >= 3 && n % 2 == 1 && Isqrt(n) < d <= LeastFactor(n) && d == 2 * checked + 1
    requires d <= Isqrt(n) + 2
    ensures PrimeSpec(n, PrimeResult(n, true, checked))
  {
    PastTheRoot(n);
  }

  lemma RootOfThree(n: int)
    requires n >= 1
    ensures Isqrt(n) >= 1
  {
    IsqrtIsRoot(n);
  }

  // ----- Collatz -----

  function Next(x: int): int {
    if x % 2 == 0 then x / 2 else 3 * x + 1
  }

  /** The first k + 1 values of the walk from n. */
  function Walk(n: int, k: nat): (s: seq<int>)
    ensures |s| == k + 1 && s[0] == n
  {
    if k == 0 then [n] else Walk(n, k - 1) + [Next(Walk(n, k - 1)[k - 1])]
  }

  function Sum(s: seq<int>): int {
    if s == [] then 0 else Sum(s[..|s| - 1]) + s[|s| - 1]
  }

  ghost predicate IsMax(s: seq<int>, m: int) {
    m in s && forall x | x in s :: x <= m
  }

  lemma SumMaxExtend(s: seq<int>, x: int, m: int)
    requires IsMax(s, m)
    ensures Sum(s + [x]) == Sum(s) + x
    ensures IsMax(s + [x], if m >= x then m else x)
  {
    assert (s + [x])[..|s|] == s;
  }

  datatype CollatzResult = CollatzResult(n: int, steps: nat, maxValue: int, checksum: int)

  /** Length, maximum and sum of the walk from n up to its first 1. */
  ghost predicate CollatzSpec(n: int, r: CollatzResult) {
    r.n == n && Walking(n, r.steps, 1, r.maxValue, r.checksum)
  }

  /** After k steps without meeting 1 before the last value, which is cur. */
  ghost predicate Walking(n: int, k: nat, cur: int, max: int, total: int) {
    var walk := Walk(n, k);
    && walk[k] == cur && 1 !in walk[..k]
    && IsMax(walk, max)
    && total == Sum(walk)
  }

  lemma WalkingStart(n: int)
    ensures Walking(n, 0, n, n, n)
  {
    assert [n][..0] == [] && Sum([n]) == Sum([]) + n;
  }

  lemma WalkingStep(n: int, k: nat, cur: int, max: int, total: int)
    requires Walking(n, k, cur, max, total) && cur != 1
    ensures var x := Next(cur); Walking(n, k + 1, x, if max >= x then max else x, total + x)
  {
    var walk := Walk(n, k);
    var x := Next(cur);
    SumMaxExtend(walk, x, max);
    assert Walk(n, k + 1) == walk + [x];
    assert (walk + [x])[..k + 1] == walk == walk[..k] + [cur];
  }

  lemma WalkingOn(n: int, k: nat, cur: int, max: int, total: int)
    requires Walking(n, k, cur, max, total) && cur != 1
    ensures 1 !in Walk(n, k)
  {
    assert Walk(n, k) == Walk(n, k)[..k] + [cur];
  }

  lemma {:induction false} WalkPrefix(n: int, a: nat, b: nat)
    requires a <= b
    ensures Walk(n, a) == Walk(n, b)[..a + 1]
    decreases b
  {
    if a < b {
      WalkPrefix(n, a, b - 1);
      assert Walk(n, b)[..b] == Walk(n, b - 1);
      assert Walk(n, b)[..a + 1] == Walk(n, b)[..b][..a + 1];
    } else {
      assert Walk(n, b)[..b + 1] == Walk(n, b);
    }
  }

  lemma ReachesOne(n: int, k: nat, max: int, total: int, fuel: nat)
    requires Walking(n, k, 1, max, total) && k <= fuel
    ensures 1 in Walk(n, fuel)
  {
    WalkPrefix(n, k, fuel);
    assert Walk(n, fuel)[k] == Walk(n, fuel)[..k + 1][k];
  }

  /** The specification determines the result. */
  lemma CollatzSpecUnique(n: int, a: CollatzResult, b: CollatzResult)
    requires CollatzSpec(n, a) && CollatzSpec(n, b)
    ensures a == b
  {
    SameLength(n, a.steps, b.steps);
    SameLength(n, b.steps, a.steps);
    var walk := Walk(n, a.steps);
    assert a.maxValue in walk && b.maxValue in walk;
  }

  lemma SameLength(n: int, a: nat, b: nat)
    requires Walk(n, a)[a] == 1 && 1 !in Walk(n, b)[..b]
    ensures b <= a
  {
    if a < b { EarlierOne(n, a, b); }
  }

  lemma EarlierOne(n: int, a: nat, b: nat)
    requires a < b && Walk(n, a)[a] == 1
    ensures 1 in Walk(n, b)[..b]
  {
    WalkPrefix(n, a, b);
    assert Walk(n, b)[..b][a] == Walk(n, b)[..a + 1][a];
  }

  lemma {:induction false} WalkFromFront(n: int, k: nat)
    ensures Walk(n, k + 1) == [n] + Walk(Next(n), k)
  {
    if k > 0 {
      WalkFromFront(n, k - 1);
      assert Walk(n, k)[k] == Walk(Next(n), k - 1)[k - 1];
      assert Walk(n, k + 1) == [n] + Walk(Next(n), k - 1) + [Next(Walk(Next(n), k - 1)[k - 1])];
    }
  }

  lemma {:induction false} SumFromFront(n: int, s: seq<int>)
    ensures Sum([n] + s) == n + Sum(s)
  {
    if s == [] {
      assert [n] + s == [n] && [n][..0] == [];
    } else {
      var front := s[..|s| - 1];
      SumFromFront(n, front);
      assert ([n] + s)[..|s|] == [n] + front;
    }
  }

  /** The walk from n is n and then the walk from n / 2, or from 3 * n + 1 when n is odd: so are its
      length, its maximum and its sum. */
  lemma CollatzUnfolds(n: int, r: CollatzResult)
    requires n != 1 && CollatzSpec(if n % 2 == 0 then n / 2 else 3 * n + 1, r)
    ensures CollatzSpec(n, CollatzResult(n, r.steps + 1, if n >= r.maxValue then n else r.maxValue, n + r.checksum))
  {
    WalkingFromFront(n, Next(n), r.steps, r.maxValue, r.checksum);
  }

  lemma WalkingFromFront(n: int, m: int, k: nat, max: int, total: int)
    requires n != 1 && m == Next(n) && Walking(m, k, 1, max, total)
    ensures Walking(n, k + 1, 1, if n >= max then n else max, n + total)
  {
    var rest := Walk(m, k);
    WalkFromFront(n, k);
    SumFromFront(n, rest);
    MaxFromFront(n, rest, max);
    NoneInFront(n, rest, k);
  }

  lemma NoneInFront(n: int, s: seq<int>, k: nat)
    requires k < |s| && n != 1 && 1 !in s[..k]
    ensures 1 !in ([n] + s)[..k + 1] && ([n] + s)[k + 1] == s[k]
  {
    assert ([n] + s)[..k + 1] == [n] + s[..k];
  }

  lemma MaxFromFront(n: int, s: seq<int>, m: int)
    requires IsMax(s, m)
    ensures IsMax([n] + s, if n >= m then n else m)
  {
    assert forall x | x in [n] + s :: x == n || x in s;
    assert ([n] + s)[1..] == s;
  }

  /** From zero or a negative number the walk never reaches 1. */
  lemma {:induction false} NeverOne(n: int, k: nat)
    requires n <= 0
    ensures forall x | x in Walk(n, k) :: x <= 0
  {
    if k > 0 {
      NeverOne(n, k - 1);
      var last := Walk(n, k - 1)[k - 1];
      assert last in Walk(n, k - 1);
      assert Next(last) <= 0;
    }
  }

  lemma NextOfDouble(x: int)
    ensures Next(2 * x) == x
  {
  }

  lemma HalvingStep(n: int, k: nat, x: int)
    requires 1 <= x <= n && Walking(n, k, 2 * x, n, 2 * n - 2 * x)
    ensures Walking(n, k + 1, x, n, 2 * n - x)
  {
    NextOfDouble(x);
    WalkingStep(n, k, 2 * x, n, 2 * n - 2 * x);
  }

  /** From 2^i on, with everything before at most n, the walk halves down to 1. */
  lemma {:induction false} HalvingRun(n: int, k: nat, i: nat)
    requires Pow2(i) <= n && Walking(n, k, Pow2(i), n, 2 * n - Pow2(i))
    ensures Walking(n, k + i, 1, n, 2 * n - 1)
    decreases i
  {
    if i > 0 {
      var x := Pow2(i - 1);
      assert Pow2(i) == 2 * x;
      HalvingStep(n, k, x);
      HalvingRun(n, k + 1, i - 1);
      assert k + 1 + (i - 1) == k + i;
    }
  }

  /** From 2^k the walk has k steps, maximum 2^k and checksum 2^(k+1) - 1. */
  lemma PowerOfTwo(k: nat)
    ensures CollatzSpec(Pow2(k), CollatzResult(Pow2(k), k, Pow2(k), 2 * Pow2(k) - 1))
  {
    WalkingStart(Pow2(k));
    HalvingRun(Pow2(k), 0, k);
  }
}
