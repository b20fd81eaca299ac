/** The independent checker of benchmark/math_benchmark.py. */
module Benchmark {
  import opened Schema
  import opened Arithmetic
  import opened Registry

  // ----- Python values that came through JSON -----

  /** The integer a JSON value behaves as in arithmetic; true and false are 1 and 0. */
  function AsInt(v: Json): Option<int> {
    match v
    case Num(n) => Some(n)
    case Bool(b) => Some(if b then 1 else 0)
    case _ => None
  }

  function Get(result: map<string, Json>, key: string): Json {
    if key in result then result[key] else Null
  }

  /** `==` */
  predicate Equal(a: Json, b: Json) {
    if AsInt(a).Some? && AsInt(b).Some? then AsInt(a) == AsInt(b) else a == b
  }

  // ----- Ground truth -----

  method GroundTruthIsPrime(n: int) returns (r: PrimeResult)
    ensures PrimeSpec(n, r)
  {
    if n < 2 {
      return PrimeResult(n, false, 0);
    }
    if n % 2 == 0 {
      TwoOrEven(n);
      return PrimeResult(n, n == 2, 1);
    }
    r := CountOddDivisors(n);
  }

  method CountOddDivisors(n: int) returns (r: PrimeResult)
    requires n >= 3 && n % 2 == 1
    ensures PrimeSpec(n, r)
  {
    var checked := 1;
    var limit := Isqrt(n) + 1;
    FirstOddFactor(n);
    RootOfThree(n);
    var d := 3;
    while d < limit
      invariant d == 2 * checked + 1 && 3 <= d <= limit + 1 && d <= LeastFactor(n)
    {
      checked := checked + 1;
      if n % d == 0 {
        FactorFound(n, d, checked);
        return PrimeResult(n, false, checked);
      }
      SkipEven(n, d, checked - 1);
      d := d + 2;
    }
    NoFactorFound(n, d, checked);
    return PrimeResult(n, true, checked);
  }

  method GroundTruthCollatz(n: int, fuel: nat) returns (r: Option<CollatzResult>)
    ensures r.Some? ==> CollatzSpec(n, r.value) && r.value.steps <= fuel
    ensures r == None <==> 1 !in Walk(n, fuel)
  {
    var cur, steps: nat, maxV, total := n, 0, n, n;
    WalkingStart(n);
    while cur != 1 && steps < fuel
      invariant steps <= fuel && Walking(n, steps, cur, maxV, total)
      decreases fuel - steps
    {
      WalkingStep(n, steps, cur, maxV, total);
      cur := if cur % 2 == 0 then cur / 2 else 3 * cur + 1;
      steps := steps + 1;
      maxV := if maxV >= cur then maxV else cur;
      total := total + cur;
    }
    if cur != 1 {
      WalkingOn(n, steps, cur, maxV, total);
      return None;
    }
    ReachesOne(n, steps, maxV, total, fuel);
    return Some(CollatzResult(n, steps, maxV, total));
  }

  // ----- verify_result -----

  /** The JSON values that Python takes for the integer n. */
  predicate Means(v: Json, n: int) {
    v == Num(n) || (v == Bool(true) && n == 1) || (v == Bool(false) && n == 0)
  }

  /** The key is there and stands for n. */
  predicate Holds(result: map<string, Json>, key: string, n: int) {
    key in result && Means(result[key], n)
  }

  /** Comparing what `get` returns with an integer, and with a flag. */
  lemma SameInt(result: map<string, Json>, key: string, n: int)
    ensures Equal(Get(result, key), Num(n)) <==> Holds(result, key, n)
    ensures AsInt(Get(result, key)) == Some(n) <==> Holds(result, key, n)
  {
  }

  lemma SameFlag(result: map<string, Json>, key: string, flag: bool)
    ensures Equal(Get(result, key), Bool(flag)) <==> Holds(result, key, if flag then 1 else 0)
  {
  }

  predicate PrimeMatches(result: map<string, Json>, r: PrimeResult) {
    Holds(result, "is_prime", if r.isPrime then 1 else 0) && Holds(result, "divisors_checked", r.divisorsChecked)
  }

  predicate CollatzMatches(result: map<string, Json>, r: CollatzResult) {
    && Holds(result, "steps", r.steps) && Holds(result, "max_value", r.maxValue)
    && Holds(result, "sequence_checksum", r.checksum)
  }

  /** The JSON objects that the handlers return. */
  function PrimeJson(r: PrimeResult): map<string, Json> {
    map["n" := Num(r.n), "is_prime" := Bool(r.isPrime), "divisors_checked" := Num(r.divisorsChecked)]
  }

  function CollatzJson(r: CollatzResult): map<string, Json> {
    map["n" := Num(r.n), "steps" := Num(r.steps), "max_value" := Num(r.maxValue),
        "sequence_checksum" := Num(r.checksum)]
  }

  /** verify_result. A payload that makes the recomputation raise is rejected; None says that the
      recomputation did not finish within `fuel` iterations. `chain` stands for the hash chain. */
  method VerifyResult(jobType: string, payload: map<string, Json>, result: map<string, Json>,
                      fuel: nat, chain: (string, int) -> string)
    returns (ok: Option<bool>)
    ensures jobType != "is_prime" && jobType != "collatz" && jobType != "sha256_chain" ==> ok == Some(false)
    ensures jobType == "is_prime" || jobType == "collatz" ==>
              (forall n :: !Holds(payload, "n", n)) ==> ok == Some(false)
    ensures jobType == "is_prime" ==>
              forall n, r | Holds(payload, "n", n) && PrimeSpec(n, r) :: ok == Some(PrimeMatches(result, r))
    ensures jobType == "collatz" ==>
              forall n | Holds(payload, "n", n) ::
                && (ok == None <==> 1 !in Walk(n, fuel))
                && (ok.Some? ==> (exists r :: CollatzSpec(n, r))
                                 && forall r | CollatzSpec(n, r) :: ok.value <==> CollatzMatches(result, r))
    ensures jobType == "sha256_chain" ==>
              if "seed" in payload && payload["seed"].Str? && exists n :: Holds(payload, "rounds", n)
              then forall n | Holds(payload, "rounds", n) ::
                     ok == Some("final_hash" in result && result["final_hash"] == Str(chain(payload["seed"].s, n)))
              else ok == Some(false)
  {
    forall n ensures AsInt(Get(payload, "n")) == Some(n) <==> Holds(payload, "n", n) { SameInt(payload, "n", n); }
    forall n ensures AsInt(Get(payload, "rounds")) == Some(n) <==> Holds(payload, "rounds", n) {
      SameInt(payload, "rounds", n);
    }
    if jobType == "sha256_chain" {
      var seed, rounds := Get(payload, "seed"), AsInt(Get(payload, "rounds"));
      if !seed.Str? || rounds == None {
        return Some(false);
      }
      return Some(Equal(Get(result, "final_hash"), Str(chain(seed.s, rounds.value))));
    }
    if jobType != "is_prime" && jobType != "collatz" {
      return Some(false);
    }
    if AsInt(Get(payload, "n")) == None {
      return Some(false);
    }
    var n := AsInt(Get(payload, "n")).value;
    if jobType == "is_prime" {
      var right := VerifyPrime(n, result);
      return Some(right);
    }
    ok := VerifyCollatz(n, result, fuel);
  }

  method VerifyPrime(n: int, result: map<string, Json>) returns (ok: bool)
    ensures forall r | PrimeSpec(n, r) :: ok == PrimeMatches(result, r)
  {
    var expected := GroundTruthIsPrime(n);
    forall r | PrimeSpec(n, r) ensures r == expected { PrimeSpecUnique(n, r, expected); }
    SameFlag(result, "is_prime", expected.isPrime);
    SameInt(result, "divisors_checked", expected.divisorsChecked);
    if !Equal(Get(result, "is_prime"), Bool(expected.isPrime)) {
      return false;
    }
    return Equal(Get(result, "divisors_checked"), Num(expected.divisorsChecked));
  }

  method VerifyCollatz(n: int, result: map<string, Json>, fuel: nat) returns (ok: Option<bool>)
    ensures ok == None <==> 1 !in Walk(n, fuel)
    ensures ok.Some? ==> exists r :: CollatzSpec(n, r)
    ensures ok.Some? ==> forall r | CollatzSpec(n, r) :: ok.value <==> CollatzMatches(result, r)
  {
    var recomputed := GroundTruthCollatz(n, fuel);
    if recomputed == None {
      return None;
    }
    var expected := recomputed.value;
    forall r | CollatzSpec(n, r) ensures r == expected { CollatzSpecUnique(n, r, expected); }
    var wanted := [("steps", expected.steps), ("max_value", expected.maxValue),
                   ("sequence_checksum", expected.checksum)];
    var right := HasAll(result, wanted);
    assert wanted[0].0 == "steps" && wanted[1].0 == "max_value" && wanted[2].0 == "sequence_checksum";
    return Some(right);
  }

  /** The loop over the keys. */
  method HasAll(result: map<string, Json>, wanted: seq<(string, int)>) returns (ok: bool)
    ensures ok <==> forall k | 0 <= k < |wanted| :: Holds(result, wanted[k].0, wanted[k].1)
  {
    for i := 0 to |wanted|
      invariant forall k | 0 <= k < i :: Holds(result, wanted[k].0, wanted[k].1)
    {
      SameInt(result, wanted[i].0, wanted[i].1);
      if !Equal(Get(result, wanted[i].0), Num(wanted[i].1)) {
        return false;
      }
    }
    return true;
  }

  // ----- The handlers and the checker -----

  /** What the checker says of any claimed flag and count for n, against what the handler returns. */
  method JudgePrime(n: int, claimed: PrimeResult, chain: (string, int) -> string)
    returns (r: PrimeResult, ok: Option<bool>)
    ensures PrimeSpec(n, r)
    ensures ok == Some(claimed.isPrime == r.isPrime && claimed.divisorsChecked == r.divisorsChecked)
  {
    r := IsPrimeHandler(n);
    ok := VerifyResult("is_prime", map["n" := Num(n)], PrimeJson(claimed), 0, chain);
  }

  /** The checker accepts the result of the handler, for every integer. */
  method PrimeAccepted(n: int, chain: (string, int) -> string) returns (ok: Option<bool>)
    ensures ok == Some(true)
  {
    var r := IsPrimeHandler(n);
    ok := VerifyResult("is_prime", map["n" := Num(n)], PrimeJson(r), 0, chain);
  }

  /** The same for the walk: whatever is claimed must have the length, maximum and sum that the handler
      returns. The checker finishes whenever the handler does. */
  method JudgeCollatz(n: int, claimed: CollatzResult, fuel: nat, chain: (string, int) -> string)
    returns (r: Option<CollatzResult>, ok: Option<bool>)
    ensures r.Some? <==> 1 in Walk(n, fuel)
    ensures r.Some? ==> CollatzSpec(n, r.value)
    ensures ok == if r == None then None
                  else Some(claimed.steps == r.value.steps && claimed.maxValue == r.value.maxValue
                            && claimed.checksum == r.value.checksum)
  {
    r := CollatzHandler(n, fuel);
    ok := VerifyResult("collatz", map["n" := Num(n)], CollatzJson(claimed), fuel, chain);
  }

  /** The checker accepts the result of the handler, whenever the handler returns. */
  method CollatzAccepted(n: int, fuel: nat, chain: (string, int) -> string)
    returns (r: Option<CollatzResult>, ok: Option<bool>)
    ensures r.Some? <==> 1 in Walk(n, fuel)
    ensures r.Some? ==> ok == Some(true)
  {
    ok := None;
    r := CollatzHandler(n, fuel);
    if r.Some? {
      ok := VerifyResult("collatz", map["n" := Num(n)], CollatzJson(r.value), fuel, chain);
    }
  }
}
