/**
  When a monitoring round ends (page_sample_complete of chunk_monitor.c).  A round is a run of
  cycles; each cycle takes as many references as the chunk has samples, and counts the
  pollutors among them.  From some cycle on, the round ends as soon as the pollutor rate over
  all cycles moves by less than the convergence error.
  */
module SampleRounds {
  import Arith
  import opened Config

  const CONVERGENCE_ERROR: real := 0.05

  function Rate(pollutors: nat, total: nat): real {
    if total == 0 then 0.0 else pollutors as real / total as real
  }

  /** The test of page_sample_complete, before and after the cycle is added. */
  predicate Converged(pollutors: nat, total: nat, iPollutors: nat, iTotal: nat) {
    var mr0, mr1 := Rate(pollutors, total), Rate(pollutors + iPollutors, total + iTotal);
    (if mr0 > mr1 then mr0 - mr1 else mr1 - mr0) < CONVERGENCE_ERROR
  }

  /** Pollutors in the first `k` cycles. */
  function PollutorsIn(cycles: seq<nat>, k: nat): nat
    requires k <= |cycles|
  {
    if k == 0 then 0 else PollutorsIn(cycles, k - 1) + cycles[k - 1]
  }

  /** The test at the end of cycle number `k` (counted from 0) of `n` references each. */
  predicate ConvergesAt(cycles: seq<nat>, n: nat, k: nat)
    requires k < |cycles|
  {
    Converged(PollutorsIn(cycles, k), k * n, cycles[k], n)
  }

  /** Cycles of one round: all tests made before cycle `upTo` was over have failed. */
  ghost predicate Unsettled(cycles: seq<nat>, n: nat, base: nat, upTo: nat)
    requires upTo <= |cycles|
  {
    && (forall k :: 0 <= k < |cycles| ==> cycles[k] <= n)
    && (forall k :: 0 <= k < upTo && base - 1 <= k ==> !ConvergesAt(cycles, n, k))
  }

  // ------------------------------------------------------------------ one failed test

  lemma {:induction false} PollutorsBound(cycles: seq<nat>, n: nat, k: nat)
    requires k <= |cycles| && forall i :: 0 <= i < |cycles| ==> cycles[i] <= n
    ensures PollutorsIn(cycles, k) <= k * n
  {
    if k > 0 {
      PollutorsBound(cycles, n, k - 1);
      assert k * n == (k - 1) * n + n;
    }
  }

  lemma QuotientDifference(a: real, b: real, x: real, y: real)
    requires b > 0.0 && y > 0.0
    ensures (x / y - a / b) * (b * y) == x * b - a * y
  {
    var q, r := a / b, x / y;
    assert q * b == a && r * y == x;
    assert r * (b * y) == (r * y) * b;
    assert q * (b * y) == (q * b) * y;
    assert (r - q) * (b * y) == r * (b * y) - q * (b * y);
  }

  lemma {:induction false} IntProduct(a: nat, b: nat)
    ensures (a as real) * (b as real) == (a * b) as real
  {
    if a > 0 {
      IntProduct(a - 1, b);
      assert a * b == (a - 1) * b + b;
      assert (a as real) * (b as real) == ((a - 1) as real) * (b as real) + (b as real);
    }
  }

  /** The change of the rate, brought to whole numbers. */
  lemma RateChange(p: nat, t: nat, x: nat, n: nat)
    requires t >= 1
    ensures t * (t + n) >= 1
    ensures (Rate(p + x, t + n) - Rate(p, t)) * ((t * (t + n)) as real) == ((p + x) * t - p * (t + n)) as real
  {
    QuotientDifference(p as real, t as real, (p + x) as real, (t + n) as real);
    IntProduct(p + x, t);
    IntProduct(p, t + n);
    IntProduct(t, t + n);
  }

  lemma SmallIff(eps: real, g: int, d: int)
    requires g >= 1 && eps * (g as real) == d as real
    ensures (if eps > 0.0 then eps else -eps) < 0.05 <==> -g < 20 * d < g
  {
    var f, product := g as real, d as real;
    Scaled(eps, f, product);
    assert (-eps) * f == -(eps * f);
    Scaled(-eps, f, -product);
    assert 20.0 * product < f <==> 20 * d < g;
    assert 20.0 * (-product) < f <==> -20 * d < g;
  }

  /** The test in whole numbers. */
  lemma ConvergedIff(p: nat, t: nat, x: nat, n: nat)
    requires t >= 1
    ensures Converged(p, t, x, n) <==>
              var d := (p + x) * t - p * (t + n); -(t * (t + n)) < 20 * d < t * (t + n)
  {
    RateChange(p, t, x, n);
    var eps, g, d := Rate(p + x, t + n) - Rate(p, t), t * (t + n), (p + x) * t - p * (t + n);
    SmallIff(eps, g, d);
    assert Converged(p, t, x, n) <==> (if eps > 0.0 then eps else -eps) < 0.05 by {
      hide Rate;
    }
  }

  lemma Scaled(eps: real, f: real, product: real)
    requires f > 0.0 && product == eps * f
    ensures eps < 0.05 <==> 20.0 * product < f
  {
    if eps < 0.05 {
      assert (0.05 - eps) * f > 0.0;
      assert (0.05 - eps) * f == 0.05 * f - eps * f;
    } else {
      assert (eps - 0.05) * f >= 0.0;
      assert (eps - 0.05) * f == eps * f - 0.05 * f;
    }
  }

  /** The k-th test fails exactly if the cycle's pollutors stand off the mean so far by at
      least (k + 1) / 20 of a cycle: the mean over k + 1 cycles moves by 1 / (k + 1) at most. */
  lemma FailsIff(p: nat, n: nat, x: nat, k: nat)
    requires n >= 1 && k >= 1
    ensures !Converged(p, k * n, x, n) <==>
              20 * (k * x - p) >= (k * (k + 1)) * n || 20 * (p - k * x) >= (k * (k + 1)) * n
  {
    var t, e, f := k * n, k * x - p, (k * (k + 1)) * n;
    assert t >= 1;
    ConvergedIff(p, t, x, n);
    CommonFactor(p, n, x, k);
    hide Converged;
    Reduced(n, e, f, (p + x) * t - p * (t + n), t * (t + n));
  }

  lemma Reduced(n: nat, e: int, f: int, d: int, g: int)
    requires n >= 1 && d == n * e && g == n * f
    ensures -g < 20 * d < g <==> -f < 20 * e < f
  {
    assert n * (20 * e) == 20 * d && n * (-20 * e) == -20 * d;
    Arith.Order(n, 20 * e, f);
    Arith.Order(n, -20 * e, f);
  }

  lemma CommonFactor(p: int, n: int, x: int, k: int)
    ensures (p + x) * (k * n) - p * (k * n + n) == n * (k * x - p)
    ensures (k * n) * (k * n + n) == n * ((k * (k + 1)) * n)
  {
    calc {
      (p + x) * (k * n) - p * (k * n + n);
      p * (k * n) + x * (k * n) - p * (k * n) - p * n;
      x * (k * n) - p * n;
      { assert x * (k * n) == n * (k * x); }
      n * (k * x) - n * p;
      n * (k * x - p);
    }
    calc {
      (k * n) * (k * n + n);
      { assert k * n + n == (k + 1) * n; }
      (k * n) * ((k + 1) * n);
      n * (k * ((k + 1) * n));
      { assert k * ((k + 1) * n) == (k * (k + 1)) * n; }
      n * ((k * (k + 1)) * n);
    }
  }

  // ------------------------------------------------------------------ seven failed tests in a row

  ghost predicate Off(p: int, n: int, x: int, k: int) {
    20 * (k * x - p) >= (k * (k + 1)) * n || 20 * (p - k * x) >= (k * (k + 1)) * n
  }

  /** The tests of cycles 8 to 14 cannot all fail: from cycle 10 on the mean must keep going in
      one direction, and it has no room for five such steps after the two before. */
  lemma NotSeven(n: int, p: int, x8: int, x9: int, x10: int, x11: int, x12: int, x13: int, x14: int)
    requires n >= 1 && 0 <= p <= 8 * n
    requires 0 <= x8 <= n && 0 <= x9 <= n && 0 <= x10 <= n && 0 <= x11 <= n && 0 <= x12 <= n
    requires 0 <= x13 <= n && 0 <= x14 <= n
    requires Off(p, n, x8, 8) && Off(p + x8, n, x9, 9) && Off(p + x8 + x9, n, x10, 10)
    requires Off(p + x8 + x9 + x10, n, x11, 11) && Off(p + x8 + x9 + x10 + x11, n, x12, 12)
    requires Off(p + x8 + x9 + x10 + x11 + x12, n, x13, 13)
    ensures !Off(p + x8 + x9 + x10 + x11 + x12 + x13, n, x14, 14)
  {}

  /** A round is over after at most 15 cycles. */
  lemma RoundIsShort(cycles: seq<nat>, n: nat, base: nat)
    requires n >= 1 && MIN_SAMPLE_CYCLE <= base <= MAX_SAMPLE_CYCLE
    requires cycles != [] && Unsettled(cycles, n, base, |cycles| - 1)
    ensures |cycles| <= 15
  {
    if |cycles| > 15 {
      PollutorsBound(cycles, n, 8);
      forall k | 8 <= k <= 14
        ensures Off(PollutorsIn(cycles, k), n, cycles[k], k)
      {
        assert !ConvergesAt(cycles, n, k);
        FailsIff(PollutorsIn(cycles, k), n, cycles[k], k);
      }
      assert forall k :: 8 <= k <= 14 ==> PollutorsIn(cycles, k + 1) == PollutorsIn(cycles, k) + cycles[k];
      hide Off, PollutorsIn;
      NotSeven(n, PollutorsIn(cycles, 8), cycles[8], cycles[9], cycles[10], cycles[11], cycles[12], cycles[13], cycles[14]);
    }
  }

  /** As long as the tests fail there are at most 14 cycles. */
  lemma StillRunning(cycles: seq<nat>, n: nat, base: nat)
    requires n >= 1 && MIN_SAMPLE_CYCLE <= base <= MAX_SAMPLE_CYCLE
    requires Unsettled(cycles, n, base, |cycles|)
    ensures |cycles| <= 14
  {
    var more: seq<nat> := cycles + [0];
    forall k | 0 <= k < |cycles| && base - 1 <= k
      ensures !ConvergesAt(more, n, k)
    {
      assert !ConvergesAt(cycles, n, k);
      PollutorsPrefix(cycles, 0, k);
    }
    RoundIsShort(more, n, base);
  }

  lemma {:induction false} PollutorsPrefix(cycles: seq<nat>, x: nat, k: nat)
    requires k <= |cycles|
    ensures PollutorsIn(cycles + [x], k) == PollutorsIn(cycles, k)
  {
    if k > 0 {
      PollutorsPrefix(cycles, x, k - 1);
    }
  }

  const CREEPING: seq<nat> := [0, 0, 0, 0, 0, 0, 0, 16, 20, 24, 28, 32, 36, 40, 10]

  /** The bound is met: 40 samples (as a chunk of 290 pages may have), 8 cycles at least, and a rate
      that creeps up from zero by one twentieth a cycle. */
  lemma FifteenHappens()
    ensures exists cycles :: |cycles| == 15 && Unsettled(cycles, 40, 8, 14) && ConvergesAt(cycles, 40, 14)
  {
    hide PollutorsIn, ConvergesAt;
    forall k | 7 <= k < 15
      ensures ConvergesAt(CREEPING, 40, k) <==> k == 14
    {
      CreepsAt(k);
    }
  }

  lemma {:induction false} Creeping(k: nat)
    requires 7 <= k <= 14
    ensures PollutorsIn(CREEPING, k) == 2 * ((k - 7) * k)
  {
    if k == 7 {
      assert PollutorsIn(CREEPING, 1) == 0 && PollutorsIn(CREEPING, 2) == 0 && PollutorsIn(CREEPING, 3) == 0;
      assert PollutorsIn(CREEPING, 4) == 0 && PollutorsIn(CREEPING, 5) == 0 && PollutorsIn(CREEPING, 6) == 0;
    } else {
      Creeping(k - 1);
      assert CREEPING[k - 1] == 2 * (2 * k - 8);
      assert (k - 7) * k == (k - 8) * (k - 1) + (2 * k - 8);
    }
  }

  lemma CreepsAt(k: nat)
    requires 7 <= k < 15
    ensures ConvergesAt(CREEPING, 40, k) <==> k == 14
  {
    hide PollutorsIn, Converged;
    Creeping(k);
    FailsIff(2 * ((k - 7) * k), 40, CREEPING[k], k);
    if k < 14 {
      assert CREEPING[k] == 2 * (2 * k - 6);
      assert k * (2 * k - 6) - (k - 7) * k == k * (k + 1);
      assert k * (2 * (2 * k - 6)) == 2 * (k * (2 * k - 6));
    } else {
      assert CREEPING[14] == 10;
    }
  }
}
