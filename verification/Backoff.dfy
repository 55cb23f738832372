/** The growing, jittered wait between two attempts of a job. */
module Backoff {

  const BASE_BACKOFF_MS := 60_000
  const MAX_BACKOFF_MS := 60 * 60 * 1000

  function Pow2(n: nat): (r: nat)
    ensures r >= 1
  {
    if n == 0 then 1 else 2 * Pow2(n - 1)
  }

  function Min(a: int, b: int): int {
    if a <= b then a else b
  }

  /** The ceiling of one attempt: a minute, doubled each time, at most an hour. */
  function Ceiling(attempts: nat): nat
    requires attempts >= 1
  {
    Min(BASE_BACKOFF_MS * Pow2(attempts - 1), MAX_BACKOFF_MS)
  }

  /** Math.round: half goes up. */
  function Round(x: real): int {
    (x + 0.5).Floor
  }

  lemma ScaleOrder(x: real, a: real, b: real)
    requires x >= 0.0 && a <= b
    ensures x * a <= x * b
  {
    assert x * b - x * a == x * (b - a);
  }

  lemma RoundNear(lo: int, x: real, hi: int)
    requires lo as real <= x <= hi as real
    ensures lo <= Round(x) <= hi && -0.5 < Round(x) as real - x <= 0.5
  {
    assert lo as real <= x + 0.5 < (hi + 1) as real;
  }

  lemma CeilingInQuarters(n: nat)
    requires n >= 1
    ensures Ceiling(n) == 4 * (Ceiling(n) / 4) && Ceiling(n) as real * 0.25 == (Ceiling(n) / 4) as real
  {
    var quarter := Min(15_000 * Pow2(n - 1), 900_000);
    assert Ceiling(n) == 4 * quarter;
  }

  /** What Math.random() makes of a ceiling before it is rounded. */
  function Jittered(techo: nat, random: real): (x: real)
    requires 0.0 <= random < 1.0
    ensures techo as real * 0.25 <= x <= techo as real
  {
    ScaleOrder(techo as real, 0.25, 0.25 + random * 0.75);
    ScaleOrder(techo as real, 0.25 + random * 0.75, 1.0);
    techo as real * (0.25 + random * 0.75)
  }

  /** The wait: a quarter of the ceiling plus the random part of the rest, to the nearest millisecond. */
  function BackoffMs(attempts: nat, random: real): (wait: nat)
    requires attempts >= 1 && 0.0 <= random < 1.0
    ensures Ceiling(attempts) <= 4 * wait && wait <= Ceiling(attempts)
    ensures -0.5 < wait as real - Ceiling(attempts) as real * (0.25 + random * 0.75) <= 0.5
  {
    var techo := Ceiling(attempts);
    CeilingInQuarters(attempts);
    RoundNear(techo / 4, Jittered(techo, random), techo);
    Round(Jittered(techo, random))
  }

  // ---------------------------------------------------------------- the whole curve

  lemma {:induction false} Pow2Grows(a: nat, b: nat)
    requires a <= b
    ensures Pow2(a) <= Pow2(b)
    decreases b - a
  {
    if a < b {
      Pow2Grows(a, b - 1);
    }
  }

  /** A minute for the first attempt, twice as much for each one after it, and never above an hour. */
  lemma CeilingDoubles(n: nat)
    requires n >= 1
    ensures Ceiling(1) == 60_000
    ensures Ceiling(n + 1) == if 2 * Ceiling(n) <= 3_600_000 then 2 * Ceiling(n) else 3_600_000
  {
    assert Pow2(n) == 2 * Pow2(n - 1);
  }

  /** Later attempts never have a lower ceiling. */
  lemma CeilingGrows(a: nat, b: nat)
    requires 1 <= a <= b
    ensures 60_000 <= Ceiling(a) <= Ceiling(b) <= 3_600_000
  {
    Pow2Grows(a - 1, b - 1);
  }

  lemma NearestOrder(a: int, x: real, b: int, y: real)
    requires x <= y && a as real - x <= 0.5 && -0.5 < b as real - y
    ensures a <= b
  {
    assert a as real < b as real + 1.0;
  }

  /** A larger random number never shortens the wait. */
  lemma WaitFollowsRandom(n: nat, a: real, b: real)
    requires n >= 1 && 0.0 <= a <= b < 1.0
    ensures BackoffMs(n, a) <= BackoffMs(n, b)
  {
    hide Ceiling, BackoffMs;
    var techo := Ceiling(n) as real;
    var (short, long) := (techo * (0.25 + a * 0.75), techo * (0.25 + b * 0.75));
    assert short <= long by {
      ScaleOrder(techo, 0.25 + a * 0.75, 0.25 + b * 0.75);
    }
    NearestOrder(BackoffMs(n, a), short, BackoffMs(n, b), long);
  }

  /** The waits of the first |randoms| failures, added up. */
  function TotalWait(randoms: seq<real>): nat
    requires forall i :: 0 <= i < |randoms| ==> 0.0 <= randoms[i] < 1.0
  {
    if randoms == [] then 0
    else TotalWait(randoms[..|randoms|-1]) + BackoffMs(|randoms|, randoms[|randoms|-1])
  }

  /** The first n ceilings added up: they double until the seventh, which is an hour like all that follow. */
  function CeilingsUpTo(n: nat): nat {
    if n <= 6 then 60_000 * (Pow2(n) - 1) else 3_780_000 + 3_600_000 * (n - 6)
  }

  /** The ceiling of every attempt in figures. */
  lemma {:induction false} CeilingExact(n: nat)
    requires n >= 1
    ensures Ceiling(n) == CeilingsUpTo(n) - CeilingsUpTo(n - 1)
    ensures Ceiling(n) == if n <= 6 then 60_000 * Pow2(n - 1) else 3_600_000
  {
    assert Pow2(1) == 2 && Pow2(2) == 4 && Pow2(3) == 8 && Pow2(4) == 16;
    assert Pow2(5) == 32 && Pow2(6) == 64;
    if n > 1 {
      CeilingExact(n - 1);
      CeilingDoubles(n - 1);
    }
  }

  /**
   * n failures in a row wait between a quarter of the first n ceilings and all of them:
   * about 2^n minutes for the first six, an hour more for each one after that.
   */
  lemma {:induction false} TotalWaitBound(randoms: seq<real>)
    requires forall i :: 0 <= i < |randoms| ==> 0.0 <= randoms[i] < 1.0
    ensures CeilingsUpTo(|randoms|) <= 4 * TotalWait(randoms) <= 4 * CeilingsUpTo(|randoms|)
  {
    if randoms != [] {
      var n := |randoms| - 1;
      hide BackoffMs, Ceiling;
      TotalWaitBound(randoms[..n]);
      CeilingExact(n + 1);
    }
  }
}
