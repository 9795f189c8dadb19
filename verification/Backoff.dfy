/** The retry schedule of a transient failure, in seconds (internal/controller/secret_controller.go). */
module Backoff {
  const BASE_RETRY: nat := 30
  const MAX_RETRY: nat := 300
  const REQUEUE_INTERVAL: nat := 300

  function Pow2(n: nat): (r: nat)
    ensures r > 0
  {
    if n == 0 then 1 else 2 * Pow2(n - 1)
  }

  /** `d << n` of the source. */
  function ShiftLeft(d: nat, n: nat): nat {
    d * Pow2(n)
  }

  function ForFailure(failures: int): nat {
    var f := if failures < 0 then 0 else failures;
    if f > 7 then MAX_RETRY
    else if ShiftLeft(BASE_RETRY, f) > MAX_RETRY then MAX_RETRY
    else ShiftLeft(BASE_RETRY, f)
  }

  function Min(a: nat, b: nat): nat {
    if a < b then a else b
  }

  lemma {:induction false} Pow2Monotone(m: nat, n: nat)
    requires m <= n
    ensures Pow2(m) <= Pow2(n)
    decreases n - m
  {
    if m < n {
      Pow2Monotone(m, n - 1);
    }
  }

  /** The cut-off at 7 shifts loses nothing: the delay is the capped exponential for every count. */
  lemma {:induction false} CappedExponential(n: nat)
    ensures ForFailure(n) == Min(BASE_RETRY * Pow2(n), MAX_RETRY)
  {
    if n > 7 {
      Pow2Monotone(4, n);
      assert Pow2(4) == 16;
    }
  }

  lemma {:induction false} NonDecreasing(m: int, n: int)
    requires m <= n
    ensures BASE_RETRY <= ForFailure(m) <= ForFailure(n) <= MAX_RETRY
  {
    var i, j := if m < 0 then 0 else m, if n < 0 then 0 else n;
    CappedExponential(i);
    CappedExponential(j);
    Pow2Monotone(0, i);
    Pow2Monotone(i, j);
  }

  /** Seconds waited over the first `n` consecutive failures; the counter is bumped before each wait. */
  function TotalWait(n: nat): nat {
    if n == 0 then 0 else TotalWait(n - 1) + ForFailure(n)
  }

  lemma {:induction false} TotalWaitExact(n: nat)
    requires n >= 3
    ensures TotalWait(n) == 300 * n - 480
  {
    if n == 3 {
      assert Pow2(1) == 2 && Pow2(2) == 4 && Pow2(3) == 8;
      assert TotalWait(1) == 60 && TotalWait(2) == 180 && TotalWait(3) == 420;
    } else {
      TotalWaitExact(n - 1);
      CappedExponential(n);
      Pow2Monotone(4, n);
      assert Pow2(4) == 16;
    }
  }
}
