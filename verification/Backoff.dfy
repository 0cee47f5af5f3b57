/** The delays before retries (orchestrator/scheduler.py). */
module Backoff {

  /** The policy every scheduled step of a run carries. */
  const BACKOFF_SECONDS := 1.0
  const BACKOFF_MULTIPLIER := 2.0

  function Power(m: real, k: nat): real {
    if k == 0 then 1.0 else m * Power(m, k - 1)
  }

  /** The delay before retry number `k`, counted from 0. */
  function Delay(backoff: real, multiplier: real, k: nat): real {
    backoff * Power(multiplier, k)
  }

  function TotalDelay(backoff: real, multiplier: real, k: nat): real {
    if k == 0 then 0.0 else TotalDelay(backoff, multiplier, k - 1) + Delay(backoff, multiplier, k - 1)
  }

  lemma {:induction false} PowerOfOne(k: nat)
    ensures Power(1.0, k) == 1.0
  {
    if k == 0 {
    } else {
      PowerOfOne(k - 1);
    }
  }

  lemma {:induction false} ConstantDelays(b: real, k: nat)
    ensures TotalDelay(b, 1.0, k) == b * k as real
  {
    if k == 0 {
    } else {
      ConstantDelays(b, k - 1);
      PowerOfOne(k - 1);
      assert k as real == (k - 1) as real + 1.0;
    }
  }

  lemma {:induction false} SeriesStep(b: real, m: real, power: real, total: real)
    requires total * (m - 1.0) == b * (power - 1.0)
    ensures (total + b * power) * (m - 1.0) == b * (m * power - 1.0)
  {
    assert (total + b * power) * (m - 1.0) == total * (m - 1.0) + b * power * (m - 1.0);
    assert b * power * (m - 1.0) == b * (m * power) - b * power;
  }

  lemma {:induction false} DelayNext(b: real, m: real, k: nat)
    requires k > 0
    ensures TotalDelay(b, m, k) == TotalDelay(b, m, k - 1) + b * Power(m, k - 1) && Power(m, k) == m * Power(m, k - 1)
  {
  }

  lemma {:induction false} GeometricDelays(b: real, m: real, k: nat)
    ensures TotalDelay(b, m, k) * (m - 1.0) == b * (Power(m, k) - 1.0)
  {
    if k == 0 {
      assert TotalDelay(b, m, 0) == 0.0 && Power(m, 0) == 1.0;
    } else {
      GeometricDelays(b, m, k - 1);
      SeriesStep(b, m, Power(m, k - 1), TotalDelay(b, m, k - 1));
      DelayNext(b, m, k);
      hide *;
    }
  }

  lemma {:induction false} Divide(x: real, y: real, d: real)
    requires x * d == y && d != 0.0
    ensures x == y / d
  {
  }

  /** The delays of a chain's first `k` retries form a geometric series. */
  lemma {:induction false} BackoffSum(b: real, m: real, k: nat)
    ensures m == 1.0 ==> TotalDelay(b, m, k) == b * k as real
    ensures m != 1.0 ==> TotalDelay(b, m, k) == (b * (Power(m, k) - 1.0)) / (m - 1.0)
  {
    ConstantDelays(b, k);
    GeometricDelays(b, m, k);
    if m != 1.0 {
      Divide(TotalDelay(b, m, k), b * (Power(m, k) - 1.0), m - 1.0);
    }
  }
}
