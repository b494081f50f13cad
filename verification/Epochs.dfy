/** Unbounded time next to the wrapping tick count: a time is the number of wraps so
    far and the tick count.  The kernel sees the tick count only. */
module Epochs {
  import opened Tick

  datatype Stamp = Stamp(epoch: nat, tick: nat)

  type Time = s: Stamp | s.tick < M witness Stamp(0, 0)

  ghost function Abs(t: Time): nat { t.epoch * M + t.tick }

  predicate NotAfter(a: Time, b: Time) {
    a.epoch < b.epoch || (a.epoch == b.epoch && a.tick <= b.tick)
  }

  /** b is not before a, and less than one wrap later. */
  predicate Within(a: Time, b: Time) {
    if a.epoch == b.epoch then a.tick <= b.tick else b.epoch == a.epoch + 1 && b.tick < a.tick
  }

  function Later(t: Time, n: nat): (r: Time)
    requires n < M
    ensures r.tick == Plus(t.tick, n)
  {
    if t.tick + n >= M then Stamp(t.epoch + 1, t.tick + n - M) else Stamp(t.epoch, t.tick + n)
  }

  /** The order on pairs is the order of the times they stand for. */
  lemma NotAfterIsAbs(a: Time, b: Time)
    ensures NotAfter(a, b) <==> Abs(a) <= Abs(b)
  {
    if a.epoch < b.epoch {
      EpochsApart(a.epoch, b.epoch);
    } else if b.epoch < a.epoch {
      EpochsApart(b.epoch, a.epoch);
    }
  }

  lemma EpochsApart(a: nat, b: nat)
    requires a < b
    ensures a * M + M <= b * M
  {
    Multiple(b - a);
    assert b * M == a * M + (b - a) * M;
  }

  lemma WithinIsAbs(a: Time, b: Time)
    ensures Within(a, b) <==> Abs(a) <= Abs(b) < Abs(a) + M
  {
    NotAfterIsAbs(a, b);
    if b.epoch > a.epoch + 1 { EpochsApart(a.epoch + 1, b.epoch); }
    assert (a.epoch + 1) * M == a.epoch * M + M;
  }

  lemma LaterIsAbs(t: Time, n: nat)
    requires n < M
    ensures Abs(Later(t, n)) == Abs(t) + n
  {
  }

  /** The difference in TickType_t is the time that passed, if less than a wrap did. */
  lemma MinusIsElapsed(a: Time, b: Time)
    requires Within(a, b)
    ensures Minus(b.tick, a.tick) == Abs(b) - Abs(a)
  {
  }

  /** The time after k periods. */
  function Nth(s: Time, period: nat, k: nat): Time
    requires period < M
  {
    if k == 0 then s else Later(Nth(s, period, k - 1), period)
  }

  lemma {:induction false} NthIsAbs(s: Time, period: nat, k: nat)
    requires period < M
    ensures Abs(Nth(s, period, k)) == Abs(s) + k * period
  {
    if k > 0 {
      NthIsAbs(s, period, k - 1);
      LaterIsAbs(Nth(s, period, k - 1), period);
      assert k * period == (k - 1) * period + period;
    }
  }
}
