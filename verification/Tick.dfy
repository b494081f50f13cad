/** TickType_t arithmetic.  The width is not fixed: M stands for two to the power of
    the number of bits. */
module Tick {
  type Modulus = m: int | m >= 4 witness 4

  const M: Modulus
  const MAX_DELAY: nat := M - 1   // portMAX_DELAY

  /** a + b in TickType_t */
  function Plus(a: nat, b: nat): (r: nat)
    requires a < M && b < M
    ensures r < M
  {
    if a + b >= M then a + b - M else a + b
  }

  /** a - b in TickType_t */
  function Minus(a: nat, b: nat): (r: nat)
    requires a < M && b < M
    ensures r < M
  {
    if a >= b then a - b else a - b + M
  }

  /** The branches are what reduction modulo M does. */
  lemma PlusIsModular(a: nat, b: nat)
    requires a < M && b < M
    ensures Plus(a, b) == (a + b) % M && Minus(a, b) == (a - b) % M
  {
    Reduced(a + b, if a + b >= M then 1 else 0, Plus(a, b));
    Reduced(a - b, if a < b then -1 else 0, Minus(a, b));
  }

  /** A number written as a multiple of M plus a reduced rest. */
  lemma Reduced(x: int, q: int, r: nat)
    requires r < M && x == q * M + r
    ensures x % M == r
  {
    var p := x / M;
    if p > q {
      Multiple(p - q);
    } else if q > p {
      Multiple(q - p);
    }
  }

  lemma {:induction false} Multiple(k: int)
    requires k >= 1
    ensures k * M >= M
  {
  }
}
