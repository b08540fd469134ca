/** Naira and kobo through double arithmetic (src/utils/kobo.ts, src/scripts/reconcile-replay.ts,
    src/modules/webhooks/inflow-handler.service.ts). Doubles are reals here and an operation
    is the exact one followed by a rounding whose relative error is at most 2^-53, which is
    what section 4.3.1 of IEEE 754-2019, used by section 6.1.6.1 of ECMA-262, gives for
    results of this size. */
module Kobo {
  import opened Wrappers

  const UNIT: real := 1.0 / 9007199254740992.0

  /** Zero, and magnitudes far inside the normal range. */
  predicate OrdinarySize(x: real) {
    x == 0.0 || 0.001 <= x <= 1_000_000_000_000_000_000.0
  }

  ghost predicate CorrectlyRounded(rnd: real -> real) {
    forall x :: OrdinarySize(x) ==> x - UNIT * x <= rnd(x) <= x + UNIT * x
  }

  /** Math.round: the nearest integer, halves upwards. */
  function MathRound(x: real): int {
    (x + 0.5).Floor
  }

  function FromKobo(rnd: real -> real, kobo: int): Result<real, string> {
    if kobo < 0 then Failure("fromKobo: amount cannot be negative") else Success(rnd(kobo as real / 100.0))
  }

  function ToKobo(rnd: real -> real, naira: real): Result<int, string> {
    if naira < 0.0 then Failure("toKobo: amount cannot be negative") else Success(MathRound(rnd(naira * 100.0)))
  }

  /** The inflow handler's own conversion: no sign check, and a missing amount is zero. */
  function InflowKobo(rnd: real -> real, naira: Option<real>): int {
    MathRound(rnd(naira.GetOr(0.0) * 100.0))
  }

  /** The cents toFixed(2) prints: the integer n for which n / 100 is nearest, the larger of two. */
  function FixedCents(x: real): int {
    MathRound(x * 100.0)
  }

  /** Kobo to naira and back is the identity for every amount below 2^51 kobo. */
  lemma RoundTrip(rnd: real -> real, k: nat)
    requires CorrectlyRounded(rnd) && k < 0x8_0000_0000_0000
    ensures var naira := FromKobo(rnd, k);
      naira.Success? && ToKobo(rnd, naira.value) == Success(k)
  {
  }

  /** So a replayed amount reaches the inflow handler unchanged: the replay divides by 100,
      the handler multiplies and rounds. */
  lemma ReplayKeepsAmount(rnd: real -> real, k: nat)
    requires CorrectlyRounded(rnd) && k < 0x8_0000_0000_0000
    ensures InflowKobo(rnd, Some(rnd(k as real / 100.0))) == k
  {
  }

  /** No two amounts share a naira figure, and the figure printed to two places is exact. */
  lemma NairaIsFaithful(rnd: real -> real, j: nat, k: nat)
    requires CorrectlyRounded(rnd) && j < 0x8_0000_0000_0000 && k < 0x8_0000_0000_0000
    ensures FromKobo(rnd, j) == FromKobo(rnd, k) ==> j == k
    ensures FixedCents(FromKobo(rnd, k).value) == k
  {
  }

  /** The utilities refuse exactly the negative amounts; the inflow handler takes a missing
      amount for zero. */
  lemma NegativesAreRefused(rnd: real -> real, kobo: int, naira: real)
    requires CorrectlyRounded(rnd)
    ensures FromKobo(rnd, kobo).Failure? <==> kobo < 0
    ensures ToKobo(rnd, naira).Failure? <==> naira < 0.0
    ensures InflowKobo(rnd, None) == 0
  {
    assert OrdinarySize(0.0);
  }

  /** 2^51 is as far as the error bound alone reaches: a rounding that always errs upwards by
      the full bound brings 2^51 back one too high. */
  lemma BoundIsSharp()
    ensures var rnd := (x: real) => x + UNIT * x;
      var k := 0x8_0000_0000_0000;
      CorrectlyRounded(rnd) && FromKobo(rnd, k).Success? && ToKobo(rnd, FromKobo(rnd, k).value) == Success(k + 1)
  {
  }
}
