/** The textual identifiers of effects, charges and attempts. */
module Identifiers {
  import opened Prelude
  import opened Decimal

  const ATTEMPT_INFIX: string := "-attempt-"

  function EffectId(n: nat): string {
    "eff_" + Padded(6, n)
  }

  function ChargeId(n: nat): string {
    "charge_" + Padded(6, n)
  }

  function AttemptId(effectId: string, ordinal: nat): string {
    effectId + ATTEMPT_INFIX + Digits(ordinal)
  }

  /** The part of a text after its last dash, or None when it has no dash. */
  function AfterLastDash(text: string): (r: Option<string>)
    ensures r.None? <==> '-' !in text
    ensures r.Some? ==> |r.value| < |text| && '-' !in r.value
                        && text[|text| - |r.value|..] == r.value
                        && text[|text| - |r.value| - 1] == '-'
  {
    if text == [] then None
    else if text[|text| - 1] == '-' then Some("")
    else
      match AfterLastDash(text[..|text| - 1])
      case None => assert text == text[..|text| - 1] + [text[|text| - 1]]; None
      case Some(tail) => Some(tail + [text[|text| - 1]])
  }

  /** The worker's reading of an attempt id; a malformed id falls back to 1. */
  function AttemptOrdinal(attemptId: string): int {
    match AfterLastDash(attemptId)
    case None => 1
    case Some(tail) =>
      if tail != [] && AllDigits(tail) then Value(tail) else 1
  }

  lemma {:induction false} LastDashSplits(prefix: string, tail: string)
    requires '-' !in tail
    ensures AfterLastDash(prefix + "-" + tail) == Some(tail)
    decreases |tail|
  {
    var text := prefix + "-" + tail;
    if tail == [] {
      assert text[|text| - 1] == '-';
    } else {
      var front := tail[..|tail| - 1];
      assert text[..|text| - 1] == prefix + "-" + front;
      assert text[|text| - 1] == tail[|tail| - 1];
      LastDashSplits(prefix, front);
      assert tail == front + [tail[|tail| - 1]];
    }
  }

  /** Whatever dashes the effect id holds, the ordinal read back is the ordinal written. */
  lemma AttemptOrdinalRoundTrip(effectId: string, ordinal: nat)
    ensures AttemptOrdinal(AttemptId(effectId, ordinal)) == ordinal
  {
    var digits := Digits(ordinal);
    assert AttemptId(effectId, ordinal) == (effectId + "-attempt") + "-" + digits;
    assert '-' !in digits;
    LastDashSplits(effectId + "-attempt", digits);
    ValueOfDigits(ordinal);
  }

  /** Ids are a prefix and the number in decimal, in at least six digits, with no blank to fill. */
  lemma FormattedIds(n: nat)
    ensures |EffectId(n)| >= 10 && EffectId(n)[..4] == "eff_" && AllDigits(EffectId(n)[4..]) && Value(EffectId(n)[4..]) == n
    ensures |ChargeId(n)| >= 13 && ChargeId(n)[..7] == "charge_" && AllDigits(ChargeId(n)[7..]) && Value(ChargeId(n)[7..]) == n
    ensures n < 1_000_000 ==> |EffectId(n)| == 10 && |ChargeId(n)| == 13
  {
    ValueOfPadded(6, n);
    assert EffectId(n)[4..] == Padded(6, n) && ChargeId(n)[7..] == Padded(6, n);
    if n < 1_000_000 {
      assert Power(6) == 10 * Power(5) && Power(5) == 10 * Power(4) && Power(4) == 10 * Power(3);
      FewDigits(n, 6);
    }
  }

  lemma EffectIdInjective(m: nat, n: nat)
    requires EffectId(m) == EffectId(n)
    ensures m == n
  {
    assert EffectId(m)[4..] == Padded(6, m) && EffectId(n)[4..] == Padded(6, n);
    PaddedInjective(6, m, n);
  }

  lemma ChargeIdInjective(m: nat, n: nat)
    requires ChargeId(m) == ChargeId(n)
    ensures m == n
  {
    assert ChargeId(m)[7..] == Padded(6, m) && ChargeId(n)[7..] == Padded(6, n);
    PaddedInjective(6, m, n);
  }
}
