/** The pricing engine: integer minor units, exact rationals, the rounding rules of JavaScript. */
module Money {
  import opened Common

  /** A stored rule other than UP and NONE is treated as NEAREST. */
  datatype RoundingRule = UP | NEAREST | NONE

  /** Math.round: ties go towards plus infinity. */
  function JsRound(x: real): int {
    (x + 0.5).Floor
  }

  /** Math.ceil. */
  function JsCeil(x: real): int {
    -((-x).Floor)
  }

  function RoundMinor(minor: int, rule: RoundingRule): int {
    if rule.NONE? then minor else
      var units := minor as real / 100.0;
      (if rule.UP? then JsCeil(units) else JsRound(units)) * 100
  }

  /** The exact, unrounded price of a number of seconds. */
  function RawCharge(seconds: int, pricePerMinute: nat, ratio: real): real {
    seconds as real / 60.0 * pricePerMinute as real * ratio
  }

  function ComputeSessionCharge(seconds: int, pricePerMinute: nat, ratio: real, minCharge: nat, minMinutes: nat,
                                rounding: RoundingRule): int
  {
    var billable := Max(seconds, minMinutes * 60);
    Max(RoundMinor(JsRound(RawCharge(billable, pricePerMinute, ratio)), rounding), minCharge)
  }

  /** A whole number nearest to x, the larger of two: what Math.round gives, and the only such number. */
  predicate IsNearest(n: int, x: real) {
    x - 0.5 < n as real <= x + 0.5
  }

  lemma OneNearest(x: real, n: int)
    ensures IsNearest(JsRound(x), x)
    ensures IsNearest(n, x) ==> n == JsRound(x)
  {
  }

  /** The exact price: seconds at a price per minute of sixty seconds, times the ratio. */
  lemma SixtySecondsAMinute(seconds: int, price: nat, ratio: real)
    ensures 60.0 * RawCharge(seconds, price, ratio) == seconds as real * price as real * ratio
  {
    var m, s, p := seconds as real / 60.0, seconds as real, price as real;
    assert 60.0 * m == s;
    assert 60.0 * (m * p) == s * p;
    assert 60.0 * (m * p * ratio) == 60.0 * (m * p) * ratio;
  }

  /** What a charge of n agorot for some seconds must satisfy: the nearest to a sixtieth of seconds * price * ratio. */
  predicate IsPriceOf(n: int, seconds: int, price: nat, ratio: real) {
    -30.0 < 60.0 * n as real - seconds as real * price as real * ratio <= 30.0
  }

  lemma PriceIsNearest(seconds: int, price: nat, ratio: real, n: int)
    ensures IsPriceOf(JsRound(RawCharge(seconds, price, ratio)), seconds, price, ratio)
    ensures IsPriceOf(n, seconds, price, ratio) ==> n == JsRound(RawCharge(seconds, price, ratio))
  {
    SixtySecondsAMinute(seconds, price, ratio);
    OneNearest(RawCharge(seconds, price, ratio), n);
  }

  /** Rounding by each rule: the first whole unit not below the amount; the nearest, ties up; the amount itself. */
  predicate IsRounded(r: int, minor: int, rule: RoundingRule) {
    match rule
    case UP => r % 100 == 0 && minor <= r < minor + 100
    case NEAREST => r % 100 == 0 && -50 < r - minor <= 50
    case NONE => r == minor
  }

  lemma RoundMinorIs(minor: int, rule: RoundingRule)
    ensures IsRounded(RoundMinor(minor, rule), minor, rule)
  {
    RoundUpIsLeast(minor, 0);
    RoundNearestIsClosest(minor, 0);
  }

  /** The session charge, without its own arithmetic: the price n of the seconds, or of the minimum minutes of sixty
      seconds if those are more, rounded to r by the rule, and at least the minimum charge. */
  lemma SessionChargeIs(seconds: int, price: nat, ratio: real, minCharge: nat, minMinutes: nat, rule: RoundingRule)
    ensures exists n, r ::
              && IsPriceOf(n, if seconds < 60 * minMinutes then 60 * minMinutes else seconds, price, ratio)
              && IsRounded(r, n, rule)
              && ComputeSessionCharge(seconds, price, ratio, minCharge, minMinutes, rule)
                 == if r < minCharge then minCharge else r
  {
    var billable := if seconds < 60 * minMinutes then 60 * minMinutes else seconds;
    var n := JsRound(RawCharge(billable, price, ratio));
    var r := RoundMinor(n, rule);
    PriceIsNearest(billable, price, ratio, n);
    RoundMinorIs(n, rule);
    assert IsPriceOf(n, billable, price, ratio) && IsRounded(r, n, rule);
  }

  /** There is only one such charge. */
  lemma OneSessionCharge(n: int, n': int, r: int, r': int, seconds: int, price: nat, ratio: real, rule: RoundingRule)
    requires IsPriceOf(n, seconds, price, ratio) && IsPriceOf(n', seconds, price, ratio)
    requires IsRounded(r, n, rule) && IsRounded(r', n', rule)
    ensures n == n' && r == r'
  {
    PriceIsNearest(seconds, price, ratio, n);
    PriceIsNearest(seconds, price, ratio, n');
  }

  lemma JsRoundNearest(x: real)
    ensures x - 0.5 < JsRound(x) as real <= x + 0.5
  {
  }

  lemma JsRoundMonotone(x: real, y: real)
    requires x <= y
    ensures JsRound(x) <= JsRound(y)
  {
  }

  /** UP is the least whole currency unit not below the amount. */
  lemma RoundUpIsLeast(minor: int, other: int)
    ensures RoundMinor(minor, UP) % 100 == 0 && minor <= RoundMinor(minor, UP) < minor + 100
    ensures other % 100 == 0 && minor <= other ==> RoundMinor(minor, UP) <= other
  {
    var units := minor as real / 100.0;
    var up := JsCeil(units);
    assert (up - 1) as real < units <= up as real;
    assert 100 * (up - 1) < minor <= 100 * up;
    if other % 100 == 0 && minor <= other {
      assert other == 100 * (other / 100);
    }
  }

  /** NEAREST is the closest whole unit, ties up; no other whole unit is closer. */
  lemma RoundNearestIsClosest(minor: int, other: int)
    ensures RoundMinor(minor, NEAREST) % 100 == 0
    ensures -50 < RoundMinor(minor, NEAREST) - minor <= 50
    ensures other % 100 == 0 ==> Abs(RoundMinor(minor, NEAREST) - minor) <= Abs(other - minor)
  {
    var units := minor as real / 100.0;
    var near := JsRound(units);
    assert near as real <= units + 0.5 < near as real + 1.0;
    assert 100 * near <= minor + 50 < 100 * near + 100;
    if other % 100 == 0 {
      assert other == 100 * (other / 100);
    }
  }

  /** Every rule is idempotent, monotone, and moves two amounts apart by no more than a rounded-up gap. */
  lemma RoundMinorLaws(a: int, b: int, rule: RoundingRule)
    ensures RoundMinor(RoundMinor(a, rule), rule) == RoundMinor(a, rule)
    ensures a <= b ==> RoundMinor(a, rule) <= RoundMinor(b, rule)
    ensures a <= b && !rule.NONE? ==> RoundMinor(b, rule) - RoundMinor(a, rule) <= RoundMinor(b - a, UP)
  {
    RoundUpIsLeast(b - a, 0);
    if rule.UP? {
      RoundUpIsLeast(a, 0);
      RoundUpIsLeast(b, RoundMinor(a, UP) + RoundMinor(b - a, UP));
      RoundUpIsLeast(RoundMinor(a, UP), RoundMinor(a, UP));
      if a <= b {
        RoundUpIsLeast(a, RoundMinor(b, UP));
      }
    } else if rule.NEAREST? {
      RoundNearestIsClosest(a, 0);
      RoundNearestIsClosest(b, 0);
      RoundNearestIsClosest(RoundMinor(a, NEAREST), RoundMinor(a, NEAREST));
    }
  }

  lemma ProductMonotone(x: real, x': real, y: real, y': real)
    requires 0.0 <= x <= x' && 0.0 <= y <= y'
    ensures 0.0 <= x * y <= x' * y'
  {
    assert x * (y' - y) >= 0.0;
    assert (x' - x) * y' >= 0.0;
  }

  lemma RawChargeMonotone(s: int, s': int, p: nat, p': nat, r: real, r': real)
    requires 0 <= s <= s' && p <= p' && 0.0 <= r <= r'
    ensures RawCharge(s, p, r) <= RawCharge(s', p', r')
  {
    var m, m' := s as real / 60.0, s' as real / 60.0;
    ProductMonotone(m, m', p as real, p' as real);
    ProductMonotone(m * p as real, m' * p' as real, r, r');
  }

  /** The charge grows with each of its five quantities, and never drops below the minimum charge. */
  lemma ChargeMonotone(s: int, s': int, p: nat, p': nat, r: real, r': real, c: nat, c': nat, m: nat, m': nat,
                       rule: RoundingRule)
    requires 0 <= s <= s' && p <= p' && 0.0 <= r <= r' && c <= c' && m <= m'
    ensures c <= ComputeSessionCharge(s, p, r, c, m, rule) <= ComputeSessionCharge(s', p', r', c', m', rule)
  {
    var b, b' := Max(s, m * 60), Max(s', m' * 60);
    RawChargeMonotone(b, b', p, p', r, r');
    JsRoundMonotone(RawCharge(b, p, r), RawCharge(b', p', r'));
    RoundMinorLaws(JsRound(RawCharge(b, p, r)), JsRound(RawCharge(b', p', r')), rule);
  }
}
