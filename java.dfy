/** Java values the grade ledger depends on: a nullable reference, the result of a
    floating-point division that may be NaN, and the four numeric seeds the scans
    start from. */
module Java {

  /** A reference that may be `null`. */
  datatype Option<+T> = None | Some(value: T)

  /** A Java `double` produced by a division: a finite value, or NaN (`0.0 / 0`).
      Rounding is not modelled, so a finite double is a `real`. */
  datatype JDouble = Finite(v: real) | NaN

  /** Java's `>` on doubles: false whenever an operand is NaN. */
  predicate Greater(d: JDouble, x: real)
  {
    d.Finite? && d.v > x
  }

  /** 2^1074, the reciprocal of the smallest positive double. */
  const TwoPow1074: int := 202402253307310618352495346718917307049556649764142118356901358027430339567995346891960383701437124495187077864316811911389808737385793476867013399940738509921517424276566361364466907742093216341239767678472745068562007483424692698618103355649159556340810056512358769552333414615230502532186327508646006263307707741093494784

  /** `Double.MIN_VALUE`: the smallest POSITIVE double, 2^-1074 (not the most negative one). */
  const DoubleMinValue: real := 1.0 / (TwoPow1074 as real)

  /** `Double.MAX_VALUE` = (2 - 2^-52) * 2^1023 = 2^1024 - 2^971, an integer. */
  const DoubleMaxValue: real := 179769313486231570814527423731704356798070567525844996598917476803157260780028538760589558632766878171540458953514382464234321326889464182768467546703537516986049910576551282076245490090389328944075868508455133942304583236903222948165808559332123348274797826204144723168738177180919299881250404026184124858368.0

  /** `Integer.MIN_VALUE` and `Integer.MAX_VALUE`, used as double seeds in the cohort scans. */
  const IntegerMinValue: int := -2147483648
  const IntegerMaxValue: int := 2147483647

  /** The seeds sit where the scans need them: Double.MIN_VALUE lies strictly between 0
      and every positive grade of at least one ten-thousandth, and no grade reaches
      the two maxima. */
  lemma SeedOrder()
    ensures 0.0 < DoubleMinValue < 0.0001
    ensures 10.0 < IntegerMaxValue as real < DoubleMaxValue
    ensures IntegerMinValue as real < -1.0
  {
  }
}
