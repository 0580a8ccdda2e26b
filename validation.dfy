/** The semantic settings, the resolution check, and the silent adjustments of the other fields. */
module Validation {
  import opened Bytes
  import opened Results

  const MaxResolution := 4095
  const MaxTouchPoints := 10

  /** The arguments of the encoder. */
  datatype Settings = Settings(
    xMax: int,
    yMax: int,
    touchThreshold: int,
    numTouchPoints: int,
    filterCoefficient: int)

  /** Why a resolution is refused; the range is checked before the parity. */
  datatype ResolutionError = OutOfRange | Odd

  predicate InRange(v: int) {
    0 < v <= MaxResolution
  }

  /** Returns normally, or raises `ValueError` with the first failing check. */
  function ValidateResolution(xMax: int, yMax: int): (r: Outcome<ResolutionError>)
    ensures r == Pass <==> InRange(xMax) && InRange(yMax) && xMax % 2 == 0 && yMax % 2 == 0
    ensures r == Fail(OutOfRange) <==> !(InRange(xMax) && InRange(yMax))
    ensures r == Fail(Odd) <==> InRange(xMax) && InRange(yMax) && (xMax % 2 != 0 || yMax % 2 != 0)
  {
    if !(InRange(xMax) && InRange(yMax)) then Fail(OutOfRange)
    else if xMax % 2 != 0 || yMax % 2 != 0 then Fail(Odd)
    else Pass
  }

  /** The resolution limits at their boundaries. */
  lemma ValidationBoundaries()
    ensures ValidateResolution(801, 480) == Fail(Odd)
    ensures ValidateResolution(4096, 600) == Fail(OutOfRange)
    ensures ValidateResolution(4094, 600) == Pass
    ensures ValidateResolution(0, 600) == Fail(OutOfRange)
    ensures ValidateResolution(-2, 600) == Fail(OutOfRange)
  {
  }

  /** `min(max(1, n), 10)`: the touch-point count forced into 1..10. */
  function ClampTouches(n: int): (b: Byte)
    ensures 1 <= b <= MaxTouchPoints
    ensures 1 <= n <= MaxTouchPoints ==> b == n
    ensures n < 1 ==> b == 1
    ensures n > MaxTouchPoints ==> b == MaxTouchPoints
  {
    var atLeastOne := if n < 1 then 1 else n;
    if atLeastOne > MaxTouchPoints then MaxTouchPoints else atLeastOne
  }

  /** `max(1, t)`: the touch threshold raised to at least 1, with no ceiling. */
  function TouchLevel(t: int): (l: int)
    ensures l >= 1 && l >= t
    ensures t >= 1 ==> l == t
    ensures t < 1 ==> l == 1
  {
    if t < 1 then 1 else t
  }

  /** Out-of-range counts are adjusted, not refused: 0 stores 1 and 15 stores 10. */
  lemma ClampExamples()
    ensures ClampTouches(0) == 1 && ClampTouches(15) == 10 && ClampTouches(5) == 5
    ensures TouchLevel(0) == 1 && TouchLevel(-7) == 1 && TouchLevel(16) == 16
  {
  }
}
