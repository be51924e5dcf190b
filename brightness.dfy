/** The brightness range and `clamp_brightness`. */
module Brightness {

  const MaxBrightness: int := 100
  const MinBrightness: int := 0
  const DefaultBrightnessValue: int := 50

  predicate InRange(v: int)
  {
    MinBrightness <= v <= MaxBrightness
  }

  function Abs(x: int): (r: int)
  {
    if x < 0 then -x else x
  }

  /** Bounds a requested brightness to the range the monitor accepts. */
  function Clamp(val: int): (r: int)
    ensures InRange(r)
    ensures InRange(val) ==> r == val
    ensures val > MaxBrightness ==> r == MaxBrightness
    ensures val < MinBrightness ==> r == MinBrightness
  {
    if MinBrightness <= val <= MaxBrightness then val
    else if val > MaxBrightness then MaxBrightness
    else MinBrightness
  }

  /** Clamping an already clamped value changes nothing. */
  lemma ClampIdempotent(val: int)
    ensures Clamp(Clamp(val)) == Clamp(val)
  {
  }

  /** The clamped value is the closest in-range value to the request. */
  lemma ClampIsNearest(val: int, x: int)
    requires InRange(x)
    ensures Abs(val - Clamp(val)) <= Abs(val - x)
  {
  }

  /** Clamping never widens the distance between two requests, so a
      change by `d` moves the clamped result by at most `|d|`. */
  lemma ClampNonExpansive(a: int, b: int)
    ensures Abs(Clamp(a) - Clamp(b)) <= Abs(a - b)
  {
  }

  /** Clamping preserves order. */
  lemma ClampMonotone(a: int, b: int)
    requires a <= b
    ensures Clamp(a) <= Clamp(b)
  {
  }
}
