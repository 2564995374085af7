/** The two Unity `Mathf` helpers the movement pipeline relies on, over `real`. */
module UnityMath {

  /** `Mathf.Clamp(value, min, max)`: `min` if below it, else `max` if above it, else `value`. */
  function Clamp(value: real, min: real, max: real): (r: real)
    ensures min <= max ==> min <= r <= max
    ensures min <= value <= max ==> r == value
    ensures value < min ==> r == min
    ensures min <= value && max < value ==> r == max
  {
    if value < min then min
    else if value > max then max
    else value
  }

  /** `Mathf.Clamp01(t)`. */
  function Clamp01(t: real): real {
    Clamp(t, 0.0, 1.0)
  }

  /** `Mathf.Lerp(a, b, t)`: linear interpolation with `t` clamped to [0, 1]. */
  function Lerp(a: real, b: real, t: real): (r: real)
    ensures a <= b ==> a <= r <= b
    ensures b <= a ==> b <= r <= a
    ensures t <= 0.0 ==> r == a
    ensures t >= 1.0 ==> r == b
    ensures a == b ==> r == a
  {
    var c := Clamp01(t);
    ScaledWithin(b - a, c);
    a + (b - a) * c
  }

  /** Scaling by a factor in [0, 1] stays between 0 and the value scaled. */
  lemma ScaledWithin(d: real, c: real)
    requires 0.0 <= c <= 1.0
    ensures d <= 0.0 ==> d <= d * c <= 0.0
    ensures d >= 0.0 ==> 0.0 <= d * c <= d
  {
    if d <= 0.0 {
      assert d * c - d == -d * (1.0 - c);
    }
  }
}
