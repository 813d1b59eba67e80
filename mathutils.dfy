/** The two three.js random helpers that main.js calls, with the value of
    `Math.random()` they consume passed in as `u` (0 <= u < 1 for a real
    generator). */
module MathUtils {

  /** `THREE.MathUtils.randInt(low, high)`: low + floor(u * (high - low + 1)).
      For a genuine random value and low <= high it lies in [low, high]. */
  function RandInt(u: real, low: int, high: int): (n: int)
    ensures 0.0 <= u < 1.0 && low <= high ==> low <= n <= high
  {
    var width := (high - low + 1) as real;
    var scaled := u * width;
    assert 0.0 <= u < 1.0 && low <= high ==> 0.0 <= scaled < width by {
      if 0.0 <= u < 1.0 && low <= high {
        assert width >= 1.0;
        assert u * width >= 0.0;
        assert (1.0 - u) * width > 0.0;
        assert width - scaled == (1.0 - u) * width;
        assert scaled < width;
      }
    }
    low + scaled.Floor
  }

  /** `THREE.MathUtils.randFloatSpread(range)`: range * (0.5 - u), a value in
      (-range/2, range/2] for a genuine random value. */
  function RandFloatSpread(range: real, u: real): (x: real)
    ensures 0.0 <= u < 1.0 && range > 0.0 ==> -range / 2.0 < x <= range / 2.0
  {
    assert 0.0 <= u < 1.0 && range > 0.0 ==> range * (0.5 - u) + range / 2.0 == range * (1.0 - u) > 0.0;
    range * (0.5 - u)
  }
}
