/** The integer rules of the two sensor drivers.

    `PonySonar.measure` turns an echo pulse length into whole centimetres and reports -1 outside the
    sensor's 2..400 cm range; `PonyColor.rgb` scales the raw red, green and blue counts of a
    TCS34725 by its clear count onto 0..255, and `is_in_range` tests that reading against three
    closed intervals. The pin and bus traffic that produces the raw numbers is not modelled: the
    echo length and the four raw counts are inputs. */
module Sensors {
  import opened Util

  /* ---------- Sonar ---------- */

  /** The echo pulse length in microseconds, or `None` when `time_pulse_us` raised `OSError`. */
  type Echo = Option<int>

  /** `measure`: `int(duration * 0.017)` (sound covers 0.034 cm per microsecond, there and back),
      or -1 on a timeout or a distance outside 2..400 cm. */
  function Distance(echo: Echo): (cm: int)
    ensures cm == -1 || 2 <= cm <= 400
    ensures echo.Some? && cm != -1 ==> 1000 * cm <= 17 * echo.value < 1000 * cm + 1000
  {
    match echo
    case None => -1
    case Some(duration) =>
      var d := TruncDiv(duration * 17, 1000);
      if d < 2 || d > 400 then -1 else d
  }

  /** The pulse lengths the sonar reports a distance for are exactly 118..23588 microseconds. */
  lemma DistanceWindow(duration: int)
    ensures Distance(Some(duration)) != -1 <==> 118 <= duration <= 23588
  {
    var d := TruncDiv(duration * 17, 1000);
    if 118 <= duration <= 23588 {
      assert 2006 <= duration * 17 <= 400996;
      assert 2 <= d <= 400;
    } else if duration < 118 {
      assert duration * 17 < 2006;
      assert d < 2;
    } else {
      assert duration * 17 >= 401013;
      assert d > 400;
    }
  }

  /** A longer echo never gives a shorter distance, as long as both are in range. */
  lemma DistanceMonotone(shorter: int, longer: int)
    requires shorter <= longer
    requires Distance(Some(shorter)) != -1 && Distance(Some(longer)) != -1
    ensures Distance(Some(shorter)) <= Distance(Some(longer))
  {
    var a := Distance(Some(shorter));
    var b := Distance(Some(longer));
    assert 1000 * a <= 17 * shorter <= 17 * longer < 1000 * b + 1000;
  }

  /* ---------- Colour ---------- */

  /** The four raw counts `_read_raw_data` returns: clear, red, green, blue. */
  datatype Raw = Raw(c: int, r: int, g: int, b: int)

  /** Each count is a little-endian 16-bit word read from the sensor. */
  predicate IsWord(n: int)
  {
    0 <= n < 0x1_0000
  }

  /** `int(x * 255 / c)` for one colour count. */
  function Scale(x: int, c: int): (v: int)
    requires c != 0
    ensures 0 <= x && 0 < c ==> 0 <= v && c * v <= 255 * x < c * v + c
  {
    TruncDiv(x * 255, c)
  }

  /** `rgb()`: `[0, 0, 0]` when the clear count is 0, otherwise each colour count scaled by
      255 / clear. */
  function Rgb(raw: Raw): (v: seq<int>)
    ensures |v| == 3
    ensures raw.c == 0 ==> v == [0, 0, 0]
  {
    if raw.c == 0 then [0, 0, 0]
    else [Scale(raw.r, raw.c), Scale(raw.g, raw.c), Scale(raw.b, raw.c)]
  }

  /** A colour count no larger than the clear count scales into 0..255, and a colour equal to the
      clear count scales to exactly 255. */
  lemma ScaleBounds(x: int, c: int)
    requires 0 <= x <= c && 0 < c
    ensures 0 <= Scale(x, c) <= 255
    ensures x == c ==> Scale(x, c) == 255
  {
    var v := Scale(x, c);
    if 255 < v {
      MulLeft(256, v, c);
      MulLeft(x, c, 255);
    }
    if x == c {
      FloorUnique(255 * c, c, v, 255);
    }
  }

  /** Scaling keeps the order of two colour counts. */
  lemma ScaleMonotone(x: int, y: int, c: int)
    requires 0 <= x <= y && 0 < c
    ensures Scale(x, c) <= Scale(y, c)
  {
    FloorMonotone(255 * x, 255 * y, c, Scale(x, c), Scale(y, c));
  }

  /** Scaling depends only on the ratio of colour to clear: the same light k times brighter gives
      the same value. */
  lemma ScaleRatio(x: int, c: int, k: int)
    requires 0 <= x && 0 < c && 0 < k
    ensures Scale(k * x, k * c) == Scale(x, c)
  {
    var v := Scale(x, c);
    var n := 255 * x;
    assert c * v <= n < c * v + c;
    MulLeft(c * v, n, k);
    MulLeft(n + 1, c * v + c, k);
    MulLeft(0, x, k);
    MulLeft(1, c, k);
    assert (c * v) * k == (k * c) * v;
    assert (c * v + c) * k == (k * c) * v + k * c;
    assert (n + 1) * k == 255 * (k * x) + k;
    FloorUnique(255 * (k * x), k * c, v, Scale(k * x, k * c));
  }

  /** The reading is brightness-independent: multiplying all four counts by k > 0 leaves it
      unchanged. */
  lemma RgbRatio(raw: Raw, k: int)
    requires 0 <= raw.r && 0 <= raw.g && 0 <= raw.b && 0 <= raw.c && 0 < k
    ensures Rgb(Raw(k * raw.c, k * raw.r, k * raw.g, k * raw.b)) == Rgb(raw)
  {
    if raw.c != 0 {
      ScaleRatio(raw.r, raw.c, k);
      ScaleRatio(raw.g, raw.c, k);
      ScaleRatio(raw.b, raw.c, k);
    }
  }

  /** With colour counts no larger than the clear count (as the sensor's clear photodiode sees
      all the light the filtered ones see), every component lies in 0..255, and the components
      keep the order of the raw counts. */
  lemma RgbBounds(raw: Raw)
    requires IsWord(raw.c) && 0 <= raw.r <= raw.c && 0 <= raw.g <= raw.c && 0 <= raw.b <= raw.c
    ensures forall i | 0 <= i < 3 :: 0 <= Rgb(raw)[i] <= 255
    ensures raw.r <= raw.g ==> Rgb(raw)[0] <= Rgb(raw)[1]
    ensures raw.g <= raw.b ==> Rgb(raw)[1] <= Rgb(raw)[2]
    ensures raw.r <= raw.b ==> Rgb(raw)[0] <= Rgb(raw)[2]
  {
    if raw.c != 0 {
      ScaleBounds(raw.r, raw.c);
      ScaleBounds(raw.g, raw.c);
      ScaleBounds(raw.b, raw.c);
      if raw.r <= raw.g { ScaleMonotone(raw.r, raw.g, raw.c); }
      if raw.g <= raw.b { ScaleMonotone(raw.g, raw.b, raw.c); }
      if raw.r <= raw.b { ScaleMonotone(raw.r, raw.b, raw.c); }
    }
  }

  /** `is_in_range(min_r, max_r, min_g, max_g, min_b, max_b)` on the reading of `raw`. */
  predicate IsInRange(minR: int, maxR: int, minG: int, maxG: int, minB: int, maxB: int, raw: Raw): (ok: bool)
    ensures ok ==> minR <= maxR && minG <= maxG && minB <= maxB
  {
    var v := Rgb(raw);
    minR <= v[0] <= maxR && minG <= v[1] <= maxG && minB <= v[2] <= maxB
  }

  /** A well-formed reading lies in 0..255 on every component, so it passes only intervals that
      meet 0..255. */
  lemma InRangeMeets(minR: int, maxR: int, minG: int, maxG: int, minB: int, maxB: int, raw: Raw)
    requires IsWord(raw.c) && 0 <= raw.r <= raw.c && 0 <= raw.g <= raw.c && 0 <= raw.b <= raw.c
    requires IsInRange(minR, maxR, minG, maxG, minB, maxB, raw)
    ensures minR <= 255 && minG <= 255 && minB <= 255 && 0 <= maxR && 0 <= maxG && 0 <= maxB
  {
    RgbBounds(raw);
  }

  /** In the dark (clear count 0) the reading is black, so the test passes exactly when every
      interval contains 0. */
  lemma InRangeDark(minR: int, maxR: int, minG: int, maxG: int, minB: int, maxB: int, raw: Raw)
    requires raw.c == 0
    ensures IsInRange(minR, maxR, minG, maxG, minB, maxB, raw) <==>
      minR <= 0 <= maxR && minG <= 0 <= maxG && minB <= 0 <= maxB
  {
  }

  /** The full intervals 0..255 accept every reading whose colour counts do not exceed the clear
      count. */
  lemma InRangeFull(raw: Raw)
    requires IsWord(raw.c) && 0 <= raw.r <= raw.c && 0 <= raw.g <= raw.c && 0 <= raw.b <= raw.c
    ensures IsInRange(0, 255, 0, 255, 0, 255, raw)
  {
    RgbBounds(raw);
  }
}
