/** Temperature unit conversions and the power-actor test of the thermal
    framework header. The macros are single C integer expressions; C's `/`
    truncates toward zero, so it is written out as TruncDiv. */
module Thermal {

  /** Offset between deci-Kelvin and deci-Celsius (273.2 K). */
  const DECI_KELVIN_OFFSET: int := 2732

  /** C division of `a` by a positive `b`: the quotient is truncated toward
      zero, so the remainder has the sign of `a` and is smaller than `b`. */
  function TruncDiv(a: int, b: int): (q: int)
    requires b > 0
    ensures a >= 0 ==> 0 <= a - b * q < b
    ensures a < 0 ==> -b < a - b * q <= 0
  {
    if a >= 0 then a / b else -((-a) / b)
  }

  /** DECI_KELVIN_TO_CELSIUS: whole degrees Celsius, rounded to nearest with
      halves rounded away from zero. */
  function DeciKelvinToCelsius(t: int): (c: int)
    ensures t - DECI_KELVIN_OFFSET >= 0 ==> 10 * c - 5 <= t - DECI_KELVIN_OFFSET < 10 * c + 5
    ensures t - DECI_KELVIN_OFFSET < 0 ==> 10 * c - 5 < t - DECI_KELVIN_OFFSET <= 10 * c + 5
  {
    var d := t - DECI_KELVIN_OFFSET;
    if d >= 0 then TruncDiv(d + 5, 10) else TruncDiv(d - 5, 10)
  }

  /** CELSIUS_TO_DECI_KELVIN. */
  function CelsiusToDeciKelvin(c: int): int
  {
    c * 10 + DECI_KELVIN_OFFSET
  }

  /** DECI_KELVIN_TO_MILLICELSIUS_WITH_OFFSET. */
  function DeciKelvinToMilliCelsiusWithOffset(t: int, off: int): int
  {
    (t - off) * 100
  }

  /** DECI_KELVIN_TO_MILLICELSIUS. */
  function DeciKelvinToMilliCelsius(t: int): int
  {
    DeciKelvinToMilliCelsiusWithOffset(t, DECI_KELVIN_OFFSET)
  }

  /** MILLICELSIUS_TO_DECI_KELVIN_WITH_OFFSET: the milli-Celsius value is
      truncated toward zero to deci-degrees before the offset is added. */
  function MilliCelsiusToDeciKelvinWithOffset(m: int, off: int): int
  {
    TruncDiv(m, 100) + off
  }

  /** MILLICELSIUS_TO_DECI_KELVIN. */
  function MilliCelsiusToDeciKelvin(m: int): int
  {
    MilliCelsiusToDeciKelvinWithOffset(m, DECI_KELVIN_OFFSET)
  }

  /** Converting whole degrees to deci-Kelvin and back is the identity: the
      +-5 rounding term never reaches the next multiple of ten. */
  lemma {:induction false} CelsiusRoundTrip(c: int)
    ensures DeciKelvinToCelsius(CelsiusToDeciKelvin(c)) == c
  {
    var r := DeciKelvinToCelsius(CelsiusToDeciKelvin(c));
    assert CelsiusToDeciKelvin(c) - DECI_KELVIN_OFFSET == 10 * c;
    if c >= 0 {
      assert 10 * r - 5 <= 10 * c < 10 * r + 5;
    } else {
      assert 10 * r - 5 < 10 * c <= 10 * r + 5;
    }
  }

  /** The other way round only comes back to within half a degree. */
  lemma {:induction false} DeciKelvinRoundTripWithinHalfDegree(t: int)
    ensures -5 <= CelsiusToDeciKelvin(DeciKelvinToCelsius(t)) - t <= 5
  {
  }

  /** Rounding is odd-symmetric around 0 degrees Celsius (2732 dK). */
  lemma {:induction false} DeciKelvinToCelsiusOddSymmetric(d: int)
    ensures DeciKelvinToCelsius(DECI_KELVIN_OFFSET + d) == -DeciKelvinToCelsius(DECI_KELVIN_OFFSET - d)
  {
    var p := DeciKelvinToCelsius(DECI_KELVIN_OFFSET + d);
    var n := DeciKelvinToCelsius(DECI_KELVIN_OFFSET - d);
    if d > 0 {
      assert 10 * p - 5 <= d < 10 * p + 5;
      assert 10 * n - 5 < -d <= 10 * n + 5;
      assert 10 * (-n) - 5 <= d < 10 * (-n) + 5;
      UniqueRounding(d, p, -n);
    } else if d < 0 {
      assert 10 * p - 5 < d <= 10 * p + 5;
      assert 10 * n - 5 <= -d < 10 * n + 5;
      assert 10 * (-p) - 5 <= -d < 10 * (-p) + 5;
      UniqueRounding(-d, n, -p);
    }
  }

  /** At most one whole number lies in the half-open window around `d`. */
  lemma {:induction false} UniqueRounding(d: int, a: int, b: int)
    requires 10 * a - 5 <= d < 10 * a + 5
    requires 10 * b - 5 <= d < 10 * b + 5
    ensures a == b
  {
    assert 10 * a < 10 * b + 10 && 10 * b < 10 * a + 10;
  }

  /** A warmer reading never converts to a colder whole degree. */
  lemma {:induction false} DeciKelvinToCelsiusMonotone(t1: int, t2: int)
    requires t1 <= t2
    ensures DeciKelvinToCelsius(t1) <= DeciKelvinToCelsius(t2)
  {
    var c1 := DeciKelvinToCelsius(t1);
    var c2 := DeciKelvinToCelsius(t2);
    var d1, d2 := t1 - DECI_KELVIN_OFFSET, t2 - DECI_KELVIN_OFFSET;
    if d1 >= 0 {
      assert 10 * c1 - 5 <= d1 <= d2 < 10 * c2 + 5;
    } else {
      assert 10 * c1 - 5 < d1 <= d2 <= 10 * c2 + 5;
    }
    assert 10 * c1 < 10 * c2 + 10;
  }

  /** Deci-Kelvin to milli-Celsius and back is exact, whatever the offset. */
  lemma {:induction false} MilliCelsiusRoundTripWithOffset(t: int, off: int)
    ensures MilliCelsiusToDeciKelvinWithOffset(DeciKelvinToMilliCelsiusWithOffset(t, off), off) == t
  {
    var m := (t - off) * 100;
    var q := TruncDiv(m, 100);
    if m >= 0 {
      assert 0 <= 100 * ((t - off) - q) < 100;
    } else {
      assert -100 < 100 * ((t - off) - q) <= 0;
    }
  }

  /** The same for the default 2732 offset. */
  lemma {:induction false} MilliCelsiusRoundTrip(t: int)
    ensures MilliCelsiusToDeciKelvin(DeciKelvinToMilliCelsius(t)) == t
  {
    MilliCelsiusRoundTripWithOffset(t, DECI_KELVIN_OFFSET);
  }

  /** Milli-Celsius to deci-Kelvin and back gives the input exactly when it
      is a whole number of deci-degrees; otherwise the truncated part is lost. */
  lemma {:induction false} DeciKelvinRoundTripExactIff(m: int, off: int)
    ensures DeciKelvinToMilliCelsiusWithOffset(MilliCelsiusToDeciKelvinWithOffset(m, off), off) == m
            <==> m % 100 == 0
  {
    var q := TruncDiv(m, 100);
    assert DeciKelvinToMilliCelsiusWithOffset(MilliCelsiusToDeciKelvinWithOffset(m, off), off) == q * 100;
    assert (q * 100) % 100 == 0;
    if m % 100 == 0 {
      var k := m / 100;
      assert m == 100 * k;
      if m >= 0 {
        assert 0 <= 100 * (k - q) < 100;
      } else {
        assert -100 < 100 * (k - q) <= 0;
      }
    }
  }

  /** The members of `struct thermal_cooling_device_ops`; `true` when the
      driver supplies that callback (a non-NULL function pointer). */
  datatype CoolingDeviceOps = CoolingDeviceOps(
    getMaxState: bool,
    getCurState: bool,
    setCurState: bool,
    getRequestedPower: bool,
    state2power: bool,
    power2state: bool,
    setCurTemp: bool)

  /** cdev_is_power_actor (with the thermal framework built in): a cooling
      device can act as a power actor exactly when it supplies every power
      callback; the other callbacks play no part. */
  predicate CdevIsPowerActor(ops: CoolingDeviceOps)
  {
    ops.getRequestedPower && ops.state2power && ops.power2state
  }

  /** Whether a device is a power actor depends on its three power
      callbacks alone: two drivers that agree on those get the same answer,
      whatever state callbacks they supply. */
  lemma {:induction false} PowerActorIgnoresOtherCallbacks(a: CoolingDeviceOps, b: CoolingDeviceOps)
    requires a.getRequestedPower == b.getRequestedPower
    requires a.state2power == b.state2power && a.power2state == b.power2state
    ensures CdevIsPowerActor(a) == CdevIsPowerActor(b)
  {
  }
}
