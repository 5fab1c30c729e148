/**
 * Coordinate validation of the OpenWeather client. Each coordinate is
 * given as the outcome of Python's `float()` on the argument: `None` when
 * `float()` raised ValueError or OverflowError, otherwise an IEEE double,
 * which is a finite value, an infinity or NaN.
 */
module Coords {
  import opened Wrappers

  datatype Float = Finite(value: real) | Infinity(negative: bool) | NaN

  /** The "no coordinate given" default of both arguments. */
  const Sentinel: real := 999.0

  // Python's comparisons of a double with a finite constant: every one is False for NaN.

  predicate FloatEq(x: Float, c: real) { x.Finite? && x.value == c }

  predicate FloatGt(x: Float, c: real)
  {
    match x
    case Finite(v) => v > c
    case Infinity(negative) => !negative
    case NaN => false
  }

  predicate FloatLt(x: Float, c: real)
  {
    match x
    case Finite(v) => v < c
    case Infinity(negative) => negative
    case NaN => false
  }

  /** A finite value inside [-bound, bound]. */
  predicate InRange(x: Float, bound: real)
  {
    x.Finite? && -bound <= x.value <= bound
  }

  /**
   * `_check_coords(longitude, latitude)` as written: the parse of the
   * longitude, then of the latitude, then the sentinel, then the latitude
   * range, then the longitude range. Since no comparison holds of NaN, a
   * NaN coordinate gets through every test.
   */
  function CheckCoordsAsWritten(longitude: Option<Float>, latitude: Option<Float>): (ok: bool)
    ensures ok <==> longitude.Some? && latitude.Some?
                    && (InRange(longitude.value, 180.0) || longitude.value.NaN?)
                    && (InRange(latitude.value, 90.0) || latitude.value.NaN?)
  {
    if longitude.None? then false
    else if latitude.None? then false
    else
      var lon, lat := longitude.value, latitude.value;
      if FloatEq(lon, Sentinel) || FloatEq(lat, Sentinel) then false
      else if FloatGt(lat, 90.0) || FloatLt(lat, -90.0) then false
      else if FloatGt(lon, 180.0) || FloatLt(lon, -180.0) then false
      else true
  }

  /** `float("nan")` for both coordinates is accepted by the check as written. */
  lemma AsWrittenAcceptsNaN()
    ensures CheckCoordsAsWritten(Some(NaN), Some(NaN))
    ensures CheckCoordsAsWritten(Some(Finite(0.0)), Some(NaN))
  {
  }

  /**
   * `_check_coords` as evidently intended: NaN is rejected like any other
   * value that is not a real coordinate. Otherwise the tests run in the
   * same order.
   */
  function CheckCoords(longitude: Option<Float>, latitude: Option<Float>): (ok: bool)
    ensures ok <==> longitude.Some? && latitude.Some?
                    && InRange(longitude.value, 180.0) && InRange(latitude.value, 90.0)
  {
    if longitude.None? then false
    else if latitude.None? then false
    else
      var lon, lat := longitude.value, latitude.value;
      if lon.NaN? || lat.NaN? then false
      else if FloatEq(lon, Sentinel) || FloatEq(lat, Sentinel) then false
      else if FloatGt(lat, 90.0) || FloatLt(lat, -90.0) then false
      else if FloatGt(lon, 180.0) || FloatLt(lon, -180.0) then false
      else true
  }

  /** The two checks differ only where a coordinate is NaN. */
  lemma CheckCoordsAgreeWithoutNaN(longitude: Option<Float>, latitude: Option<Float>)
    requires longitude != Some(NaN) && latitude != Some(NaN)
    ensures CheckCoords(longitude, latitude) == CheckCoordsAsWritten(longitude, latitude)
  {
  }

  /**
   * The sentinel is rejected on either axis, whatever the other value; the
   * range bounds are inclusive, so (longitude 180, latitude 0) is accepted.
   */
  lemma SentinelRejected(other: Option<Float>)
    ensures !CheckCoords(Some(Finite(Sentinel)), other)
    ensures !CheckCoords(other, Some(Finite(Sentinel)))
    ensures CheckCoords(Some(Finite(180.0)), Some(Finite(0.0)))
    ensures CheckCoords(Some(Finite(-180.0)), Some(Finite(-90.0)))
  {
  }
}
