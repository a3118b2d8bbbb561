/** The per-leg travel-time estimate (main.py, `estimate_travel_time`).

    The fitted delay model is passed in as `predict`, an arbitrary function
    from a distance in kilometres to a delay in minutes. */
module Estimator {
  import opened Optional

  /** Average speed the estimate assumes, in km/h. */
  const AssumedSpeedKmh: real := 50.0
  const MinutesPerHour: real := 60.0
  /** Scaling applied to the predicted delay; fixed, not derived from the
      traffic snapshot. */
  const RealTimeFactor: real := 1.0
  /** The text main.py returns in place of a number when no traffic data
      is available. */
  const UnavailableMessage: string := "Unable to estimate time due to lack of traffic data."

  /** An estimate is either a number of minutes or the unavailable marker. */
  datatype Estimate = Minutes(minutes: real) | Unavailable

  /** Estimate the minutes needed to cover `distance` km. Without a traffic
      snapshot there is no estimate. With one, the estimate is the driving
      time at the assumed speed (1.2 minutes per km) plus the model's
      predicted delay for that distance, whatever the snapshot holds. */
  function EstimateTravelTime<S>(distance: real, trafficData: Option<S>,
                                 predict: real -> real): (e: Estimate)
    ensures e.Unavailable? <==> trafficData.None?
    ensures e.Minutes? ==> e.minutes == distance * 6.0 / 5.0 + predict(distance)
  {
    if trafficData.None? then
      Unavailable
    else
      var trafficDelay := predict(distance);
      Minutes((distance / AssumedSpeedKmh) * MinutesPerHour + trafficDelay * RealTimeFactor)
  }

  /** Two present snapshots for the same distance always give the same
      estimate: the snapshot only gates availability. */
  lemma SnapshotContentsIrrelevant<S>(distance: real, a: S, b: S, predict: real -> real)
    ensures EstimateTravelTime(distance, Some(a), predict)
         == EstimateTravelTime(distance, Some(b), predict)
    ensures EstimateTravelTime(distance, Some(a), predict).Minutes?
  {
  }

  /** The dynamically typed value main.py returns for `estimated_time`:
      a float or a string. */
  datatype PyValue = PyFloat(f: real) | PyStr(s: string)

  /** The estimate as main.py returns it: minutes as a float, and the
      unavailable marker as its fixed message. */
  function ToPyValue(e: Estimate): (v: PyValue)
    ensures v.PyStr? <==> e.Unavailable?
    ensures v.PyStr? ==> v.s == UnavailableMessage
    ensures e.Minutes? ==> v.PyFloat? && v.f == e.minutes
  {
    match e
    case Minutes(m) => PyFloat(m)
    case Unavailable => PyStr(UnavailableMessage)
  }

  /** Read an `estimated_time` value back: any float is a number of minutes,
      the fixed message is the unavailable marker, and every other string
      is not an estimate at all. */
  function FromPyValue(v: PyValue): (r: Option<Estimate>)
    ensures r.None? <==> (v.PyStr? && v.s != UnavailableMessage)
    ensures v.PyFloat? ==> r == Some(Minutes(v.f))
  {
    match v
    case PyFloat(f) => Some(Minutes(f))
    case PyStr(s) => if s == UnavailableMessage then Some(Unavailable) else None
  }

  /** Every estimate survives being returned as main.py's untyped value. */
  lemma PyValueRoundTrip(e: Estimate)
    ensures FromPyValue(ToPyValue(e)) == Some(e)
  {
  }

  /** Every value that reads back as an estimate is exactly what that
      estimate is returned as. */
  lemma PyValueRoundTripBack(v: PyValue)
    ensures FromPyValue(v).Some? ==> ToPyValue(FromPyValue(v).value) == v
  {
  }
}
