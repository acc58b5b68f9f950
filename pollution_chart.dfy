/** The comparison chart: each pollutant of the submitted request beside its fixed safe limit. */
module PollutionChart {
  import opened Wire

  datatype SafeLimits = SafeLimits(pm25: real, pm10: real, no2: real, co: real, so2: real, o3: real)

  /** `safeLimits`. */
  const Limits: SafeLimits := SafeLimits(40.0, 75.0, 30.0, 1.0, 15.0, 40.0)

  /** The limits in chart order. */
  function LimitList(): seq<real> {
    [Limits.pm25, Limits.pm10, Limits.no2, Limits.co, Limits.so2, Limits.o3]
  }

  /** One bar pair of the chart. */
  datatype Point = Point(name: string, userValue: real, safeLimit: real)

  /** The chart's `data` series, or None when there is no input and the component renders nothing. */
  function Chart(inputData: Option<PredictionRequest>): (data: Option<seq<Point>>)
    ensures data.None? <==> inputData.None?
    ensures data.Some? ==> |data.value| == 6
    ensures data.Some? ==> forall i :: 0 <= i < 6 ==> data.value[i].userValue == Pollutants(inputData.value)[i]
    ensures data.Some? ==> forall i :: 0 <= i < 6 ==>
              data.value[i].name == ["PM2.5", "PM10", "NO2", "CO", "SO2", "O3"][i]
              && data.value[i].safeLimit == [40.0, 75.0, 30.0, 1.0, 15.0, 40.0][i]
  {
    match inputData
    case None => None
    case Some(input) =>
      Some([
        Point("PM2.5", input.pm25, Limits.pm25),
        Point("PM10", input.pm10, Limits.pm10),
        Point("NO2", input.no2, Limits.no2),
        Point("CO", input.co, Limits.co),
        Point("SO2", input.so2, Limits.so2),
        Point("O3", input.o3, Limits.o3)
      ])
  }

  /** The footer's reading of the chart: a pollutant is unsafe when its red bar is higher than its green bar. */
  predicate Unsafe(p: Point) {
    p.userValue > p.safeLimit
  }

  /** A pollutant is flagged unsafe exactly when the submitted value exceeds its limit; the limits are the
      same whatever was submitted. */
  lemma UnsafeIffAboveLimit(a: PredictionRequest, b: PredictionRequest, i: nat)
    requires i < 6
    ensures Unsafe(Chart(Some(a)).value[i]) <==> Pollutants(a)[i] > LimitList()[i]
    ensures Chart(Some(a)).value[i].safeLimit == Chart(Some(b)).value[i].safeLimit
  {
  }
}
