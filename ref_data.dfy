/** `RefData`: the object that holds the weights, the historical table and,
    once `forecast` has run, the forecast table. */
module ImcSf {
  import opened Numerics
  import opened MasterEquation
  import opened History
  import opened Propagation

  datatype Option<T> = None | Some(value: T)

  class RefData {
    /** The weights (p1, p2, p3) of the master equation. */
    const p: Params
    /** The historical table. */
    var df: seq<HistoryRow>
    /** The forecast table; `None` until `Forecast` runs. */
    var forecastDf: Option<seq<ForecastRow>>

    /** The historical table is the one built from its own observations. */
    predicate Valid()
      reads this`df
    {
      IsHistory(ObservationsOf(df), p, df)
    }

    /** Takes the weights (the defaults when none are given) and builds the
        historical table from the acquired observations. */
    constructor (obs: seq<Observation>, weights: Option<Params>)
      requires |obs| >= 1
      ensures p == (if weights.Some? then weights.value else DefaultParams)
      ensures IsHistory(obs, p, df)
      ensures forecastDf == None
      ensures Valid()
    {
      var w := if weights.Some? then weights.value else DefaultParams;
      var rows := BuildHistory(obs, w);
      p := w;
      df := rows;
      forecastDf := None;
      HistoryObservations(obs, w, rows);
    }

    /** Forecasts up to day `dateEnd` (inclusive): one slot for each day after
        the last historical day. The historical table is left as it is. */
    method Forecast(dateEnd: int)
      requires Valid() && |df| >= 2 && dateEnd - df[|df| - 1].day >= 7
      modifies this
      ensures df == old(df) && Valid()
      ensures forecastDf.Some? && IsForecast(df, p, dateEnd - df[|df| - 1].day, forecastDf.value)
      ensures forall i :: 0 <= i < |forecastDf.value| ==> forecastDf.value[i].day <= dateEnd
    {
      var h := df;
      var days := dateEnd - h[|h| - 1].day;
      var rows := Propagate(h, p, days);
      ForecastDays(h, p, days, rows);
      forecastDf := Some(rows);
    }
  }

  /** From non-negative observations and weights, both tables stay in range:
      ratios in [0, 1], ordered non-negative bands, non-negative counts and
      averages. */
  lemma TablesInBand(obs: seq<Observation>, p: Params, h: seq<HistoryRow>, days: int, f: seq<ForecastRow>)
    requires IsHistory(obs, p, h) && IsForecast(h, p, days, f) && p.NonNegative()
    requires forall i :: 0 <= i < |obs| ==> 0.0 <= obs[i].newCases
    ensures forall i :: 0 <= i < |h| ==> 0.0 <= h[i].g <= 1.0 && 0.0 <= h[i].nsMin <= h[i].nsMax
    ensures forall i :: 0 <= i < days ==>
              0.0 <= f[i].newCases && 0.0 <= f[i].newCases7ra && 0.0 <= f[i].nsMin <= f[i].nsMax &&
              0.0 <= f[i].g <= 1.0
  {
    HistoryInBand(obs, p, h);
    ForecastInBand(h, p, days, f);
    SeedGInRange(h);
  }

  /** The seeded ratio of slot 0 is a mean of historical ratios, so it lies
      in [0, 1] when they do. */
  lemma SeedGInRange(h: seq<HistoryRow>)
    requires |h| >= 2
    requires forall i :: 0 <= i < |h| ==> 0.0 <= h[i].g <= 1.0
    ensures 0.0 <= SeedG(h) <= 1.0
  {
    var w := GsOf(h)[TailStart(|h|, 0)..|h| - 1];
    assert forall j :: 0 <= j < |w| ==> w[j] == h[TailStart(|h|, 0) + j].g;
    MeanBounds(w, 0.0, 1.0);
  }
}
