/** The historical table of `RefData`: the observed series, its 7-day
    rolling average, and the walk that applies the master equation to each
    day's predecessor. */
module History {
  import opened Numerics
  import opened MasterEquation

  /** One observed day: its offset in days and its raw count. */
  datatype Observation = Observation(day: int, newCases: real)

  /** One row of the historical table: the observation, its rolling average,
      the master equation's outputs and the post-processed averages. */
  datatype HistoryRow = HistoryRow(
    day: int,
    newCases: real,
    newCases7ra: real,
    g: real,
    s: Indicator,
    nsMin: real,
    nsMax: real,
    nsAvg: real,
    g7ra: real,
    s7ra: Indicator)

  /** The count column of the input, of the historical table (below) and of the
      forecast table (`Propagation.ForecastCases`). Each record type has its own
      projection because the 7-day means are taken over whichever table is at
      hand, and the element-wise ensures spare callers the comprehension. */
  function CasesOf(obs: seq<Observation>): (c: seq<real>)
    ensures |c| == |obs|
    ensures forall i :: 0 <= i < |obs| ==> c[i] == obs[i].newCases
  {
    seq(|obs|, i requires 0 <= i < |obs| => obs[i].newCases)
  }

  function HistoryCases(rows: seq<HistoryRow>): (c: seq<real>)
    ensures |c| == |rows|
    ensures forall i :: 0 <= i < |rows| ==> c[i] == rows[i].newCases
  {
    seq(|rows|, i requires 0 <= i < |rows| => rows[i].newCases)
  }

  function GsOf(rows: seq<HistoryRow>): (c: seq<real>)
    ensures |c| == |rows|
    ensures forall i :: 0 <= i < |rows| ==> c[i] == rows[i].g
  {
    seq(|rows|, i requires 0 <= i < |rows| => rows[i].g)
  }

  function SsOf(rows: seq<HistoryRow>): (c: seq<Indicator>)
    ensures |c| == |rows|
    ensures forall i :: 0 <= i < |rows| ==> c[i] == rows[i].s
  {
    seq(|rows|, i requires 0 <= i < |rows| => rows[i].s)
  }

  /** The master-equation part of a row. */
  function StepOf(r: HistoryRow): Step
  {
    Step(r.g, r.s, r.nsMin, r.nsMax)
  }

  /** The seeded first row: g and s from `ims_sf_init`, both bounds equal to
      the first raw count. */
  function FirstStep(firstCases: real): Step
  {
    Step(InitialG, Defined(InitialS), firstCases, firstCases)
  }

  /** `rows` is the table `RefData` builds from `obs` with weights `p`. */
  predicate IsHistory(obs: seq<Observation>, p: Params, rows: seq<HistoryRow>)
  {
    |obs| >= 1 && |rows| == |obs| &&
    (forall i :: 0 <= i < |rows| ==>
       rows[i].day == obs[i].day &&
       rows[i].newCases == obs[i].newCases &&
       rows[i].newCases7ra == TrailingMean(CasesOf(obs), i) &&
       rows[i].nsAvg == (rows[i].nsMin + rows[i].nsMax) / 2.0 &&
       rows[i].g7ra == TrailingMean(GsOf(rows), i) &&
       rows[i].s7ra == TrailingMeanInd(SsOf(rows), i)) &&
    StepOf(rows[0]) == FirstStep(obs[0].newCases) &&
    (forall i :: 1 <= i < |rows| ==>
       StepOf(rows[i]) == Master(p, rows[i - 1].newCases, rows[i - 1].newCases7ra, rows[i - 1].g))
  }

  /** `st` is the walk of the master equation over the counts and their
      rolling averages: seeded step first, then each step from the previous one. */
  predicate IsWalk(cases: seq<real>, ra: seq<real>, p: Params, st: seq<Step>)
  {
    |st| == |cases| == |ra| >= 1 &&
    st[0] == FirstStep(cases[0]) &&
    (forall i :: 1 <= i < |st| ==> st[i] == Master(p, cases[i - 1], ra[i - 1], st[i - 1].g))
  }

  /** The `for ii` loop, writing each row's master-equation columns from the
      previous row. */
  method WalkSteps(cases: seq<real>, ra: seq<real>, p: Params) returns (st: seq<Step>)
    requires |cases| == |ra| >= 1
    ensures IsWalk(cases, ra, p, st)
  {
    var n := |cases|;
    var steps := new Step[n];
    steps[0] := FirstStep(cases[0]);
    for ii := 1 to n
      invariant steps[0] == FirstStep(cases[0])
      invariant forall i :: 1 <= i < ii ==> steps[i] == Master(p, cases[i - 1], ra[i - 1], steps[i - 1].g)
    {
      steps[ii] := Master(p, cases[ii - 1], ra[ii - 1], steps[ii - 1].g);
    }
    st := steps[..];
  }

  /** The table from the observations, their rolling averages and the walk,
      with the band means and the 7-day means of g and s. */
  function Assemble(obs: seq<Observation>, ra: seq<real>, st: seq<Step>): (rows: seq<HistoryRow>)
    requires |ra| == |obs| && |st| == |obs|
    ensures |rows| == |obs|
  {
    var gs := seq(|st|, i requires 0 <= i < |st| => st[i].g);
    var ss := seq(|st|, i requires 0 <= i < |st| => st[i].s);
    seq(|obs|, i requires 0 <= i < |obs| =>
          HistoryRow(obs[i].day, obs[i].newCases, ra[i], st[i].g, st[i].s, st[i].nsMin, st[i].nsMax,
                     (st[i].nsMin + st[i].nsMax) / 2.0, TrailingMean(gs, i), TrailingMeanInd(ss, i)))
  }

  lemma AssembleIsHistory(obs: seq<Observation>, p: Params, st: seq<Step>)
    requires IsWalk(CasesOf(obs), RollingMeans(CasesOf(obs)), p, st)
    ensures IsHistory(obs, p, Assemble(obs, RollingMeans(CasesOf(obs)), st))
  {
    var cases := CasesOf(obs);
    var ra := RollingMeans(cases);
    var rows := Assemble(obs, ra, st);
    assert GsOf(rows) == seq(|st|, i requires 0 <= i < |st| => st[i].g);
    assert SsOf(rows) == seq(|st|, i requires 0 <= i < |st| => st[i].s);
    assert forall i :: 0 <= i < |rows| ==> StepOf(rows[i]) == st[i];
  }

  /** Builds the historical table: the rolling average column, then row by
      row the master equation applied to the previous row, then the averages
      of the bounds, of g and of s. */
  method BuildHistory(obs: seq<Observation>, p: Params) returns (rows: seq<HistoryRow>)
    requires |obs| >= 1
    ensures IsHistory(obs, p, rows)
  {
    var cases := CasesOf(obs);
    var ra := RollingMeans(cases);
    var st := WalkSteps(cases, ra, p);
    rows := Assemble(obs, ra, st);
    AssembleIsHistory(obs, p, st);
  }

  /** The master-equation parts of two tables for the same input agree up to `k`. */
  lemma {:induction false} StepsAgree(obs: seq<Observation>, p: Params, a: seq<HistoryRow>, b: seq<HistoryRow>, k: nat)
    requires IsHistory(obs, p, a) && IsHistory(obs, p, b)
    requires k < |obs|
    ensures forall i :: 0 <= i <= k ==> StepOf(a[i]) == StepOf(b[i])
  {
    if k > 0 {
      StepsAgree(obs, p, a, b, k - 1);
      assert StepOf(a[k - 1]) == StepOf(b[k - 1]);
    }
  }

  /** The walk is deterministic: the input and the weights fix the table. */
  lemma HistoryUnique(obs: seq<Observation>, p: Params, a: seq<HistoryRow>, b: seq<HistoryRow>)
    requires IsHistory(obs, p, a) && IsHistory(obs, p, b)
    ensures a == b
  {
    StepsAgree(obs, p, a, b, |obs| - 1);
    assert GsOf(a) == GsOf(b);
    assert SsOf(a) == SsOf(b);
    forall i | 0 <= i < |a|
      ensures a[i] == b[i]
    {
      assert StepOf(a[i]) == StepOf(b[i]);
    }
  }

  /** For non-negative counts and weights every row has its ratio in [0, 1]
      and an ordered, non-negative band, and the averages are non-negative. */
  lemma HistoryInBand(obs: seq<Observation>, p: Params, rows: seq<HistoryRow>)
    requires IsHistory(obs, p, rows) && p.NonNegative()
    requires forall i :: 0 <= i < |obs| ==> 0.0 <= obs[i].newCases
    ensures forall i :: 0 <= i < |rows| ==>
              0.0 <= rows[i].newCases7ra &&
              0.0 <= rows[i].g <= 1.0 &&
              0.0 <= rows[i].nsMin <= rows[i].nsMax &&
              0.0 <= rows[i].g7ra <= 1.0
  {
    var cases := CasesOf(obs);
    forall i | 0 <= i < |rows|
      ensures 0.0 <= rows[i].newCases7ra
    {
      TrailingMeanLower(cases, i, 0.0);
    }
    forall i | 0 <= i < |rows|
      ensures 0.0 <= rows[i].g <= 1.0 && 0.0 <= rows[i].nsMin <= rows[i].nsMax
    {
      if i > 0 {
        var prev := rows[i - 1];
        MasterRatio(p, prev.newCases, prev.newCases7ra, prev.g);
        MasterBand(p, prev.newCases, prev.newCases7ra, prev.g);
        assert StepOf(rows[i]) == Master(p, prev.newCases, prev.newCases7ra, prev.g);
      } else {
        assert StepOf(rows[0]) == FirstStep(obs[0].newCases);
      }
    }
    forall i | 0 <= i < |rows|
      ensures 0.0 <= rows[i].g7ra <= 1.0
    {
      TrailingMeanBounds(GsOf(rows), i, 0.0, 1.0);
    }
  }

  /** The master equation on a flat day: count equal to its average c, with
      c > 1e-10 (Epsilon). */
  lemma FlatStep(p: Params, c: real, g0: real)
    requires Epsilon < c
    ensures Master(p, c, c, g0) ==
            Step(1.0, Defined(2.0 * DeltaG(g0, 1.0) / 3.0),
                 c * (p.p1 + 3.0 * p.p2 + 5.0 * p.p3), c * (2.0 * p.p1 + 4.0 * p.p2 + 6.0 * p.p3))
  {
    assert Ratio(c, c) == 1.0;
    assert DeltaNk(c, c) == Defined(0.0);
  }

  /** A flat series of count c > 1e-10 (Epsilon): the average is c everywhere,
      the ratio is 1 from the second day on, the band is c (p1 + 3 p2 + 5 p3) to c (2 p1 + 4 p2 +
      6 p3), and the indicator settles at 0 from the third day on. */
  lemma FlatHistory(obs: seq<Observation>, p: Params, rows: seq<HistoryRow>, c: real)
    requires IsHistory(obs, p, rows) && Epsilon < c
    requires forall i :: 0 <= i < |obs| ==> obs[i].newCases == c
    ensures forall i :: 0 <= i < |rows| ==> rows[i].newCases7ra == c
    ensures forall i :: 1 <= i < |rows| ==>
              rows[i].g == 1.0 &&
              rows[i].nsMin == c * (p.p1 + 3.0 * p.p2 + 5.0 * p.p3) &&
              rows[i].nsMax == c * (2.0 * p.p1 + 4.0 * p.p2 + 6.0 * p.p3)
    ensures 2 <= |rows| ==> rows[1].s == Defined(-2.0 / 15.0)
    ensures forall i :: 2 <= i < |rows| ==> rows[i].s == Defined(0.0)
  {
    var cases := CasesOf(obs);
    forall i | 0 <= i < |rows|
      ensures rows[i].newCases7ra == c
    {
      TrailingMeanBounds(cases, i, c, c);
    }
    forall i | 1 <= i < |rows|
      ensures StepOf(rows[i]) == Master(p, c, c, rows[i - 1].g)
    {
    }
    forall i | 1 <= i < |rows|
      ensures rows[i].g == 1.0
    {
      FlatStep(p, c, rows[i - 1].g);
    }
    if 2 <= |rows| {
      FlatStep(p, c, InitialG);
      assert rows[0].g == InitialG;
    }
    forall i | 2 <= i < |rows|
      ensures rows[i].s == Defined(0.0)
    {
      FlatStep(p, c, rows[i - 1].g);
      assert rows[i - 1].g == 1.0;
    }
    forall i | 1 <= i < |rows|
      ensures rows[i].nsMin == c * (p.p1 + 3.0 * p.p2 + 5.0 * p.p3)
      ensures rows[i].nsMax == c * (2.0 * p.p1 + 4.0 * p.p2 + 6.0 * p.p3)
    {
      FlatStep(p, c, rows[i - 1].g);
    }
  }

  /** The observations a table was built from: its date and raw-count columns. */
  function ObservationsOf(rows: seq<HistoryRow>): (obs: seq<Observation>)
    ensures |obs| == |rows|
    ensures forall i :: 0 <= i < |rows| ==> obs[i] == Observation(rows[i].day, rows[i].newCases)
  {
    seq(|rows|, i requires 0 <= i < |rows| => Observation(rows[i].day, rows[i].newCases))
  }

  /** The table keeps its input: the date and raw-count columns are the observations. */
  lemma HistoryObservations(obs: seq<Observation>, p: Params, rows: seq<HistoryRow>)
    requires IsHistory(obs, p, rows)
    ensures ObservationsOf(rows) == obs
  {
    assert forall i :: 0 <= i < |obs| ==> ObservationsOf(rows)[i] == obs[i];
  }

  /** The first row carries the seeds of `ims_sf_init` (g = 0.8, s = 0) and a
      band of width zero at the first raw count, which is also its average
      and its rolling average. */
  lemma HistoryFirstRow(obs: seq<Observation>, p: Params, rows: seq<HistoryRow>)
    requires IsHistory(obs, p, rows)
    ensures rows[0].g == 0.8 && rows[0].s == Defined(0.0)
    ensures rows[0].nsMin == rows[0].nsMax == rows[0].nsAvg == obs[0].newCases
    ensures rows[0].newCases7ra == obs[0].newCases
    ensures rows[0].g7ra == 0.8 && rows[0].s7ra == Defined(0.0)
  {
    assert StepOf(rows[0]) == FirstStep(obs[0].newCases);
    assert CasesOf(obs)[0..1] == [obs[0].newCases];
    assert GsOf(rows)[0..1] == [0.8];
    assert SsOf(rows)[0..1] == [Defined(0.0)];
  }

  /** The walk meets the unguarded division exactly where a count other than
      the last is zero: row i's indicator is singular iff day i - 1 had no cases. */
  lemma HistorySingular(obs: seq<Observation>, p: Params, rows: seq<HistoryRow>)
    requires IsHistory(obs, p, rows)
    ensures rows[0].s.Defined?
    ensures forall i :: 1 <= i < |rows| ==> (rows[i].s.Defined? <==> obs[i - 1].newCases != 0.0)
  {
    assert StepOf(rows[0]) == FirstStep(obs[0].newCases);
    forall i | 1 <= i < |rows|
      ensures rows[i].s.Defined? <==> obs[i - 1].newCases != 0.0
    {
      var prev := rows[i - 1];
      MasterSingular(p, prev.newCases, prev.newCases7ra, prev.g);
      assert StepOf(rows[i]) == Master(p, prev.newCases, prev.newCases7ra, prev.g);
    }
  }

  /** Row i's rolling average is the trailing mean of the table's own counts. */
  lemma HistoryAverage(obs: seq<Observation>, p: Params, rows: seq<HistoryRow>, i: nat)
    requires IsHistory(obs, p, rows) && i < |rows|
    ensures rows[i].newCases7ra == TrailingMean(HistoryCases(rows), i)
  {
    assert HistoryCases(rows) == CasesOf(obs);
  }
}
