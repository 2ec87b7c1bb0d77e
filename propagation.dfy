/** `RefData.forecast`: the forecast table seeded from the historical tail
    and propagated by feeding the forecast's own rows back into the master
    equation, with each new count spread forward into the 7-day averages of
    the following slots. Forecast slot i is the day `i + 1` after the last
    historical day. */
module Propagation {
  import opened Numerics
  import opened MasterEquation
  import opened History

  /** One slot of the forecast table. */
  datatype ForecastRow = ForecastRow(
    day: int,
    newCases: real,
    newCases7ra: real,
    g: real,
    s: Indicator,
    nsMin: real,
    nsMax: real)

  /** The count column of the forecast table; the window lemmas below sum over
      it, as `History.HistoryCases` does for the historical table. */
  function ForecastCases(rows: seq<ForecastRow>): (c: seq<real>)
    ensures |c| == |rows|
    ensures forall i :: 0 <= i < |rows| ==> c[i] == rows[i].newCases
  {
    seq(|rows|, i requires 0 <= i < |rows| => rows[i].newCases)
  }

  /** First index of the historical slice `iloc[-8 + k:-1]` of a table of
      `len` rows; Python clips it at 0 when the table is short. */
  function TailStart(len: nat, k: nat): nat
  {
    if len + k < 8 then 0 else len + k - 8
  }

  /** The master equation applied to the last historical row. */
  function LastStep(h: seq<HistoryRow>, p: Params): Step
    requires |h| >= 1
  {
    var last := h[|h| - 1];
    Master(p, last.newCases, last.newCases7ra, last.g)
  }

  /** Mean g of the historical rows before the last one (at most seven). */
  function SeedG(h: seq<HistoryRow>): real
    requires |h| >= 2
  {
    Mean(GsOf(h)[TailStart(|h|, 0)..|h| - 1])
  }

  /** Mean s of the same rows. */
  function SeedS(h: seq<HistoryRow>): Indicator
    requires |h| >= 2
  {
    MeanInd(SsOf(h)[TailStart(|h|, 0)..|h| - 1])
  }

  /** The historical part of slot k's 7-day average: a seventh of the counts
      from `iloc[-8 + k]` up to, not including, the last historical row. */
  function SeedRa(h: seq<HistoryRow>, k: nat): real
    requires |h| >= 1
  {
    if k < 7 then Sum(HistoryCases(h)[TailStart(|h|, k)..|h| - 1]) / 7.0 else 0.0
  }

  /** The value every slot holds after the columns are broadcast, before the
      7-day averages are seeded. */
  function SeedRow(h: seq<HistoryRow>, p: Params, i: nat): ForecastRow
    requires |h| >= 2
  {
    var st := LastStep(h, p);
    ForecastRow(h[|h| - 1].day + 1 + i, (st.nsMax + st.nsMin) / 2.0, 0.0, SeedG(h), SeedS(h), st.nsMin, st.nsMax)
  }

  /** Slot `cur` after the master equation is applied to slot `prev`. */
  function Advance(p: Params, prev: ForecastRow, cur: ForecastRow): ForecastRow
  {
    var st := Master(p, prev.newCases, prev.newCases7ra, prev.g);
    cur.(g := st.g, s := st.s, nsMin := st.nsMin, nsMax := st.nsMax, newCases := (st.nsMax + st.nsMin) / 2.0)
  }

  /** `cur` holds the master equation of `prev` and the mean of its bounds. */
  predicate Stepped(p: Params, prev: ForecastRow, cur: ForecastRow)
  {
    StepOfSlot(cur) == Master(p, prev.newCases, prev.newCases7ra, prev.g) &&
    cur.newCases == (cur.nsMax + cur.nsMin) / 2.0
  }

  /** The master-equation part of a slot. */
  function StepOfSlot(r: ForecastRow): Step
  {
    Step(r.g, r.s, r.nsMin, r.nsMax)
  }

  /** Adds `amount` to the 7-day average of the slots in [from, to). */
  function Spread(rows: seq<ForecastRow>, from: nat, to: nat, amount: real): (r: seq<ForecastRow>)
    requires from <= to <= |rows|
    ensures |r| == |rows|
  {
    seq(|rows|, k requires 0 <= k < |rows| =>
          if from <= k < to then rows[k].(newCases7ra := rows[k].newCases7ra + amount) else rows[k])
  }

  /** Number of slots, from `ii` on, that step `ii` contributes to. */
  function Reach(len: nat, ii: nat): nat
    requires ii <= len
  {
    if 7 < len - ii then 7 else len - ii
  }

  /** The table after step `ii` of the propagation loop. */
  function StepRows(rows: seq<ForecastRow>, ii: nat, p: Params): (r: seq<ForecastRow>)
    requires 1 <= ii < |rows|
    ensures |r| == |rows|
  {
    var advanced := rows[ii := Advance(p, rows[ii - 1], rows[ii])];
    Spread(advanced, ii, ii + Reach(|rows|, ii), advanced[ii].newCases / 7.0)
  }

  /** Step `ii` rewrites slot `ii` from slot `ii - 1`, adds a seventh of the
      new count to the averages of slots ii .. ii + 6 that exist, leaves their
      other columns alone, and does not touch any other slot. */
  lemma StepFootprint(rows: seq<ForecastRow>, ii: nat, p: Params)
    requires 1 <= ii < |rows|
    ensures var r := StepRows(rows, ii, p);
            Stepped(p, rows[ii - 1], r[ii]) &&
            r[ii].day == rows[ii].day &&
            (forall k :: 0 <= k < ii ==> r[k] == rows[k]) &&
            (forall k :: ii < k < |rows| ==> r[k].(newCases7ra := rows[k].newCases7ra) == rows[k]) &&
            (forall k :: ii <= k < |rows| && k < ii + 7 ==>
               r[k].newCases7ra == rows[k].newCases7ra + r[ii].newCases / 7.0) &&
            (forall k :: ii + 7 <= k < |rows| ==> r[k] == rows[k])
  {
  }

  /** First forecast slot whose count reaches slot k's average. */
  function ContribStart(k: nat): nat
  {
    if k < 7 then 1 else k - 6
  }

  /** End (exclusive) of the slots whose counts slot k's average holds once
      steps 1 .. t are done. */
  function ContribEnd(k: nat, t: nat): (e: nat)
    ensures ContribStart(k) <= e <= k + 1
  {
    var e := if k <= t then k + 1 else t + 1;
    if e < ContribStart(k) then ContribStart(k) else e
  }

  /** After steps 1 .. t, every slot's average is its historical seed plus a
      seventh of the counts of the slots that have reached it so far. */
  predicate WindowsUpTo(h: seq<HistoryRow>, rows: seq<ForecastRow>, t: nat)
    requires |h| >= 1
  {
    forall k :: 0 <= k < |rows| ==>
      rows[k].newCases7ra == SeedRa(h, k) + Sum(ForecastCases(rows)[ContribStart(k)..ContribEnd(k, t)]) / 7.0
  }

  /** Two columns that agree on [lo, hi) have the same sum there. */
  lemma SumAgree(a: seq<real>, b: seq<real>, lo: nat, hi: nat)
    requires lo <= hi <= |a| && hi <= |b|
    requires forall j :: lo <= j < hi ==> a[j] == b[j]
    ensures Sum(a[lo..hi]) == Sum(b[lo..hi])
  {
    assert a[lo..hi] == b[lo..hi];
  }

  /** Extending a slice by one entry adds that entry to its sum. */
  lemma SumExtend(b: seq<real>, lo: nat, hi: nat)
    requires lo <= hi < |b|
    ensures Sum(b[lo..hi + 1]) == Sum(b[lo..hi]) + b[hi]
  {
    assert b[lo..hi + 1][..hi - lo] == b[lo..hi];
  }

  /** One slot of `SpreadKeepsWindows`, with the slot's seed average `seed`. */
  lemma SpreadKeepsWindow(rows: seq<ForecastRow>, ii: nat, x: ForecastRow, k: nat, seed: real, r: seq<ForecastRow>)
    requires 1 <= ii < |rows| && k < |rows|
    requires x.newCases7ra == rows[ii].newCases7ra
    requires rows[k].newCases7ra == seed + Sum(ForecastCases(rows)[ContribStart(k)..ContribEnd(k, ii - 1)]) / 7.0
    requires r == Spread(rows[ii := x], ii, ii + Reach(|rows|, ii), x.newCases / 7.0)
    ensures r[k].newCases7ra == seed + Sum(ForecastCases(r)[ContribStart(k)..ContribEnd(k, ii)]) / 7.0
  {
    var a := ForecastCases(rows);
    var b := ForecastCases(r);
    var lo := ContribStart(k);
    if k < ii {
      assert r[k] == rows[k];
      assert ContribEnd(k, ii) == k + 1 == ContribEnd(k, ii - 1);
      SumAgree(a, b, lo, k + 1);
    } else if k < ii + 7 {
      assert r[k].newCases7ra == rows[k].newCases7ra + x.newCases / 7.0;
      assert ContribEnd(k, ii) == ii + 1 && ContribEnd(k, ii - 1) == ii;
      SumAgree(a, b, lo, ii);
      SumExtend(b, lo, ii);
      assert b[ii] == x.newCases;
    } else {
      assert r[k] == rows[k];
      assert ContribEnd(k, ii) == lo && ContribEnd(k, ii - 1) == lo;
    }
  }

  /** Writing a row `x` with slot ii's old average into slot ii and spreading
      a seventh of its count forward takes the averages from "steps before ii
      done" to "step ii done". */
  lemma SpreadKeepsWindows(h: seq<HistoryRow>, rows: seq<ForecastRow>, ii: nat, x: ForecastRow)
    requires |h| >= 1 && 1 <= ii < |rows|
    requires x.newCases7ra == rows[ii].newCases7ra
    requires WindowsUpTo(h, rows, ii - 1)
    ensures WindowsUpTo(h, Spread(rows[ii := x], ii, ii + Reach(|rows|, ii), x.newCases / 7.0), ii)
  {
    var r := Spread(rows[ii := x], ii, ii + Reach(|rows|, ii), x.newCases / 7.0);
    forall k | 0 <= k < |r|
      ensures r[k].newCases7ra == SeedRa(h, k) + Sum(ForecastCases(r)[ContribStart(k)..ContribEnd(k, ii)]) / 7.0
    {
      SpreadKeepsWindow(rows, ii, x, k, SeedRa(h, k), r);
    }
  }

  /** `f` is the forecast table `RefData.forecast` builds over `days` slots
      from the historical table `h` with weights `p`. */
  predicate IsForecast(h: seq<HistoryRow>, p: Params, days: int, f: seq<ForecastRow>)
  {
    |h| >= 2 && days >= 1 && |f| == days &&
    (forall i :: 0 <= i < days ==> f[i].day == h[|h| - 1].day + 1 + i) &&
    f[0] == SeedRow(h, p, 0).(newCases7ra := SeedRa(h, 0)) &&
    (forall i :: 1 <= i < days ==> Stepped(p, f[i - 1], f[i])) &&
    (forall i :: 0 <= i < days ==>
       f[i].newCases7ra == SeedRa(h, i) + Sum(ForecastCases(f)[ContribStart(i)..i + 1]) / 7.0)
  }

  /** Step `ii` of the propagation loop, in place on the forecast table. */
  method PropagateStep(f: array<ForecastRow>, ii: nat, p: Params)
    requires 1 <= ii < f.Length
    modifies f
    ensures f[..] == StepRows(old(f[..]), ii, p)
  {
    var st := Master(p, f[ii - 1].newCases, f[ii - 1].newCases7ra, f[ii - 1].g);
    f[ii] := f[ii].(g := st.g, s := st.s, nsMin := st.nsMin, nsMax := st.nsMax, newCases := (st.nsMax + st.nsMin) / 2.0);
    ghost var advanced := f[..];
    assert advanced == old(f[..])[ii := Advance(p, old(f[..])[ii - 1], old(f[..])[ii])];
    var reach := if 7 < f.Length - ii then 7 else f.Length - ii;
    for nn := 0 to reach
      invariant f[..] == Spread(advanced, ii, ii + nn, advanced[ii].newCases / 7.0)
    {
      f[ii + nn] := f[ii + nn].(newCases7ra := f[ii + nn].newCases7ra + f[ii].newCases / 7.0);
    }
  }

  /** The table after the broadcast and the seeding of the first seven 7-day
      averages from the historical tail. */
  function Seeded(h: seq<HistoryRow>, p: Params, days: nat): (f: seq<ForecastRow>)
    requires |h| >= 2
    ensures |f| == days
  {
    seq(days, k requires 0 <= k < days => SeedRow(h, p, k).(newCases7ra := SeedRa(h, k)))
  }

  /** The table after steps 1 .. t of the propagation loop. */
  function Walk(rows: seq<ForecastRow>, t: nat, p: Params): (r: seq<ForecastRow>)
    requires t < |rows|
    ensures |r| == |rows|
  {
    if t == 0 then rows else StepRows(Walk(rows, t - 1, p), t, p)
  }

  /** What steps 1 .. t establish about the table `f` of `days` slots. */
  predicate Progress(h: seq<HistoryRow>, p: Params, days: nat, f: seq<ForecastRow>, t: nat)
    requires |h| >= 2
  {
    |f| == days && t < days &&
    (forall i :: 0 <= i < days ==> f[i].day == h[|h| - 1].day + 1 + i) &&
    f[0] == SeedRow(h, p, 0).(newCases7ra := SeedRa(h, 0)) &&
    (forall i :: 1 <= i <= t ==> Stepped(p, f[i - 1], f[i])) &&
    WindowsUpTo(h, f, t)
  }

  lemma SeededProgress(h: seq<HistoryRow>, p: Params, days: nat)
    requires |h| >= 2 && 1 <= days
    ensures Progress(h, p, days, Seeded(h, p, days), 0)
  {
    var f := Seeded(h, p, days);
    forall k | 0 <= k < days
      ensures f[k].newCases7ra == SeedRa(h, k) + Sum(ForecastCases(f)[ContribStart(k)..ContribEnd(k, 0)]) / 7.0
    {
      assert ContribEnd(k, 0) == ContribStart(k);
    }
  }

  lemma StepProgress(h: seq<HistoryRow>, p: Params, days: nat, f: seq<ForecastRow>, t: nat)
    requires |h| >= 2 && 1 <= t < days
    requires Progress(h, p, days, f, t - 1)
    ensures Progress(h, p, days, StepRows(f, t, p), t)
  {
    var x := Advance(p, f[t - 1], f[t]);
    StepKeepsDays(h, p, f, t);
    StepKeepsStepped(p, f, t);
    StepIsSpread(f, t, p, x);
    SpreadKeepsWindows(h, f, t, x);
  }

  /** Step t is the write of slot t followed by the spread of its count. */
  lemma StepIsSpread(f: seq<ForecastRow>, t: nat, p: Params, x: ForecastRow)
    requires 1 <= t < |f| && x == Advance(p, f[t - 1], f[t])
    ensures StepRows(f, t, p) == Spread(f[t := x], t, t + Reach(|f|, t), x.newCases / 7.0)
  {
  }

  /** Step t leaves the days and slot 0 alone. */
  lemma StepKeepsDays(h: seq<HistoryRow>, p: Params, f: seq<ForecastRow>, t: nat)
    requires |h| >= 2 && 1 <= t < |f|
    ensures forall i :: 0 <= i < |f| ==> StepRows(f, t, p)[i].day == f[i].day
    ensures StepRows(f, t, p)[0] == f[0]
  {
  }

  /** Step t extends the stepped prefix by slot t. */
  lemma StepKeepsStepped(p: Params, f: seq<ForecastRow>, t: nat)
    requires 1 <= t < |f|
    requires forall i :: 1 <= i < t ==> Stepped(p, f[i - 1], f[i])
    ensures forall i :: 1 <= i <= t ==> Stepped(p, StepRows(f, t, p)[i - 1], StepRows(f, t, p)[i])
  {
    var r := StepRows(f, t, p);
    StepFootprint(f, t, p);
    forall i | 1 <= i <= t
      ensures Stepped(p, r[i - 1], r[i])
    {
      if i < t {
        assert r[i - 1] == f[i - 1] && r[i] == f[i];
      }
    }
  }

  lemma {:induction false} WalkProgress(h: seq<HistoryRow>, p: Params, days: nat, t: nat)
    requires |h| >= 2 && t < days
    ensures Progress(h, p, days, Walk(Seeded(h, p, days), t, p), t)
  {
    if t == 0 {
      SeededProgress(h, p, days);
    } else {
      WalkProgress(h, p, days, t - 1);
      StepProgress(h, p, days, Walk(Seeded(h, p, days), t - 1, p), t);
    }
  }

  /** Once every step has run, the table is the forecast. */
  lemma ProgressComplete(h: seq<HistoryRow>, p: Params, days: nat, f: seq<ForecastRow>)
    requires |h| >= 2 && 1 <= days
    requires Progress(h, p, days, f, days - 1)
    ensures IsForecast(h, p, days, f)
  {
    forall i | 0 <= i < days
      ensures f[i].newCases7ra == SeedRa(h, i) + Sum(ForecastCases(f)[ContribStart(i)..i + 1]) / 7.0
    {
      assert ContribEnd(i, days - 1) == i + 1;
    }
  }

  /** Broadcasts the seeds and seeds the first seven 7-day averages. */
  method SeedTable(h: seq<HistoryRow>, p: Params, days: nat) returns (f: array<ForecastRow>)
    requires |h| >= 2 && days >= 7
    ensures fresh(f) && f.Length == days && f[..] == Seeded(h, p, days)
  {
    f := new ForecastRow[days](i => SeedRow(h, p, i));
    for kk := 0 to 7
      invariant forall k :: 0 <= k < days ==>
                  f[k] == SeedRow(h, p, k).(newCases7ra := if k < kk then SeedRa(h, k) else 0.0)
    {
      f[kk] := f[kk].(newCases7ra := Sum(HistoryCases(h)[TailStart(|h|, kk)..|h| - 1]) / 7.0);
    }
  }

  /** Builds the forecast table over `days` slots: broadcast the seeds, seed
      the first seven 7-day averages from the historical tail, then run the
      propagation steps 1 .. days - 1. */
  method Propagate(h: seq<HistoryRow>, p: Params, days: int) returns (rows: seq<ForecastRow>)
    requires |h| >= 2 && days >= 7
    ensures rows == Walk(Seeded(h, p, days), days - 1, p)
    ensures IsForecast(h, p, days, rows)
  {
    rows := BuildTable(h, p, days);
    WalkIsForecast(h, p, days, rows);
  }

  /** Seeds the table in an array and runs the propagation loop over it. */
  method BuildTable(h: seq<HistoryRow>, p: Params, days: int) returns (rows: seq<ForecastRow>)
    requires |h| >= 2 && days >= 7
    ensures rows == Walk(Seeded(h, p, days), days - 1, p)
  {
    var f := SeedTable(h, p, days);
    ghost var seeded := f[..];
    assert f.Length == days;
    RunSteps(f, p);
    assert f[..] == Walk(seeded, days - 1, p);
    rows := f[..];
  }

  /** The propagation loop: steps 1 .. f.Length - 1, in place. */
  method RunSteps(f: array<ForecastRow>, p: Params)
    requires 1 <= f.Length
    modifies f
    ensures f[..] == Walk(old(f[..]), f.Length - 1, p)
  {
    ghost var start := f[..];
    for ii := 1 to f.Length
      invariant f[..] == Walk(start, ii - 1, p)
    {
      PropagateStep(f, ii, p);
    }
  }

  /** The table after all days - 1 steps is the forecast. */
  lemma WalkIsForecast(h: seq<HistoryRow>, p: Params, days: nat, rows: seq<ForecastRow>)
    requires |h| >= 2 && 1 <= days
    requires rows == Walk(Seeded(h, p, days), days - 1, p)
    ensures IsForecast(h, p, days, rows)
  {
    WalkProgress(h, p, days, days - 1);
    ProgressComplete(h, p, days, rows);
  }

  /** The series the forecast's averages run over: the historical counts
      without the last day, followed by the forecast counts without slot 0. */
  function Combined(h: seq<HistoryRow>, f: seq<ForecastRow>): (c: seq<real>)
    requires |h| >= 1 && |f| >= 1
    ensures |c| == |h| - 1 + |f| - 1
  {
    HistoryCases(h)[..|h| - 1] + ForecastCases(f)[1..]
  }

  /** The window of the combined series that ends before slot i's entry
      splits into the historical tail and the forecast slots that reach i. */
  lemma CombinedWindow(hc: seq<real>, fc: seq<real>, i: nat)
    requires 1 <= |hc| && i < |fc|
    ensures TailStart(|hc|, i) <= |hc| - 1 + i <= |hc| - 1 + |fc| - 1
    ensures Sum((hc[..|hc| - 1] + fc[1..])[TailStart(|hc|, i)..|hc| - 1 + i]) ==
            (if i < 7 then Sum(hc[TailStart(|hc|, i)..|hc| - 1]) else 0.0) + Sum(fc[ContribStart(i)..i + 1])
  {
    if i < 7 {
      ShortWindow(hc, fc, i);
    } else {
      LongWindow(hc, fc, i);
    }
  }

  /** Before slot 7 the window reaches back into the history. */
  lemma ShortWindow(hc: seq<real>, fc: seq<real>, i: nat)
    requires 1 <= |hc| && i < |fc| && i < 7
    ensures Sum((hc[..|hc| - 1] + fc[1..])[TailStart(|hc|, i)..|hc| - 1 + i]) ==
            Sum(hc[TailStart(|hc|, i)..|hc| - 1]) + Sum(fc[1..i + 1])
  {
    var L := |hc|;
    var lo := TailStart(L, i);
    var x, y := hc[..L - 1], fc[1..];
    ConcatSlice(x, y, lo, L - 1 + i);
    assert x[lo..] == hc[lo..L - 1];
    assert y[..i] == fc[1..i + 1];
    SumAppend(hc[lo..L - 1], fc[1..i + 1]);
  }

  /** A slice of a concatenation that straddles the seam. */
  lemma ConcatSlice(x: seq<real>, y: seq<real>, lo: nat, hi: nat)
    requires lo <= |x| <= hi <= |x| + |y|
    ensures (x + y)[lo..hi] == x[lo..] + y[..hi - |x|]
  {
    var a, b := (x + y)[lo..hi], x[lo..] + y[..hi - |x|];
    assert |a| == |b|;
    forall k | 0 <= k < |a|
      ensures a[k] == b[k]
    {
      if lo + k < |x| {
        assert a[k] == x[lo + k] == b[k];
      } else {
        assert a[k] == y[lo + k - |x|] == b[k];
      }
    }
  }

  /** From slot 7 on the window lies inside the forecast. */
  lemma LongWindow(hc: seq<real>, fc: seq<real>, i: nat)
    requires 1 <= |hc| && 7 <= i < |fc|
    ensures Sum((hc[..|hc| - 1] + fc[1..])[TailStart(|hc|, i)..|hc| - 1 + i]) == Sum(fc[i - 6..i + 1])
  {
    var L := |hc|;
    var c := hc[..L - 1] + fc[1..];
    assert c[L + i - 8..L - 1 + i] == fc[i - 6..i + 1];
  }

  /** Every forecast average is a seventh of the window of the combined series
      that ends just before slot i's own entry (slot i's count sits at index
      |h| - 2 + i); the window holds seven entries once |h| + i >= 8 and is
      clipped at the start of the series before that. */
  lemma ForecastWindow(h: seq<HistoryRow>, p: Params, days: int, f: seq<ForecastRow>, i: nat)
    requires IsForecast(h, p, days, f) && i < days
    ensures TailStart(|h|, i) <= |h| - 1 + i <= |Combined(h, f)|
    ensures |h| + i >= 8 ==> |h| - 1 + i - TailStart(|h|, i) == 7
    ensures f[i].newCases7ra == Sum(Combined(h, f)[TailStart(|h|, i)..|h| - 1 + i]) / 7.0
  {
    CombinedWindow(HistoryCases(h), ForecastCases(f), i);
  }

  /** From slot 7 on, the forecast's average column is the same trailing
      7-day mean as the historical one, over the forecast counts alone. */
  lemma ForecastInterior(h: seq<HistoryRow>, p: Params, days: int, f: seq<ForecastRow>, i: nat)
    requires IsForecast(h, p, days, f) && 7 <= i < days
    ensures f[i].newCases7ra == TrailingMean(ForecastCases(f), i)
  {
  }

  /** Two tables of the same length with the same slot 0 and the same days,
      whose slots agree on the step wherever their predecessors agree, and
      whose averages are the same seeds plus a seventh of their own counts. */
  predicate Alike(seeds: seq<real>, a: seq<ForecastRow>, b: seq<ForecastRow>)
  {
    |a| == |b| == |seeds| && 0 < |a| && a[0] == b[0] &&
    (forall i :: 0 <= i < |a| ==> a[i].day == b[i].day) &&
    (forall i :: 1 <= i < |a| && a[i - 1] == b[i - 1] ==>
       StepOfSlot(a[i]) == StepOfSlot(b[i]) && a[i].newCases == b[i].newCases) &&
    (forall i :: 0 <= i < |a| ==>
       a[i].newCases7ra == seeds[i] + Sum(ForecastCases(a)[ContribStart(i)..i + 1]) / 7.0 &&
       b[i].newCases7ra == seeds[i] + Sum(ForecastCases(b)[ContribStart(i)..i + 1]) / 7.0)
  }

  /** Alike tables agree up to slot k. */
  lemma {:induction false} PrefixAgree(seeds: seq<real>, a: seq<ForecastRow>, b: seq<ForecastRow>, k: nat)
    requires Alike(seeds, a, b) && k < |a|
    ensures forall i :: 0 <= i <= k ==> a[i] == b[i]
  {
    if k > 0 {
      PrefixAgree(seeds, a, b, k - 1);
      SlotAgrees(seeds, a, b, k);
    }
  }

  /** Alike tables that agree before slot k agree at slot k. */
  lemma SlotAgrees(seeds: seq<real>, a: seq<ForecastRow>, b: seq<ForecastRow>, k: nat)
    requires Alike(seeds, a, b) && 1 <= k < |a|
    requires forall i :: 0 <= i < k ==> a[i] == b[i]
    ensures a[k] == b[k]
  {
    var ca, cb := ForecastCases(a), ForecastCases(b);
    assert a[k - 1] == b[k - 1];
    assert ca[k] == cb[k];
    SumAgree(ca, cb, ContribStart(k), k + 1);
    assert StepOfSlot(a[k]) == StepOfSlot(b[k]);
  }

  /** The forecast is determined by the history, the weights and the horizon. */
  lemma ForecastUnique(h: seq<HistoryRow>, p: Params, days: int, a: seq<ForecastRow>, b: seq<ForecastRow>)
    requires IsForecast(h, p, days, a) && IsForecast(h, p, days, b)
    ensures a == b
  {
    var seeds := seq(days, i requires 0 <= i < days => SeedRa(h, i));
    forall i | 1 <= i < days && a[i - 1] == b[i - 1]
      ensures StepOfSlot(a[i]) == StepOfSlot(b[i]) && a[i].newCases == b[i].newCases
    {
      assert Stepped(p, a[i - 1], a[i]) && Stepped(p, b[i - 1], b[i]);
    }
    PrefixAgree(seeds, a, b, days - 1);
  }

  /** One propagated slot from a slot with non-negative count and average:
      ratio in [0, 1], ordered non-negative band, non-negative count. */
  lemma SlotInBand(p: Params, prev: ForecastRow, cur: ForecastRow)
    requires Stepped(p, prev, cur) && p.NonNegative()
    requires 0.0 <= prev.newCases && 0.0 <= prev.newCases7ra
    ensures 0.0 <= cur.g <= 1.0 && 0.0 <= cur.nsMin <= cur.nsMax && 0.0 <= cur.newCases
  {
    MasterRatio(p, prev.newCases, prev.newCases7ra, prev.g);
    MasterBand(p, prev.newCases, prev.newCases7ra, prev.g);
  }

  /** The historical part of every average is non-negative for non-negative counts. */
  lemma SeedRaNonNegative(h: seq<HistoryRow>, k: nat)
    requires |h| >= 1
    requires forall j :: 0 <= j < |h| ==> 0.0 <= h[j].newCases
    ensures 0.0 <= SeedRa(h, k)
  {
    if k < 7 {
      var tail := HistoryCases(h)[TailStart(|h|, k)..|h| - 1];
      SumLower(tail, 0.0);
    }
  }

  /** Slot 0 has a non-negative count and an ordered non-negative band. */
  lemma SeedInBand(h: seq<HistoryRow>, p: Params)
    requires |h| >= 2 && p.NonNegative()
    requires 0.0 <= h[|h| - 1].newCases && 0.0 <= h[|h| - 1].newCases7ra
    ensures var r := SeedRow(h, p, 0);
            0.0 <= r.nsMin <= r.nsMax && 0.0 <= r.newCases
  {
    var last := h[|h| - 1];
    MasterBand(p, last.newCases, last.newCases7ra, last.g);
  }

  /** An average made of a non-negative seed and non-negative counts. */
  lemma AverageNonNegative(ra: real, seed: real, w: seq<real>)
    requires ra == seed + Sum(w) / 7.0 && 0.0 <= seed
    requires forall j :: 0 <= j < |w| ==> 0.0 <= w[j]
    ensures 0.0 <= ra
  {
    SumLower(w, 0.0);
  }

  /** Slots 0 .. k have non-negative counts and averages, propagated slots have
      ratios in [0, 1], and every slot has an ordered non-negative band. */
  lemma {:induction false} ForecastPrefixInBand(h: seq<HistoryRow>, p: Params, days: int, f: seq<ForecastRow>, k: nat)
    requires IsForecast(h, p, days, f) && p.NonNegative() && k < days
    requires forall j :: 0 <= j < |h| ==> 0.0 <= h[j].newCases && 0.0 <= h[j].newCases7ra
    ensures forall i :: 0 <= i <= k ==>
              0.0 <= f[i].newCases && 0.0 <= f[i].newCases7ra && 0.0 <= f[i].nsMin <= f[i].nsMax
    ensures forall i :: 1 <= i <= k ==> 0.0 <= f[i].g <= 1.0
  {
    SeedRaNonNegative(h, k);
    if k == 0 {
      SeedInBand(h, p);
    } else {
      ForecastPrefixInBand(h, p, days, f, k - 1);
      SlotInBand(p, f[k - 1], f[k]);
      var w := ForecastCases(f)[ContribStart(k)..k + 1];
      AverageNonNegative(f[k].newCases7ra, SeedRa(h, k), w);
    }
  }

  lemma ForecastInBand(h: seq<HistoryRow>, p: Params, days: int, f: seq<ForecastRow>)
    requires IsForecast(h, p, days, f) && p.NonNegative()
    requires forall j :: 0 <= j < |h| ==> 0.0 <= h[j].newCases && 0.0 <= h[j].newCases7ra
    ensures forall i :: 0 <= i < days ==>
              0.0 <= f[i].newCases && 0.0 <= f[i].newCases7ra && 0.0 <= f[i].nsMin <= f[i].nsMax
    ensures forall i :: 1 <= i < days ==> 0.0 <= f[i].g <= 1.0
  {
    ForecastPrefixInBand(h, p, days, f, days - 1);
  }

  /** The forecast covers the `days` days after the last historical day and no others. */
  lemma ForecastDays(h: seq<HistoryRow>, p: Params, days: int, f: seq<ForecastRow>)
    requires IsForecast(h, p, days, f)
    ensures |f| == days
    ensures forall i :: 0 <= i < |f| ==> h[|h| - 1].day < f[i].day <= h[|h| - 1].day + days
  {
  }

  /** Each propagated count is its predecessor's count times the new ratio
      times (3 p1 + 7 p2 + 11 p3) / 2, which is 2.6 for the default weights. */
  lemma SteppedCases(p: Params, prev: ForecastRow, cur: ForecastRow)
    requires Stepped(p, prev, cur)
    ensures cur.newCases == cur.g * prev.newCases * (3.0 * p.p1 + 7.0 * p.p2 + 11.0 * p.p3) / 2.0
  {
    MeanOf(p, prev.newCases, cur.g, cur.nsMin, cur.nsMax);
  }

  /** From a slot whose count equals its average c > 1e-10 (Epsilon), the
      next slot has ratio 1 and count 2.6 c under the default weights: the
      forecast does not settle at a constant on a flat series. */
  lemma FlatSlot(prev: ForecastRow, cur: ForecastRow, c: real)
    requires Stepped(DefaultParams, prev, cur)
    requires prev.newCases == c && prev.newCases7ra == c && Epsilon < c
    ensures cur.g == 1.0 && cur.newCases == 2.6 * c
  {
    FlatStep(DefaultParams, c, prev.g);
    SteppedCases(DefaultParams, prev, cur);
  }

  /** Under the default weights, seven equal forecast counts c > 1e-10
      (Epsilon) ending at a slot k >= 7 make that slot's average c, so slot
      k + 1's count is 2.6 c. */
  lemma FlatWindowGrows(h: seq<HistoryRow>, days: int, f: seq<ForecastRow>, k: nat, c: real)
    requires IsForecast(h, DefaultParams, days, f) && 7 <= k < days - 1 && Epsilon < c
    requires forall j :: k - 6 <= j <= k ==> f[j].newCases == c
    ensures f[k + 1].newCases == 2.6 * c
  {
    ForecastInterior(h, DefaultParams, days, f, k);
    var w := ForecastCases(f)[k - 6..k + 1];
    assert forall j :: 0 <= j < |w| ==> w[j] == f[k - 6 + j].newCases;
    MeanBounds(w, c, c);
    assert Stepped(DefaultParams, f[k], f[k + 1]);
    FlatSlot(f[k], f[k + 1], c);
  }

  /** The forecast never settles: under the default weights no forecast of
      sixteen or more days holds one count c > 1e-10 (Epsilon) on every slot
      from 7 on. */
  lemma ForecastNeverSettles(h: seq<HistoryRow>, days: int, f: seq<ForecastRow>, c: real)
    requires IsForecast(h, DefaultParams, days, f) && days >= 16 && Epsilon < c
    ensures exists i :: 7 <= i < days && f[i].newCases != c
  {
    if forall j :: 8 <= j <= 14 ==> f[j].newCases == c {
      FlatWindowGrows(h, days, f, 14, c);
      assert f[15].newCases != c;
    } else {
      var j :| 8 <= j <= 14 && f[j].newCases != c;
      assert 7 <= j < days;
    }
  }

  /** With at least eight historical rows, the seeded average of slot 0 is the
      rolling average of the second-to-last historical day. */
  lemma SeedRaIsPreviousAverage(obs: seq<Observation>, p: Params, h: seq<HistoryRow>)
    requires IsHistory(obs, p, h) && |h| >= 8
    ensures SeedRa(h, 0) == h[|h| - 2].newCases7ra
  {
    HistoryAverage(obs, p, h, |h| - 2);
    SeedRaIsTrailingMean(h);
  }

  /** The seeded average of slot 0 is the trailing mean of the counts at the
      second-to-last historical day. */
  lemma SeedRaIsTrailingMean(h: seq<HistoryRow>)
    requires |h| >= 8
    ensures SeedRa(h, 0) == TrailingMean(HistoryCases(h), |h| - 2)
  {
    TailIsWindow(HistoryCases(h));
  }

  /** The seven entries before the last one are the trailing window of the
      second-to-last entry. */
  lemma TailIsWindow(xs: seq<real>)
    requires |xs| >= 8
    ensures Sum(xs[TailStart(|xs|, 0)..|xs| - 1]) / 7.0 == TrailingMean(xs, |xs| - 2)
  {
    assert WindowStart(|xs| - 2) == TailStart(|xs|, 0) == |xs| - 8;
  }

  /** With at least eight historical rows, the broadcast g and s are the
      7-day averages of g and s on the second-to-last historical day. */
  lemma SeedIsPreviousAverage(obs: seq<Observation>, p: Params, h: seq<HistoryRow>)
    requires IsHistory(obs, p, h) && |h| >= 8
    ensures SeedG(h) == h[|h| - 2].g7ra
    ensures SeedS(h) == h[|h| - 2].s7ra
  {
  }
}
