/**
 * pyology/tracker.py: a tracker keeps, per metric, the list of
 * (step, value) pairs logged, numbering every log call with a single running
 * step counter; the report is each metric's mean. EnergyTracker and
 * CO2Tracker only add fixed-name logging calls, so they are methods of the
 * one class here.
 */
module Tracking {
  import opened Common

  type Entry = (nat, real)
  type Metrics = map<string, seq<Entry>>

  const AtpYield: string := "ATP Yield"
  const NadhContribution: string := "NADH Contribution"
  const Fadh2Contribution: string := "FADH2 Contribution"
  const Co2Production: string := "CO2 Production"

  /** One `log_change`: append (step, value) to the metric's list, creating it if new. */
  function Log(m: Metrics, metric: string, step: nat, value: real): (r: Metrics)
    ensures r.Keys == m.Keys + {metric}
    ensures r[metric] == (if metric in m then m[metric] else []) + [(step, value)]
    ensures forall k :: k in m && k != metric ==> r[k] == m[k]
  {
    m[metric := (if metric in m then m[metric] else []) + [(step, value)]]
  }

  /** The metrics after logging `history` in order from a fresh start: call i gets step i. */
  function Replay(history: seq<(string, real)>): (r: Metrics)
    ensures history == [] <==> r == map[]
    ensures history != [] ==> var last := history[|history| - 1];
      last.0 in r && |r[last.0]| > 0 && r[last.0][|r[last.0]| - 1] == (|history| - 1, last.1)
  {
    if history == [] then map[]
    else Log(Replay(history[..|history| - 1]), history[|history| - 1].0, |history| - 1, history[|history| - 1].1)
  }

  /** Logging one metric leaves every other metric's list as it was. */
  lemma LogOthersUntouched(m: Metrics, metric: string, step: nat, value: real, other: string)
    requires other != metric
    ensures other in Log(m, metric, step, value) <==> other in m
    ensures other in m ==> Log(m, metric, step, value)[other] == m[other]
  {
  }

  /** No tracked list is ever empty. */
  lemma {:induction false} ReplayNonEmpty(history: seq<(string, real)>)
    ensures forall k :: k in Replay(history) ==> |Replay(history)[k]| > 0
  {
    if history != [] {
      ReplayNonEmpty(history[..|history| - 1]);
    }
  }

  /** Every recorded entry (s, v) under metric k is the log call number s, which logged v to k. */
  lemma {:induction false} ReplaySound(history: seq<(string, real)>)
    ensures forall k, j :: k in Replay(history) && 0 <= j < |Replay(history)[k]| ==>
      Replay(history)[k][j].0 < |history| && history[Replay(history)[k][j].0] == (k, Replay(history)[k][j].1)
  {
    if history != [] {
      var init := history[..|history| - 1];
      ReplaySound(init);
      assert forall i :: 0 <= i < |init| ==> history[i] == init[i];
    }
  }

  /** Every log call is recorded, under its metric, with its step number. */
  lemma {:induction false} ReplayComplete(history: seq<(string, real)>)
    ensures forall i :: 0 <= i < |history| ==>
      history[i].0 in Replay(history) && (i, history[i].1) in Replay(history)[history[i].0]
  {
    if history != [] {
      var init := history[..|history| - 1];
      ReplayComplete(init);
      forall i | 0 <= i < |history|
        ensures history[i].0 in Replay(history) && (i, history[i].1) in Replay(history)[history[i].0]
      {
        if i < |init| {
          assert history[i] == init[i];
          assert (i, init[i].1) in Replay(init)[init[i].0];
        }
      }
    }
  }

  /** Within a metric, steps strictly increase: entries stay in logging order and no step repeats. */
  lemma {:induction false} ReplayOrdered(history: seq<(string, real)>)
    ensures forall k, j1, j2 :: k in Replay(history) && 0 <= j1 < j2 < |Replay(history)[k]| ==>
      Replay(history)[k][j1].0 < Replay(history)[k][j2].0
  {
    if history != [] {
      var init := history[..|history| - 1];
      ReplayOrdered(init);
      ReplaySound(init);
    }
  }

  function Sum(values: seq<Entry>): real
  {
    if values == [] then 0.0 else Sum(values[..|values| - 1]) + values[|values| - 1].1
  }

  /** `report`: each metric's mean; an empty list would divide by zero. */
  function Report(m: Metrics): (r: Result<map<string, real>>)
    ensures r.Raise? <==> exists k :: k in m && m[k] == []
    ensures r.Raise? ==> r.error == ZeroDivisionError
    ensures r.Ok? ==> r.value.Keys == m.Keys
  {
    if exists k :: k in m && m[k] == [] then Raise(ZeroDivisionError)
    else Ok(map k | k in m :: Sum(m[k]) / (|m[k]| as real))
  }

  /** The sum of values all within [lo, hi] lies within [n·lo, n·hi]. */
  lemma {:induction false} SumBounds(values: seq<Entry>, lo: real, hi: real)
    requires forall i :: 0 <= i < |values| ==> lo <= values[i].1 <= hi
    ensures (|values| as real) * lo <= Sum(values) <= (|values| as real) * hi
  {
    if values != [] {
      var init := values[..|values| - 1];
      assert forall i :: 0 <= i < |init| ==> init[i] == values[i];
      SumBounds(init, lo, hi);
      assert (|values| as real) * lo == (|init| as real) * lo + lo;
      assert (|values| as real) * hi == (|init| as real) * hi + hi;
    }
  }

  /** A reported mean lies between the smallest and the largest value logged for that metric. */
  lemma MeanBounds(m: Metrics, k: string, lo: real, hi: real)
    requires Report(m).Ok? && k in m
    requires forall i :: 0 <= i < |m[k]| ==> lo <= m[k][i].1 <= hi
    ensures lo <= Report(m).value[k] <= hi
  {
    SumBounds(m[k], lo, hi);
    var n := |m[k]| as real;
    assert Report(m).value[k] == Sum(m[k]) / n;
    QuotientBounds(Sum(m[k]), n, lo, hi);
  }

  /** A total within [n·lo, n·hi] over n > 0 values has its mean within [lo, hi]. */
  lemma QuotientBounds(total: real, n: real, lo: real, hi: real)
    requires n > 0.0 && n * lo <= total <= n * hi
    ensures lo <= total / n <= hi
  {
    assert total / n - lo == (total - n * lo) / n;
    assert hi - total / n == (n * hi - total) / n;
  }

  /** Logging through the class never divides by zero in the report. */
  lemma ReplayReports(history: seq<(string, real)>)
    ensures Report(Replay(history)).Ok?
  {
    ReplayNonEmpty(history);
  }

  /** Two readings of one metric report their mean, as in the 10.0 and 20.0 example. */
  lemma ReportTwoValues(metric: string, a: real, b: real)
    ensures Report(Replay([(metric, a), (metric, b)])) == Ok(map[metric := (a + b) / 2.0])
  {
    var h := [(metric, a), (metric, b)];
    var first: seq<Entry> := [(0, a)];
    var l: seq<Entry> := [(0, a), (1, b)];
    assert h[..1] == [(metric, a)] && [(metric, a)][..0] == [];
    assert [] + first == first && first + [(1, b)] == l;
    assert Replay([(metric, a)]) == map[metric := first];
    assert Replay(h) == map[metric := l];
    assert l[..1] == first && first[..0] == [];
    assert Sum(first) == Sum([]) + a;
    assert Sum(l) == Sum(first) + b;
    assert Report(Replay(h)).value == map[metric := Sum(l) / 2.0];
  }

  class Tracker {
    var trackedMetrics: Metrics
    var simulationStep: nat
    /** The log calls since the last start or reset, in order. */
    ghost var history: seq<(string, real)>

    ghost predicate Valid()
      reads this
    {
      simulationStep == |history| && trackedMetrics == Replay(history)
    }

    constructor()
      ensures Valid() && history == []
      ensures trackedMetrics == map[] && simulationStep == 0
    {
      trackedMetrics := map[];
      simulationStep := 0;
      history := [];
    }

    method StartTracking()
      modifies this
      ensures Valid() && history == []
      ensures trackedMetrics == map[] && simulationStep == 0
    {
      trackedMetrics := map[];
      simulationStep := 0;
      history := [];
    }

    method Reset()
      modifies this
      ensures Valid() && history == []
      ensures trackedMetrics == map[] && simulationStep == 0
    {
      StartTracking();
    }

    method LogChange(metric: string, value: real)
      requires Valid()
      modifies this
      ensures Valid() && history == old(history) + [(metric, value)]
      ensures trackedMetrics == Log(old(trackedMetrics), metric, old(simulationStep), value)
      ensures simulationStep == old(simulationStep) + 1
    {
      if metric !in trackedMetrics {
        trackedMetrics := trackedMetrics[metric := []];
      }
      trackedMetrics := trackedMetrics[metric := trackedMetrics[metric] + [(simulationStep, value)]];
      history := history + [(metric, value)];
      assert history[..|history| - 1] == old(history);
      simulationStep := simulationStep + 1;
    }

    /** The mean per metric; under `Valid` every list is non-empty. */
    method ReportMeans() returns (r: Result<map<string, real>>)
      requires Valid()
      ensures r == Report(trackedMetrics) && r.Ok?
    {
      ReplayReports(history);
      r := Report(trackedMetrics);
    }

    /** `EnergyTracker.log_energy`: three consecutive log calls, at steps s, s + 1 and s + 2. */
    method LogEnergy(atpYield: real, nadhContribution: real, fadh2Contribution: real)
      requires Valid()
      modifies this
      ensures Valid()
      ensures history == old(history) + [(AtpYield, atpYield), (NadhContribution, nadhContribution),
        (Fadh2Contribution, fadh2Contribution)]
      ensures trackedMetrics == Log(Log(Log(old(trackedMetrics), AtpYield, old(simulationStep), atpYield),
        NadhContribution, old(simulationStep) + 1, nadhContribution),
        Fadh2Contribution, old(simulationStep) + 2, fadh2Contribution)
      ensures simulationStep == old(simulationStep) + 3
    {
      LogChange(AtpYield, atpYield);
      LogChange(NadhContribution, nadhContribution);
      LogChange(Fadh2Contribution, fadh2Contribution);
    }

    /** `CO2Tracker.log_co2_production`: one log call under the CO2 metric. */
    method LogCo2Production(co2Production: real)
      requires Valid()
      modifies this
      ensures Valid() && history == old(history) + [(Co2Production, co2Production)]
      ensures trackedMetrics == Log(old(trackedMetrics), Co2Production, old(simulationStep), co2Production)
      ensures simulationStep == old(simulationStep) + 1
    {
      LogChange(Co2Production, co2Production);
    }
  }

  /**
   * From a fresh start, `log_energy` records ATP yield at step 0, NADH at step 1
   * and FADH2 at step 2, and leaves the counter at 3.
   */
  lemma LogEnergyFromStart(atp: real, nadh: real, fadh2: real)
    ensures Log(Log(Log(map[], AtpYield, 0, atp), NadhContribution, 1, nadh), Fadh2Contribution, 2, fadh2)
      == map[AtpYield := [(0, atp)], NadhContribution := [(1, nadh)], Fadh2Contribution := [(2, fadh2)]]
  {
    assert AtpYield[0] == 'A' && NadhContribution[0] == 'N' && Fadh2Contribution[0] == 'F';
    var e0: seq<Entry>, e1: seq<Entry>, e2: seq<Entry> := [(0, atp)], [(1, nadh)], [(2, fadh2)];
    assert [] + e0 == e0 && [] + e1 == e1 && [] + e2 == e2;
  }
}
