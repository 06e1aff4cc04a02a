/**
 The dashboard state and its summary figures (src/pages/RegulatorDashboard.tsx
 lines 9-34, 256 and 274): the loaded list, the four summary counters set when
 the fetch settles, and the two ratio cards derived from them.
 */
module Dashboard {
  import opened Wrappers
  import opened Records
  import opened Counting
  import opened Service
  import Species
  import Flow
  import Compliance
  import Feed

  /** The `stats` state of lines 10-15. */
  datatype Stats = Stats(totalBatches: nat, totalFarmers: nat, complianceRate: nat, qualityIssues: nat)

  /** The component state: the `batches` list and the `stats` counters. */
  datatype State = State(batches: seq<BatchRecord>, stats: Stats)

  const ZeroStats: Stats := Stats(0, 0, 0, 0)

  /** Before the fetch settles: no batches and all counters 0 (lines 9-15). */
  const Initial: State := State([], ZeroStats)

  /**
   `new Set(allBatches.map(b => b.farmerID))`: the distinct farmer ids, where a
   missing id is one more value of its own. Every record's id is in the set,
   every member comes from some record, and there are at most as many ids as
   records and at least one when there is a record.
   */
  function Farmers(rs: seq<BatchRecord>): (fs: set<Option<string>>)
    ensures forall i :: 0 <= i < |rs| ==> rs[i].farmerId in fs
    ensures forall f :: f in fs ==> exists i :: 0 <= i < |rs| && rs[i].farmerId == f
    ensures |fs| <= |rs|
    ensures |fs| >= 1 <==> |rs| >= 1
  {
    if |rs| == 0 then {}
    else
      var init := rs[..|rs| - 1];
      var fs := Farmers(init);
      assert forall f :: f in fs ==> exists i :: 0 <= i < |rs| && rs[i].farmerId == f by {
        forall f | f in fs ensures exists i :: 0 <= i < |rs| && rs[i].farmerId == f {
          var i :| 0 <= i < |init| && init[i].farmerId == f;
          assert rs[i] == init[i];
        }
      }
      fs + {rs[|rs| - 1].farmerId}
  }

  /** The `then` and `catch` branches of lines 18-33. */
  function Load(f: FetchResult): State
  {
    match f
    case Fetched(rs) => State(rs, Stats(|rs|, |Farmers(rs)|, 100, 0))
    case FetchFailed => State([], ZeroStats)
  }

  /**
   After the fetch settles, a failure leaves no batches and all four counters
   0; a success counts the batches and the distinct farmers, with at most one
   farmer per batch and at least one farmer when there is a batch, and shows
   a compliance rate of 100 and no quality issues.
   */
  lemma LoadedStats(f: FetchResult)
    ensures f.FetchFailed? ==> Load(f).batches == [] && Load(f).stats == Stats(0, 0, 0, 0)
    ensures f.Fetched? ==>
      var s := Load(f).stats;
      && Load(f).batches == f.records
      && s.totalBatches == |f.records|
      && s.totalFarmers == |Farmers(f.records)|
      && s.totalFarmers <= s.totalBatches
      && (s.totalFarmers >= 1 <==> s.totalBatches >= 1)
      && s.complianceRate == 100 && s.qualityIssues == 0
  {
  }

  function Max(a: nat, b: nat): nat { if a >= b then a else b }

  /** `Math.max(...flow.map(s => s.batches), 0)`: the busiest month's count. */
  function Peak(flow: seq<Flow.FlowPoint>): (p: nat)
    ensures forall i :: 0 <= i < |flow| ==> flow[i].batches <= p
    ensures p == 0 || exists i :: 0 <= i < |flow| && flow[i].batches == p
  {
    if |flow| == 0 then 0 else Max(Peak(flow[..|flow| - 1]), flow[|flow| - 1].batches)
  }

  /** Line 256, "Supply Chain Efficiency": the peak month's share of all batches, capped at 100. */
  function Efficiency(s: State): nat
  {
    var x := Compliance.RoundPercent(Peak(Flow.SupplyChainFlow(s.batches)), Compliance.Denominator(s.stats.totalBatches));
    if x <= 100 then x else 100
  }

  /** Line 274, "Stakeholder Satisfaction": farmers per batch as a percentage, capped at 100. */
  function Satisfaction(s: State): nat
  {
    var x := Compliance.RoundPercent(s.stats.totalFarmers, Compliance.Denominator(s.stats.totalBatches));
    if x <= 100 then x else 100
  }

  /**
   For any state the fetch can produce, the cap of 100 never binds: the
   busiest month holds no more than all batches, and there are no more farmers
   than batches. The peak share is 0 when no record has a valid date, and the
   farmer share is 100 when every batch has its own farmer.
   */
  lemma LoadedRatios(f: FetchResult)
    ensures var s := Load(f);
      var n := Compliance.Denominator(s.stats.totalBatches);
      && Efficiency(s) == Compliance.RoundPercent(Peak(Flow.SupplyChainFlow(s.batches)), n) <= 100
      && Satisfaction(s) == Compliance.RoundPercent(s.stats.totalFarmers, n) <= 100
    ensures f.Fetched? && (forall i :: 0 <= i < |f.records| ==> !Flow.HasMonth(f.records[i])) ==>
      Efficiency(Load(f)) == 0
    ensures f.Fetched? && |f.records| >= 1 && |Farmers(f.records)| == |f.records| ==>
      Satisfaction(Load(f)) == 100
  {
    var s := Load(f);
    var flow := Flow.SupplyChainFlow(s.batches);
    Flow.FlowTotal(s.batches);
    var p := Peak(flow);
    if p > 0 {
      var i :| 0 <= i < |flow| && flow[i].batches == p;
      ElementAtMostSum(flow, i, Flow.Batches);
    }
    CountWhereNone(s.batches, Flow.HasMonth);
    Compliance.RoundPercentZero(0, Compliance.Denominator(s.stats.totalBatches));
    if s.stats.totalBatches >= 1 {
      Compliance.RoundPercentFull(s.stats.totalBatches);
    }
  }

  /** Everything the page renders from its state. */
  datatype Figures = Figures(
    stats: Stats,
    herbsByType: seq<Species.Slice>,
    supplyChainFlow: seq<Flow.FlowPoint>,
    complianceData: seq<Compliance.Metric>,
    recentBatches: seq<Feed.RecentRow>,
    efficiency: nat,
    satisfaction: nat)

  function Render(s: State): Figures
  {
    Figures(
      s.stats,
      Species.Distribution(s.batches),
      Flow.SupplyChainFlow(s.batches),
      Compliance.ComplianceData(s.batches),
      Feed.RecentBatches(s.batches),
      Efficiency(s),
      Satisfaction(s))
  }

  /**
   A failed fetch (and the state before any fetch) renders all-zero figures:
   no species, twelve empty months, three bars at 0, an empty feed and both
   ratios at 0.
   */
  lemma FailedFetchFigures()
    ensures Render(Load(FetchFailed)) == Render(Initial)
    ensures var g := Render(Initial);
      && g.stats == Stats(0, 0, 0, 0)
      && g.herbsByType == []
      && Flow.Shaped(g.supplyChainFlow)
      && (forall m :: 0 <= m < 12 ==> g.supplyChainFlow[m].batches == 0)
      && (forall i :: 0 <= i < 3 ==> g.complianceData[i].value == 0)
      && g.recentBatches == []
      && g.efficiency == 0 && g.satisfaction == 0
  {
    var g := Render(Initial);
    assert Load(FetchFailed) == Initial;
    assert g.herbsByType == [] by {
      assert Species.Tally(Species.Labels([])) == [];
    }
    Flow.EmptyFlow();
    Compliance.EmptyCompliance();
    assert |g.recentBatches| == 0;
    LoadedRatios(FetchFailed);
  }
}
