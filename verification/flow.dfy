/**
 Monthly flow (`flowMap` / `supplyChainFlow`, src/pages/RegulatorDashboard.tsx
 lines 45-54): a fixed January..December skeleton, and each record adds one
 batch to the month of `createdAt || harvestDate` when that date parses.
 Records of different years share the same twelve buckets.
 */
module Flow {
  import opened Wrappers
  import opened Records
  import opened Counting

  const MonthNames: seq<string> :=
    ["Jan", "Feb", "Mar", "Apr", "May", "Jun", "Jul", "Aug", "Sep", "Oct", "Nov", "Dec"]

  /** One point of the line chart. */
  datatype FlowPoint = FlowPoint(month: string, batches: nat, compliance: int)

  function Batches(p: FlowPoint): nat { p.batches }

  /** Month of a parsed timestamp field; `new Date(undefined)` and `new Date("")` are Invalid Dates. */
  function ParseMonth(s: Option<Stamp>): Option<Month>
  {
    match s
    case None => None
    case Some(st) => if |st.text| == 0 then None else st.month
  }

  /** The month `new Date(b.createdAt || b.harvestDate).getMonth()` names, if the date is valid. */
  function RecordMonth(b: BatchRecord): Option<Month>
  {
    if StampTruthy(b.createdAt) then ParseMonth(b.createdAt) else ParseMonth(b.harvestDate)
  }

  predicate HasMonth(b: BatchRecord) { RecordMonth(b).Some? }

  /** Number of records whose chosen date falls in month `m`. */
  function InMonth(rs: seq<BatchRecord>, m: Month): nat
  {
    CountWhere(rs, b => RecordMonth(b) == Some(m))
  }

  /** The twelve named months, in calendar order, each with compliance 100. */
  predicate Shaped(flow: seq<FlowPoint>)
  {
    && |flow| == 12
    && forall m :: 0 <= m < 12 ==> flow[m].month == MonthNames[m] && flow[m].compliance == 100
  }

  /** Lines 46-47: every month starts at zero batches and compliance 100. */
  function Skeleton(): (s: seq<FlowPoint>)
    ensures Shaped(s)
    ensures forall m :: 0 <= m < 12 ==> s[m].batches == 0
  {
    seq(12, m requires 0 <= m < 12 => FlowPoint(MonthNames[m], 0, 100))
  }

  /**
   One iteration of the `forEach` of lines 48-53: at most one bucket, the one
   of the record's month, gains one batch; with no valid date nothing changes.
   */
  function Tick(flow: seq<FlowPoint>, b: BatchRecord): (r: seq<FlowPoint>)
    requires |flow| == 12
    ensures |r| == 12
    ensures Shaped(flow) ==> Shaped(r)
    ensures forall m :: 0 <= m < 12 && RecordMonth(b) != Some(m) ==> r[m] == flow[m]
    ensures forall m :: 0 <= m < 12 && RecordMonth(b) == Some(m) ==> r[m].batches == flow[m].batches + 1
    ensures RecordMonth(b).None? ==> r == flow
  {
    match RecordMonth(b)
    case None => flow
    case Some(m) => flow[m := flow[m].(batches := flow[m].batches + 1)]
  }

  /**
   The monthly flow: twelve points January..December with compliance 100,
   where month `m` counts exactly the records whose chosen date lies in `m`.
   */
  function SupplyChainFlow(rs: seq<BatchRecord>): (r: seq<FlowPoint>)
    ensures Shaped(r)
    ensures forall m: Month :: r[m].batches == InMonth(rs, m)
  {
    if |rs| == 0 then Skeleton() else Tick(SupplyChainFlow(rs[..|rs| - 1]), rs[|rs| - 1])
  }

  /** On an empty list every month shows zero batches. */
  lemma EmptyFlow()
    ensures Shaped(SupplyChainFlow([]))
    ensures forall m :: 0 <= m < 12 ==> SupplyChainFlow([])[m].batches == 0
  {
  }

  /**
   The batches of all months add up to the number of records with a valid
   date; that is at most the number of records, with equality exactly when
   every record's date parses.
   */
  lemma {:induction false} FlowTotal(rs: seq<BatchRecord>)
    ensures SumOf(SupplyChainFlow(rs), Batches) == CountWhere(rs, HasMonth) <= |rs|
    ensures SumOf(SupplyChainFlow(rs), Batches) == |rs| <==> forall i :: 0 <= i < |rs| ==> HasMonth(rs[i])
  {
    CountWhereAll(rs, HasMonth);
    if |rs| == 0 {
      var s := Skeleton();
      assert SumOf(s, Batches) == 0 by {
        SkeletonSum(s, 12);
        assert s[..12] == s;
      }
    } else {
      var init := rs[..|rs| - 1];
      FlowTotal(init);
      TickSum(SupplyChainFlow(init), rs[|rs| - 1]);
    }
  }

  /** One record adds one batch to the total exactly when its date is valid. */
  lemma TickSum(flow: seq<FlowPoint>, b: BatchRecord)
    requires |flow| == 12
    ensures SumOf(Tick(flow, b), Batches) == SumOf(flow, Batches) + (if HasMonth(b) then 1 else 0)
  {
    match RecordMonth(b)
    case None =>
    case Some(m) =>
      SumOfUpdate(flow, m, flow[m].(batches := flow[m].batches + 1), Batches);
  }

  lemma {:induction false} SkeletonSum(s: seq<FlowPoint>, n: nat)
    requires n <= |s|
    requires forall m :: 0 <= m < n ==> s[m].batches == 0
    ensures SumOf(s[..n], Batches) == 0
  {
    if n > 0 {
      assert s[..n][..n - 1] == s[..n - 1];
      SkeletonSum(s, n - 1);
    }
  }

  /**
   A record with a non-empty `createdAt` that does not parse is dropped, even
   when its `harvestDate` is valid: the fallback applies only to a falsy `createdAt`.
   */
  lemma UnparsableCreatedAtDropped(rs: seq<BatchRecord>, b: BatchRecord)
    requires StampTruthy(b.createdAt) && b.createdAt.value.month.None?
    ensures SupplyChainFlow(rs + [b]) == SupplyChainFlow(rs)
  {
    assert (rs + [b])[..|rs|] == rs;
  }

  /** A record with a falsy `createdAt` is counted in the month of its `harvestDate`. */
  lemma HarvestDateFallback(rs: seq<BatchRecord>, b: BatchRecord, m: Month)
    requires !StampTruthy(b.createdAt)
    requires b.harvestDate.Some? && |b.harvestDate.value.text| > 0 && b.harvestDate.value.month == Some(m)
    ensures SupplyChainFlow(rs + [b])[m].batches == SupplyChainFlow(rs)[m].batches + 1
    ensures forall m' :: 0 <= m' < 12 && m' != m ==> SupplyChainFlow(rs + [b])[m'] == SupplyChainFlow(rs)[m']
  {
    assert (rs + [b])[..|rs|] == rs;
  }
}
