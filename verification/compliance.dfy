/**
 Compliance metrics (`complianceData`, src/pages/RegulatorDashboard.tsx lines
 56-65): three fixed categories, each the rounded percentage of records that
 pass one completeness test, over `batches.length || 1`.
 */
module Compliance {
  import opened Wrappers
  import opened Records
  import opened Counting

  /** One bar of the compliance chart. */
  datatype Metric = Metric(category: string, value: nat)

  const Categories: seq<string> := ["Traceability", "Processing Logged", "Data Completeness"]

  /** `batches.length || 1`: the record count, or 1 for an empty list. */
  function Denominator(n: nat): (d: nat)
    ensures d >= 1
    ensures n >= 1 ==> d == n
    ensures n == 0 ==> d == 1
  {
    if n == 0 then 1 else n
  }

  /**
   `Math.round((k / total) * 100)` in exact arithmetic: the integer nearest to
   100k/total, halves rounded up.
   */
  function RoundPercent(k: nat, total: nat): (p: nat)
    requires total >= 1
    ensures 2 * total * p <= 200 * k + total < 2 * total * (p + 1)
    ensures k <= total ==> p <= 100
  {
    var p := (200 * k + total) / (2 * total);
    assert k <= total ==> p <= 100 by {
      if k <= total && p > 100 {
        assert 2 * total * p >= 2 * total * 101 by {
          MulMonotone(2 * total, 101, p);
        }
      }
    }
    p
  }

  lemma MulMonotone(a: nat, x: nat, y: nat)
    requires x <= y
    ensures a * x <= a * y
  {
  }

  /** Line 58: `ownerHistory` is a non-empty array. */
  predicate HasOwnerHistory(b: BatchRecord) { NonEmptyArray(b.ownerHistory) }

  /** Line 59: `processingSteps` is a non-empty array. */
  predicate HasProcessing(b: BatchRecord) { NonEmptyArray(b.processingSteps) }

  /** Line 60: location, harvest date and current owner are all truthy. */
  predicate HasEssentialFields(b: BatchRecord)
  {
    Truthy(b.cultivationLocation) && StampTruthy(b.harvestDate) && Truthy(b.currentOwner)
  }

  /**
   The three compliance bars, in the order Traceability, Processing Logged,
   Data Completeness; each is a percentage between 0 and 100.
   */
  function ComplianceData(rs: seq<BatchRecord>): (r: seq<Metric>)
    ensures |r| == 3
    ensures forall i :: 0 <= i < 3 ==> r[i].category == Categories[i] && r[i].value <= 100
  {
    var total := Denominator(|rs|);
    [ Metric("Traceability", RoundPercent(CountWhere(rs, HasOwnerHistory), total)),
      Metric("Processing Logged", RoundPercent(CountWhere(rs, HasProcessing), total)),
      Metric("Data Completeness", RoundPercent(CountWhere(rs, HasEssentialFields), total)) ]
  }

  /** The test each category counts. */
  function Test(i: nat): BatchRecord -> bool
    requires i < 3
  {
    if i == 0 then HasOwnerHistory else if i == 1 then HasProcessing else HasEssentialFields
  }

  /** A percentage is 0 exactly when the share is below one half of one percent. */
  lemma RoundPercentZero(k: nat, total: nat)
    requires total >= 1
    ensures RoundPercent(k, total) == 0 <==> 200 * k < total
  {
    var p := RoundPercent(k, total);
    if p >= 1 {
      MulMonotone(2 * total, 1, p);
    }
  }

  /** When every record passes, the percentage is exactly 100. */
  lemma RoundPercentFull(total: nat)
    requires total >= 1
    ensures RoundPercent(total, total) == 100
  {
    var p := RoundPercent(total, total);
    if p < 100 {
      MulMonotone(2 * total, p + 1, 100);
    }
  }

  /**
   Each bar is the nearest integer (halves up) to 100 times the share of
   records passing its test; it is 0 when no record passes and 100 when all
   of a non-empty list pass.
   */
  lemma ComplianceMeaning(rs: seq<BatchRecord>, i: nat)
    requires i < 3
    ensures ComplianceData(rs)[i].value == RoundPercent(CountWhere(rs, Test(i)), Denominator(|rs|))
    ensures (forall j :: 0 <= j < |rs| ==> !Test(i)(rs[j])) ==> ComplianceData(rs)[i].value == 0
    ensures |rs| >= 1 && (forall j :: 0 <= j < |rs| ==> Test(i)(rs[j])) ==> ComplianceData(rs)[i].value == 100
  {
    CountWhereNone(rs, Test(i));
    CountWhereAll(rs, Test(i));
    if |rs| >= 1 {
      RoundPercentFull(|rs|);
    }
    RoundPercentZero(0, Denominator(|rs|));
  }

  /** On an empty list every bar is 0, not NaN. */
  lemma EmptyCompliance()
    ensures forall i :: 0 <= i < 3 ==> ComplianceData([])[i].value == 0
  {
  }

  /** More passing records never lower a bar. */
  lemma {:induction false} RoundPercentMonotone(k1: nat, k2: nat, total: nat)
    requires total >= 1 && k1 <= k2
    ensures RoundPercent(k1, total) <= RoundPercent(k2, total)
  {
    var p1, p2 := RoundPercent(k1, total), RoundPercent(k2, total);
    if p1 > p2 {
      MulMonotone(2 * total, p2 + 1, p1);
    }
  }

  function OwnedBy(h: Log): BatchRecord
  {
    BatchRecord(None, None, None, None, None, None, h, NotArray, None, None)
  }

  /** Three of four records with a custody history give a Traceability of 75. */
  lemma TraceabilityExample()
    ensures var e := Array([Event(Some("farmer"), None, None)]);
      ComplianceData([OwnedBy(e), OwnedBy(e), OwnedBy(Array([])), OwnedBy(e)])[0].value == 75
  {
    var e := Array([Event(Some("farmer"), None, None)]);
    var rs := [OwnedBy(e), OwnedBy(e), OwnedBy(Array([])), OwnedBy(e)];
    assert rs[..3][..2][..1][..0] == [];
    assert CountWhere(rs[..3][..2][..1], HasOwnerHistory) == 1;
    assert CountWhere(rs[..3][..2], HasOwnerHistory) == 2;
    assert CountWhere(rs[..3], HasOwnerHistory) == 2;
    assert CountWhere(rs, HasOwnerHistory) == 3;
  }
}
