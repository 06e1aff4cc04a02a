/**
 Recent activity feed (`recentBatches`, src/pages/RegulatorDashboard.tsx lines
 67-74): the last four records of the list, in list order, each projected to
 a table row whose status is the constant "Compliant". No sort is applied:
 "recent" means "last in the list as fetched".
 */
module Feed {
  import opened Wrappers
  import opened Records

  const FeedSize: nat := 4

  /** One row of the recent-batches table. */
  datatype RecentRow = RecentRow(
    id: Option<string>,
    herbName: Option<string>,
    farmerName: Option<string>,
    createdAt: Option<string>,
    status: string)

  function Min(a: nat, b: nat): nat { if a <= b then a else b }

  /** The raw `createdAt` string, unparsed. */
  function StampText(s: Option<Stamp>): Option<string>
  {
    match s
    case None => None
    case Some(st) => Some(st.text)
  }

  /** The projection of lines 69-73; the species is shown raw, with no "Unknown" substitution. */
  function Row(b: BatchRecord): RecentRow
  {
    RecentRow(b.batchId, b.species, b.farmerId, StampText(b.createdAt), "Compliant")
  }

  /**
   `Array.prototype.slice(-k)`: the suffix starting at `max(|s| - k, 0)`.
   For k = 0 the argument is `-0`, which is start 0, so the whole list is returned.
   */
  function SliceFromEnd<T>(s: seq<T>, k: nat): (r: seq<T>)
    ensures k >= 1 ==> |r| == Min(k, |s|)
    ensures k == 0 ==> r == s
    ensures forall i :: 0 <= i < |r| ==> r[i] == s[|s| - |r| + i]
  {
    var start := if k == 0 || |s| - k < 0 then 0 else |s| - k;
    s[start..]
  }

  /**
   The feed: the last `min(4, n)` records, oldest first, projected to rows,
   every row with status "Compliant".
   */
  function RecentBatches(rs: seq<BatchRecord>): (r: seq<RecentRow>)
    ensures |r| == Min(FeedSize, |rs|)
    ensures forall i :: 0 <= i < |r| ==> r[i] == Row(rs[|rs| - |r| + i])
    ensures forall i :: 0 <= i < |r| ==> r[i].status == "Compliant" && r[i].id == rs[|rs| - |r| + i].batchId
  {
    var tail := SliceFromEnd(rs, FeedSize);
    seq(|tail|, i requires 0 <= i < |tail| => Row(tail[i]))
  }

  /**
   The feed is a sliding window: appending a record adds its row at the end
   and, once the window is full, drops the oldest row.
   */
  lemma RecentAppend(rs: seq<BatchRecord>, b: BatchRecord)
    ensures RecentBatches(rs + [b]) ==
            (if |rs| >= FeedSize then RecentBatches(rs)[1..] else RecentBatches(rs)) + [Row(b)]
  {
    var r, r' := RecentBatches(rs), RecentBatches(rs + [b]);
    var expected := (if |rs| >= FeedSize then r[1..] else r) + [Row(b)];
    assert |r'| == |expected|;
    forall i | 0 <= i < |r'| ensures r'[i] == expected[i] {
      if i < |r'| - 1 {
        assert (rs + [b])[|rs| + 1 - |r'| + i] == rs[|rs| + 1 - |r'| + i];
      }
    }
  }
}
