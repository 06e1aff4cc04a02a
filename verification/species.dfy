/**
 Species distribution (`speciesCounts` / `herbsByType`, src/pages/RegulatorDashboard.tsx
 lines 37-43): records are grouped by species label, counted, kept in the order
 each label is first seen, and coloured from an eight-colour palette.
 */
module Species {
  import opened Wrappers
  import opened Records
  import opened Counting

  const Palette: seq<string> :=
    ["#10B981", "#F59E0B", "#3B82F6", "#8B5CF6", "#EF4444", "#06B6D4", "#A3E635", "#F472B6"]

  /** One accumulator entry: a label and how many records carried it so far. */
  datatype Entry = Entry(name: string, value: nat)

  /** One pie slice of the chart. */
  datatype Slice = Slice(name: string, value: nat, color: string)

  /** The grouping key of a record: `b.species || 'Unknown'`. */
  function Label(b: BatchRecord): string
  {
    if Truthy(b.species) then b.species.value else "Unknown"
  }

  function Labels(rs: seq<BatchRecord>): (ls: seq<string>)
    ensures |ls| == |rs|
    ensures forall i :: 0 <= i < |rs| ==> ls[i] == Label(rs[i])
  {
    seq(|rs|, i requires 0 <= i < |rs| => Label(rs[i]))
  }

  function Names(t: seq<Entry>): (ns: seq<string>)
    ensures |ns| == |t|
    ensures forall i :: 0 <= i < |t| ==> ns[i] == t[i].name
  {
    seq(|t|, i requires 0 <= i < |t| => t[i].name)
  }

  function EntryValue(e: Entry): nat { e.value }

  function SliceValue(s: Slice): nat { s.value }

  predicate NoDuplicates(ns: seq<string>)
  {
    forall i, j :: 0 <= i < j < |ns| ==> ns[i] != ns[j]
  }

  /** Number of occurrences of `x` in `ls`. */
  function Count(ls: seq<string>, x: string): nat
  {
    CountWhere(ls, y => y == x)
  }

  /** Position of the first occurrence of `x` in `ls`. */
  function FirstIndex(ls: seq<string>, x: string): (k: nat)
    requires x in ls
    ensures k < |ls| && ls[k] == x
    ensures x !in ls[..k]
  {
    var init := ls[..|ls| - 1];
    if x in init then
      var k := FirstIndex(init, x);
      assert ls[..k] == init[..k];
      k
    else
      |ls| - 1
  }

  /** `acc[key] = (acc[key] || 0) + 1` on an insertion-ordered object. */
  function Bump(acc: seq<Entry>, key: string): seq<Entry>
  {
    if |acc| == 0 then [Entry(key, 1)]
    else if acc[0].name == key then [Entry(key, acc[0].value + 1)] + acc[1..]
    else [acc[0]] + Bump(acc[1..], key)
  }

  /** The `reduce` of lines 38-42 over the labels of the records. */
  function Tally(ls: seq<string>): seq<Entry>
  {
    if |ls| == 0 then [] else Bump(Tally(ls[..|ls| - 1]), ls[|ls| - 1])
  }

  /** `Object.entries(speciesCounts).map(...)` with the palette colour of each position. */
  function Distribution(rs: seq<BatchRecord>): seq<Slice>
  {
    var t := Tally(Labels(rs));
    seq(|t|, i requires 0 <= i < |t| => Slice(t[i].name, t[i].value, Palette[i % |Palette|]))
  }

  /** Bumping a label already present increments its entry in place and touches nothing else. */
  lemma {:induction false} BumpExisting(acc: seq<Entry>, key: string, k: nat)
    requires NoDuplicates(Names(acc))
    requires k < |acc| && acc[k].name == key
    ensures Bump(acc, key) == acc[k := Entry(key, acc[k].value + 1)]
  {
    if k > 0 {
      var rest := acc[1..];
      assert acc[0].name != key by {
        assert Names(acc)[0] != Names(acc)[k];
      }
      assert NoDuplicates(Names(rest)) by {
        forall i, j | 0 <= i < j < |rest| ensures Names(rest)[i] != Names(rest)[j] {
          assert Names(acc)[i + 1] != Names(acc)[j + 1];
        }
      }
      BumpExisting(rest, key, k - 1);
      assert [acc[0]] + rest[k - 1 := Entry(key, acc[k].value + 1)] == acc[k := Entry(key, acc[k].value + 1)];
    }
  }

  /** Bumping an unseen label appends a fresh entry with count one. */
  lemma {:induction false} BumpFresh(acc: seq<Entry>, key: string)
    requires key !in Names(acc)
    ensures Bump(acc, key) == acc + [Entry(key, 1)]
  {
    if |acc| > 0 {
      assert acc[0].name == Names(acc)[0];
      var rest := acc[1..];
      assert key !in Names(rest) by {
        forall i | 0 <= i < |rest| ensures Names(rest)[i] != key {
          assert Names(rest)[i] == Names(acc)[i + 1];
        }
      }
      BumpFresh(rest, key);
      assert [acc[0]] + (rest + [Entry(key, 1)]) == acc + [Entry(key, 1)];
    }
  }

  /** A label absent from the list occurs zero times. */
  lemma {:induction false} CountAbsent(ls: seq<string>, x: string)
    requires x !in ls
    ensures Count(ls, x) == 0
  {
    if |ls| > 0 {
      assert ls[..|ls| - 1] <= ls;
      CountAbsent(ls[..|ls| - 1], x);
    }
  }

  /** Each label occurs once in the accumulator, and exactly the labels seen so far occur in it. */
  lemma {:induction false} TallyNames(ls: seq<string>)
    ensures NoDuplicates(Names(Tally(ls)))
    ensures forall x :: x in Names(Tally(ls)) <==> x in ls
  {
    if |ls| > 0 {
      var init := ls[..|ls| - 1];
      var key := ls[|ls| - 1];
      var acc := Tally(init);
      TallyNames(init);
      assert forall x :: x in ls <==> x in init || x == key;
      if key in init {
        var k :| 0 <= k < |acc| && Names(acc)[k] == key;
        BumpExisting(acc, key, k);
        assert Names(Tally(ls)) == Names(acc);
      } else {
        BumpFresh(acc, key);
        assert Names(Tally(ls)) == Names(acc) + [key];
      }
    }
  }

  /** Every entry of the accumulator holds the number of occurrences of its label. */
  lemma {:induction false} TallyCounts(ls: seq<string>)
    ensures forall i :: 0 <= i < |Tally(ls)| ==> Tally(ls)[i].value == Count(ls, Tally(ls)[i].name)
  {
    if |ls| > 0 {
      var init := ls[..|ls| - 1];
      var key := ls[|ls| - 1];
      var acc := Tally(init);
      TallyNames(init);
      TallyCounts(init);
      if key in init {
        var k :| 0 <= k < |acc| && Names(acc)[k] == key;
        BumpExisting(acc, key, k);
      } else {
        BumpFresh(acc, key);
        CountAbsent(init, key);
      }
    }
  }

  /** Extending a list keeps the first occurrence of a label already present. */
  lemma FirstIndexExtend(ls: seq<string>, x: string)
    requires |ls| > 0 && x in ls[..|ls| - 1]
    ensures FirstIndex(ls, x) == FirstIndex(ls[..|ls| - 1], x)
  {
  }

  /** Every label in the accumulator occurs in the input. */
  lemma TallyMembers(ls: seq<string>)
    ensures Members(ls, Tally(ls))
  {
    TallyNames(ls);
    var t := Tally(ls);
    forall i | 0 <= i < |t| ensures t[i].name in ls {
      assert Names(t)[i] == t[i].name;
    }
  }

  /** Every entry names a label of `ls`. */
  predicate Members(ls: seq<string>, t: seq<Entry>)
  {
    forall i :: 0 <= i < |t| ==> t[i].name in ls
  }

  /** Entries are ordered by the first occurrence of their labels in `ls`. */
  predicate FirstSeenOrder(ls: seq<string>, t: seq<Entry>)
    requires Members(ls, t)
  {
    forall i, j :: 0 <= i < j < |t| ==> FirstIndex(ls, t[i].name) < FirstIndex(ls, t[j].name)
  }

  /** The accumulator lists labels in the order of their first occurrence. */
  lemma {:induction false} TallyOrder(ls: seq<string>)
    ensures Members(ls, Tally(ls))
    ensures FirstSeenOrder(ls, Tally(ls))
  {
    TallyMembers(ls);
    if |ls| > 0 {
      var init := ls[..|ls| - 1];
      var key := ls[|ls| - 1];
      var acc := Tally(init);
      var t := Tally(ls);
      TallyNames(init);
      TallyOrder(init);
      if key in init {
        var k :| 0 <= k < |acc| && Names(acc)[k] == key;
        BumpExisting(acc, key, k);
        OrderKept(ls, acc, t);
      } else {
        BumpFresh(acc, key);
        OrderExtended(ls, acc, t);
      }
    }
  }

  /** When the list grows by a label already seen and the entry names stay put, first-seen order is kept. */
  lemma OrderKept(ls: seq<string>, acc: seq<Entry>, t: seq<Entry>)
    requires |ls| > 0
    requires Members(ls[..|ls| - 1], acc) && FirstSeenOrder(ls[..|ls| - 1], acc)
    requires |t| == |acc| && forall i :: 0 <= i < |t| ==> t[i].name == acc[i].name
    ensures Members(ls, t) && FirstSeenOrder(ls, t)
  {
    var init := ls[..|ls| - 1];
    assert forall x :: x in init ==> x in ls;
    forall i, j | 0 <= i < j < |t|
      ensures FirstIndex(ls, t[i].name) < FirstIndex(ls, t[j].name)
    {
      FirstIndexExtend(ls, acc[i].name);
      FirstIndexExtend(ls, acc[j].name);
    }
  }

  /** Appending the entry of a new label keeps first-seen order. */
  lemma OrderExtended(ls: seq<string>, acc: seq<Entry>, t: seq<Entry>)
    requires |ls| > 0 && ls[|ls| - 1] !in ls[..|ls| - 1]
    requires Members(ls[..|ls| - 1], acc) && FirstSeenOrder(ls[..|ls| - 1], acc)
    requires t == acc + [Entry(ls[|ls| - 1], 1)]
    ensures Members(ls, t) && FirstSeenOrder(ls, t)
  {
    var init := ls[..|ls| - 1];
    var key := ls[|ls| - 1];
    assert forall x :: x in init ==> x in ls;
    assert FirstIndex(ls, key) == |init|;
    forall i | 0 <= i < |acc| ensures FirstIndex(ls, acc[i].name) == FirstIndex(init, acc[i].name) < |init| {
      FirstIndexExtend(ls, acc[i].name);
    }
    forall i, j | 0 <= i < j < |t|
      ensures FirstIndex(ls, t[i].name) < FirstIndex(ls, t[j].name)
    {
      if j < |acc| {
        assert t[i] == acc[i] && t[j] == acc[j];
      } else {
        assert t[i] == acc[i] && t[j].name == key;
      }
    }
  }

  /** The accumulated counts add up to the number of labels. */
  lemma {:induction false} TallySum(ls: seq<string>)
    ensures SumOf(Tally(ls), EntryValue) == |ls|
  {
    if |ls| > 0 {
      var init := ls[..|ls| - 1];
      var key := ls[|ls| - 1];
      var acc := Tally(init);
      TallyNames(init);
      TallySum(init);
      if key in init {
        var k :| 0 <= k < |acc| && Names(acc)[k] == key;
        BumpExisting(acc, key, k);
        SumOfUpdate(acc, k, Entry(key, acc[k].value + 1), EntryValue);
      } else {
        BumpFresh(acc, key);
        assert (acc + [Entry(key, 1)])[..|acc|] == acc;
      }
    }
  }

  /** Every count in the distribution is positive, since every label in it occurs. */
  lemma {:induction false} CountPresent(ls: seq<string>, x: string)
    requires x in ls
    ensures Count(ls, x) >= 1
  {
    var init := ls[..|ls| - 1];
    if x in init {
      CountPresent(init, x);
    }
  }

  /**
   The species distribution counts every record exactly once: the slice
   values add up to the number of records, and each slice holds the number
   of records whose label is its name.
   */
  lemma DistributionCounts(rs: seq<BatchRecord>)
    ensures SumOf(Distribution(rs), SliceValue) == |rs|
    ensures forall i :: 0 <= i < |Distribution(rs)| ==>
              Distribution(rs)[i].value == Count(Labels(rs), Distribution(rs)[i].name) >= 1
  {
    var ls := Labels(rs);
    var t := Tally(ls);
    var d := Distribution(rs);
    TallySum(ls);
    TallyCounts(ls);
    TallyOrder(ls);
    SumOfPointwise(t, d);
    forall i | 0 <= i < |d| ensures d[i].value == Count(ls, d[i].name) >= 1 {
      CountPresent(ls, t[i].name);
    }
  }

  /**
   The slice names are the distinct labels of the records, each once, and a
   record is counted under its species when that is non-empty and under
   "Unknown" otherwise.
   */
  lemma DistributionNames(rs: seq<BatchRecord>)
    ensures NoDuplicates(SliceNames(Distribution(rs)))
    ensures forall x :: x in SliceNames(Distribution(rs)) <==> x in Labels(rs)
    ensures forall i :: 0 <= i < |rs| ==> Label(rs[i]) in SliceNames(Distribution(rs))
  {
    var ls := Labels(rs);
    TallyNames(ls);
    assert Names(Tally(ls)) == SliceNames(Distribution(rs));
    forall i | 0 <= i < |rs| ensures Label(rs[i]) in ls {
      assert ls[i] == Label(rs[i]);
    }
  }

  /** Slices come in first-seen order of their labels, and slice `i` is coloured `Palette[i mod 8]`. */
  lemma DistributionOrder(rs: seq<BatchRecord>)
    ensures forall i :: 0 <= i < |Distribution(rs)| ==> Distribution(rs)[i].name in Labels(rs)
    ensures forall i, j :: 0 <= i < j < |Distribution(rs)| ==>
              FirstIndex(Labels(rs), Distribution(rs)[i].name) < FirstIndex(Labels(rs), Distribution(rs)[j].name)
    ensures forall i :: 0 <= i < |Distribution(rs)| ==> Distribution(rs)[i].color == Palette[i % 8]
  {
    TallyOrder(Labels(rs));
  }

  function SliceNames(d: seq<Slice>): (ns: seq<string>)
    ensures |ns| == |d|
    ensures forall i :: 0 <= i < |d| ==> ns[i] == d[i].name
  {
    seq(|d|, i requires 0 <= i < |d| => d[i].name)
  }

  lemma {:induction false} SumOfPointwise(t: seq<Entry>, d: seq<Slice>)
    requires |t| == |d|
    requires forall i :: 0 <= i < |t| ==> t[i].value == d[i].value
    ensures SumOf(t, EntryValue) == SumOf(d, SliceValue)
  {
    if |t| > 0 {
      SumOfPointwise(t[..|t| - 1], d[..|d| - 1]);
    }
  }

  /**
   A record without a usable species is counted in the "Unknown" slice; a
   record with one is counted in the slice of that exact label.
   */
  lemma SpeciesLabelling(rs: seq<BatchRecord>, i: nat)
    requires i < |rs|
    ensures !Truthy(rs[i].species) ==>
              exists k :: 0 <= k < |Distribution(rs)| && Distribution(rs)[k].name == "Unknown" && Distribution(rs)[k].value >= 1
    ensures Truthy(rs[i].species) ==>
              exists k :: 0 <= k < |Distribution(rs)| && Distribution(rs)[k].name == rs[i].species.value && Distribution(rs)[k].value >= 1
  {
    DistributionNames(rs);
    DistributionCounts(rs);
    var d := Distribution(rs);
    assert Label(rs[i]) in SliceNames(d);
    var k :| 0 <= k < |d| && SliceNames(d)[k] == Label(rs[i]);
    assert d[k].value >= 1;
  }

  function SpeciesOnly(s: string): BatchRecord
  {
    BatchRecord(None, Some(s), None, None, None, None, NotArray, NotArray, None, None)
  }

  /** Two "Ashwagandha" records and one with an empty species. */
  lemma AshwagandhaExample()
    ensures Distribution([SpeciesOnly("Ashwagandha"), SpeciesOnly("Ashwagandha"), SpeciesOnly("")])
         == [Slice("Ashwagandha", 2, "#10B981"), Slice("Unknown", 1, "#F59E0B")]
  {
    var rs := [SpeciesOnly("Ashwagandha"), SpeciesOnly("Ashwagandha"), SpeciesOnly("")];
    assert Labels(rs) == ["Ashwagandha", "Ashwagandha", "Unknown"];
    var ls := Labels(rs);
    assert ls[..2] == ["Ashwagandha", "Ashwagandha"];
    assert ls[..2][..1] == ["Ashwagandha"];
    assert ls[..2][..1][..0] == [];
    assert Tally(ls[..2][..1]) == [Entry("Ashwagandha", 1)];
    assert Tally(ls[..2]) == [Entry("Ashwagandha", 2)];
    assert "Ashwagandha" != "Unknown" by { assert "Ashwagandha"[0] != "Unknown"[0]; }
    assert Bump([Entry("Ashwagandha", 2)], "Unknown") == [Entry("Ashwagandha", 2)] + Bump([], "Unknown");
    assert Tally(Labels(rs)) == [Entry("Ashwagandha", 2), Entry("Unknown", 1)];
  }
}
