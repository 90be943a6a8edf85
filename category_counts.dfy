/** `calculateCategoryCounts` and its flattening into the pie-chart list. */
module CategoryCounts {
  import opened Wrappers
  import opened Sequences
  import opened Transactions

  /** A JavaScript object used as a dictionary: its keys in insertion order, and the value of each key. */
  datatype Dictionary = Dictionary(keys: seq<string>, counts: map<string, nat>)

  /** Keys are listed once each, exactly the keys of the map, and every count is at least one. */
  ghost predicate WellFormed(d: Dictionary) {
    && (forall i, j :: 0 <= i < j < |d.keys| ==> d.keys[i] != d.keys[j])
    && (forall c :: c in d.counts <==> c in d.keys)
    && (forall c :: c in d.counts ==> d.counts[c] >= 1)
  }

  /** `if (category)`: the record's category when it is present and not empty. */
  function CategoryOf(r: Record): Option<string> {
    match r.category
    case Some(c) => if c != "" then Some(c) else None
    case None => None
  }

  /** `categoryCounts[c] = (categoryCounts[c] || 0) + 1`; a new key goes after the existing ones. */
  function Increment(d: Dictionary, c: string): (r: Dictionary)
    ensures Lookup(r, c) == Lookup(d, c) + 1
    ensures forall e :: e != c ==> Lookup(r, e) == Lookup(d, e)
    ensures r.keys == if c in d.counts then d.keys else d.keys + [c]
  {
    var previous := if c in d.counts then d.counts[c] else 0;
    Dictionary(if c in d.counts then d.keys else d.keys + [c], d.counts[c := previous + 1])
  }

  /** The dictionary after a pass over `ts`. */
  function Tally(ts: seq<Record>): Dictionary {
    if ts == [] then Dictionary([], map[])
    else
      var before := Tally(ts[..|ts| - 1]);
      match CategoryOf(ts[|ts| - 1])
      case None => before
      case Some(c) => Increment(before, c)
  }

  /** Incrementing keeps the dictionary well formed: a key is appended only when it is new. */
  lemma IncrementWellFormed(d: Dictionary, c: string)
    requires WellFormed(d)
    ensures WellFormed(Increment(d, c))
  {
  }

  lemma {:induction false} TallyWellFormed(ts: seq<Record>)
    ensures WellFormed(Tally(ts))
  {
    if ts != [] {
      TallyWellFormed(ts[..|ts| - 1]);
      if CategoryOf(ts[|ts| - 1]).Some? {
        IncrementWellFormed(Tally(ts[..|ts| - 1]), CategoryOf(ts[|ts| - 1]).value);
      }
    }
  }

  /** One pass over the records, updating the dictionary in place. */
  method CalculateCategoryCounts(ts: seq<Record>) returns (d: Dictionary)
    ensures d == Tally(ts)
  {
    var keys: seq<string> := [];
    var counts: map<string, nat> := map[];
    for i := 0 to |ts|
      invariant Dictionary(keys, counts) == Tally(ts[..i])
    {
      assert ts[..i + 1][..i] == ts[..i] && ts[..i + 1][i] == ts[i];
      var category := ts[i].category;
      if category.Some? && category.value != "" {
        var c := category.value;
        var previous := if c in counts then counts[c] else 0;
        if c !in counts {
          keys := keys + [c];
        }
        counts := counts[c := previous + 1];
      }
    }
    assert ts[..|ts|] == ts;
    d := Dictionary(keys, counts);
  }

  predicate HasCategory(r: Record, c: string) {
    CategoryOf(r) == Some(c)
  }

  function Lookup(d: Dictionary, c: string): nat {
    if c in d.counts then d.counts[c] else 0
  }

  /** Each category's count is the number of records carrying it; a category that never appears counts 0. */
  lemma {:induction false} TallyCounts(ts: seq<Record>, c: string)
    ensures Lookup(Tally(ts), c) == |Filter(ts, (r: Record) => HasCategory(r, c))|
  {
    if ts != [] {
      var init, last := ts[..|ts| - 1], ts[|ts| - 1];
      assert ts == init + [last];
      TallyCounts(init, c);
      FilterSnoc(init, last, (r: Record) => HasCategory(r, c));
    }
  }

  /** The keys are exactly the non-empty categories that occur; records without one are left out. */
  lemma TallyKeys(ts: seq<Record>, c: string)
    ensures c in Tally(ts).counts <==> exists i :: 0 <= i < |ts| && HasCategory(ts[i], c)
  {
    var p := (r: Record) => HasCategory(r, c);
    TallyCounts(ts, c);
    TallyWellFormed(ts);
    if c in Tally(ts).counts {
      var f := Filter(ts, p);
      assert f[0] in f;
      FilterMembership(ts, p, f[0]);
    }
    if exists i :: 0 <= i < |ts| && HasCategory(ts[i], c) {
      var i :| 0 <= i < |ts| && HasCategory(ts[i], c);
      FilterMembership(ts, p, ts[i]);
    }
  }

  /** The sum of the values listed under `keys`. */
  function SumOver(keys: seq<string>, counts: map<string, nat>): nat {
    if keys == [] then 0 else SumOver(keys[..|keys| - 1], counts) + Lookup(Dictionary(keys, counts), keys[|keys| - 1])
  }

  lemma {:induction false} SumOverUpdateOther(keys: seq<string>, counts: map<string, nat>, c: string, v: nat)
    requires c !in keys
    ensures SumOver(keys, counts[c := v]) == SumOver(keys, counts)
  {
    if keys != [] {
      SumOverUpdateOther(keys[..|keys| - 1], counts, c, v);
    }
  }

  lemma {:induction false} SumOverIncrement(keys: seq<string>, counts: map<string, nat>, c: string)
    requires forall i, j :: 0 <= i < j < |keys| ==> keys[i] != keys[j]
    requires c in keys
    ensures SumOver(keys, counts[c := Lookup(Dictionary(keys, counts), c) + 1]) == SumOver(keys, counts) + 1
  {
    var init, last := keys[..|keys| - 1], keys[|keys| - 1];
    if last == c {
      SumOverUpdateOther(init, counts, c, Lookup(Dictionary(keys, counts), c) + 1);
    } else {
      assert c in init by {
        var k :| 0 <= k < |keys| && keys[k] == c;
        assert init[k] == c;
      }
      SumOverIncrement(init, counts, c);
    }
  }

  /** Counting one more occurrence of `c` adds one to the total. */
  lemma IncrementAddsOne(d: Dictionary, c: string)
    requires WellFormed(d)
    ensures SumOver(Increment(d, c).keys, Increment(d, c).counts) == SumOver(d.keys, d.counts) + 1
  {
    var e := Increment(d, c);
    if c in d.counts {
      SumOverIncrement(d.keys, d.counts, c);
    } else {
      assert e.keys[..|e.keys| - 1] == d.keys;
      SumOverUpdateOther(d.keys, d.counts, c, 1);
    }
  }

  /** The counts add up to the number of records with a non-empty category. */
  lemma {:induction false} TallyTotal(ts: seq<Record>)
    ensures SumOver(Tally(ts).keys, Tally(ts).counts) == |Filter(ts, (r: Record) => CategoryOf(r).Some?)|
  {
    if ts != [] {
      var init, last := ts[..|ts| - 1], ts[|ts| - 1];
      assert ts == init + [last];
      TallyTotal(init);
      FilterSnoc(init, last, (r: Record) => CategoryOf(r).Some?);
      if CategoryOf(last).Some? {
        TallyWellFormed(init);
        IncrementAddsOne(Tally(init), CategoryOf(last).value);
      }
    }
  }

  /** One entry of the pie chart list. */
  datatype CategoryCount = CategoryCount(category: string, count: nat)

  /** `Object.keys(categoryCounts).map(category => ({category, count: categoryCounts[category]}))`:
      one entry per key, in key order. */
  function PieChartData(d: Dictionary): (r: seq<CategoryCount>)
    ensures |r| == |d.keys|
    ensures forall i :: 0 <= i < |r| ==> r[i].category == d.keys[i]
    ensures WellFormed(d) ==> forall i, j :: 0 <= i < j < |r| ==> r[i].category != r[j].category
    ensures WellFormed(d) ==> forall c :: c in d.counts <==> exists i :: 0 <= i < |r| && r[i].category == c
    ensures forall i :: 0 <= i < |r| ==> r[i].count == Lookup(d, r[i].category)
  {
    var r := seq(|d.keys|, i requires 0 <= i < |d.keys| => CategoryCount(d.keys[i], Lookup(d, d.keys[i])));
    assert forall c :: c in d.keys ==> exists i :: 0 <= i < |r| && r[i].category == c by {
      forall c | c in d.keys ensures exists i :: 0 <= i < |r| && r[i].category == c {
        var i :| 0 <= i < |d.keys| && d.keys[i] == c;
        assert r[i].category == c;
      }
    }
    r
  }

  /** The pie list of a month: one entry for each non-empty category that occurs, with the number of its records. */
  lemma PieChartOfRecords(ts: seq<Record>, c: string)
    ensures (exists i :: 0 <= i < |PieChartData(Tally(ts))| && PieChartData(Tally(ts))[i].category == c)
              <==> exists i :: 0 <= i < |ts| && HasCategory(ts[i], c)
    ensures forall i :: 0 <= i < |PieChartData(Tally(ts))| && PieChartData(Tally(ts))[i].category == c ==>
              PieChartData(Tally(ts))[i].count == |Filter(ts, (r: Record) => HasCategory(r, c))|
  {
    TallyWellFormed(ts);
    TallyKeys(ts, c);
    TallyCounts(ts, c);
    var d := Tally(ts);
    var pie := PieChartData(d);
    assert c in d.counts <==> exists i :: 0 <= i < |pie| && pie[i].category == c;
  }

  /** Category `a` occurs at some record before the first record of category `b`. */
  ghost predicate AppearsBefore(ts: seq<Record>, a: string, b: string) {
    exists p :: 0 <= p < |ts| && HasCategory(ts[p], a) && forall q :: 0 <= q <= p ==> !HasCategory(ts[q], b)
  }

  lemma AppearsBeforeExtend(ts: seq<Record>, t: Record, a: string, b: string)
    requires AppearsBefore(ts, a, b)
    ensures AppearsBefore(ts + [t], a, b)
  {
    var p :| 0 <= p < |ts| && HasCategory(ts[p], a) && forall q :: 0 <= q <= p ==> !HasCategory(ts[q], b);
    var us := ts + [t];
    assert forall q :: 0 <= q <= p ==> us[q] == ts[q];
    assert HasCategory(us[p], a);
  }

  lemma AppearsBeforeNew(ts: seq<Record>, t: Record, a: string, b: string)
    requires exists p :: 0 <= p < |ts| && HasCategory(ts[p], a)
    requires forall q :: 0 <= q < |ts| ==> !HasCategory(ts[q], b)
    ensures AppearsBefore(ts + [t], a, b)
  {
    var p :| 0 <= p < |ts| && HasCategory(ts[p], a);
    var us := ts + [t];
    assert forall q :: 0 <= q <= p ==> us[q] == ts[q];
    assert HasCategory(us[p], a);
  }

  /** The keys are listed in order of first occurrence: each key's category occurs before any record of a later key. */
  lemma {:induction false} TallyFirstSeenOrder(ts: seq<Record>)
    ensures forall i, j :: 0 <= i < j < |Tally(ts).keys| ==> AppearsBefore(ts, Tally(ts).keys[i], Tally(ts).keys[j])
  {
    if ts != [] {
      var init, t := ts[..|ts| - 1], ts[|ts| - 1];
      assert ts == init + [t];
      TallyFirstSeenOrder(init);
      TallyWellFormed(init);
      var before := Tally(init);
      var keys := Tally(ts).keys;
      assert keys[..|before.keys|] == before.keys;
      forall i, j | 0 <= i < j < |keys| ensures AppearsBefore(ts, keys[i], keys[j]) {
        assert keys[i] == before.keys[i];
        if j < |before.keys| {
          assert keys[j] == before.keys[j];
          AppearsBeforeExtend(init, t, keys[i], keys[j]);
        } else {
          var c := CategoryOf(t).value;
          assert keys == before.keys + [c] && c !in before.counts;
          assert before.keys[i] in before.counts;
          TallyKeys(init, keys[i]);
          TallyKeys(init, c);
          AppearsBeforeNew(init, t, keys[i], c);
        }
      }
    }
  }

  /** The pie list names the categories in the order in which they first occur among the records. */
  lemma PieChartFirstSeenOrder(ts: seq<Record>)
    ensures forall i, j :: 0 <= i < j < |PieChartData(Tally(ts))| ==>
              AppearsBefore(ts, PieChartData(Tally(ts))[i].category, PieChartData(Tally(ts))[j].category)
  {
    TallyFirstSeenOrder(ts);
  }

  /** Categories "A", "A", "B" and a record with none give the entries A: 2 and B: 1, in that order. */
  lemma PieChartExample(a1: Record, a2: Record, b: Record, none: Record)
    requires a1.category == Some("A") && a2.category == Some("A") && b.category == Some("B") && none.category == None
    ensures PieChartData(Tally([a1, a2, b, none])) == [CategoryCount("A", 2), CategoryCount("B", 1)]
  {
    var ts := [a1, a2, b, none];
    assert ts[..3] == [a1, a2, b] && ts[..3][..2] == [a1, a2] && ts[..3][..2][..1] == [a1] && [a1][..0] == [];
    assert Tally([a1]) == Dictionary(["A"], map["A" := 1]);
    assert Tally([a1, a2]) == Dictionary(["A"], map["A" := 2]);
    assert Tally(ts) == Dictionary(["A", "B"], map["A" := 2, "B" := 1]);
  }
}
