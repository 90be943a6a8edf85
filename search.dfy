/** The text and price search of the transaction listing. */
module Search {
  import opened Wrappers
  import opened Sequences
  import opened Text
  import opened Numbers
  import opened Transactions

  /** Title or description (absent reads as '') contains the query ignoring case,
      or the printed price (falsy reads as '') contains the query exactly. */
  predicate Matches(r: Record, search: string) {
    var query := ToLower(search);
    Contains(ToLower(r.title.GetOr("")), query)
    || Contains(ToLower(r.description.GetOr("")), query)
    || Contains(PriceText(r.price), search)
  }

  /** `if (search)`: the empty query leaves the list alone, any other keeps the matching records. */
  function SearchFilter(ts: seq<Record>, search: string): (r: seq<Record>)
    ensures search == "" ==> r == ts
    ensures |r| <= |ts|
    ensures forall i :: 0 <= i < |r| ==> Matches(r[i], search)
  {
    if search == "" then
      assert forall i :: 0 <= i < |ts| ==> Contains(ToLower(ts[i].title.GetOr("")), "");
      ts
    else Filter(ts, (t: Record) => Matches(t, search))
  }

  /** A non-empty query keeps, in input order, exactly the matching records with their multiplicity. */
  lemma SearchExact(ts: seq<Record>, search: string, x: Record)
    requires search != ""
    ensures IsSubsequence(SearchFilter(ts, search), ts)
    ensures x in SearchFilter(ts, search) <==> x in ts && Matches(x, search)
    ensures multiset(SearchFilter(ts, search))[x] == if Matches(x, search) then multiset(ts)[x] else 0
  {
    var p := (t: Record) => Matches(t, search);
    FilterIsSubsequence(ts, p);
    FilterMembership(ts, p, x);
    FilterMultiplicity(ts, p, x);
  }

  /** A zero, absent or false price is printed as '' and so never matches a non-empty query. */
  lemma FalsyPriceNeverMatches(r: Record, search: string)
    requires search != "" && !Truthy(r.price)
    ensures Matches(r, search) <==>
              Contains(ToLower(r.title.GetOr("")), ToLower(search))
              || Contains(ToLower(r.description.GetOr("")), ToLower(search))
  {
    assert !StartsWith("", search);
  }

  /** Title matching ignores case: a title containing the query written in any case `q` matches. */
  lemma TitleMatchIgnoresCase(r: Record, search: string, title: string, q: string)
    requires r.title == Some(title)
    requires |q| == |search| && ToLower(q) == ToLower(search) && Contains(title, q)
    ensures Matches(r, search)
  {
    ContainsAt(title, q);
    var i :| OccursAt(title, q, i);
    assert ToLower(title)[i..i + |q|] == ToLower(q);
    ContainsAt(ToLower(title), ToLower(search));
    assert OccursAt(ToLower(title), ToLower(search), i);
  }

  /** The query "item" finds the title "ITEM99". */
  lemma UpperCaseTitleExample(r: Record)
    requires r.title == Some("ITEM99")
    ensures Matches(r, "item")
  {
    assert ToLower("ITEM") == "item";
    assert OccursAt("ITEM99", "ITEM", 0);
    ContainsAt("ITEM99", "ITEM");
    TitleMatchIgnoresCase(r, "item", "ITEM99", "ITEM");
  }

  /** The price 199 is searched as the text "199". */
  lemma PriceText199()
    ensures PriceText(Num(Decimal(199, 0))) == "199"
  {
    NumberToStringWhole(199);
    assert NatToString(1) == "1";
    assert NatToString(19) == NatToString(1) + "9";
    assert NatToString(199) == NatToString(19) + "9";
  }

  /** The query "99" finds a record priced 199 through the printed price. */
  lemma PriceSearchExample(r: Record)
    requires r.price == Num(Decimal(199, 0))
    ensures Matches(r, "99")
  {
    PriceText199();
    assert OccursAt("199", "99", 1);
    ContainsAt("199", "99");
    assert Contains(PriceText(r.price), "99");
  }

  /** The query "99" finds a record titled "item99". */
  lemma TitleSearchExample(r: Record)
    requires r.title == Some("item99")
    ensures Matches(r, "99")
  {
    assert OccursAt("item99", "99", 4);
    ContainsAt("item99", "99");
    TitleMatchIgnoresCase(r, "99", "item99", "99");
  }
}
