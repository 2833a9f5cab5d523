/**
 The criteria a user picks on the form, as one immutable query value, with
 the sentinels and option lists the form offers and the query it submits
 when the user changes nothing.
 */
module Criteria {
  import opened Tables

  /** The business category: the sentinel "Any", or one category of the ad table. */
  datatype CategoryChoice = AnyCategory | Category(name: string)

  /** The three-way has-kids choice. */
  datatype HasKids = Any | Yes | No

  /** Every criterion of the form. An empty set means "no filter on that field";
      `valueProps` and `tones` are collected but never consulted by the filters. */
  datatype Query = Query(
    category: CategoryChoice,
    valueProps: set<string>,
    tones: set<string>,
    ageBrackets: set<string>,
    hasKids: HasKids,
    familyStatuses: set<string>,
    neighborhoods: set<string>,
    houseAgeBrackets: set<string>,
    minSqft: int,
    maxSqft: int)

  /** The label that stands for "no category constraint". */
  const AnyLabel: string := "Any"

  /** The labels of the has-kids selectbox, in order. */
  const HasKidsLabels: seq<string> := ["Any", "Yes", "No"]

  /** The category column of the ad table, row by row. */
  function CategoryColumn(ads: seq<Advertisement>): (r: seq<string>)
    ensures |r| == |ads|
    ensures forall i :: 0 <= i < |ads| ==> r[i] == ads[i].category
  {
    if ads == [] then [] else [ads[0].category] + CategoryColumn(ads[1..])
  }

  /** The labels of the category selectbox: "Any" followed by every distinct
      category of the ad table, in order of first appearance. */
  function CategoryOptions(ads: seq<Advertisement>): (r: seq<string>)
    ensures |r| >= 1 && r[0] == AnyLabel
    ensures forall c :: c in r[1..] <==> exists a :: a in ads && a.category == c
    ensures forall i, j :: 1 <= i < j < |r| ==> r[i] != r[j]
  {
    var categories := CategoryColumn(ads);
    assert forall c :: c in categories <==> exists a :: a in ads && a.category == c by {
      forall c | c in categories ensures exists a :: a in ads && a.category == c {
        var i :| 0 <= i < |categories| && categories[i] == c;
        assert ads[i] in ads;
      }
      forall c | exists a :: a in ads && a.category == c ensures c in categories {
        var a :| a in ads && a.category == c;
        var i :| 0 <= i < |ads| && ads[i] == a;
        assert categories[i] == c;
      }
    }
    var r := [AnyLabel] + Distinct(categories);
    assert r[1..] == Distinct(categories);
    r
  }

  /** The choice a selected category label stands for: the label "Any" is the
      sentinel, every other label is a category. */
  function CategoryOf(selected: string): (c: CategoryChoice)
    ensures c == AnyCategory <==> selected == AnyLabel
    ensures c.Category? ==> c.name == selected
  {
    if selected == AnyLabel then AnyCategory else Category(selected)
  }

  /** The choice a has-kids label stands for: only "Yes" and "No" filter. */
  function HasKidsOf(selected: string): (k: HasKids)
    ensures k == Yes <==> selected == HasKidsLabels[1]
    ensures k == No <==> selected == HasKidsLabels[2]
  {
    if selected == "Yes" then Yes else if selected == "No" then No else Any
  }

  /** The query the form submits untouched: category "Any", no value
      proposition, tone, age, family, neighbourhood or house-age selection,
      has-kids "Any", and the size slider spanning the smallest to the largest
      house. An empty house table has no size range. */
  function DefaultQuery(houses: seq<House>): (r: Option<Query>)
    ensures r.None? <==> houses == []
    ensures r.Some? ==> (r.value.minSqft, r.value.maxSqft) == SizeBounds(houses).value
    ensures r.Some? ==> forall h :: h in houses ==> r.value.minSqft <= h.sizeSqft <= r.value.maxSqft
    ensures r.Some? ==> r.value.valueProps == {} && r.value.tones == {}
    ensures r.Some? ==> r.value.category == AnyCategory && r.value.hasKids == Any
    ensures r.Some? ==> r.value.ageBrackets == {} && r.value.familyStatuses == {}
    ensures r.Some? ==> r.value.neighborhoods == {} && r.value.houseAgeBrackets == {}
  {
    match SizeBounds(houses)
    case None => None
    case Some((lo, hi)) => Some(Query(AnyCategory, {}, {}, {}, Any, {}, {}, {}, lo, hi))
  }
}
