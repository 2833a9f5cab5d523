/**
 The five in-memory tables the market-size estimator reads, and the
 row-level operations on them that the filtering pipeline is built from:
 boolean-mask selection of rows, projection of a column to its distinct
 values, and the minimum and maximum of the house sizes.
 */
module Tables {

  datatype Option<T> = None | Some(value: T)

  /** One homeowner (a row of the owner table). */
  datatype Owner = Owner(ownerId: int, ageBracket: string, hasKids: bool, familyStatus: string)

  /** One house; `ownerId` is a foreign key into the owner table that may dangle. */
  datatype House = House(houseId: int, ownerId: int, neighborhood: string,
                         houseAgeBracket: string, sizeSqft: int)

  /** One service visit; `houseId` is a foreign key into the house table. */
  datatype ServiceVisit = ServiceVisit(visitId: int, houseId: int)

  /** One rating of an advertisement, given during a service visit. */
  datatype AdRating = AdRating(adId: int, visitId: int, rating: int)

  /** One advertisement. The value proposition and tone are never used for filtering. */
  datatype Advertisement = Advertisement(adId: int, category: string,
                                         valueProp: string, headlineTone: string)

  /** The five tables, loaded once and read-only afterwards. */
  datatype Dataset = Dataset(owners: seq<Owner>, houses: seq<House>, visits: seq<ServiceVisit>,
                             ratings: seq<AdRating>, ads: seq<Advertisement>)

  /** The rows of `s` for which the mask `keep` holds, in their order, duplicates included
      (a data frame indexed by a boolean series). */
  function Filter<T(!new)>(s: seq<T>, keep: T -> bool): (r: seq<T>)
    ensures |r| <= |s|
    ensures forall x :: x in r <==> x in s && keep(x)
  {
    if s == [] then []
    else
      assert s == [s[0]] + s[1..];
      if keep(s[0]) then [s[0]] + Filter(s[1..], keep) else Filter(s[1..], keep)
  }

  /** The distinct owner ids of an owner table (`nunique` over `owner_id`). */
  function OwnerIds(owners: seq<Owner>): set<int>
  {
    set o | o in owners :: o.ownerId
  }

  /** The distinct values of a column in the order they first appear (a series' `unique()`). */
  function Distinct(s: seq<string>): (r: seq<string>)
    ensures forall x :: x in r <==> x in s
    ensures forall i, j :: 0 <= i < j < |r| ==> r[i] != r[j]
    ensures |r| <= |s|
    ensures s != [] ==> r != [] && r[0] == s[0]
    // order of first appearance: wherever a later value occurs, every earlier value occurred before
    ensures forall i, j, k :: 0 <= i < j < |r| && 0 <= k < |s| && s[k] == r[j] ==> r[i] in s[..k]
  {
    if s == [] then []
    else
      var init := s[..|s| - 1];
      var prefix := Distinct(init);
      assert s == init + [s[|s| - 1]];
      var r := if s[|s| - 1] in prefix then prefix else prefix + [s[|s| - 1]];
      forall i, j, k | 0 <= i < j < |r| && 0 <= k < |s| && s[k] == r[j] ensures r[i] in s[..k] {
        assert r[i] == prefix[i];
        if j < |prefix| {
          assert r[j] == prefix[j];
          var k' :| 0 <= k' < |init| && init[k'] == r[j] && k' <= k;
          assert r[i] in init[..k'];
          assert init[..k'] == s[..k'];
        } else {
          assert r[i] in init;
          assert k == |s| - 1;
          assert s[..k] == init;
        }
      }
      r
  }

  /** The smallest and largest house size, or None for an empty house table
      (where the minimum of the column is undefined). */
  function SizeBounds(houses: seq<House>): (r: Option<(int, int)>)
    ensures r.None? <==> houses == []
    ensures r.Some? ==> forall h :: h in houses ==> r.value.0 <= h.sizeSqft <= r.value.1
    ensures r.Some? ==> exists h :: h in houses && h.sizeSqft == r.value.0
    ensures r.Some? ==> exists h :: h in houses && h.sizeSqft == r.value.1
  {
    if houses == [] then None
    else
      assert houses == [houses[0]] + houses[1..];
      var size := houses[0].sizeSqft;
      match SizeBounds(houses[1..])
      case None => Some((size, size))
      case Some((lo, hi)) =>
        Some((if size < lo then size else lo, if size > hi then size else hi))
  }

  /** A subset is never larger than its superset. */
  lemma {:induction false} SubsetCardinality<T>(a: set<T>, b: set<T>)
    requires a <= b
    ensures |a| <= |b|
  {
    if a != {} {
      var x :| x in a;
      SubsetCardinality(a - {x}, b - {x});
    }
  }
}
