/**
 What the segment a query selects is guaranteed to satisfy: each survivor
 meets every criterion, unset criteria filter nothing, the affinity stage is
 an intersection that "Any" skips, dangling foreign keys add nobody, and
 narrowing a query never enlarges its segment.
 */
module EngineProperties {
  import opened Tables
  import opened Criteria
  import opened Engine

  /** The owner ids some house of the table refers to. */
  function HouseOwnerIds(houses: seq<House>): set<int>
  {
    set h | h in houses :: h.ownerId
  }

  /** The owner ids that engaged positively with an ad of `category`. */
  ghost function EngagedOwners(db: Dataset, category: string): set<int>
  {
    set id | id in HouseOwnerIds(db.houses) && EngagedOwner(db, category, id)
  }

  // ----- Every survivor meets every criterion -----

  /** A surviving id has one owner row that meets each demographic criterion. */
  lemma SurvivorMeetsDemographics(db: Dataset, q: Query, id: int)
    requires id in Segment(db, q)
    ensures exists o ::
      && o in db.owners && o.ownerId == id
      && (q.ageBrackets != {} ==> o.ageBracket in q.ageBrackets)
      && (q.hasKids == Yes ==> o.hasKids)
      && (q.hasKids == No ==> !o.hasKids)
      && (q.familyStatuses != {} ==> o.familyStatus in q.familyStatuses)
  {
  }

  /** A surviving id owns a house that meets every property criterion, the
      size bounds included. */
  lemma SurvivorOwnsMatchingHouse(db: Dataset, q: Query, id: int)
    requires id in Segment(db, q)
    ensures exists h ::
      && h in db.houses && h.ownerId == id
      && q.minSqft <= h.sizeSqft && h.sizeSqft <= q.maxSqft
      && (q.neighborhoods != {} ==> h.neighborhood in q.neighborhoods)
      && (q.houseAgeBrackets != {} ==> h.houseAgeBracket in q.houseAgeBrackets)
  {
  }

  /** With a category chosen, a surviving id owns a house (of the whole
      table, whatever the property criteria) with a visit during which an ad of
      that category got at least four stars. */
  lemma SurvivorEngaged(db: Dataset, q: Query, id: int)
    requires id in Segment(db, q) && q.category.Category?
    ensures exists a, x, v, h ::
      && a in db.ads && x in db.ratings && v in db.visits && h in db.houses
      && a.category == q.category.name && x.adId == a.adId && x.rating >= 4
      && x.visitId == v.visitId && v.houseId == h.houseId && h.ownerId == id
  {
  }

  /** The segment holds only ids of the owner table. */
  lemma SegmentWithinOwnerTable(db: Dataset, q: Query)
    ensures Segment(db, q) <= OwnerIds(db.owners)
    ensures |Segment(db, q)| <= |OwnerIds(db.owners)|
  {
    SubsetCardinality(Segment(db, q), OwnerIds(db.owners));
  }

  // ----- Unset criteria filter nothing -----

  /** With every criterion unset and a size range covering all houses, the
      segment is exactly the owners of the owner table that some house refers
      to: the ownership join drops every owner without a house. */
  lemma UnfilteredSelectsHouseOwners(db: Dataset, q: Query)
    requires q.category == AnyCategory && q.hasKids == Any
    requires q.ageBrackets == {} && q.familyStatuses == {}
    requires q.neighborhoods == {} && q.houseAgeBrackets == {}
    requires forall h :: h in db.houses ==> q.minSqft <= h.sizeSqft <= q.maxSqft
    ensures Segment(db, q) == OwnerIds(db.owners) * HouseOwnerIds(db.houses)
  {
  }

  /** The query the untouched form submits selects exactly the owners that
      some house refers to. */
  lemma DefaultQuerySelectsHouseOwners(db: Dataset)
    requires db.houses != []
    ensures DefaultQuery(db.houses).Some?
    ensures Segment(db, DefaultQuery(db.houses).value) == OwnerIds(db.owners) * HouseOwnerIds(db.houses)
  {
  }

  /** An owner that no house refers to is never in the segment, whatever the query. */
  lemma HouselessOwnerExcluded(db: Dataset, q: Query, id: int)
    requires forall h :: h in db.houses ==> h.ownerId != id
    ensures id !in Segment(db, q)
  {
  }

  /** Selecting every age bracket the owner table offers filters as little as
      selecting none. */
  lemma AllAgeBracketsIsNoFilter(db: Dataset, q: Query)
    ensures Segment(db, q.(ageBrackets := set o | o in db.owners :: o.ageBracket))
         == Segment(db, q.(ageBrackets := {}))
  {
  }

  /** Selecting every family status the owner table offers filters as little
      as selecting none. */
  lemma AllFamilyStatusesIsNoFilter(db: Dataset, q: Query)
    ensures Segment(db, q.(familyStatuses := set o | o in db.owners :: o.familyStatus))
         == Segment(db, q.(familyStatuses := {}))
  {
  }

  /** Selecting every neighbourhood the house table offers filters as little
      as selecting none. */
  lemma AllNeighborhoodsIsNoFilter(db: Dataset, q: Query)
    ensures Segment(db, q.(neighborhoods := set h | h in db.houses :: h.neighborhood))
         == Segment(db, q.(neighborhoods := {}))
  {
  }

  /** Selecting every house-age bracket the house table offers filters as
      little as selecting none. */
  lemma AllHouseAgeBracketsIsNoFilter(db: Dataset, q: Query)
    ensures Segment(db, q.(houseAgeBrackets := set h | h in db.houses :: h.houseAgeBracket))
         == Segment(db, q.(houseAgeBrackets := {}))
  {
  }

  /** Has-kids "Any" keeps exactly the owners that "Yes" or "No" keeps. */
  lemma AnyKidsIsYesOrNo(db: Dataset, q: Query)
    ensures Segment(db, q.(hasKids := Any))
         == Segment(db, q.(hasKids := Yes)) + Segment(db, q.(hasKids := No))
  {
  }

  /** The value-proposition and tone selections do not affect the segment. */
  lemma ValuePropsAndTonesIgnored(db: Dataset, q: Query, valueProps: set<string>, tones: set<string>)
    ensures Segment(db, q.(valueProps := valueProps, tones := tones)) == Segment(db, q)
  {
  }

  /** A size range whose lower end exceeds its upper end matches no house, so
      the segment is empty (the range is taken as given, not clamped). */
  lemma InvertedRangeMatchesNobody(db: Dataset, q: Query)
    requires q.minSqft > q.maxSqft
    ensures Segment(db, q) == {}
  {
  }

  // ----- The affinity stage -----

  /** Choosing a category intersects the segment of the same query with
      category "Any" with the positively engaged owners; "Any" skips the stage. */
  lemma CategoryIntersectsEngagedOwners(db: Dataset, q: Query, category: string)
    ensures Segment(db, q.(category := Category(category)))
         == Segment(db, q.(category := AnyCategory)) * EngagedOwners(db, category)
  {
  }

  /** A rating of a visit that no visit row has adds nobody to any segment. */
  lemma DanglingRatingAddsNobody(db: Dataset, q: Query, x: AdRating)
    requires forall v :: v in db.visits ==> v.visitId != x.visitId
    ensures Segment(db.(ratings := db.ratings + [x]), q) == Segment(db, q)
  {
  }

  /** A house whose owner id matches no owner row adds nobody to any segment. */
  lemma DanglingHouseAddsNobody(db: Dataset, q: Query, h: House)
    requires h.ownerId !in OwnerIds(db.owners)
    ensures Segment(db.(houses := db.houses + [h]), q) == Segment(db, q)
  {
  }

  // ----- Narrowing a query -----

  /** `narrow` is at least as restrictive as `wide` as a multiselect: either
      `wide` is unset, or `narrow` is set and selects only values of `wide`. */
  predicate NarrowsSelection(narrow: set<string>, wide: set<string>)
  {
    wide == {} || (narrow != {} && narrow <= wide)
  }

  /** Every criterion of `narrow` is at least as restrictive as that of `wide`. */
  predicate Narrows(narrow: Query, wide: Query)
  {
    && (wide.category == AnyCategory || narrow.category == wide.category)
    && NarrowsSelection(narrow.ageBrackets, wide.ageBrackets)
    && (wide.hasKids == Any || narrow.hasKids == wide.hasKids)
    && NarrowsSelection(narrow.familyStatuses, wide.familyStatuses)
    && NarrowsSelection(narrow.neighborhoods, wide.neighborhoods)
    && NarrowsSelection(narrow.houseAgeBrackets, wide.houseAgeBrackets)
    && wide.minSqft <= narrow.minSqft && narrow.maxSqft <= wide.maxSqft
  }

  /** Narrowing a query never adds an owner to its segment, nor raises its count. */
  lemma NarrowingNeverAdds(db: Dataset, narrow: Query, wide: Query)
    requires Narrows(narrow, wide)
    ensures Segment(db, narrow) <= Segment(db, wide)
    ensures |Segment(db, narrow)| <= |Segment(db, wide)|
  {
    forall id | id in Segment(db, narrow) ensures id in Segment(db, wide) {
      var o :| o in db.owners && DemographicOk(narrow, o) && OwnsMatchingHouse(db, narrow, o.ownerId)
        && (narrow.category.Category? ==> EngagedOwner(db, narrow.category.name, o.ownerId))
        && o.ownerId == id;
      var h :| h in db.houses && h.ownerId == id && PropertyOk(narrow, h);
      assert PropertyOk(wide, h);
      assert DemographicOk(wide, o);
    }
    SubsetCardinality(Segment(db, narrow), Segment(db, wide));
  }

  // ----- The selectbox choices -----

  /** Each label of the category selectbox maps to "Any" or to a category
      that some advertisement has. */
  lemma CategoryOptionsAreChoices(ads: seq<Advertisement>, i: int)
    requires 0 <= i < |CategoryOptions(ads)|
    ensures i == 0 ==> CategoryOf(CategoryOptions(ads)[i]) == AnyCategory
    ensures CategoryOf(CategoryOptions(ads)[i]).Category? ==>
      exists a :: a in ads && a.category == CategoryOf(CategoryOptions(ads)[i]).name
  {
    var options := CategoryOptions(ads);
    if i > 0 {
      assert options[i] == options[1..][i - 1];
      assert options[i] in options[1..];
    }
  }

  // ----- Worked scenarios -----

  /** Three owners, each with one house of 1000 square feet: owner 1 aged
      25-34 without kids, owner 2 aged 35-44 with kids, owner 3 aged 25-34
      with kids. No visits, ratings or ads. */
  function ThreeOwners(): Dataset
  {
    Dataset(
      [Owner(1, "25-34", false, "single"), Owner(2, "35-44", true, "married"),
       Owner(3, "25-34", true, "married")],
      [House(11, 1, "urban", "new", 1000), House(12, 2, "urban", "new", 1000),
       House(13, 3, "urban", "new", 1000)],
      [], [], [])
  }

  /** The age bracket 25-34 alone selects owners 1 and 3. */
  lemma AgeBracketScenario()
    ensures Segment(ThreeOwners(), Query(AnyCategory, {}, {}, {"25-34"}, Any, {}, {}, {}, 0, 2000)) == {1, 3}
  {
  }

  /** Has-kids "Yes" alone, with the form's default size range, selects owners 2 and 3. */
  lemma HasKidsScenario()
    ensures DefaultQuery(ThreeOwners().houses).Some?
    ensures Segment(ThreeOwners(), DefaultQuery(ThreeOwners().houses).value.(hasKids := Yes)) == {2, 3}
  {
  }

  /** The three owners, with one "Food" ad rated five stars during a visit
      to owner 1's house. */
  function ThreeOwnersOneFoodRating(): Dataset
  {
    ThreeOwners().(visits := [ServiceVisit(100, 11)],
                   ratings := [AdRating(7, 100, 5)],
                   ads := [Advertisement(7, "Food", "convenience", "friendly")])
  }

  /** The category "Food" alone, with the form's default size range, selects
      owner 1 only: the one positive rating leads only to that owner. */
  lemma EngagementScenario()
    ensures Segment(ThreeOwnersOneFoodRating(),
                    Query(Category("Food"), {}, {}, {}, Any, {}, {}, {}, 1000, 1000)) == {1}
  {
  }

  /** One owner with a house of 1000 square feet and one of 5000, a visit to
      the large one, and a four-star rating of a "Food" ad during that visit. */
  function TwoHouseOwner(): Dataset
  {
    Dataset([Owner(1, "25-34", false, "single")],
            [House(11, 1, "urban", "new", 1000), House(21, 1, "rural", "old", 5000)],
            [ServiceVisit(100, 21)],
            [AdRating(7, 100, 4)],
            [Advertisement(7, "Food", "convenience", "friendly")])
  }

  /** Engagement is traced through the whole house table: with the size range
      0-2000 only the small house passes the property stage, yet the rating
      given during the visit to the large one still qualifies its owner. */
  lemma EngagementThroughFilteredOutHouse()
    ensures Segment(TwoHouseOwner(), Query(Category("Food"), {}, {}, {}, Any, {}, {}, {}, 0, 2000)) == {1}
  {
  }
}
