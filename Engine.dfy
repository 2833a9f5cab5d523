/**
 The segment-filtering engine: the criteria of a query narrow the owner
 table stage by stage (demographics, property, ownership of a matching
 house, positive engagement with ads of the chosen category) and the
 distinct owner ids that survive are counted.
 */
module Engine {
  import opened Tables
  import opened Criteria

  /** A rating at or above this many stars counts as positive engagement. */
  const PositiveRating: int := 4

  /** The outcome of one evaluation: the matched owner ids, how many there
      are, and how many distinct owners the owner table holds. */
  datatype MarketSize = MarketSize(matched: set<int>, count: nat, totalOwners: nat)

  predicate KidsOk(k: HasKids, hasKids: bool)
  {
    match k
    case Any => true
    case Yes => hasKids
    case No => !hasKids
  }

  /** An owner row meets the demographic criteria: OR within a field, AND
      across fields, an empty selection constrains nothing. */
  predicate DemographicOk(q: Query, o: Owner)
  {
    && (q.ageBrackets == {} || o.ageBracket in q.ageBrackets)
    && KidsOk(q.hasKids, o.hasKids)
    && (q.familyStatuses == {} || o.familyStatus in q.familyStatuses)
  }

  /** A house row meets the property criteria; the size range is inclusive. */
  predicate PropertyOk(q: Query, h: House)
  {
    && q.minSqft <= h.sizeSqft <= q.maxSqft
    && (q.neighborhoods == {} || h.neighborhood in q.neighborhoods)
    && (q.houseAgeBrackets == {} || h.houseAgeBracket in q.houseAgeBrackets)
  }

  /** Some house of the table is owned by `id` and meets the property criteria. */
  ghost predicate OwnsMatchingHouse(db: Dataset, q: Query, id: int)
  {
    exists h :: h in db.houses && h.ownerId == id && PropertyOk(q, h)
  }

  /** During visit `visitId` an ad of `category` was rated at least four stars. */
  ghost predicate PositiveVisit(db: Dataset, category: string, visitId: int)
  {
    exists a, x ::
      && a in db.ads && x in db.ratings
      && a.category == category && x.adId == a.adId
      && x.rating >= PositiveRating && x.visitId == visitId
  }

  /** House `houseId` had a positive visit for `category`. */
  ghost predicate EngagedHouse(db: Dataset, category: string, houseId: int)
  {
    exists v :: v in db.visits && v.houseId == houseId && PositiveVisit(db, category, v.visitId)
  }

  /** Some house of the whole house table owned by `id` had a service visit
      during which an ad of `category` was rated positively. */
  ghost predicate EngagedOwner(db: Dataset, category: string, id: int)
  {
    exists h :: h in db.houses && h.ownerId == id && EngagedHouse(db, category, h.houseId)
  }

  /** The segment a query selects, stated declaratively: the ids of the owner
      rows that meet the demographic criteria, own a house meeting the
      property criteria and, when a category is chosen, engaged positively
      with an ad of that category. */
  ghost function Segment(db: Dataset, q: Query): set<int>
  {
    set o | o in db.owners
            && DemographicOk(q, o)
            && OwnsMatchingHouse(db, q, o.ownerId)
            && (q.category.Category? ==> EngagedOwner(db, q.category.name, o.ownerId))
          :: o.ownerId
  }

  /** The owners reached from positive ratings of ads of `category`: ads of
      the category, their ratings, those of at least four stars, their
      visits, the visits' houses in the full house table, their owners. */
  method PositiveRatingsOwners(db: Dataset, category: string) returns (owners: set<int>)
    ensures forall id :: id in owners <==> EngagedOwner(db, category, id)
  {
    owners := {};
    var matchingAds := set a | a in Filter(db.ads, (a: Advertisement) => a.category == category) :: a.adId;
    assert forall id :: id in matchingAds <==>
      exists a :: a in db.ads && a.category == category && a.adId == id;
    var relevantRatings := Filter(db.ratings, (x: AdRating) => x.adId in matchingAds);
    var positiveRatings := Filter(relevantRatings, (x: AdRating) => x.rating >= PositiveRating);
    assert forall x :: x in positiveRatings <==>
      x in db.ratings && x.adId in matchingAds && x.rating >= PositiveRating;
    var positiveVisits := set x | x in positiveRatings :: x.visitId;
    assert forall vid :: vid in positiveVisits <==> PositiveVisit(db, category, vid);
    var relevantVisits := Filter(db.visits, (v: ServiceVisit) => v.visitId in positiveVisits);
    var visitedHouses := set v | v in relevantVisits :: v.houseId;
    assert forall hid :: hid in visitedHouses <==> EngagedHouse(db, category, hid);
    var ownersFromPositiveRatings := Filter(db.houses, (h: House) => h.houseId in visitedHouses);
    assert forall h :: h in ownersFromPositiveRatings <==> h in db.houses && EngagedHouse(db, category, h.houseId);
    owners := owners + set h | h in ownersFromPositiveRatings :: h.ownerId;
  }

  /** The owner rows that meet the demographic criteria, narrowed one field at a time. */
  method DemographicStage(owners: seq<Owner>, q: Query) returns (filteredOwners: seq<Owner>)
    ensures forall o :: o in filteredOwners <==> o in owners && DemographicOk(q, o)
  {
    filteredOwners := owners;
    if q.ageBrackets != {} {
      filteredOwners := Filter(filteredOwners, (o: Owner) => o.ageBracket in q.ageBrackets);
    }
    assert forall o :: o in filteredOwners <==>
      o in owners && (q.ageBrackets == {} || o.ageBracket in q.ageBrackets);
    ghost var byAge := filteredOwners;
    if q.hasKids == Yes {
      filteredOwners := Filter(filteredOwners, (o: Owner) => o.hasKids == true);
    } else if q.hasKids == No {
      filteredOwners := Filter(filteredOwners, (o: Owner) => o.hasKids == false);
    }
    assert forall o :: o in filteredOwners <==> o in byAge && KidsOk(q.hasKids, o.hasKids);
    if q.familyStatuses != {} {
      filteredOwners := Filter(filteredOwners, (o: Owner) => o.familyStatus in q.familyStatuses);
    }
  }

  /** The house rows that meet the property criteria: the size range first,
      then the neighbourhood and house-age selections. */
  method PropertyStage(houses: seq<House>, q: Query) returns (filteredHouses: seq<House>)
    ensures forall h :: h in filteredHouses <==> h in houses && PropertyOk(q, h)
  {
    filteredHouses := Filter(houses, (h: House) => q.minSqft <= h.sizeSqft && h.sizeSqft <= q.maxSqft);
    if q.neighborhoods != {} {
      filteredHouses := Filter(filteredHouses, (h: House) => h.neighborhood in q.neighborhoods);
    }
    assert forall h :: h in filteredHouses <==>
      h in houses && q.minSqft <= h.sizeSqft <= q.maxSqft
      && (q.neighborhoods == {} || h.neighborhood in q.neighborhoods);
    if q.houseAgeBrackets != {} {
      filteredHouses := Filter(filteredHouses, (h: House) => h.houseAgeBracket in q.houseAgeBrackets);
    }
  }

  /** Runs the pipeline on the tables and returns the segment, its size and
      the number of distinct owners in the owner table. */
  method Evaluate(db: Dataset, q: Query) returns (r: MarketSize)
    ensures r.matched == Segment(db, q)
    ensures r.count == |r.matched|
    ensures r.totalOwners == |OwnerIds(db.owners)|
    ensures r.matched <= OwnerIds(db.owners) && r.count <= r.totalOwners
  {
    var filteredOwners := DemographicStage(db.owners, q);
    var filteredHouses := PropertyStage(db.houses, q);

    // Ownership join: owners of at least one house that passed the property stage.
    var ownersInFilteredHouses := set h | h in filteredHouses :: h.ownerId;
    assert forall id :: id in ownersInFilteredHouses <==> OwnsMatchingHouse(db, q, id);
    filteredOwners := Filter(filteredOwners, (o: Owner) => o.ownerId in ownersInFilteredHouses);

    // Ad-affinity stage, only when a category is chosen.
    var positiveRatingsOwners: set<int> := {};
    if q.category != AnyCategory {
      positiveRatingsOwners := PositiveRatingsOwners(db, q.category.name);
    }
    if q.category != AnyCategory {
      filteredOwners := Filter(filteredOwners, (o: Owner) => o.ownerId in positiveRatingsOwners);
    }
    assert forall o :: o in filteredOwners <==>
      && o in db.owners && DemographicOk(q, o) && OwnsMatchingHouse(db, q, o.ownerId)
      && (q.category.Category? ==> EngagedOwner(db, q.category.name, o.ownerId));

    // Distinct-owner count.
    var matched := set o | o in filteredOwners :: o.ownerId;
    SubsetCardinality(matched, OwnerIds(db.owners));
    r := MarketSize(matched, |matched|, |OwnerIds(db.owners)|);
  }
}
