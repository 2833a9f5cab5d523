# Market-size estimator: segment-filtering engine

The estimator helps a prospective advertiser gauge its potential customer base.
It reads five tables: homeowners, houses, service visits, ad ratings and advertisements.
It narrows the owner table by the criteria chosen on a form and reports how many distinct homeowners are left.
This project models that engine and proves what its result means.

The engine works in stages:

1. **Demographic stage.** Owner rows are kept by age bracket, has-kids (Any, Yes or No) and family status.
2. **Property stage.** House rows are kept by an inclusive square-footage range, neighbourhood and house-age bracket.
3. **Ownership join.** An owner row survives only if its id belongs to a house that passed the property stage.
4. **Ad-affinity stage.** This runs only when a category other than "Any" is chosen. It takes the ads of that category, their ratings of four stars or more, the visits those ratings belong to, the houses of those visits (from the whole house table), and the owners of those houses. Owner rows are then kept only if their id is among those owners.
5. **Count.** The result is the number of distinct owner ids that survive, reported with the number of distinct owners in the table.

Within one field, any selected value is enough. Across fields, every criterion must hold. An empty selection filters nothing on its field.

Files:

- `Tables.dfy` holds the row datatypes and the `Dataset` of five tables. It also holds boolean-mask row selection (`Filter`), a column's distinct values in order of first appearance (`Distinct`), and the house-size bounds the form's slider starts from (`SizeBounds`).
- `Criteria.dfy` holds the `Query` value, the "Any" sentinels, the category and has-kids option lists, and the query an untouched form submits.
- `Engine.dfy` holds the row predicates, the declarative reference `Segment`, and the imperative pipeline `Evaluate` with its stage methods. Each local is reassigned stage by stage as in the source. `Evaluate` is proved to return exactly `Segment`.
- `EngineProperties.dfy` holds the lemmas about `Segment`, proved for all inputs, plus four worked scenarios on concrete tables.

Three behaviours of the code that a reader might expect otherwise:

- **Houseless owners are never counted.** This holds even with every criterion unset, because the ownership join always runs (discover_customer_app.py:153-154; `HouselessOwnerExcluded`, `UnfilteredSelectsHouseOwners`).
- **An inverted size range is not clamped.** A range with minimum above maximum is applied as given and matches nobody (discover_customer_app.py:143-146; `InvertedRangeMatchesNobody`). The form never submits such a range: its range slider always yields a minimum no greater than its maximum (discover_customer_app.py:118-121). The lemma covers queries built some other way.
- **The "Any" label is a plain string.** The category choice is either the literal label `"Any"` or a category name. An advertisement category named exactly "Any" can therefore never be chosen as a category (discover_customer_app.py:53, 158; `CategoryOf`).

## Model

| member | source | states |
|---|---|---|
| Tables.Filter | discover_customer_app.py:134-150 | indexing a table by a boolean mask keeps exactly the rows of the table for which the mask holds, and never adds rows |
| Tables.Distinct | discover_customer_app.py:53 | a column's `unique()` values hold exactly the column's values, each once, in order of first appearance |
| Tables.SizeBounds | discover_customer_app.py:117 | the slider bounds are the smallest and largest house size: every house lies between them and both are attained; an empty house table has none |
| Criteria.CategoryOptions | discover_customer_app.py:51-55 | the category options are "Any" followed by every category some advertisement has, each once |
| Criteria.CategoryOf | discover_customer_app.py:158 | a selected label means "no category constraint" exactly when it is the sentinel "Any"; otherwise it names that category |
| Criteria.HasKidsOf | discover_customer_app.py:84-88 | of the options Any, Yes and No, only "Yes" selects owners with kids and only "No" selects owners without |
| Criteria.DefaultQuery | discover_customer_app.py:76-121 | the untouched form submits category "Any", has-kids "Any", every multiselect empty (value propositions and tones included), and the size range from the smallest to the largest house, which covers every house |
| Engine.DemographicStage | discover_customer_app.py:130-140 | the owner rows kept are exactly those whose age bracket and family status are in the selections (when non-empty) and whose has-kids matches Yes/No |
| Engine.PropertyStage | discover_customer_app.py:143-150 | the house rows kept are exactly those with size in the inclusive range and neighbourhood and house age in the selections (when non-empty) |
| Engine.PositiveRatingsOwners | discover_customer_app.py:157-169 | the owner ids gathered are exactly the owners of houses (from the whole house table) with a visit during which an ad of the category was rated at least 4 |
| Engine.Evaluate | discover_customer_app.py:129-183 | the pipeline returns exactly the declarative segment, its size as the count, and the distinct owner total; the segment is within the owner ids and the count never exceeds the total |
| EngineProperties.SurvivorMeetsDemographics | discover_customer_app.py:133-140 | every surviving id has one owner row whose age bracket and family status are in the non-empty selections and whose has-kids matches Yes/No |
| EngineProperties.SurvivorOwnsMatchingHouse | discover_customer_app.py:143-154 | every surviving id owns a house with minSqft <= size <= maxSqft whose neighbourhood and house age are in the non-empty selections |
| EngineProperties.SurvivorEngaged | discover_customer_app.py:158-173 | with a category chosen, every surviving id owns a house with a visit carrying a rating of 4 or more for an ad of that category |
| EngineProperties.SegmentWithinOwnerTable | discover_customer_app.py:176-183 | the segment holds only owner ids of the owner table, so the count never exceeds the distinct owner total |
| EngineProperties.UnfilteredSelectsHouseOwners | discover_customer_app.py:143-154 | with every criterion unset and a size range covering all houses, the segment is exactly the owner ids that some house refers to |
| EngineProperties.DefaultQuerySelectsHouseOwners | discover_customer_app.py:117-154 | the query of the untouched form selects exactly the owners that some house refers to |
| EngineProperties.HouselessOwnerExcluded | discover_customer_app.py:153-154 | an owner that no house refers to is in no segment, whatever the query |
| EngineProperties.AllAgeBracketsIsNoFilter | discover_customer_app.py:133-134 | selecting every age bracket of the owner table selects the same owners as selecting none |
| EngineProperties.AllFamilyStatusesIsNoFilter | discover_customer_app.py:139-140 | selecting every family status of the owner table selects the same owners as selecting none |
| EngineProperties.AllNeighborhoodsIsNoFilter | discover_customer_app.py:147-148 | selecting every neighbourhood of the house table selects the same owners as selecting none |
| EngineProperties.AllHouseAgeBracketsIsNoFilter | discover_customer_app.py:149-150 | selecting every house-age bracket of the house table selects the same owners as selecting none |
| EngineProperties.AnyKidsIsYesOrNo | discover_customer_app.py:135-138 | has-kids "Any" selects exactly the union of what "Yes" and "No" select |
| EngineProperties.ValuePropsAndTonesIgnored | discover_customer_app.py:58-71 | the value-proposition and tone selections do not change the segment |
| EngineProperties.InvertedRangeMatchesNobody | discover_customer_app.py:143-146 | a size range with minimum above maximum yields an empty segment; the form itself never submits such a range |
| EngineProperties.CategoryIntersectsEngagedOwners | discover_customer_app.py:157-173 | choosing a category intersects the "Any" segment of the same query with the positively engaged owners, so "Any" removes nobody at that stage |
| EngineProperties.DanglingRatingAddsNobody | discover_customer_app.py:162-173 | a rating whose visit id matches no visit leaves every segment unchanged |
| EngineProperties.DanglingHouseAddsNobody | discover_customer_app.py:153-173 | a house whose owner id matches no owner leaves every segment unchanged |
| EngineProperties.NarrowingNeverAdds | discover_customer_app.py:133-173 | narrowing any criterion never adds an owner to the segment nor raises its count. Narrowing means: setting an unset selection or shrinking a set one, shrinking the size range, or choosing Yes/No or a category instead of Any |
| EngineProperties.CategoryOptionsAreChoices | discover_customer_app.py:51-55 | the first category option means "Any", and every option that names a category names one that some advertisement has |
| EngineProperties.AgeBracketScenario | discover_customer_app.py:133-134 | three one-house owners: selecting age bracket 25-34 gives owners 1 and 3 |
| EngineProperties.HasKidsScenario | discover_customer_app.py:135-136 | the same owners: has-kids "Yes" with the default size range gives owners 2 and 3 |
| EngineProperties.EngagementScenario | discover_customer_app.py:157-173 | a single five-star "Food" rating at owner 1's house: category "Food" gives owner 1 only |
| EngineProperties.EngagementThroughFilteredOutHouse | discover_customer_app.py:168 | a positive rating at a house the size range excludes still qualifies that house's owner, who passes the join through another house |

## Left out

- The Streamlit page leaves no trace in the model: layout, headers, widgets, the button, and the success, warning, info and caption messages (discover_customer_app.py:1-6, 41-128, 178-186). The form is modelled only by the values it submits (`Query`, `DefaultQuery`, the option lists).
- CSV loading, caching and stopping the app when the files are missing are I/O and process state (discover_customer_app.py:9-38). The engine takes the five tables as a `Dataset` parameter instead.
- The value-proposition and tone selections are kept in `Query` but filter nothing, as in the code (`ValuePropsAndTonesIgnored`).
- disc_cust_app.py is not part of this model. It generates random sample data and writes CSV files, then repeats the form in a truncated variant that does not parse.
- pandas behaviour is not modelled: dtypes, missing values, index alignment. Rows are records with integer, boolean and string fields. Only which rows are kept matters, not their order or index.
- With an empty house table, `DefaultQuery` gives `None`. The code would fail at this point, converting the minimum of an empty column to an integer, and that failure is not modelled.

