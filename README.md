# Fishing company: a verified model of the catch reports and the editing screens

The system keeps records for a fishing company. Boats go on fishing trips. A
trip visits fishing banks, and each bank visit lands catches of some fish type,
each with a weight and a quality grade. This project models the server's
reporting routes and the client screens' local logic over those records, and
proves what they compute.

**Server routes.** The model covers three route files:

- the bank routes (`BankRoutes`): the bank detail with its average catch per
  visit, the average weight per fish-type name over visits that arrive in a date
  range, and the boats whose visit catch beats the bank's average;
- the statistics routes (`StatisticsRoutes`): the total catch per fish type and
  boat over a trip window, and the average catch weight per bank;
- the fish routes (`FishRoutes`): fish types with their total catch, one fish
  type's detail, and three catch searches.

**Client screens.** The model covers four screens and the labels they share:

- the trips screen's trip form (`TripsForm`);
- the fish-type screen's catch history, grouped by trip (`FishTypesView`);
- the bank screen's per-fish-type weight and its dialog state (`BanksView`);
- the boat screen's edit form (`BoatsView`);
- the quality-label translations that these screens share (`Quality`). The boats
  screen also declares a lookup table (`getQualityInRussian`) that nothing
  calls; it is modelled as the reference the two translations in use are
  compared with.

**The data.** The database is one sequence of rows per table (`Schema.Db`).
Each ORM query or SQL statement becomes a function over those rows. SQL
`GROUP BY` becomes distinct keys in order of first occurrence, each with its
filtered group (`Seqs.GroupsOf`). `ORDER BY` becomes a stable insertion sort
under a total preorder (`Sorting.SortBy`). `AVG` with `COALESCE(..., 0)`, and
JavaScript's `avg || 0`, become `Seqs.Mean`.

**Number and string formats.** Weights are exact reals. Dates are whole day
numbers. Query parameters arrive already parsed, and a missing one is `None`.
Strings compare by code point, as under the SQL "C" collation.

**What is imperative.** The average-catch reducer of the bank routes updates an
accumulator record in place. It is a method with loop invariants, and its
result is proved equal to a functional specification. The bank screen's dialog
state is a class whose handlers are methods with `modifies` clauses.

**Modules.** `Seqs`, `Strings` and `Sorting` are helper modules. The rest follow
the program's files.

## Model

| member | source | states |
|---|---|---|
| Schema.FindBy | server/src/routes/banks.ts:38-39 | `findUnique` by id finds nothing exactly when no row has the id. What it finds is a row of the table with that id. |
| Schema.CatchesOfVisit | server/src/routes/banks.ts:48-52 | A visit's included catches are exactly the catches whose `bankVisitId` is the visit, each as often as the table holds it. |
| Schema.VisitsOfBank | server/src/routes/banks.ts:40-41 | A bank's included visits are exactly the visits whose `fishingBankId` is the bank, each as often as the table holds it. |
| Schema.CatchesOfType | server/src/routes/fish.ts:11-15 | A fish type's included catches are exactly the catches of that type, each as often as the table holds it. |
| BankRoutes.CatchesAtBank | server/src/routes/banks.ts:66-69 | The JOIN of the bank's visits with the catches yields exactly the catches whose visit belongs to the bank. |
| BankRoutes.CaughtVisitIdsAreVisitsWithCatches | server/src/routes/banks.ts:66-70 | `GROUP BY bv.id` after the inner JOIN gives each visit id at most once. An id appears if and only if it is a visit of the bank with at least one catch. |
| BankRoutes.VisitSumsAddUp | server/src/routes/banks.ts:66-70 | The per-visit sums add up to the total weight of the bank's catches: grouping loses and doubles nothing. |
| BankRoutes.AveragePerVisit | server/src/routes/banks.ts:63-74 | The average per visit is the bank's total catch divided by the number of visits that caught something. It is 0 when no visit caught anything (`|| 0`). |
| BankRoutes.GetBank | server/src/routes/banks.ts:35-76 | 404 exactly when no bank has the id. Otherwise the body holds that bank, exactly its visits, and the average per visit. |
| BankRoutes.WithFishType | server/src/routes/banks.ts:163-169 | Each catch is paired with its fish type. A catch appears exactly when its fish type exists, and when every fish type exists the catches keep their number and order. |
| BankRoutes.VisitsArrivingWithin | server/src/routes/banks.ts:154-170 | The visits loaded are exactly the bank's visits that arrive within the inclusive range, each with exactly its catches and their fish types. |
| BankRoutes.AllCatchesMembers | server/src/routes/banks.ts:177-178 | The reducer and its `forEach` visit exactly the catches held by some loaded visit. |
| BankRoutes.LoadedCatches | server/src/routes/banks.ts:154-178 | The catches folded are exactly the database's catches whose fish type exists and whose visit belongs to the bank and arrives within the range, each with its fish type. |
| BankRoutes.WithFishTypeCatches | server/src/routes/banks.ts:163-167 | The catches kept by `include: { fishType: true }` are exactly those of the visit whose fish type exists, in order. |
| BankRoutes.VisitsArrivingWithinCounts | server/src/routes/banks.ts:154-178 | Each visit of the bank that arrives within the range is loaded as often as the table holds it. No other visit is loaded. |
| BankRoutes.WindowVisitsDistinct | server/src/routes/banks.ts:154-161 | With primary keys, the visits the `where` clause selects have distinct ids. |
| BankRoutes.WindowVisitIds | server/src/routes/banks.ts:154-161 | An id belongs to a selected visit exactly when some visit of the bank that arrives within the range has it. |
| BankRoutes.LoadedCatchCountsOver | server/src/routes/banks.ts:154-178 | Over visits with distinct ids, a catch is folded as often as the table holds it when its fish type exists and its visit is one of them. Otherwise it is never folded. |
| BankRoutes.LoadedCatchCounts | server/src/routes/banks.ts:154-178 | With unique visit ids, a catch is folded as often as the table holds it when its fish type exists and its visit belongs to the bank and arrives within the range. No other catch is folded. |
| BankRoutes.Named | server/src/routes/banks.ts:179 | The catches counted under a name are exactly those whose fish type has that name. |
| BankRoutes.AveragesEntries | server/src/routes/banks.ts:177-192 | Each entry's average is the total weight of the catches with that name divided by their number, and that number is positive. Every entry's name comes from a catch. |
| BankRoutes.AveragesNamesDistinct | server/src/routes/banks.ts:179-182 | No fish-type name has two entries. |
| BankRoutes.AveragesCoverNames | server/src/routes/banks.ts:177-192 | Every catch's fish-type name has an entry. |
| BankRoutes.TallyStep | server/src/routes/banks.ts:179-185 | Adding one catch to the accumulator keeps it equal to the totals and counts per name of the catches seen. The key order is first appearance. |
| BankRoutes.TallyVisit | server/src/routes/banks.ts:178-186 | The `forEach` over one visit's catches keeps the accumulator equal to the tally of every catch seen so far. |
| BankRoutes.TalliedAverages | server/src/routes/banks.ts:189-192 | On a complete tally every count is positive, and the `Object.entries(...).map` (`EntryAverages`) equals the name-by-name averages. |
| BankRoutes.AverageCatches | server/src/routes/banks.ts:177-192 | The reducer over all loaded visits returns exactly the name-by-name averages of their catches. |
| BankRoutes.AverageCatchRoute | server/src/routes/banks.ts:152-194 | The route answers the name-by-name averages of the catches of the bank's visits within the range. `LoadedCatches` says which catches those are, and `LoadedCatchCounts` how often each is folded. |
| BankRoutes.WithBoats | server/src/routes/banks.ts:223-230 | Each visit gets its trip's boat and exactly its catches. A visit appears exactly when its boat exists, and when every boat exists the visits keep their number and order. |
| BankRoutes.VisitsWithBoats | server/src/routes/banks.ts:219-231 | The visits loaded are exactly the bank's visits whose boat exists, each with that boat and exactly its catches. |
| BankRoutes.VisitTotalCatchIsOrderFree | server/src/routes/banks.ts:236-238 | A visit's total does not depend on the order of its catches. It is 0 for a visit without catches. |
| BankRoutes.UniqueBoats | server/src/routes/banks.ts:245-246 | The `Map` keeps each boat id once, in order of first appearance. |
| BankRoutes.UniqueBoatsKeepLast | server/src/routes/banks.ts:245-246 | The value kept for each boat is that boat's last item, since a later entry for the same key overwrites the value of an earlier one. |
| BankRoutes.AboveAverageBoatsCorrect | server/src/routes/banks.ts:234-246 | For the pipeline `AboveAverageBoats` over any loaded visits: no boat appears twice. Every entry's catch exceeds the average and is the total of one of that boat's visits. Every boat with a visit above the average is listed. |
| BankRoutes.LastForBoatIsItem | server/src/routes/banks.ts:246 | The value kept for a boat is one of that boat's items. |
| BankRoutes.AboveAverageBoatsRoute | server/src/routes/banks.ts:201-248 | On the database rows: no boat appears twice; every entry's catch exceeds the bank's average per visit and is the total catch of one of that boat's visits to the bank; every boat with a visit to the bank whose total exceeds the average is listed. |
| BankRoutes.DuplicateBoatKeepsLaterTotal | server/src/routes/banks.ts:245-246 | When two qualifying visits share a boat, the later visit's total is reported. |
| StatisticsRoutes.DateGuard | server/src/routes/statistics.ts:13-15 | 400 exactly when a date is missing. Otherwise the query runs on the two dates. |
| StatisticsRoutes.JoinedCatches | server/src/routes/statistics.ts:28-32 | Every JOIN row comes from a catch whose visit, trip, boat and fish type all exist. Every such catch yields its row. |
| StatisticsRoutes.WindowRows | server/src/routes/statistics.ts:28-34 | The rows kept are exactly the JOIN rows whose trip departs on or after the start and returns on or before the end. |
| StatisticsRoutes.RowLeIsTotalPreorder | server/src/routes/statistics.ts:36 | `ORDER BY ft.name, "totalCatch" DESC` is a total preorder. |
| StatisticsRoutes.FishCatchQueryCorrect | server/src/routes/statistics.ts:21-37 | For the query `FishCatchQuery`: the rows are in ORDER BY order. There is one row per (fish type, boat) group. Each row's total is the sum of its non-empty group. Every group in the window has a row. |
| StatisticsRoutes.TransformFishCatchRoundTrip | server/src/routes/statistics.ts:40-50 | The JSON transform keeps every id, name and total, in order, and they can be read back. |
| StatisticsRoutes.FishCatchRoute | server/src/routes/statistics.ts:8-53 | 400 without both dates. Otherwise the body is the transformed query. |
| StatisticsRoutes.WindowVisits | server/src/routes/statistics.ts:88-92 | A bank's visits that pass the WHERE clause are those whose trip lies in the window, or whose trip row is missing. |
| StatisticsRoutes.WindowCatches | server/src/routes/statistics.ts:88-92 | The catches averaged for a bank are exactly the catches of its passing visits. |
| StatisticsRoutes.NameLeIsTotalPreorder | server/src/routes/statistics.ts:94 | `ORDER BY fb.name` is a total preorder. |
| StatisticsRoutes.BankCatchQueryCorrect | server/src/routes/statistics.ts:82-95 | The corrected query `BankCatchQuery` is sorted by name and has one row per bank. Each average is the mean weight of the catches in the window, and 0 when there is none or the bank has no visit. |
| StatisticsRoutes.BankCatchAsWrittenCorrect | server/src/routes/statistics.ts:82-95 | The query as written, `BankCatchQueryAsWritten`, is sorted by name. It has one row per bank that survives the WHERE clause, and each row is such a bank's row. |
| StatisticsRoutes.BankCatchAsWrittenKeepsSurvivors | server/src/routes/statistics.ts:88-92 | The query as written lists a bank's row exactly when the bank has no visit or has some visit that passes the WHERE clause. |
| StatisticsRoutes.BankCatchAsWrittenIsSubset | server/src/routes/statistics.ts:82-95 | Every row of the query as written is a row of the corrected query. |
| StatisticsRoutes.OutOfWindowBankIsDropped | server/src/routes/statistics.ts:91-92 | A bank visited once, on a trip outside the window, is missing from the query as written. The corrected query lists it with 0. |
| StatisticsRoutes.TransformBankCatchRoundTrip | server/src/routes/statistics.ts:98-104 | The transform keeps every id, name and average, in order. |
| StatisticsRoutes.BankCatchRoute | server/src/routes/statistics.ts:69-107 | 400 without both dates. Otherwise the body is the transformed query as written. |
| StatisticsRoutes.BankCatchRouteCorrected | server/src/routes/statistics.ts:69-107 | The same route on the corrected query: 400 without both dates, otherwise the transformed corrected query. |
| StatisticsRoutes.OutOfWindowRoutes | server/src/routes/statistics.ts:82-104 | On the finding's input, the route answers an empty list and the corrected route lists the bank with average 0. |
| Sorting.SortBy | server/src/routes/statistics.ts:36 | Sorting is a permutation of the rows. |
| Sorting.SortBySorted | server/src/routes/statistics.ts:36 | The sorted rows are in order for any total preorder. |
| Sorting.DistinctKeysPermutation | server/src/routes/statistics.ts:35-36 | Reordering grouped rows keeps their group keys distinct. |
| Strings.LexLeTotal | server/src/routes/statistics.ts:36 | Code-point order of names compares any two names. |
| Strings.LexLeTransitive | server/src/routes/statistics.ts:36 | Code-point order of names is transitive. |
| FishRoutes.FishTypesWithTotals | server/src/routes/fish.ts:9-23 | One entry per fish type, in order. Each entry holds exactly the type's catches, each as often as the table holds it, and their total weight, 0 without catches. |
| FishRoutes.FishTypeTotalsAddUp | server/src/routes/fish.ts:18-21 | With distinct fish-type ids, the totals add up to the weight of every catch whose fish type exists. |
| FishRoutes.FishTypeDetail | server/src/routes/fish.ts:75-107 | 404 exactly when no fish type has the id. Otherwise the body holds that type, exactly its catches (each as often as the table holds it), and their total weight. |
| FishRoutes.CatchesByTypeAndBank | server/src/routes/fish.ts:115-139 | Exactly the catches of that fish type whose visit is at that bank. |
| FishRoutes.CatchesByArrivalDate | server/src/routes/fish.ts:146-172 | Exactly the catches whose visit arrives within the inclusive range. |
| FishRoutes.CatchesByQuality | server/src/routes/fish.ts:179-200 | Exactly the catches with that quality string. |
| FishRoutes.CatchSearchesAreExact | server/src/routes/fish.ts:115-200 | Each search returns each matching catch as often as the table holds it, and nothing else. |
| Quality.TripsLabel | client/src/components/Trips.tsx:277-288 | Excellent, good and poor get their labels. Every other string, 'average' included, comes back unchanged. |
| Quality.TripsLabelAgainstTable | client/src/components/Trips.tsx:277-288 | The trips switch agrees with the boats table on the three grades it knows. It leaves 'average' untranslated where the table translates it. |
| Quality.TableLabel | client/src/components/Boats.tsx:57-72 | The declared but never called table: a key of the table gets its label. Any other string comes back unchanged (`|| quality`). |
| Quality.TableKeys | client/src/components/Boats.tsx:59-68 | The table's keys are the four grades in lower and upper case. |
| Quality.TableSpellingsAgree | client/src/components/Boats.tsx:59-68 | Both spellings of a grade reach the same label. |
| Quality.TableIgnoresCase | client/src/components/Boats.tsx:59-68 | A grade and its ASCII upper-case form get the same label from the table. |
| Quality.UpperGradesAreUpper | client/src/components/Boats.tsx:59-62 | The upper-case keys are the ASCII upper-casing of the lower-case grades. |
| Quality.TableHasFourLabels | client/src/components/Boats.tsx:59-68 | The eight keys map onto exactly four distinct labels. |
| Quality.InlineLabel | client/src/components/FishTypes.tsx:291-295 | The conditional chain translates exactly the four lower-case grades and returns any other string unchanged. The same chain appears at Banks.tsx:375-379 and Boats.tsx:343-347. |
| Quality.InlineAgreesWithTable | client/src/components/Boats.tsx:343-347 | The inline chain agrees with the table on every string except the four upper-case grades. Those it leaves untranslated. |
| TripsForm.WithoutIndex | client/src/components/Trips.tsx:216 | Filtering by index removes exactly the element at that index and keeps the rest in order. An index out of range removes nothing. |
| TripsForm.UpdateAt | client/src/components/Trips.tsx:223-233 | Mapping by index changes only the element at that index. |
| TripsForm.AddBankVisit | client/src/components/Trips.tsx:198-211 | Exactly one empty visit is appended. Earlier visits and the trip fields are unchanged. |
| TripsForm.RemoveBankVisit | client/src/components/Trips.tsx:213-218 | Only the visit at the index goes, the rest keep their order, and an index out of range changes nothing. The trip fields are unchanged. |
| TripsForm.AddFishCatch | client/src/components/Trips.tsx:220-235 | A row `{fishTypeId: '', weight: '', quality: 'good'}` is appended to visit i only. Every other visit and field is unchanged. |
| TripsForm.RemoveFishCatch | client/src/components/Trips.tsx:237-249 | Only catch j of visit i goes. Every other visit and field is unchanged. |
| TripsForm.AddThenRemoveBankVisit | client/src/components/Trips.tsx:198-218 | Removing the visit just added restores the form. |
| TripsForm.AddThenRemoveFishCatch | client/src/components/Trips.tsx:220-249 | Removing the catch row just added restores the form. |
| TripsForm.OutOfRangeIndexesChangeNothing | client/src/components/Trips.tsx:213-249 | A visit index out of range leaves the form unchanged under remove-visit, add-catch and remove-catch. |
| TripsForm.SetVisitField | client/src/components/Trips.tsx:444-448 | After a visit's bank or date changes, the form differs from the old one in that field of that visit only. |
| TripsForm.SetCatchField | client/src/components/Trips.tsx:511-515 | After a catch's fish type, weight or quality changes, the form differs in that field of that catch only. |
| TripsForm.SetFieldToSameValue | client/src/components/Trips.tsx:511-515 | Setting a catch field to the value it holds gives back the same form. |
| TripsForm.HandleOpen | client/src/components/Trips.tsx:161-191 | The dialog opens. For a trip, the form has one visit row per visit and one catch row per catch, in order, with ids as decimal strings and qualities copied. Without a trip, the form is empty. |
| TripsForm.HandleClose | client/src/components/Trips.tsx:193-196 | The dialog closes and forgets the trip. The form is kept. |
| TripsForm.OpenedFormKeepsCatchCount | client/src/components/Trips.tsx:169-178 | A form opened on a trip has as many catch rows as the trip has catches. |
| FishTypesView.ShownGroups | client/src/components/FishTypes.tsx:240 | Without a selected fish type, or without its catches, there is no group. |
| FishTypesView.TripGroupsCorrect | client/src/components/FishTypes.tsx:240-242 | Each trip id has one group, in order of its first catch. A group holds exactly its trip's catches, in order, and is never empty, so `firstCatch` exists. |
| FishTypesView.TripGroupsPartition | client/src/components/FishTypes.tsx:240-241 | The groups together hold every catch exactly once, and their sizes add up to the number of catches. |
| FishTypesView.HandleOpen | client/src/components/FishTypes.tsx:78-91 | The dialog opens on the fish type's name. Without one, the name is '' and nothing is being edited. |
| FishTypesView.HandleClose | client/src/components/FishTypes.tsx:93-96 | The dialog closes and forgets the fish type. |
| Seqs.DistinctKeepsFirstOccurrenceOrder | client/src/components/FishTypes.tsx:240 | `Array.from(new Set(...))` keeps values in order of first occurrence. |
| Seqs.GroupsPartition | client/src/components/FishTypes.tsx:240-241 | Grouping under distinct keys keeps exactly the elements whose key is listed, each once. |
| BanksView.TotalWeightIsTypeSum | client/src/components/Banks.tsx:367-371 | The nested reduce `TotalWeightForType` is the total weight of every catch of that fish type over all the bank's visits. |
| BanksView.AllCatchesMembers | client/src/components/Banks.tsx:367-371 | The catches summed over are exactly the catches of some visit of the bank. |
| BanksView.TotalWeightCoversCatch | client/src/components/Banks.tsx:367-371 | With non-negative weights, a catch's fish-type total is at least the catch's own weight. |
| BanksView.TotalWeightIgnoresOrder | client/src/components/Banks.tsx:367-371 | The total does not depend on the order of the visits or of the catches. |
| BanksView.FormFor | client/src/components/Banks.tsx:100-117 | The form copies name and location, and a missing description becomes ''. Without a bank, every field is ''. |
| BanksView.BanksScreen.HandleOpen | client/src/components/Banks.tsx:100-117 | The edit dialog opens on the bank's form. The detail dialog's state is unchanged. |
| BanksView.BanksScreen.HandleClose | client/src/components/Banks.tsx:119-122 | The edit dialog closes and forgets the bank. Everything else is unchanged. |
| BanksView.BanksScreen.HandleDetailsClose | client/src/components/Banks.tsx:137-141 | The detail dialog closes. The selected bank is cleared and the above-average boats are emptied. The edit dialog is unchanged. |
| BoatsView.HandleOpen | client/src/components/Boats.tsx:100-119 | The dialog opens on the boat's fields. Without a boat, all four fields are ''. |
| BoatsView.HandleClose | client/src/components/Boats.tsx:121-124 | The dialog closes and forgets the boat. |
| Seqs.FlattenPermutation | client/src/components/Banks.tsx:367-371 | Reordering the visits keeps the multiset of all their catches. |

## Left out

**Outside the model.**

- I/O and the framework are not modelled: HTTP, express routing, axios fetches, React rendering and state batching, `console.log` and `console.error`.
- The ORM and the SQL engine are not modelled. Their results are modelled as functions of the table rows.
- Order:
  - `findMany` without `orderBy` returns rows in table order here.
  - SQL rows that tie under ORDER BY come back in the stable sort's order. The contracts promise only the ORDER BY order.
- Any thrown error that becomes a 500 response is left out. This covers:
  - parsing of dates and ids (`new Date(...)`, `parseInt`, `Number`), including NaN and Invalid Date;
  - database failures.
- Floating-point arithmetic is left out. Weights are exact reals, so rounding and the non-associativity of `+` do not arise.
- `Number(...)` on SQL numeric strings is left out.
- `toFixed` is left out too.

**Simplifications.**

- String order is code-point order, which is the SQL "C" collation. The ORDER BY on names in the statistics queries (`ORDER BY ft.name`, `ORDER BY fb.name`) follows the database's collation, which may order some names differently.
- Dates are day numbers, and time zones are ignored. `toISOString().split('T')[0]` and the number-to-string conversion are formatter parameters (`TripsForm.Formatters`, `BoatsView.HandleOpen`).
- Nested `include` payloads are not part of the response records:
  - `BankRoutes.GetBank` returns the bank's visit rows without each visit's trip and boat or its catches' fish types.
  - `FishRoutes.FishTypeDetail` and the three catch searches return catch rows without each catch's fish type, visit, trip, boat and bank.
  - The bank screen's view types (`BanksView.VisitView`, `BanksView.CatchView`) take that nested shape as given. No lemma links them to `GetBank`.
- Foreign keys:
  - Catches whose visit, trip, boat or fish type is missing drop out of the inner JOINs.
  - Relation includes take the referenced rows to exist. Missing rows are not reported as errors.
- BankRoutes.AverageCatches: `Object.entries` lists integer-like keys first in JavaScript. The model keeps every name in insertion order, so a fish type whose name is a decimal integer may come out in a different position.
- BankRoutes.AverageCatches: the accumulator is a plain `{}`, so `acc[fishType]` also finds keys inherited from `Object.prototype`. A fish type named 'constructor' or 'toString' is never initialised, its entry gets no own total or count, and it is missing from `Object.entries`. The model gives such a name its entry like any other.
- Quality.TableLabel: keys inherited from `Object.prototype` (such as 'constructor' or 'toString') are not modelled. In JavaScript they return a function instead of the string.
- TripsForm.SetVisitField and TripsForm.SetCatchField do not capture aliasing. The `onChange` handlers copy the array shallowly and assign into the shared visit or catch object in place, so the previous state object sees the change too. The model gives only the new form value.
- The create, update and delete handlers of the route files are thin ORM calls and are not part of this model. So are the server files for boats, crew and trips.
- The trips screen's crew selection, submit, delete and fetch handlers are not modelled, and neither are the other screens' ones. They are axios calls or whole-value state updates without local logic.
- BankRoutes.UniqueBoats follows the code, not its comment: the `Map` keeps each boat's first position but its last value. `DuplicateBoatKeepsLaterTotal` shows this.

## Findings

The /statistics/bank-catch query applies its trip window in the WHERE clause over the LEFT JOINs. A bank whose visits all fall outside the window loses every row, so it disappears from the report instead of being listed with 0.

| source | as written | input that shows it | evidently intended | confidence | as-written member | corrected member |
|---|---|---|---|---|---|---|
| server/src/routes/statistics.ts:91-92 | The window test sits in the WHERE clause over LEFT JOIN rows. A bank whose only visits are on trips outside the window loses all its rows and is missing from the result. | Bank 1 "North" has one visit on trip 1 (days 10 to 20), and the window is days 30 to 40. | Every bank is listed, with average 0 when none of its catches fall in the window, as `COALESCE(..., 0)` and the LEFT JOINs suggest. | not executed | StatisticsRoutes.BankCatchQueryAsWritten (route StatisticsRoutes.BankCatchRoute; exhibited by StatisticsRoutes.OutOfWindowBankIsDropped and StatisticsRoutes.OutOfWindowRoutes) | StatisticsRoutes.BankCatchQuery (properties in StatisticsRoutes.BankCatchQueryCorrect; route StatisticsRoutes.BankCatchRouteCorrected) |
