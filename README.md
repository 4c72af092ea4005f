# Travel recommender core in Dafny

A model of the recommendation core of a Kotlin Android travel planner.
The planner searches places of the selected categories around a region
with the Kakao Local API, optionally reranks them with a GPT reply, and
rebalances them so that every selected category is represented. Two
screens then show the result. The model covers:

- **`RebalanceSpec`, `RebalanceProperties`, `Rebalance`** (`RebalanceUtil.kt`).
  - The placement score and the five stages of `rebalanceByCategory`:
    filter and dedup, per-category score queues, top picks, a round robin
    up to `minPerCat`, and two fill passes under an optional cap.
  - `Rebalance.RebalanceByCategory` is imperative, with the source's maps,
    sets and loops. It is proved equal to the functional specification
    `RebalanceSpec.Rebalanced`, and the rebalancer's promises are proved
    about that function.
- **`KakaoLocal`** (`KakaoLocalService.kt`). The category-to-code mapping,
  document conversion, and the dedup-then-sort-by-distance post-processing
  of both searches. The HTTP call is a parameter.
- **`GptRerank`** (`GptRerankUseCase.kt` of the earlier app version). The
  reflective field lookups, the candidate projection, the weather brief,
  resolving the reply to the top five candidates, and the adapter that
  falls back to the candidates. The chat completion is a parameter.
- **`Repository`** (`RealTravelRepository.kt`).
  - `recommend`: geocode (its exception propagates), one search per
    category merged first-seen with a 60-place stop, then a rebalance.
  - `recommendWithGpt`: clamps, search, rerank with fallback, and the
    bypass top picks.
- **`MainUi`** and **`BackupMainUi`** (the two `MainViewModel.kt` files).
  The filter editors, the in-flight guard of the search, the loading and
  error bookkeeping, and the earlier version's place-selection toggle.
- **`ResultUi`** (`ResultViewModel.kt` of the earlier version). The search
  query, the four sort modes with their stability, and the bounded
  selection of place ids.
- **`ResultScreen`** (`ResultScreen.kt`). The map-label texts (top-pick
  star, highlight, numbered selection badges), the ordered selection and
  the Naver query string.
- **Shared modules.**
  - `Wrappers`: `Option`, and `Attempt`, which stands for an exception.
  - `Seqs`: filtering, a stable insertion sort, toggling in a
    `LinkedHashSet`.
  - `Strings`: trim, ASCII lowercase, lexicographic order, decimal digits,
    joining.
  - `TravelModels`: the domain types, and the id rule `distinctBy { it.id }`.

Kotlin `Set<Category>` is a `LinkedHashSet`, so it iterates in insertion
order. It is modelled as a sequence without duplicates (`CategorySet`),
because that order decides the order of searches, pins and round-robin
turns. Kotlin `Int` is `Int32`; where it can wrap (the `distance + 50` of
`finalScore`), the wrap-around is written out.

Two behaviours of the code shape the model:

- A failing Kakao call, geocoding included, propagates as an exception
  (`Attempt.Thrown`). The code does not tolerate partial failures, and
  `onSearchClicked` asks for "서울" only when the region's geocoding
  returned null, not when it threw.
- `onSearchClicked` passes the filter's region unchanged to
  `recommendWithGpt`. Only the geocoding falls back to "서울".

## Model

| member | source | states |
|---|---|---|
| TravelModels.AllCategoriesComplete | app/src/main/java/domain/TravelModels.kt:7-16 | every category constant is among the eight listed |
| TravelModels.Defaults | app/src/main/java/domain/TravelModels.kt:18-21 | `defaults()` holds all eight categories, each once |
| TravelModels.DefaultFilter | app/src/main/java/domain/TravelModels.kt:34-40 | the default filter: blank region, no categories, DAY, 30000 per person, SOLO |
| TravelModels.NewPlace | app/src/main/java/domain/TravelModels.kt:50-60 | a place built from its required fields has no distance, rating, address or score |
| TravelModels.NewResult | app/src/main/java/domain/TravelModels.kt:63-69 | a result built from places and weather has no reasons, no AI ids and no top picks |
| TravelModels.IndexOfId | app/src/main/java/ui/ResultScreen.kt:45 | `find { it.id == id }`: absent exactly when no place has the id, else the first index with that id |
| TravelModels.DistinctById | app/src/main/java/data/KakaoLocalService.kt:96 | `distinctBy { it.id }`: unique ids, the same id set, only input places |
| TravelModels.DistinctKeepsFirst | app/src/main/java/data/KakaoLocalService.kt:96 | each kept place is the first place with its id in the input |
| TravelModels.DistinctOfUnique | app/src/main/java/domain/RebalanceUtil.kt:39 | dedup of a list whose ids are already unique changes nothing |
| Seqs.Without | app/src/main/java/ui/ResultScreen.kt:71 | removing an element keeps every other element and no duplicates, and changes nothing when it is absent |
| Seqs.Toggle | app/src/main/java/ui/MainViewModel.kt:114-116 | `if contains then minus else plus` on an insertion-ordered set: flips the membership of the element alone, appends a new one, keeps no duplicates |
| Seqs.ToggleTwice | app/src/main/java/ui/MainViewModel.kt:114-116 | toggling twice restores the members; an absent element's set comes back unchanged, a present one moves to the end |
| Seqs.SortPermutes | app/src/main/java/domain/RebalanceUtil.kt:44 | the stable sort is a permutation |
| Seqs.SortSorted | app/src/main/java/domain/RebalanceUtil.kt:44 | under a total preorder the stable sort yields a sorted list |
| Seqs.SortKeepsSortedPart | app/src/main/java/domain/RebalanceUtil.kt:44 | stability: any part of the list that is already in order (a filter of it) stays in that order after the sort |
| Seqs.SortKeepsTies | capstone-backup/app/src/main/java/domain/GptRerankUseCase.kt:201 | elements that rank equal keep their input order through the sort |
| Seqs.FilteredTies | capstone-backup/app/src/main/java/domain/GptRerankUseCase.kt:200-202 | among the elements that pass a filter, those that rank equal keep their input order through the sort |
| Strings.Trim | capstone-backup/app/src/main/java/ui/ResultViewModel.kt:97 | `trim()`: a slice of the input with only whitespace cut off either end, starting and ending with non-whitespace |
| Strings.TrimBlank | capstone-backup/app/src/main/java/ui/ResultViewModel.kt:94-97 | the trimmed text is empty exactly when the text is blank |
| Strings.Lowercase | capstone-backup/app/src/main/java/ui/ResultViewModel.kt:97-101 | `lowercase()` maps each character on its own and keeps the length |
| Strings.LowercaseIdempotent | capstone-backup/app/src/main/java/ui/ResultViewModel.kt:97-101 | lowercasing twice is lowercasing once |
| Strings.LexLeTotal | capstone-backup/app/src/main/java/ui/ResultViewModel.kt:108 | string comparison is total |
| Strings.LexLeTrans | capstone-backup/app/src/main/java/ui/ResultViewModel.kt:108 | string comparison is transitive |
| Strings.LexLeAntisymmetric | capstone-backup/app/src/main/java/ui/ResultViewModel.kt:108 | strings comparing both ways are equal |
| Strings.DecimalString | app/src/main/java/ui/ResultScreen.kt:478 | the decimal text of a number: digits only, no leading zero, and denoting the number (`DigitsValue(r) == n`), so different numbers give different badges |
| Strings.JoinSpacesThree | app/src/main/java/ui/ResultScreen.kt:511 | `joinToString(" ")` of two or three parts puts one space between neighbours |
| RebalanceSpec.AbsentPartsContributeZero | app/src/main/java/domain/RebalanceUtil.kt:9-16 | an absent score, rating or distance contributes nothing to `finalScore` |
| RebalanceSpec.NearerScoresHigher | app/src/main/java/domain/RebalanceUtil.kt:12-13 | other parts equal, a smaller non-negative distance scores strictly higher, also across the `Int` wrap of `distance + 50` |
| RebalanceSpec.BonusSign | app/src/main/java/domain/RebalanceUtil.kt:13 | the distance bonus is positive up to `Int.MAX_VALUE - 50` and negative above, where the sum wraps |
| RebalanceSpec.ScoreFirstTotal | app/src/main/java/domain/RebalanceUtil.kt:44 | "higher `finalScore` first" is a total preorder |
| RebalanceSpec.Filtered | app/src/main/java/domain/RebalanceUtil.kt:37-39 | stage 0 keeps only candidates of a selected category, with unique ids |
| RebalanceSpec.CategoryOrder | app/src/main/java/domain/RebalanceUtil.kt:42-43 | the `groupBy` key order: each category of the list once, and no other |
| RebalanceSpec.Grouped | app/src/main/java/domain/RebalanceUtil.kt:42-45 | the groups have exactly the categories of the list as keys |
| RebalanceSpec.TakeCount | app/src/main/java/domain/RebalanceUtil.kt:53 | `minOf(n, size)`: never more than the queue holds or than `n` allows |
| RebalanceSpec.AfterPins | app/src/main/java/domain/RebalanceUtil.kt:58 | pinning drops items from queues but adds or removes no category |
| RebalanceSpec.MaxQuota | app/src/main/java/domain/RebalanceUtil.kt:68-79 | the number of round-robin sweeps is the largest per-category quota |
| RebalanceSpec.AfterSweeps | app/src/main/java/domain/RebalanceUtil.kt:73 | the round robin drops items from queues but adds or removes no category |
| RebalanceProperties.Conservation | app/src/main/java/domain/RebalanceUtil.kt:51-84 | pins, round robin and the remaining items together are exactly the filtered candidates |
| RebalanceProperties.StagedUnique | app/src/main/java/domain/RebalanceUtil.kt:47-84 | no id is placed twice across pins, round robin and the remaining items |
| RebalanceProperties.StagesByCategory | app/src/main/java/domain/RebalanceUtil.kt:50-84 | on any grouping whose queues hold their own category, a category's pins, round-robin items and what is left partition its queue in order |
| RebalanceProperties.StagesOfRun | app/src/main/java/domain/RebalanceUtil.kt:42-84 | the same partition for the stages of an actual run, starting from the filtered candidates |
| RebalanceProperties.TopPicksPerCategory | app/src/main/java/domain/RebalanceUtil.kt:50-59 | the top picks of a selected category are the first `perCatTop` of its score-sorted group, none for other categories |
| RebalanceProperties.RoundRobinByCategory | app/src/main/java/domain/RebalanceUtil.kt:61-79 | the round robin takes the first `minPerCat` of each selected category's queue, in order |
| RebalanceProperties.PinsAndQuota | app/src/main/java/domain/RebalanceUtil.kt:50-79 | on any grouping whose queues hold their own category, a selected category's round-robin share is `max(0, min(minPerCat, available - pinned))`, and pins plus that share reach `min(minPerCat, available)` |
| RebalanceProperties.RoundRobinQuota | app/src/main/java/domain/RebalanceUtil.kt:61-79 | the round robin gives each selected category `max(0, min(m, available - pinned))` items, so pins plus round robin reach `min(m, available)` |
| RebalanceProperties.MinimumPerCategory | app/src/main/java/domain/RebalanceUtil.kt:61-103 | the final list, capped or not, holds at least `min(m, available)` places of each selected category |
| RebalanceProperties.FillAlternates | app/src/main/java/domain/RebalanceUtil.kt:86-94 | the first fill pass never places two items of one category in a row, nor repeats the category placed just before it |
| RebalanceProperties.FillSubMultiset | app/src/main/java/domain/RebalanceUtil.kt:87-94 | the first fill pass takes only remaining items |
| RebalanceProperties.TopOffCount | app/src/main/java/domain/RebalanceUtil.kt:96-99 | the uncapped top-off takes exactly the remaining items whose id is not yet used |
| RebalanceProperties.FillTopOffUncapped | app/src/main/java/domain/RebalanceUtil.kt:86-99 | without a cap the two fill passes together place every remaining item once |
| RebalanceProperties.FillCapped | app/src/main/java/domain/RebalanceUtil.kt:88 | under a cap the first pass is the uncapped pass cut at the room left |
| RebalanceProperties.TopOffCapped | app/src/main/java/domain/RebalanceUtil.kt:97 | under a cap the top-off is the uncapped top-off cut at the room left |
| RebalanceProperties.UncappedPermutation | app/src/main/java/domain/RebalanceUtil.kt:28-103 | without a cap the final list is a permutation of the filtered candidates |
| RebalanceProperties.CapTruncates | app/src/main/java/domain/RebalanceUtil.kt:86-99 | a capped list is a prefix of the uncapped one, of length `max(pins + round robin, min(cap, uncapped length))` |
| RebalanceProperties.RebalancedSound | app/src/main/java/domain/RebalanceUtil.kt:28-103 | the top picks are a prefix of the final list, ids are unique, every item is a candidate of a selected category, and uncapped it is a permutation of the filtered candidates |
| Rebalance.PinTopPicks | app/src/main/java/domain/RebalanceUtil.kt:50-59 | the pin loop computes the top picks, the shortened queues and the used ids of the specification |
| Rebalance.PinFromQueue | app/src/main/java/domain/RebalanceUtil.kt:54-57 | the `repeat(takeN)` loop appends the first `takeN` items of the queue |
| Rebalance.CanTakeIff | app/src/main/java/domain/RebalanceUtil.kt:65-66 | `canTake(cat)` holds exactly while the category is below its quota |
| Rebalance.AnyCanTake | app/src/main/java/domain/RebalanceUtil.kt:68 | `selectedCats.any { canTake(it) }` |
| Rebalance.MoreIff | app/src/main/java/domain/RebalanceUtil.kt:68 | the while loop goes on exactly while sweeps remain |
| Rebalance.RoundRobin | app/src/main/java/domain/RebalanceUtil.kt:61-79 | the while loop computes the round-robin body and queues of the specification |
| Rebalance.Sweep | app/src/main/java/domain/RebalanceUtil.kt:69-78 | one pass of the `for` loop appends one row of the round robin |
| Rebalance.Turn | app/src/main/java/domain/RebalanceUtil.kt:70-77 | one category's turn keeps the round-robin invariant |
| Rebalance.FillPass | app/src/main/java/domain/RebalanceUtil.kt:86-94 | the first fill loop appends the specification's fill under the room left |
| Rebalance.TopOffPass | app/src/main/java/domain/RebalanceUtil.kt:96-99 | the top-off loop appends the specification's top-off under the room left |
| Rebalance.FillPasses | app/src/main/java/domain/RebalanceUtil.kt:81-101 | stages 4 and 5 produce `topPicks + body + fill + topOff` |
| Rebalance.RebalanceByCategory | app/src/main/java/domain/RebalanceUtil.kt:28-103 | the method returns exactly `Rebalanced(...)`: top picks a prefix, unique ids, only selected candidates, and uncapped a permutation of the filtered candidates |
| KakaoLocal.CategoryCodesFor | app/src/main/java/data/KakaoLocalService.kt:126-150 | the loop lists each selected category's codes in selection order |
| KakaoLocal.CodesOfMember | app/src/main/java/data/KakaoLocalService.kt:129-148 | a code is listed exactly when some selected category maps to it |
| KakaoLocal.CodesOfLength | app/src/main/java/data/KakaoLocalService.kt:129-148 | one code per category, plus one for SHOPPING and EXPERIENCE |
| KakaoLocal.NoCodesOnlyForEmpty | app/src/main/java/data/KakaoLocalService.kt:126-149 | the code list is empty exactly for an empty selection |
| KakaoLocal.SharedCode | app/src/main/java/data/KakaoLocalService.kt:130-147 | PHOTO and HEALING both query AT4, so codes can repeat |
| KakaoLocal.CategoryOfCode | app/src/main/java/data/KakaoLocalService.kt:204-213 | no document converts to HEALING or EXPERIENCE |
| KakaoLocal.CodeRoundTrip | app/src/main/java/data/KakaoLocalService.kt:204-213 | querying a category's code and converting back gives the category, except that HEALING comes back as PHOTO and EXPERIENCE as PHOTO (AT4) or CULTURE (AC5) |
| KakaoLocal.ToPlace | app/src/main/java/data/KakaoLocalService.kt:200-224 | conversion fails exactly when a coordinate does not parse; otherwise it copies id, name, coordinates, address and parsed distance, with no rating or score |
| KakaoLocal.ToPlacesMember | app/src/main/java/data/KakaoLocalService.kt:91 | `mapNotNull { it.toPlace() }` holds exactly the converted documents |
| KakaoLocal.ToPlacesCategories | app/src/main/java/data/KakaoLocalService.kt:200-222 | converted places are never HEALING or EXPERIENCE and have no rating |
| KakaoLocal.NearerFirstTotal | app/src/main/java/data/KakaoLocalService.kt:97 | ordering by `distanceMeters ?: Int.MAX_VALUE` is a total preorder |
| KakaoLocal.ByDistanceProperties | app/src/main/java/data/KakaoLocalService.kt:95-97 | the post-processing: unique ids, all ids kept, a permutation of the dedup, sorted by distance, absent distances last, stable among equal distances |
| KakaoLocal.SearchByCategories | app/src/main/java/data/KakaoLocalService.kt:70-98 | the loop over the codes returns the category search: empty before `init` or for no category, the first exception, or the processed union |
| KakaoLocal.CollectedThrown | app/src/main/java/data/KakaoLocalService.kt:82-92 | a call that throws ends the whole search with its exception |
| KakaoLocal.CollectedCategories | app/src/main/java/data/KakaoLocalService.kt:82-92 | no collected place is HEALING or EXPERIENCE |
| KakaoLocal.CategorySearchResults | app/src/main/java/data/KakaoLocalService.kt:70-98 | a successful category search has unique ids, distance order and the ids of every returned document |
| KakaoLocal.SearchByKeyword | app/src/main/java/data/KakaoLocalService.kt:101-121 | empty before `init`; throws exactly when the call does; else unique ids, the converted ids, distance order |
| GptRerank.FirstNonNullSpec | capstone-backup/app/src/main/java/domain/GptRerankUseCase.kt:28-43 | `getField` finds a value exactly when some alias is present and non-null, and it is the first such value |
| GptRerank.FirstNonNullNone | capstone-backup/app/src/main/java/domain/GptRerankUseCase.kt:28-43 | no alias present: `getField` returns null |
| GptRerank.GetField | capstone-backup/app/src/main/java/domain/GptRerankUseCase.kt:28-43 | the alias loop returns the first non-null field, of any type |
| GptRerank.GetStringAsWritten | capstone-backup/app/src/main/java/domain/GptRerankUseCase.kt:45-46 | `getString` throws exactly when the first non-null alias is not a string |
| GptRerank.FirstMatchSpec | capstone-backup/app/src/main/java/domain/GptRerankUseCase.kt:51-69 | a typed lookup finds a value exactly when some alias converts, and it is the first converting alias |
| GptRerank.GetDouble | capstone-backup/app/src/main/java/domain/GptRerankUseCase.kt:51-69 | the `getDouble` loop widens numbers, parses strings and skips what does not convert |
| GptRerank.StringLookupsAgree | capstone-backup/app/src/main/java/domain/GptRerankUseCase.kt:45-46 | where the first non-null alias is a string, `getString` as written and the typed lookup agree |
| GptRerank.IdKey | capstone-backup/app/src/main/java/domain/GptRerankUseCase.kt:195-197 | a place's id lookup yields its id, by either lookup |
| GptRerank.Compact | capstone-backup/app/src/main/java/domain/GptRerankUseCase.kt:85-116 | a candidate projects exactly when id, name and both coordinates resolve; address defaults to "" and tags to the category argument |
| GptRerank.CompactOfPlace | capstone-backup/app/src/main/java/domain/GptRerankUseCase.kt:85-116 | with typed lookups every place projects to its id, name, address, coordinates, the category argument and no indoor hint |
| GptRerank.ProjectionComplete | capstone-backup/app/src/main/java/domain/GptRerankUseCase.kt:85-119 | with typed lookups no candidate is dropped, so the early return fires only for no candidates |
| GptRerank.TagLookupThrows | capstone-backup/app/src/main/java/domain/GptRerankUseCase.kt:100 | as written, the tag lookup of every place throws |
| GptRerank.ProjectionAsWrittenThrows | capstone-backup/app/src/main/java/domain/GptRerankUseCase.kt:85-116 | as written, projecting any non-empty candidate list throws |
| GptRerank.WeatherBrief | capstone-backup/app/src/main/java/domain/GptRerankUseCase.kt:122-147 | the brief block puts each looked-up value under its key |
| GptRerank.BriefOfProperties | capstone-backup/app/src/main/java/domain/GptRerankUseCase.kt:141-146 | the brief has each key at most once in block order, always the condition, and the other keys exactly when their value is found |
| GptRerank.BriefProperties | capstone-backup/app/src/main/java/domain/GptRerankUseCase.kt:122-147 | the same facts for the lookups of any weather object, with the condition defaulting to "Unknown" |
| GptRerank.WeatherInfoBrief | capstone-backup/app/src/main/java/domain/GptRerankUseCase.kt:126-139 | of a `WeatherInfo` only the temperature and the condition resolve |
| GptRerank.ScoreDescTotal | capstone-backup/app/src/main/java/domain/GptRerankUseCase.kt:201 | "higher reply score first" is a total preorder |
| GptRerank.AssociateSpec | capstone-backup/app/src/main/java/domain/GptRerankUseCase.kt:195-196 | `associateBy` keys every candidate by its id, to a candidate with that id |
| GptRerank.ById | capstone-backup/app/src/main/java/domain/GptRerankUseCase.kt:195-197 | the keys are exactly the non-blank candidate ids, each mapping to a candidate with that id |
| GptRerank.ByIdLastWins | capstone-backup/app/src/main/java/domain/GptRerankUseCase.kt:195-197 | for a repeated id the last candidate is kept |
| GptRerank.LookupKnown | capstone-backup/app/src/main/java/domain/GptRerankUseCase.kt:202 | `mapNotNull { byId[it.id] }` yields one place per reply entry whose id is known |
| GptRerank.ResolveProperties | capstone-backup/app/src/main/java/domain/GptRerankUseCase.kt:199-203 | the result is at most five candidates with non-blank ids, those of the known reply entries by non-increasing score, entries of equal score in reply order |
| GptRerank.Rerank | capstone-backup/app/src/main/java/domain/GptRerankUseCase.kt:78-204 | with typed lookups: no candidates, an unparsable or empty reply keep the candidates; a failed call throws; otherwise the resolved top five |
| GptRerank.RerankAdapter | capstone-backup/app/src/main/java/domain/GptRerankUseCase.kt:209-229 | the adapter keeps the weather; without weather or on an exception it keeps the candidates |
| GptRerank.AdapterAtMostFive | capstone-backup/app/src/main/java/domain/GptRerankUseCase.kt:209-229 | the adapter returns the candidates or at most five of them |
| GptRerank.AdapterAsWrittenKeepsCandidates | capstone-backup/app/src/main/java/domain/GptRerankUseCase.kt:209-229 | as written, the adapter always returns the candidates unchanged |
| GptRerank.AdapterReranks | capstone-backup/app/src/main/java/domain/GptRerankUseCase.kt:209-229 | with typed lookups, a non-empty reply is applied |
| Repository.RegionOrDefault | app/src/main/java/domain/RealTravelRepository.kt:47 | `ifBlank { "서울" }` through `Strings.IfBlank`: "서울" for a blank region, a non-blank region kept, never blank |
| Repository.CategoriesOrDefault | app/src/main/java/domain/RealTravelRepository.kt:57-58 | never empty: the selection, or FOOD for none |
| Repository.ClampRadius | app/src/main/java/domain/RealTravelRepository.kt:115 | the radius within 1..20000, in-range values unchanged |
| Repository.ClampSize | app/src/main/java/domain/RealTravelRepository.kt:116 | the size within 1..15, in-range values unchanged |
| Repository.ClampIdempotent | app/src/main/java/domain/RealTravelRepository.kt:115-116 | clamping twice is clamping once |
| Repository.RecommendRadiusValue | app/src/main/java/domain/RealTravelRepository.kt:60 | `recommend` searches 3000 m |
| Repository.DistinctSnoc | app/src/main/java/domain/RealTravelRepository.kt:75 | one `putIfAbsent` appends a place with a new id and ignores a known one |
| Repository.PutAll | app/src/main/java/domain/RealTravelRepository.kt:75 | the puts of one chunk extend the map to the first place of each id over all chunks so far |
| Repository.MergeStep | app/src/main/java/domain/RealTravelRepository.kt:65-77 | one round: a throwing search ends the merge, reaching 60 stops it, anything else continues |
| Repository.MergeChunks | app/src/main/java/domain/RealTravelRepository.kt:64-77 | the category loop computes the specification's merge |
| Repository.DistinctPrefix | app/src/main/java/domain/RealTravelRepository.kt:75 | later chunks never move or replace a merged place |
| Repository.DistinctGrowth | app/src/main/java/domain/RealTravelRepository.kt:75 | a chunk adds at most its own size |
| Repository.MergedAfter | app/src/main/java/domain/RealTravelRepository.kt:64-77 | the merge is the first-seen dedup of the chunks seen and some searched chunks, keeping earlier places |
| Repository.MergeFirstSeen | app/src/main/java/domain/RealTravelRepository.kt:64-77 | the merged list is first-seen over searched places only, with earlier places in position |
| Repository.MergeOvershoot | app/src/main/java/domain/RealTravelRepository.kt:76 | the 60 stop is checked per chunk: a merge ends below 60 or overshoots by less than one chunk |
| Repository.MergeUnique | app/src/main/java/domain/RealTravelRepository.kt:64-83 | merged places have unique ids |
| Repository.Recommend | app/src/main/java/domain/RealTravelRepository.kt:43-95 | a geocoding exception propagates; a null centre gives an empty result with the weather; a search exception propagates; else the rebalance of the merge (4 per category, 1 top pick, uncapped) |
| Repository.RerankOrKeep | app/src/main/java/domain/RealTravelRepository.kt:130-136 | the reranker's output, or the candidates with no reasons when it throws |
| Repository.CategoriesSnoc | app/src/main/java/domain/RealTravelRepository.kt:153 | appending a place adds its category |
| Repository.DistinctByCategory | app/src/main/java/domain/RealTravelRepository.kt:153 | `distinctBy { it.category }`: no repeated category, the same categories, only input places |
| Repository.FirstOfCategory | app/src/main/java/domain/RealTravelRepository.kt:153 | the first place of a category: one of that category, absent exactly when the category does not occur |
| Repository.DistinctByCategoryFirst | app/src/main/java/domain/RealTravelRepository.kt:153 | each kept place is the first of its category |
| Repository.FirstOfCategoryFilter | app/src/main/java/domain/RealTravelRepository.kt:152-153 | filtering to selected categories keeps a selected category's first place |
| Repository.FewerThanSelected | app/src/main/java/domain/RealTravelRepository.kt:152-154 | one place per selected category is at most as many as the selection |
| Repository.BypassTopPicksProperties | app/src/main/java/domain/RealTravelRepository.kt:151-154 | the bypass top picks: at most `max(1, |cats|)`, one per category, each selected and the first of its category, and every selected category present is covered |
| Repository.RecommendWithGpt | app/src/main/java/domain/RealTravelRepository.kt:98-157 | clamps and defaults the search; a search exception propagates; else the reranked order (or the candidates) with reasons, AI ids and bypass top picks |
| Repository.RerankFailureKeepsCandidates | app/src/main/java/domain/RealTravelRepository.kt:130-157 | when the reranker throws, the result is the searched candidates with no reasons or AI ids |
| MainUi.InitialState | app/src/main/java/ui/MainViewModel.kt:16-21 | the default state: default filter, not loading, no error, no result |
| MainUi.PrepareSearch | app/src/main/java/ui/MainViewModel.kt:52-62 | a geocoding exception ends the preparation with its message, and 서울 is asked only after a null for the region; "지역 좌표를 찾을 수 없습니다: region" is thrown when both return null; else the region's centre (or 서울's) and the filter with categories defaulted to FOOD |
| MainUi.SearchOutcome | app/src/main/java/ui/MainViewModel.kt:52-78 | the search block calls `recommendWithGpt` with radius 2500 and 15 candidates, or fails as the preparation does |
| MainUi.RecommendationOutcome | app/src/main/java/ui/MainViewModel.kt:97-101 | weather of the defaulted region, then `recommend`; either exception ends the block |
| MainUi.Finished | app/src/main/java/ui/MainViewModel.kt:79-86 | completion ends loading; success stores the result; failure shows its message or "추천 실패" |
| MainUi.MainViewModel.constructor | app/src/main/java/ui/MainViewModel.kt:27-31 | the initial state, no search in flight |
| MainUi.MainViewModel.UpdateFilter | app/src/main/java/ui/MainViewModel.kt:34-37 | only the filter changes |
| MainUi.MainViewModel.OnSearchClicked | app/src/main/java/ui/MainViewModel.kt:40-50 | ignored while a search is in flight; else sets the flag, starts loading, clears the error, captures the filter |
| MainUi.MainViewModel.OnSearchFinished | app/src/main/java/ui/MainViewModel.kt:79-87 | applies `Finished` and clears the in-flight flag |
| MainUi.MainViewModel.BuildRecommendation | app/src/main/java/ui/MainViewModel.kt:92-96 | captures the filter, starts loading, clears the error, leaves the flag alone |
| MainUi.MainViewModel.OnRecommendationFinished | app/src/main/java/ui/MainViewModel.kt:102-108 | applies `Finished`, leaves the flag alone |
| MainUi.MainViewModel.ToggleCategory | app/src/main/java/ui/MainViewModel.kt:112-120 | only the filter's categories change, by `Toggle` |
| MainUi.MainViewModel.SetRegion | app/src/main/java/ui/MainViewModel.kt:122-125 | only the region changes |
| MainUi.MainViewModel.SetDuration | app/src/main/java/ui/MainViewModel.kt:127-130 | only the duration changes |
| MainUi.MainViewModel.SetBudget | app/src/main/java/ui/MainViewModel.kt:132-135 | only the budget changes |
| MainUi.MainViewModel.SetCompanion | app/src/main/java/ui/MainViewModel.kt:137-140 | only the companion changes |
| MainUi.MainViewModel.ConsumeResult | app/src/main/java/ui/MainViewModel.kt:142-145 | only the last result is dropped |
| BackupMainUi.InitialState | capstone-backup/app/src/main/java/ui/MainViewModel.kt:12-16 | the default state: default filter, not loading, no error |
| BackupMainUi.RemoveAt | capstone-backup/app/src/main/java/ui/MainViewModel.kt:61 | removing the found place keeps ids unique and every place of another id |
| BackupMainUi.AppendNew | capstone-backup/app/src/main/java/ui/MainViewModel.kt:63 | appending a place of a new id keeps ids unique |
| BackupMainUi.PlaceToggledProperties | capstone-backup/app/src/main/java/ui/MainViewModel.kt:56-66 | the toggle flips the id's membership alone, keeps ids unique, appends a new place, and shortens by one otherwise |
| BackupMainUi.PlaceToggledTwice | capstone-backup/app/src/main/java/ui/MainViewModel.kt:56-66 | toggling an unselected place twice restores the selection |
| BackupMainUi.WeatherRegion | capstone-backup/app/src/main/java/ui/MainViewModel.kt:77 | `ifBlank { "Seoul" }` through `Strings.IfBlank`: "Seoul" for a blank region, a non-blank region kept, never blank |
| BackupMainUi.RecommendationOutcome | capstone-backup/app/src/main/java/ui/MainViewModel.kt:76-79 | weather of the defaulted region, then `recommend`; either exception ends the block |
| BackupMainUi.MainViewModel.constructor | capstone-backup/app/src/main/java/ui/MainViewModel.kt:22-31 | the initial state, no result, no selection |
| BackupMainUi.MainViewModel.SetRegion | capstone-backup/app/src/main/java/ui/MainViewModel.kt:33-35 | only the region changes |
| BackupMainUi.MainViewModel.ToggleCategory | capstone-backup/app/src/main/java/ui/MainViewModel.kt:37-41 | only the categories change, by `Toggle` |
| BackupMainUi.MainViewModel.SetDuration | capstone-backup/app/src/main/java/ui/MainViewModel.kt:43-45 | only the duration changes |
| BackupMainUi.MainViewModel.SetBudget | capstone-backup/app/src/main/java/ui/MainViewModel.kt:47-49 | only the budget changes |
| BackupMainUi.MainViewModel.SetCompanion | capstone-backup/app/src/main/java/ui/MainViewModel.kt:51-53 | only the companion changes |
| BackupMainUi.MainViewModel.TogglePlaceSelection | capstone-backup/app/src/main/java/ui/MainViewModel.kt:56-66 | the `find` loop and remove/add compute `PlaceToggled`, keeping ids unique |
| BackupMainUi.MainViewModel.BuildRecommendation | capstone-backup/app/src/main/java/ui/MainViewModel.kt:69-75 | empties the selection, captures the filter, starts loading, clears the error |
| BackupMainUi.MainViewModel.OnRecommendationFinished | capstone-backup/app/src/main/java/ui/MainViewModel.kt:76-85 | success stores the result; an exception's nullable message becomes the error; loading always ends |
| ResultUi.InitialState | capstone-backup/app/src/main/java/ui/ResultViewModel.kt:13-21 | the default state: nothing loaded, no selection, DEFAULT sort, empty query, at most 5 selected |
| ResultUi.Searched | capstone-backup/app/src/main/java/ui/ResultViewModel.kt:94-103 | a blank query keeps the list; otherwise exactly the places whose lowercased name, address or category name contains the trimmed lowercased query, in order |
| ResultUi.NameFirstTotal | capstone-backup/app/src/main/java/ui/ResultViewModel.kt:108 | ordering by lowercased name is a total preorder |
| ResultUi.HigherRatedFirstTotal | capstone-backup/app/src/main/java/ui/ResultViewModel.kt:110 | ordering by descending rating with absent last is a total preorder |
| ResultUi.Sorted | capstone-backup/app/src/main/java/ui/ResultViewModel.kt:106-111 | DEFAULT keeps the order |
| ResultUi.RecomputeVisible | capstone-backup/app/src/main/java/ui/ResultViewModel.kt:92-114 | only the visible list changes, to search then sort |
| ResultUi.StableSort | capstone-backup/app/src/main/java/ui/ResultViewModel.kt:108-110 | `sortedBy`: a sorted permutation in which equal-ranked places keep their order |
| ResultUi.SortProperties | capstone-backup/app/src/main/java/ui/ResultViewModel.kt:106-111 | each mode permutes and orders by its key, stable among equal keys |
| ResultUi.AbsentLast | capstone-backup/app/src/main/java/ui/ResultViewModel.kt:109-110 | places without a distance or rating sort after those with one |
| ResultUi.VisibleSubPermutation | capstone-backup/app/src/main/java/ui/ResultViewModel.kt:92-114 | the visible list rearranges exactly the places that pass the search |
| ResultUi.BlankQueryShowsAll | capstone-backup/app/src/main/java/ui/ResultViewModel.kt:94-107 | a blank query shows every place, in list order under DEFAULT |
| ResultUi.KeptIds | capstone-backup/app/src/main/java/ui/ResultViewModel.kt:38-40 | the kept selection is the selected ids some new place has; it never grows |
| ResultUi.Toggled | capstone-backup/app/src/main/java/ui/ResultViewModel.kt:74-84 | a selected id is removed, an unselected one added below the bound, else nothing changes |
| ResultUi.ToggledBounded | capstone-backup/app/src/main/java/ui/ResultViewModel.kt:74-84 | the toggle keeps the selection within the bound and changes only its own id |
| ResultUi.ToggledTwice | capstone-backup/app/src/main/java/ui/ResultViewModel.kt:74-84 | toggling twice restores the selection unless refused at the bound |
| ResultUi.SelectedPlaces | capstone-backup/app/src/main/java/ui/ResultViewModel.kt:22-23 | the selected places are those whose id is selected, in list order |
| ResultUi.SelectedPlacesBounded | capstone-backup/app/src/main/java/ui/ResultViewModel.kt:22-25 | over unique ids, no more selected places than selected ids |
| ResultUi.ResultViewModel.constructor | capstone-backup/app/src/main/java/ui/ResultViewModel.kt:30 | the initial state |
| ResultUi.ResultViewModel.SetResult | capstone-backup/app/src/main/java/ui/ResultViewModel.kt:36-47 | new weather and places, selection kept where the id survives, visible list recomputed |
| ResultUi.ResultViewModel.SetAllPlaces | capstone-backup/app/src/main/java/ui/ResultViewModel.kt:50-59 | as `setResult` with the weather unchanged |
| ResultUi.ResultViewModel.SetQuery | capstone-backup/app/src/main/java/ui/ResultViewModel.kt:63-66 | the same query changes nothing; otherwise query set and visible list recomputed |
| ResultUi.ResultViewModel.SetSortMode | capstone-backup/app/src/main/java/ui/ResultViewModel.kt:68-71 | the same mode changes nothing; otherwise mode set and visible list recomputed |
| ResultUi.ResultViewModel.ToggleSelect | capstone-backup/app/src/main/java/ui/ResultViewModel.kt:74-84 | the selection becomes `Toggled` under the bound, which stays respected |
| ResultUi.ResultViewModel.ClearSelected | capstone-backup/app/src/main/java/ui/ResultViewModel.kt:86-88 | the selection is emptied |
| ResultScreen.Highlighted | app/src/main/java/ui/ResultScreen.kt:63 | the highlight text starts with the star, without doubling an existing one |
| ResultScreen.HighlightedIdempotent | app/src/main/java/ui/ResultScreen.kt:63 | highlighting a highlighted text changes nothing |
| ResultScreen.HighlightedBase | app/src/main/java/ui/ResultScreen.kt:60-63 | a focused label reads "★ name", top pick or not |
| ResultScreen.BaseNames | app/src/main/java/ui/ResultScreen.kt:454-464 | one base text per place id |
| ResultScreen.BaseNamesOfUnique | app/src/main/java/ui/ResultScreen.kt:454-464 | over unique ids each label's base is its place's starred or plain name |
| ResultScreen.Badged | app/src/main/java/ui/ResultScreen.kt:468-480 | refreshing badges touches no label outside the base texts |
| ResultScreen.BadgedProperties | app/src/main/java/ui/ResultScreen.kt:468-480 | a selected label shows "[k+1] base" for its position k; every other label its base |
| ResultScreen.Ids | app/src/main/java/ui/ResultScreen.kt:48 | the ids of a place list, in order |
| ResultScreen.SelectedPlaces | app/src/main/java/ui/ResultScreen.kt:44-46 | no more places than selected ids, each the first place with its id |
| ResultScreen.SelectedPlacesOrder | app/src/main/java/ui/ResultScreen.kt:44-46 | the selected places follow the selection order, skipping ids without a place |
| ResultScreen.SelectionToggle | app/src/main/java/ui/ResultScreen.kt:70-73 | toggling keeps no duplicates; a new id is appended (and toggling back restores); a selected one leaves |
| ResultScreen.ResultScreenState.constructor | app/src/main/java/ui/ResultScreen.kt:439-466 | the labels of `addMarkersAndStore` show their base texts, with nothing selected |
| ResultScreen.ResultScreenState.Refresh | app/src/main/java/ui/ResultScreen.kt:468-480 | the two loops reset every label to its base and badge each selected id |
| ResultScreen.ResultScreenState.ToggleSelect | app/src/main/java/ui/ResultScreen.kt:70-73 | the order becomes `Toggle`d and the badges are refreshed |
| ResultScreen.ResultScreenState.ClearSelection | app/src/main/java/ui/ResultScreen.kt:206-216 | nothing selected, labels at their bases, the route button disabled |
| ResultScreen.ResultScreenState.FocusOn | app/src/main/java/ui/ResultScreen.kt:50-67 | the previously highlighted label back to its base, the focused label highlighted and remembered, every other label unchanged |
| ResultScreen.ResultScreenState.Tap | app/src/main/java/ui/ResultScreen.kt:162-165 | toggle then focus: the tapped label shows "★ base" instead of its badge, the previously highlighted one its plain base, every other label its badge or base |
| ResultScreen.BadgeNotHighlighted | app/src/main/java/ui/ResultScreen.kt:478 | a badge text never starts with the highlight star, so a focused label shows no badge |
| ResultScreen.BuildNaverQuery | app/src/main/java/ui/ResultScreen.kt:502-512 | region hint, name and address, the optional ones only when not blank, joined by single spaces |

## Left out

- The network and the platform are parameters:
  - Kakao geocoding (`geocode`) and the Kakao HTTP calls (`fetch`).
  - The weather service (`getWeather`, `getWeatherByLatLng`).
  - The OpenAI chat completion (`completion`).
  - The app version's `rerankWithReasons`, which is not part of this model (`rerank`).
  - Number parsing (`parseReal`, `parseInt`).
  - Their results come in as given values; `Attempt.Thrown` stands for any exception they raise.
  - `fetch` and `geocode` are functions, so two identical requests get the same outcome. The code sends some requests twice (PHOTO and HEALING both query AT4), and two real calls may differ, one of them throwing. No lemma depends on the two outcomes being equal.
- Logging (`Log.d`/`Log.w`/`Log.e`) is left out; it has no effect on state.
- Coroutines and `StateFlow` are left out. Each `viewModelScope.launch` is split into a start method and a completion method. Interleavings of concurrent coroutines are not modelled.
- The `onReady` navigation callback of the earlier `buildRecommendation` is not modelled.
- Compose rendering, the Kakao map SDK (camera, labels, route polylines, `buildRoute`, `computeCenter`) and the Naver intent are left out.
  - Labels are a map from place id to text. `addLabel` is assumed to succeed.
  - `focusOn` is modelled (`ResultScreenState.FocusOn`, and `Tap` for the toggle handlers) only with the map loaded, which is when labels exist; its camera move is left out. Its two label writes are modelled: the previously highlighted label goes back to its base text and the focused one shows "★ base". After every tap they overwrite the "[k] " badges of the tapped place and of the place focused before; the next badge refresh restores them.
- Doubles are exact reals. `finalScore` with `distanceMeters == -50` divides by zero in Kotlin, giving Infinity; the model scores it as 0. Kakao distances are never negative.
- `Lowercase` folds ASCII letters only. `LexLe` compares characters, not UTF-16 code units. Korean text has no case, so the order and the search agree with Kotlin on it.
- The `DEBUG_BYPASS_REBALANCE == false` branch of `recommendWithGpt` (RealTravelRepository.kt:159-174) is dead code. It is not modelled as a separate path; its rebalance is `Rebalance.RebalanceByCategory`.
- The unused `reason` string of the earlier rerank adapter (GptRerankUseCase.kt:227) and the prompt texts are left out. Only the data they carry is modelled: the projection and the weather brief.
- Reflection covers only the declared fields of `Place` and `WeatherInfo`. `getBool` is modelled as the typed lookup `FirstMatch(…, AsBool)`.
- The Gson parse of the reply is the `completion` value: `Done(None)` for a reply that does not parse.
  - A completion without choices is the text "{}" (OpenAiService.kt:64). Gson parses it to a `RerankResult` whose `picked` is null, and `parsed.picked.isEmpty()` (GptRerankUseCase.kt:192) then throws a NullPointerException. Such a reply is the `completion` value `Thrown(None)`, not `Done(None)`.
- `GptRerank`, `ResultUi` and `BackupMainUi` use the app's datatypes, not the earlier version's.
  - The earlier `Category` has `NIGHT` where the app has `STAY` (capstone-backup/app/src/main/java/domain/TravelModels.kt:3-5).
  - The earlier `Place` has no `score`, and its `RecommendationResult` holds only the weather and the places (same file, lines 25-39).
  - As a result, `ResultUi.Searched` differs from the earlier code on category names: there the query "night" matches a NIGHT place, which the model cannot hold, and "stay" matches no place, while in the model it matches a STAY place.
- KakaoLocal.SearchByKeyword: its contract states unique ids, the id set and distance order. The stable-order and first-occurrence facts hold by `KakaoLocal.ByDistanceProperties`, on the same post-processing.
- ResultUi.Sorted: its contract states only the DEFAULT mode. The other modes are stated by `ResultUi.SortProperties`.

## Findings

| source | as written | input that shows it | evidently intended | confidence | as-written member | corrected member |
|---|---|---|---|---|---|---|
| capstone-backup/app/src/main/java/domain/GptRerankUseCase.kt:28-46,100 | `getField<T>` casts with `as? T` on an erased `T`, so it returns the first non-null alias of any type, and `getString`'s caller casts it to `String`. For a `Place`, the first tag alias `category` is a non-null enum, so the cast throws `ClassCastException` inside the `mapNotNull` lambda. | Any non-empty candidate list with non-null weather: the rerank throws on the first place, and the adapter's `catch` returns the candidates unreranked. | A lookup that skips fields of another type, so the tag falls back to the category argument and the GPT reply reorders the candidates. | not executed | GptRerank.AdapterAsWrittenKeepsCandidates | GptRerank.AdapterReranks |
