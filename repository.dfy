/** The app's `RealTravelRepository` (app/.../domain/RealTravelRepository.kt):
    the Kakao-only `recommend`, which merges one search per category and
    rebalances, and `recommendWithGpt`, which reranks one search and, with
    the bypass flag on, returns the reranked order directly.  Geocoding,
    the weather service and the app-version reranker are parameters. */
module Repository {
  import opened Wrappers
  import opened Seqs
  import opened Strings
  import opened TravelModels
  import opened KakaoLocal
  import opened RebalanceSpec
  import opened Rebalance

  // ---------------------------------------------------------------------
  // Defaults and clamping
  // ---------------------------------------------------------------------

  /** `filter.region.ifBlank { "서울" }`. */
  function RegionOrDefault(region: string): (r: string)
    ensures !IsBlank(r)
    ensures IsBlank(region) ==> r == "서울"
    ensures !IsBlank(region) ==> r == region
  {
    assert !IsWhitespace("서울"[0]);
    IfBlank(region, "서울")
  }

  /** `if (filter.categories.isEmpty()) setOf(Category.FOOD) else filter.categories`. */
  function CategoriesOrDefault(cats: CategorySet): (r: CategorySet)
    ensures r != []
    ensures cats != [] ==> r == cats
    ensures cats == [] ==> r == [FOOD]
  {
    if cats == [] then [FOOD] else cats
  }

  /** `min(20_000, max(1, radiusMeters))`. */
  function ClampRadius(radius: Int32): (r: Int32)
    ensures 1 <= r <= 20_000
    ensures 1 <= radius <= 20_000 ==> r == radius
    ensures radius < 1 ==> r == 1
    ensures radius > 20_000 ==> r == 20_000
  {
    Min(20_000, Max(1, radius))
  }

  /** `min(15, max(1, candidateSize))`. */
  function ClampSize(size: Int32): (r: Int32)
    ensures 1 <= r <= 15
    ensures 1 <= size <= 15 ==> r == size
    ensures size < 1 ==> r == 1
    ensures size > 15 ==> r == 15
  {
    Min(15, Max(1, size))
  }

  /** Clamping twice is clamping once. */
  lemma ClampIdempotent(radius: Int32, size: Int32)
    ensures ClampRadius(ClampRadius(radius)) == ClampRadius(radius)
    ensures ClampSize(ClampSize(size)) == ClampSize(size)
  {
  }

  /** `recommend` searches a fixed radius: `min(20_000, max(1, 3_000))`. */
  const RecommendRadius: Int32 := ClampRadius(3_000)

  /** The Kakao page size per category in `recommend`. */
  const SizePerCat: Int32 := 15

  /** The merged size after which `recommend` stops searching. */
  const MergeCap: int := 60

  lemma RecommendRadiusValue()
    ensures RecommendRadius == 3_000
  {
  }

  // ---------------------------------------------------------------------
  // The merge of `recommend`
  // ---------------------------------------------------------------------

  /** What the Kakao client needs besides its arguments. */
  datatype KakaoClient = KakaoClient(
    apiReady: bool,
    fetch: Request -> Attempt<seq<PlaceDoc>>,
    parseReal: string -> Option<real>,
    parseInt: string -> Option<Int32>)

  /** The single-category search `recommend` issues for `cat`. */
  function ChunkOf(k: KakaoClient, lat: real, lng: real, cat: Category): Attempt<seq<Place>> {
    CategorySearch(k.apiReady, lat, lng, [cat], RecommendRadius, SizePerCat, k.fetch, k.parseReal, k.parseInt)
  }

  /** The merge from the category `cats[0]` on, after the chunks `seen`:
      `putIfAbsent` of every place is `distinctBy { it.id }` of all the
      chunks in order, and the cap is checked after each whole chunk. */
  function Merge(k: KakaoClient, lat: real, lng: real, cats: seq<Category>, seen: seq<Place>)
    : Attempt<seq<Place>>
  {
    if cats == [] then Done(DistinctById(seen))
    else
      match ChunkOf(k, lat, lng, cats[0])
      case Thrown(e) => Thrown(e)
      case Done(chunk) =>
        if |DistinctById(seen + chunk)| >= MergeCap then Done(DistinctById(seen + chunk))
        else Merge(k, lat, lng, cats[1..], seen + chunk)
  }

  /** A put after the places with the ids of `s` merged. */
  lemma DistinctSnoc(s: seq<Place>, p: Place)
    ensures DistinctById(s + [p])
         == if p.id in IdSet(DistinctById(s)) then DistinctById(s) else DistinctById(s) + [p]
  {
    assert (s + [p])[..|s|] == s;
  }

  /** `chunk.forEach { merged.putIfAbsent(it.id, it) }`: the
      `LinkedHashMap` is its list of values in insertion order together
      with its key set; after the puts it holds the first place of each id
      over what was merged before and the chunk. */
  method PutAll(merged: seq<Place>, keys: set<string>, chunk: seq<Place>, ghost seen: seq<Place>)
    returns (merged': seq<Place>, keys': set<string>)
    requires merged == DistinctById(seen) && keys == IdSet(merged)
    ensures merged' == DistinctById(seen + chunk) && keys' == IdSet(merged')
  {
    merged', keys' := merged, keys;
    assert seen + chunk[..0] == seen;
    for j := 0 to |chunk|
      invariant merged' == DistinctById(seen + chunk[..j]) && keys' == IdSet(merged')
    {
      var p := chunk[j];
      assert seen + chunk[..j + 1] == (seen + chunk[..j]) + [p];
      DistinctSnoc(seen + chunk[..j], p);
      if p.id !in keys' {
        IdSetSnoc(merged', p);
        merged' := merged' + [p];
        keys' := keys' + {p.id};
      }
    }
    assert chunk[..|chunk|] == chunk;
  }

  /** One round of the merge: a search that throws ends it, a chunk that
      brings the merge to the cap ends it, any other goes on to the next
      category. */
  lemma MergeStep(k: KakaoClient, lat: real, lng: real, cats: seq<Category>, seen: seq<Place>)
    requires cats != []
    ensures ChunkOf(k, lat, lng, cats[0]).Thrown? ==>
      Merge(k, lat, lng, cats, seen) == Thrown(ChunkOf(k, lat, lng, cats[0]).message)
    ensures ChunkOf(k, lat, lng, cats[0]).Done? ==>
      var next := seen + ChunkOf(k, lat, lng, cats[0]).value;
      Merge(k, lat, lng, cats, seen)
        == if |DistinctById(next)| >= MergeCap then Done(DistinctById(next))
           else Merge(k, lat, lng, cats[1..], next)
  {
  }

  /** The loop of `recommend` over the categories. */
  method MergeChunks(k: KakaoClient, lat: real, lng: real, cats: CategorySet) returns (r: Attempt<seq<Place>>)
    ensures r == Merge(k, lat, lng, cats, [])
  {
    var merged: seq<Place> := [];
    var keys: set<string> := {};
    ghost var seen: seq<Place> := [];
    var i := 0;
    while i < |cats|
      invariant 0 <= i <= |cats|
      invariant merged == DistinctById(seen) && keys == IdSet(merged)
      invariant Merge(k, lat, lng, cats, []) == Merge(k, lat, lng, cats[i..], seen)
    {
      var chunk := SearchByCategories(k.apiReady, lat, lng, [cats[i]], RecommendRadius, SizePerCat,
                                      k.fetch, k.parseReal, k.parseInt);
      assert chunk == ChunkOf(k, lat, lng, cats[i..][0]);
      MergeStep(k, lat, lng, cats[i..], seen);
      if chunk.Thrown? {
        return Thrown(chunk.message);
      }
      merged, keys := PutAll(merged, keys, chunk.value, seen);
      seen := seen + chunk.value;
      if |merged| >= MergeCap {
        break;
      }
      assert cats[i..][1..] == cats[i + 1..];
      i := i + 1;
    }
    return Done(merged);
  }

  /** Dedup keeps the order of what came first: the merge of a prefix is a
      prefix of the merge. */
  lemma {:induction false} DistinctPrefix(s: seq<Place>, t: seq<Place>)
    ensures DistinctById(s) <= DistinctById(s + t)
  {
    if t != [] {
      var n := |t| - 1;
      assert s + t == (s + t[..n]) + [t[n]];
      DistinctPrefix(s, t[..n]);
      DistinctSnoc(s + t[..n], t[n]);
    } else {
      assert s + t == s;
    }
  }

  /** A put adds at most one place. */
  lemma {:induction false} DistinctGrowth(s: seq<Place>, t: seq<Place>)
    ensures |DistinctById(s + t)| <= |DistinctById(s)| + |t|
  {
    if t != [] {
      var n := |t| - 1;
      assert s + t == (s + t[..n]) + [t[n]];
      DistinctGrowth(s, t[..n]);
      DistinctSnoc(s + t[..n], t[n]);
    } else {
      assert s + t == s;
    }
  }

  /** `p` is in the chunk found by the search of one of `cats`. */
  predicate Searched(k: KakaoClient, lat: real, lng: real, cats: seq<Category>, p: Place) {
    exists c :: c in cats && ChunkOf(k, lat, lng, c).Done? && p in ChunkOf(k, lat, lng, c).value
  }

  /** The places searched after `seen` that the merge took in. */
  lemma {:induction false} MergedAfter(k: KakaoClient, lat: real, lng: real, cats: seq<Category>,
                                       seen: seq<Place>)
    returns (more: seq<Place>)
    requires Merge(k, lat, lng, cats, seen).Done?
    ensures Merge(k, lat, lng, cats, seen).value == DistinctById(seen + more)
    ensures DistinctById(seen) <= DistinctById(seen + more)
    ensures forall p :: p in more ==> Searched(k, lat, lng, cats, p)
  {
    if cats == [] {
      more := [];
      assert seen + more == seen;
    } else {
      MergeStep(k, lat, lng, cats, seen);
      var chunk := ChunkOf(k, lat, lng, cats[0]).value;
      DistinctPrefix(seen, chunk);
      forall p | p in chunk ensures Searched(k, lat, lng, cats, p) {
        assert cats[0] in cats;
      }
      if |DistinctById(seen + chunk)| < MergeCap {
        var rest := MergedAfter(k, lat, lng, cats[1..], seen + chunk);
        more := chunk + rest;
        AppendAssoc(seen, chunk, rest);
        PrefixTrans(DistinctById(seen), DistinctById(seen + chunk), DistinctById(seen + more));
        forall p | p in rest ensures Searched(k, lat, lng, cats, p) {
          var c :| c in cats[1..] && ChunkOf(k, lat, lng, c).Done? && p in ChunkOf(k, lat, lng, c).value;
          assert c in cats;
        }
        assert forall p :: p in more ==> p in chunk || p in rest;
      } else {
        more := chunk;
      }
    }
  }

  /** The merge is the first place of each id over the chunks seen and
      some chunks searched for categories of `cats`, in that order; the
      places merged before keep their positions. */
  lemma MergeFirstSeen(k: KakaoClient, lat: real, lng: real, cats: seq<Category>, seen: seq<Place>)
    requires Merge(k, lat, lng, cats, seen).Done?
    ensures exists more: seq<Place> ::
      && Merge(k, lat, lng, cats, seen).value == DistinctById(seen + more)
      && DistinctById(seen) <= DistinctById(seen + more)
      && forall p :: p in more ==> Searched(k, lat, lng, cats, p)
  {
    var more := MergedAfter(k, lat, lng, cats, seen);
  }

  /** The cap is checked only after a whole chunk: a merge that ends at or
      over the cap overshoots it by less than one chunk of the categories;
      a merge below the cap has searched every category. */
  lemma {:induction false} MergeOvershoot(k: KakaoClient, lat: real, lng: real, cats: seq<Category>,
                                          seen: seq<Place>)
    requires Merge(k, lat, lng, cats, seen).Done?
    requires |DistinctById(seen)| < MergeCap
    ensures var m := Merge(k, lat, lng, cats, seen).value;
      || |m| < MergeCap
      || exists c :: c in cats && ChunkOf(k, lat, lng, c).Done? && |m| < MergeCap + |ChunkOf(k, lat, lng, c).value|
  {
    if cats != [] {
      var chunk := ChunkOf(k, lat, lng, cats[0]).value;
      DistinctGrowth(seen, chunk);
      if |DistinctById(seen + chunk)| < MergeCap {
        MergeOvershoot(k, lat, lng, cats[1..], seen + chunk);
        var m := Merge(k, lat, lng, cats, seen).value;
        if |m| >= MergeCap {
          var c :| c in cats[1..] && ChunkOf(k, lat, lng, c).Done? && |m| < MergeCap + |ChunkOf(k, lat, lng, c).value|;
          assert c in cats;
        }
      } else {
        assert cats[0] in cats;
      }
    }
  }

  /** Every merged place has an id of its own. */
  lemma MergeUnique(k: KakaoClient, lat: real, lng: real, cats: seq<Category>)
    requires Merge(k, lat, lng, cats, []).Done?
    ensures UniqueIds(Merge(k, lat, lng, cats, []).value)
  {
    MergeFirstSeen(k, lat, lng, cats, []);
  }

  // ---------------------------------------------------------------------
  // `recommend`
  // ---------------------------------------------------------------------

  /** `recommend(filter, weather)`: geocode the region (blank means
      "서울"); an exception of the geocoding ends the call; without a
      centre, an empty result with the given weather; else merge the
      category searches and rebalance with at least four per category and
      one top pick each, uncapped.  An exception of a search ends the
      call too. */
  method Recommend(filter: FilterState, weather: Option<WeatherInfo>,
                   geocode: string -> Attempt<Option<(real, real)>>, k: KakaoClient)
    returns (r: Attempt<RecommendationResult>)
    ensures geocode(RegionOrDefault(filter.region)).Thrown? ==>
      r == Thrown(geocode(RegionOrDefault(filter.region)).message)
    ensures geocode(RegionOrDefault(filter.region)) == Done(None) ==> r == Done(NewResult([], weather))
    ensures geocode(RegionOrDefault(filter.region)).Done? && geocode(RegionOrDefault(filter.region)).value.Some? ==>
      var (lat, lng) := geocode(RegionOrDefault(filter.region)).value.value;
      match Merge(k, lat, lng, CategoriesOrDefault(filter.categories), [])
      case Thrown(e) => r == Thrown(e)
      case Done(merged) =>
        && r.Done? && r.value.weather == weather
        && (r.value.topPicks, r.value.places) == Rebalanced(merged, CategoriesOrDefault(filter.categories), 4, 1, None)
        && r.value.gptReasons == map[] && r.value.aiTopIds == {}
  {
    var regionText := RegionOrDefault(filter.region);
    var located := geocode(regionText);
    if located.Thrown? {
      return Thrown(located.message);
    }
    var center := located.value;
    if center.None? {
      return Done(NewResult([], weather));
    }
    var (centerLat, centerLng) := center.value;
    var cats := CategoriesOrDefault(filter.categories);
    var merged := MergeChunks(k, centerLat, centerLng, cats);
    if merged.Thrown? {
      return Thrown(merged.message);
    }
    var top, ordered := RebalanceByCategory(merged.value, cats, 4, 1, None);
    r := Done(RecommendationResult(ordered, weather, map[], {}, top));
  }

  // ---------------------------------------------------------------------
  // `recommendWithGpt`
  // ---------------------------------------------------------------------

  /** What the app-version reranker returns. */
  datatype RerankOutput = RerankOutput(places: seq<Place>, reasons: map<string, string>, aiTopIds: set<string>)

  /** `runCatching { rerankWithReasons(...) }.getOrElse { RerankOutput(candidates, emptyMap()) }`. */
  function RerankOrKeep(rerank: (FilterState, Option<WeatherInfo>, seq<Place>) -> Attempt<RerankOutput>,
                        filter: FilterState, weather: Option<WeatherInfo>, candidates: seq<Place>)
    : (out: RerankOutput)
    ensures rerank(filter.(region := ""), weather, candidates).Thrown? ==>
              out.places == candidates && out.reasons == map[] && out.aiTopIds == {}
    ensures rerank(filter.(region := ""), weather, candidates).Done? ==>
              out == rerank(filter.(region := ""), weather, candidates).value
  {
    match rerank(filter.(region := ""), weather, candidates)
    case Thrown(_) => RerankOutput(candidates, map[], {})
    case Done(out) => out
  }

  /** The categories of the places of `s`. */
  function CategoriesIn(s: seq<Place>): set<Category> {
    set p | p in s :: p.category
  }

  lemma CategoriesSnoc(s: seq<Place>, p: Place)
    ensures CategoriesIn(s + [p]) == CategoriesIn(s) + {p.category}
  {
    forall c | c in CategoriesIn(s + [p]) ensures c in CategoriesIn(s) + {p.category} {
      var q :| q in s + [p] && q.category == c;
      if q != p { assert q in s; }
    }
    forall c | c in CategoriesIn(s) ensures c in CategoriesIn(s + [p]) {
      var q :| q in s && q.category == c;
      assert q in s + [p];
    }
    assert p in s + [p];
  }

  /** No two places share a category. */
  predicate UniqueCategories(s: seq<Place>) {
    forall i, j :: 0 <= i < j < |s| ==> s[i].category != s[j].category
  }

  /** `distinctBy { it.category }`: the first place of each category. */
  function DistinctByCategory(s: seq<Place>): (r: seq<Place>)
    ensures UniqueCategories(r)
    ensures CategoriesIn(r) == CategoriesIn(s)
    ensures forall p :: p in r ==> p in s
  {
    if s == [] then []
    else
      var init := s[..|s| - 1];
      var last := s[|s| - 1];
      var r := DistinctByCategory(init);
      CategoriesSnoc(r, last);
      assert s == init + [last];
      CategoriesSnoc(init, last);
      if last.category in CategoriesIn(r) then r
      else
        assert forall i :: 0 <= i < |r| ==> r[i] in r;
        r + [last]
  }

  /** The first place of category `c` in `s`. */
  function FirstOfCategory(s: seq<Place>, c: Category): (r: Option<Place>)
    ensures r.Some? ==> r.value in s && r.value.category == c
    ensures r.None? <==> c !in CategoriesIn(s)
  {
    if s == [] then None
    else if s[0].category == c then Some(s[0])
    else
      var r := FirstOfCategory(s[1..], c);
      assert forall p :: p in s ==> p == s[0] || p in s[1..];
      r
  }

  lemma {:induction false} FirstOfCategorySnoc(s: seq<Place>, x: Place, c: Category)
    ensures FirstOfCategory(s + [x], c)
         == if FirstOfCategory(s, c).Some? then FirstOfCategory(s, c)
            else if x.category == c then Some(x) else None
  {
    if s == [] {
      assert [] + [x] == [x];
      assert [x][1..] == [];
    } else {
      assert (s + [x])[1..] == s[1..] + [x];
      FirstOfCategorySnoc(s[1..], x, c);
    }
  }

  /** Each kept place is the first of its category. */
  lemma {:induction false} DistinctByCategoryFirst(s: seq<Place>, q: Place)
    requires q in DistinctByCategory(s)
    ensures FirstOfCategory(s, q.category) == Some(q)
  {
    var init := s[..|s| - 1];
    var last := s[|s| - 1];
    var r := DistinctByCategory(init);
    assert s == init + [last];
    assert DistinctByCategory(s) == if last.category in CategoriesIn(r) then r else r + [last];
    FirstOfCategorySnoc(init, last, q.category);
    if q in r {
      DistinctByCategoryFirst(init, q);
    } else {
      assert q == last;
    }
  }

  /** Filtering by a predicate that holds on every place of category `c`
      keeps the first place of `c`. */
  lemma {:induction false} FirstOfCategoryFilter(s: seq<Place>, p: Place -> bool, c: Category)
    requires forall x :: x in s && x.category == c ==> p(x)
    ensures FirstOfCategory(Filter(s, p), c) == FirstOfCategory(s, c)
  {
    if s != [] {
      FirstOfCategoryFilter(s[1..], p, c);
      var rest := Filter(s[1..], p);
      if p(s[0]) {
        assert Filter(s, p) == [s[0]] + rest;
        assert ([s[0]] + rest)[1..] == rest;
      } else {
        assert Filter(s, p) == rest;
      }
    }
  }

  /** The bypass `topPicks`: the places of a selected category, one per
      category, at most `max(1, |cats|)` of them. */
  function BypassTopPicks(places: seq<Place>, cats: CategorySet): seq<Place> {
    var d := DistinctByCategory(Filter(places, (p: Place) => p.category in cats));
    d[..Min(Max(1, |cats|), |d|)]
  }

  /** A list without repeated categories, all selected, is no longer than
      the selection. */
  lemma {:induction false} FewerThanSelected(d: seq<Place>, cats: seq<Category>)
    requires UniqueCategories(d)
    requires forall p :: p in d ==> p.category in cats
    ensures |d| <= |cats|
  {
    if d != [] {
      var n := |d| - 1;
      var c := d[n].category;
      assert d[n] in d;
      var i :| 0 <= i < |cats| && cats[i] == c;
      var rest := cats[..i] + cats[i + 1..];
      forall p | p in d[..n] ensures p.category in rest {
        var j :| 0 <= j < n && d[..n][j] == p;
        assert d[j] == p && d[j] in d;
        assert p.category != c;
        var m :| 0 <= m < |cats| && cats[m] == p.category;
        if m < i { assert rest[m] == cats[m]; } else { assert rest[m - 1] == cats[m]; }
      }
      FewerThanSelected(d[..n], rest);
    }
  }

  /** The bypass top picks: each is the first place of its category in
      the list, and that category is selected; no two share a category;
      and every selected category that occurs in the list has its pick. */
  lemma BypassTopPicksProperties(places: seq<Place>, cats: CategorySet)
    ensures var t := BypassTopPicks(places, cats);
      && |t| <= Max(1, |cats|)
      && UniqueCategories(t)
      && (forall q :: q in t ==> q.category in cats && FirstOfCategory(places, q.category) == Some(q))
      && (forall p :: p in places && p.category in cats ==> p.category in CategoriesIn(t))
  {
    var inCats := (p: Place) => p.category in cats;
    var f := Filter(places, inCats);
    var d := DistinctByCategory(f);
    FewerThanSelected(d, cats);
    assert BypassTopPicks(places, cats) == d;
    forall q | q in d
      ensures q.category in cats && FirstOfCategory(places, q.category) == Some(q)
    {
      DistinctByCategoryFirst(f, q);
      FirstOfCategoryFilter(places, inCats, q.category);
    }
    forall p | p in places && p.category in cats ensures p.category in CategoriesIn(d) {
      assert p in f;
    }
  }

  /** The result `recommendWithGpt` returns with the bypass flag on. */
  function BypassResult(out: RerankOutput, weather: Option<WeatherInfo>, cats: CategorySet)
    : RecommendationResult
  {
    RecommendationResult(out.places, weather, out.reasons, out.aiTopIds, BypassTopPicks(out.places, cats))
  }

  /** `recommendWithGpt(...)` with `DEBUG_BYPASS_REBALANCE` on: search the
      defaulted categories with the clamped radius and size, rerank (keeping
      the candidates on failure) and return the reranked order with the
      bypass top picks.  An exception of the search ends the call. */
  method RecommendWithGpt(filter: FilterState, centerLat: real, centerLng: real, radiusMeters: Int32,
                          candidateSize: Int32, weather: Option<WeatherInfo>, k: KakaoClient,
                          rerank: (FilterState, Option<WeatherInfo>, seq<Place>) -> Attempt<RerankOutput>)
    returns (r: Attempt<RecommendationResult>)
    ensures var cats := CategoriesOrDefault(filter.categories);
      match CategorySearch(k.apiReady, centerLat, centerLng, cats, ClampRadius(radiusMeters),
                           ClampSize(candidateSize), k.fetch, k.parseReal, k.parseInt)
      case Thrown(e) => r == Thrown(e)
      case Done(candidates) => r == Done(BypassResult(RerankOrKeep(rerank, filter, weather, candidates), weather, cats))
  {
    var cats := CategoriesOrDefault(filter.categories);
    var radius := ClampRadius(radiusMeters);
    var size := ClampSize(candidateSize);
    var candidates := SearchByCategories(k.apiReady, centerLat, centerLng, cats, radius, size,
                                         k.fetch, k.parseReal, k.parseInt);
    if candidates.Thrown? {
      return Thrown(candidates.message);
    }
    var out := RerankOrKeep(rerank, filter, weather, candidates.value);
    r := Done(BypassResult(out, weather, cats));
  }

  /** When the reranker fails, the result is the searched candidates with
      no reasons and no AI ids. */
  lemma RerankFailureKeepsCandidates(filter: FilterState, weather: Option<WeatherInfo>, candidates: seq<Place>,
                                     rerank: (FilterState, Option<WeatherInfo>, seq<Place>) -> Attempt<RerankOutput>)
    requires rerank(filter.(region := ""), weather, candidates).Thrown?
    ensures var res := BypassResult(RerankOrKeep(rerank, filter, weather, candidates), weather,
                                    CategoriesOrDefault(filter.categories));
      && res.places == candidates && res.gptReasons == map[] && res.aiTopIds == {}
      && res.weather == weather
      && res.topPicks == BypassTopPicks(candidates, CategoriesOrDefault(filter.categories))
  {
  }
}
