/** The post-processing of the Kakao Local search client
    (KakaoLocalService.kt): which category group codes are queried for a
    set of categories, how a returned document becomes a `Place`, and the
    de-duplication and distance sort of the results.  The HTTP calls are a
    function `fetch` from request to response (or exception); number parsing
    is a pair of functions `parseReal` / `parseInt`. */
module KakaoLocal {
  import opened Wrappers
  import opened Seqs
  import opened TravelModels

  // ---------------------------------------------------------------------
  // Category -> category group codes
  // ---------------------------------------------------------------------

  /** The codes one category is searched with (the `when` branches). */
  function CategoryCodes(c: Category): seq<string> {
    match c
    case FOOD => ["FD6"]
    case CAFE => ["CE7"]
    case CULTURE => ["CT1"]
    case PHOTO => ["AT4"]
    case SHOPPING => ["MT1", "CS2"]
    case HEALING => ["AT4"]
    case EXPERIENCE => ["AT4", "AC5"]
    case STAY => ["AD5"]
  }

  /** The codes of `cats`, in iteration order, duplicates kept. */
  function CodesOf(cats: seq<Category>): seq<string> {
    if cats == [] then [] else CodesOf(cats[..|cats| - 1]) + CategoryCodes(cats[|cats| - 1])
  }

  predicate TwoCodes(c: Category) {
    c == SHOPPING || c == EXPERIENCE
  }

  /** `categoryCodesFor(cats)`. */
  method CategoryCodesFor(cats: CategorySet) returns (list: seq<string>)
    ensures list == CodesOf(cats)
  {
    if |cats| == 0 {
      return [];
    }
    list := [];
    for i := 0 to |cats|
      invariant list == CodesOf(cats[..i])
    {
      assert cats[..i + 1][..i] == cats[..i];
      match cats[i]
      case FOOD => list := list + ["FD6"];
      case CAFE => list := list + ["CE7"];
      case CULTURE => list := list + ["CT1"];
      case PHOTO => list := list + ["AT4"];
      case SHOPPING =>
        list := list + ["MT1"];
        list := list + ["CS2"];
      case HEALING =>
        list := list + ["AT4"];
      case EXPERIENCE =>
        list := list + ["AT4"];
        list := list + ["AC5"];
      case STAY => list := list + ["AD5"];
    }
    assert cats[..|cats|] == cats;
  }

  /** A code is queried exactly when some selected category maps to it. */
  lemma {:induction false} CodesOfMember(cats: seq<Category>, code: string)
    ensures code in CodesOf(cats) <==> exists c :: c in cats && code in CategoryCodes(c)
  {
    if cats != [] {
      var init := cats[..|cats| - 1];
      var last := cats[|cats| - 1];
      CodesOfMember(init, code);
      assert cats == init + [last];
      assert CodesOf(cats) == CodesOf(init) + CategoryCodes(last);
      if code in CodesOf(cats) {
        if code in CodesOf(init) {
          var c :| c in init && code in CategoryCodes(c);
          assert c in cats;
        } else {
          assert last in cats;
        }
      }
      if exists c :: c in cats && code in CategoryCodes(c) {
        var c :| c in cats && code in CategoryCodes(c);
        if c != last {
          assert c in init;
        }
      }
    }
  }

  /** One code per category, two for SHOPPING and EXPERIENCE. */
  lemma {:induction false} CodesOfLength(cats: seq<Category>)
    ensures |CodesOf(cats)| == |cats| + |Filter(cats, TwoCodes)|
  {
    if cats != [] {
      var init := cats[..|cats| - 1];
      var last := cats[|cats| - 1];
      CodesOfLength(init);
      assert cats == init + [last];
      FilterConcat(init, [last], TwoCodes);
      OneOrTwoCodes(last);
    }
  }

  lemma OneOrTwoCodes(c: Category)
    ensures |CategoryCodes(c)| == 1 + |Filter([c], TwoCodes)|
  {
    assert [c][1..] == [];
  }

  /** No category gives no code, so only the empty selection gives no
      query. */
  lemma NoCodesOnlyForEmpty(cats: seq<Category>)
    ensures CodesOf(cats) == [] <==> cats == []
  {
    CodesOfLength(cats);
  }

  /** PHOTO and HEALING share AT4, so the code list can repeat a code. */
  lemma SharedCode()
    ensures CodesOf([PHOTO, HEALING]) == ["AT4", "AT4"]
    ensures !NoDup(CodesOf([PHOTO, HEALING]))
  {
    assert [PHOTO, HEALING][..1] == [PHOTO];
    assert CodesOf([PHOTO, HEALING]) == CodesOf([PHOTO]) + ["AT4"];
    var s := CodesOf([PHOTO, HEALING]);
    assert s[0] == s[1];
  }

  // ---------------------------------------------------------------------
  // Documents -> places
  // ---------------------------------------------------------------------

  /** A `PlaceDoc`; `x` is the longitude and `y` the latitude, both text. */
  datatype PlaceDoc = PlaceDoc(
    id: string,
    placeName: string,
    categoryGroupCode: Option<string>,
    x: string,
    y: string,
    addressName: Option<string>,
    distance: Option<string>,
    placeUrl: Option<string>)

  /** The `when (category_group_code)` of `toPlace`. */
  function CategoryOfCode(code: Option<string>): (c: Category)
    ensures c != HEALING && c != EXPERIENCE
  {
    match code
    case Some("FD6") => FOOD
    case Some("CE7") => CAFE
    case Some("CT1") => CULTURE
    case Some("AT4") => PHOTO
    case Some("MT1") => SHOPPING
    case Some("CS2") => SHOPPING
    case Some("AD5") => STAY
    case _ => CULTURE
  }

  /** The codes of a category that a search can produce map back to it;
      HEALING and EXPERIENCE come back as PHOTO or CULTURE. */
  lemma CodeRoundTrip(c: Category, code: string)
    requires code in CategoryCodes(c)
    ensures CategoryOfCode(Some(code)) ==
      (if c == HEALING || (c == EXPERIENCE && code == "AT4") then PHOTO
       else if c == EXPERIENCE then CULTURE
       else c)
  {
  }

  /** `distance?.toIntOrNull()`. */
  function DistanceOf(distance: Option<string>, parseInt: string -> Option<Int32>): Option<Int32> {
    match distance
    case None => None
    case Some(d) => parseInt(d)
  }

  /** `PlaceDoc.toPlace()`. */
  function ToPlace(doc: PlaceDoc, parseReal: string -> Option<real>, parseInt: string -> Option<Int32>)
    : (r: Option<Place>)
    ensures r.None? <==> parseReal(doc.y).None? || parseReal(doc.x).None?
    ensures r.Some? ==>
      && r.value.id == doc.id && r.value.name == doc.placeName
      && r.value.lat == parseReal(doc.y).value && r.value.lng == parseReal(doc.x).value
      && r.value.category == CategoryOfCode(doc.categoryGroupCode)
      && r.value.address == doc.addressName
      && (doc.distance.None? ==> r.value.distanceMeters.None?)
      && (doc.distance.Some? ==> r.value.distanceMeters == parseInt(doc.distance.value))
      && r.value.rating.None? && r.value.score.None?
  {
    match parseReal(doc.y)
    case None => None
    case Some(lat) =>
      match parseReal(doc.x)
      case None => None
      case Some(lng) =>
        var dist := DistanceOf(doc.distance, parseInt);
        var cat := CategoryOfCode(doc.categoryGroupCode);
        Some(Place(doc.id, doc.placeName, cat, lat, lng, dist, None, doc.addressName, None))
  }

  /** `documents.mapNotNull { it.toPlace() }`. */
  function ToPlaces(docs: seq<PlaceDoc>, parseReal: string -> Option<real>, parseInt: string -> Option<Int32>)
    : seq<Place>
  {
    if docs == [] then []
    else
      var rest := ToPlaces(docs[1..], parseReal, parseInt);
      match ToPlace(docs[0], parseReal, parseInt)
      case None => rest
      case Some(p) => [p] + rest
  }

  /** Every place comes from a document, and every document with parseable
      coordinates gives one. */
  lemma {:induction false} ToPlacesMember(docs: seq<PlaceDoc>, parseReal: string -> Option<real>,
                                         parseInt: string -> Option<Int32>, p: Place)
    ensures p in ToPlaces(docs, parseReal, parseInt) <==>
      exists d :: d in docs && ToPlace(d, parseReal, parseInt) == Some(p)
  {
    if docs != [] {
      ToPlacesMember(docs[1..], parseReal, parseInt, p);
      if exists d :: d in docs && ToPlace(d, parseReal, parseInt) == Some(p) {
        var d :| d in docs && ToPlace(d, parseReal, parseInt) == Some(p);
        if d != docs[0] {
          assert d in docs[1..];
        }
      }
      if exists d :: d in docs[1..] && ToPlace(d, parseReal, parseInt) == Some(p) {
        var d :| d in docs[1..] && ToPlace(d, parseReal, parseInt) == Some(p);
        assert d in docs;
      }
    }
  }

  /** No search result is ever HEALING or EXPERIENCE. */
  lemma {:induction false} ToPlacesCategories(docs: seq<PlaceDoc>, parseReal: string -> Option<real>,
                                             parseInt: string -> Option<Int32>)
    ensures forall p :: p in ToPlaces(docs, parseReal, parseInt) ==>
      p.category != HEALING && p.category != EXPERIENCE && p.rating.None?
  {
    if docs != [] {
      ToPlacesCategories(docs[1..], parseReal, parseInt);
    }
  }

  // ---------------------------------------------------------------------
  // De-duplication and distance order
  // ---------------------------------------------------------------------

  /** `distanceMeters ?: Int.MAX_VALUE`. */
  function DistanceKey(p: Place): Int32 {
    p.distanceMeters.GetOr(IntMaxValue)
  }

  predicate NearerFirst(a: Place, b: Place) {
    DistanceKey(a) <= DistanceKey(b)
  }

  lemma NearerFirstTotal()
    ensures TotalPreorder(NearerFirst)
  {
  }

  /** `distinctBy { it.id }.sortedBy { it.distanceMeters ?: Int.MAX_VALUE }`. */
  function ByDistance(s: seq<Place>): seq<Place>
  {
    SortBy(DistinctById(s), NearerFirst)
  }

  predicate AtKey(d: Int32, p: Place) {
    DistanceKey(p) == d
  }

  /** The places of `s` at distance key `d`, in order. */
  function AtDistance(s: seq<Place>, d: Int32): seq<Place> {
    Filter(s, p => AtKey(d, p))
  }

  /** The results have unique ids, the first place of each id, and are
      ordered by distance with absent distances last; places at the same
      distance keep the order of their first occurrence. */
  lemma ByDistanceProperties(s: seq<Place>)
    ensures var r := ByDistance(s);
      && UniqueIds(r)
      && IdSet(r) == IdSet(s)
      && multiset(r) == multiset(DistinctById(s))
      && SortedBy(r, NearerFirst)
      && (forall i :: 0 <= i < |r| && r[i].distanceMeters.None? ==>
            forall j :: i < j < |r| ==> DistanceKey(r[j]) == IntMaxValue)
      && (forall d: Int32 :: AtDistance(r, d) == AtDistance(DistinctById(s), d))
  {
    var u := DistinctById(s);
    var r := ByDistance(s);
    SortPermutes(u, NearerFirst);
    NearerFirstTotal();
    SortSorted(u, NearerFirst);
    SubMultisetUniqueIds(r, u);
    assert IdSet(r) == IdSet(u) by {
      forall x | x in IdSet(r) ensures x in IdSet(u) {
        var q :| q in r && q.id == x;
        assert q in multiset(u);
      }
      forall x | x in IdSet(u) ensures x in IdSet(r) {
        var q :| q in u && q.id == x;
        assert q in multiset(r);
      }
    }
    forall d: Int32 ensures AtDistance(r, d) == AtDistance(u, d) {
      SameKeySorted(u, d);
      SortKeepsSortedPart(u, NearerFirst, p => AtKey(d, p));
    }
  }

  /** Places with the same distance key rank equal, so any selection of them
      is sorted. */
  lemma SameKeySorted(u: seq<Place>, d: Int32)
    ensures SortedBy(Filter(u, p => AtKey(d, p)), NearerFirst)
  {
    var f := Filter(u, p => AtKey(d, p));
    forall i, j | 0 <= i < j < |f| ensures NearerFirst(f[i], f[j]) {
      assert f[i] in f && f[j] in f;
    }
  }

  // ---------------------------------------------------------------------
  // The two searches
  // ---------------------------------------------------------------------

  /** The parameters of one call of the Kakao API. */
  datatype Request =
    | CategoryRequest(categoryGroupCode: string, x: real, y: real, radius: Int32, size: Int32, sort: string)
    | KeywordRequest(query: string, x: real, y: real, radius: Int32, size: Int32, sort: string)

  /** The places the calls for `codes` return, in call order; the first call
      that throws ends the search with its exception. */
  function Collected(codes: seq<string>, centerLat: real, centerLng: real, radius: Int32, size: Int32,
                     fetch: Request -> Attempt<seq<PlaceDoc>>,
                     parseReal: string -> Option<real>, parseInt: string -> Option<Int32>)
    : Attempt<seq<Place>>
  {
    if codes == [] then Done([])
    else
      match Collected(codes[..|codes| - 1], centerLat, centerLng, radius, size, fetch, parseReal, parseInt)
      case Thrown(e) => Thrown(e)
      case Done(out) =>
        match fetch(CategoryRequest(codes[|codes| - 1], centerLng, centerLat, radius, size, "distance"))
        case Thrown(e) => Thrown(e)
        case Done(docs) => Done(out + ToPlaces(docs, parseReal, parseInt))
  }

  /** What `searchByCategories` returns: nothing before `init` or for no
      categories, else the first exception of a call or the collected
      places, deduplicated and ordered by distance. */
  function CategorySearch(apiReady: bool, centerLat: real, centerLng: real, categories: CategorySet,
                          radiusMeters: Int32, size: Int32,
                          fetch: Request -> Attempt<seq<PlaceDoc>>,
                          parseReal: string -> Option<real>, parseInt: string -> Option<Int32>)
    : Attempt<seq<Place>>
  {
    if !apiReady || categories == [] then Done([])
    else
      match Collected(CodesOf(categories), centerLat, centerLng, radiusMeters, size, fetch, parseReal, parseInt)
      case Thrown(e) => Thrown(e)
      case Done(out) => Done(ByDistance(out))
  }

  /** `searchByCategories(...)`; `apiReady` is false before `init`. */
  method SearchByCategories(apiReady: bool, centerLat: real, centerLng: real, categories: CategorySet,
                            radiusMeters: Int32, size: Int32,
                            fetch: Request -> Attempt<seq<PlaceDoc>>,
                            parseReal: string -> Option<real>, parseInt: string -> Option<Int32>)
    returns (r: Attempt<seq<Place>>)
    ensures r == CategorySearch(apiReady, centerLat, centerLng, categories, radiusMeters, size, fetch, parseReal, parseInt)
  {
    if !apiReady {
      return Done([]);
    }
    var codes := CategoryCodesFor(categories);
    NoCodesOnlyForEmpty(categories);
    if |codes| == 0 {
      return Done([]);
    }
    var out: seq<Place> := [];
    for i := 0 to |codes|
      invariant Collected(codes[..i], centerLat, centerLng, radiusMeters, size, fetch, parseReal, parseInt) == Done(out)
    {
      assert codes[..i + 1][..i] == codes[..i];
      var resp := fetch(CategoryRequest(codes[i], centerLng, centerLat, radiusMeters, size, "distance"));
      if resp.Thrown? {
        CollectedThrown(codes, i + 1, centerLat, centerLng, radiusMeters, size, fetch, parseReal, parseInt);
        return Thrown(resp.message);
      }
      out := out + ToPlaces(resp.value, parseReal, parseInt);
    }
    assert codes[..|codes|] == codes;
    r := Done(ByDistance(out));
  }

  /** A call that throws ends the search with its exception. */
  lemma {:induction false} CollectedThrown(codes: seq<string>, i: nat, centerLat: real, centerLng: real,
                                           radius: Int32, size: Int32,
                                           fetch: Request -> Attempt<seq<PlaceDoc>>,
                                           parseReal: string -> Option<real>, parseInt: string -> Option<Int32>)
    requires 0 < i <= |codes|
    requires Collected(codes[..i], centerLat, centerLng, radius, size, fetch, parseReal, parseInt).Thrown?
    ensures Collected(codes, centerLat, centerLng, radius, size, fetch, parseReal, parseInt)
         == Collected(codes[..i], centerLat, centerLng, radius, size, fetch, parseReal, parseInt)
    decreases |codes| - i
  {
    if i < |codes| {
      assert codes[..i + 1][..i] == codes[..i];
      CollectedThrown(codes, i + 1, centerLat, centerLng, radius, size, fetch, parseReal, parseInt);
    } else {
      assert codes[..i] == codes;
    }
  }

  /** `searchByKeyword(...)`. */
  function SearchByKeyword(apiReady: bool, centerLat: real, centerLng: real, keyword: string,
                           radiusMeters: Int32, size: Int32,
                           fetch: Request -> Attempt<seq<PlaceDoc>>,
                           parseReal: string -> Option<real>, parseInt: string -> Option<Int32>)
    : (r: Attempt<seq<Place>>)
    ensures !apiReady ==> r == Done([])
    ensures apiReady ==>
      (r.Thrown? <==> fetch(KeywordRequest(keyword, centerLng, centerLat, radiusMeters, size, "accuracy")).Thrown?)
    ensures apiReady && fetch(KeywordRequest(keyword, centerLng, centerLat, radiusMeters, size, "accuracy")).Done? ==>
      var docs := fetch(KeywordRequest(keyword, centerLng, centerLat, radiusMeters, size, "accuracy")).value;
      && UniqueIds(r.value)
      && IdSet(r.value) == IdSet(ToPlaces(docs, parseReal, parseInt))
      && SortedBy(r.value, NearerFirst)
  {
    if !apiReady then Done([])
    else
      match fetch(KeywordRequest(keyword, centerLng, centerLat, radiusMeters, size, "accuracy"))
      case Thrown(e) => Thrown(e)
      case Done(docs) =>
        var places := ToPlaces(docs, parseReal, parseInt);
        ByDistanceProperties(places);
        Done(ByDistance(places))
  }

  /** A successful category search has unique ids and is ordered by
      distance; its ids are those of all documents the calls returned. */
  lemma CategorySearchResults(apiReady: bool, centerLat: real, centerLng: real, categories: CategorySet,
                              radius: Int32, size: Int32,
                              fetch: Request -> Attempt<seq<PlaceDoc>>,
                              parseReal: string -> Option<real>, parseInt: string -> Option<Int32>)
    requires apiReady && categories != []
    requires Collected(CodesOf(categories), centerLat, centerLng, radius, size, fetch, parseReal, parseInt).Done?
    ensures var out := Collected(CodesOf(categories), centerLat, centerLng, radius, size, fetch, parseReal, parseInt).value;
      var r := CategorySearch(apiReady, centerLat, centerLng, categories, radius, size, fetch, parseReal, parseInt);
      && r.Done?
      && UniqueIds(r.value) && SortedBy(r.value, NearerFirst)
      && IdSet(r.value) == IdSet(out)
      && forall p :: p in r.value ==> p.category != HEALING && p.category != EXPERIENCE
  {
    var codes := CodesOf(categories);
    var out := Collected(codes, centerLat, centerLng, radius, size, fetch, parseReal, parseInt).value;
    ByDistanceProperties(out);
    CollectedCategories(codes, centerLat, centerLng, radius, size, fetch, parseReal, parseInt);
    forall p | p in ByDistance(out) ensures p.category != HEALING && p.category != EXPERIENCE {
      SortPermutes(DistinctById(out), NearerFirst);
      assert p in multiset(DistinctById(out));
    }
  }

  lemma {:induction false} CollectedCategories(codes: seq<string>, centerLat: real, centerLng: real,
                                               radius: Int32, size: Int32,
                                               fetch: Request -> Attempt<seq<PlaceDoc>>,
                                               parseReal: string -> Option<real>, parseInt: string -> Option<Int32>)
    requires Collected(codes, centerLat, centerLng, radius, size, fetch, parseReal, parseInt).Done?
    ensures forall p :: p in Collected(codes, centerLat, centerLng, radius, size, fetch, parseReal, parseInt).value ==>
              p.category != HEALING && p.category != EXPERIENCE
  {
    if codes != [] {
      var init := codes[..|codes| - 1];
      CollectedCategories(init, centerLat, centerLng, radius, size, fetch, parseReal, parseInt);
      var docs := fetch(CategoryRequest(codes[|codes| - 1], centerLng, centerLat, radius, size, "distance")).value;
      ToPlacesCategories(docs, parseReal, parseInt);
    }
  }
}
