/** The domain types of the recommender (TravelModels.kt) and the identity
    rule that every list of places shares: a place is identified by its id. */
module TravelModels {
  import opened Wrappers
  import opened Seqs

  /** Kotlin `Int`. */
  type Int32 = x: int | -0x8000_0000 <= x < 0x8000_0000
  const IntMaxValue: Int32 := 0x7fff_ffff

  datatype Category = FOOD | CAFE | PHOTO | CULTURE | SHOPPING | HEALING | EXPERIENCE | STAY

  /** The enum constant's `name`. */
  function CategoryName(c: Category): string {
    match c
    case FOOD => "FOOD"
    case CAFE => "CAFE"
    case PHOTO => "PHOTO"
    case CULTURE => "CULTURE"
    case SHOPPING => "SHOPPING"
    case HEALING => "HEALING"
    case EXPERIENCE => "EXPERIENCE"
    case STAY => "STAY"
  }

  /** The constants in declaration order. */
  const AllCategories: seq<Category> :=
    [FOOD, CAFE, PHOTO, CULTURE, SHOPPING, HEALING, EXPERIENCE, STAY]

  /** A Kotlin `Set<Category>`: a `LinkedHashSet`, so it iterates in insertion
      order, and that order decides the order of searches and of pinning. */
  type CategorySet = s: seq<Category> | NoDup(s) witness []

  lemma AllCategoriesComplete()
    ensures forall c: Category :: c in AllCategories
  {
    forall c: Category ensures c in AllCategories {
      var i := match c
        case FOOD => 0 case CAFE => 1 case PHOTO => 2 case CULTURE => 3
        case SHOPPING => 4 case HEALING => 5 case EXPERIENCE => 6 case STAY => 7;
      assert AllCategories[i] == c;
    }
  }

  /** `Category.defaults()`: every category. */
  function Defaults(): (r: CategorySet)
    ensures |r| == 8
    ensures forall c: Category :: c in r
  {
    assert NoDup(AllCategories);
    AllCategoriesComplete();
    AllCategories
  }

  datatype TripDuration = HALF_DAY | DAY | ONE_NIGHT | TWO_NIGHTS
  datatype Companion = SOLO | FRIENDS | COUPLE | FAMILY

  datatype FilterState = FilterState(
    region: string,
    categories: CategorySet,
    duration: TripDuration,
    budgetPerPerson: Int32,
    companion: Companion)

  /** `FilterState()` with every parameter left at its default. */
  function DefaultFilter(): (f: FilterState)
    ensures f.region == [] && f.categories == []
    ensures f.duration == DAY && f.budgetPerPerson == 30000 && f.companion == SOLO
  {
    FilterState("", [], DAY, 30000, SOLO)
  }

  datatype WeatherInfo = WeatherInfo(tempC: real, condition: string, icon: Option<string>)

  /** A place; coordinates and scores are exact reals rather than doubles. */
  datatype Place = Place(
    id: string,
    name: string,
    category: Category,
    lat: real,
    lng: real,
    distanceMeters: Option<Int32>,
    rating: Option<real>,
    address: Option<string>,
    score: Option<real>)

  /** `Place(id, name, category, lat, lng)` with the optional fields left at
      their defaults. */
  function NewPlace(id: string, name: string, category: Category, lat: real, lng: real): (p: Place)
    ensures p.id == id && p.name == name && p.category == category && p.lat == lat && p.lng == lng
    ensures p.distanceMeters == None && p.rating == None && p.address == None && p.score == None
  {
    Place(id, name, category, lat, lng, None, None, None, None)
  }

  datatype RecommendationResult = RecommendationResult(
    places: seq<Place>,
    weather: Option<WeatherInfo>,
    gptReasons: map<string, string>,
    aiTopIds: set<string>,
    topPicks: seq<Place>)

  /** `RecommendationResult(places, weather)` with the other fields at their
      defaults. */
  function NewResult(places: seq<Place>, weather: Option<WeatherInfo>): (r: RecommendationResult)
    ensures r.places == places && r.weather == weather
    ensures r.gptReasons == map[] && r.aiTopIds == {} && r.topPicks == []
  {
    RecommendationResult(places, weather, map[], {}, [])
  }

  // ---------------------------------------------------------------------
  // Identity by id
  // ---------------------------------------------------------------------

  function IdSet(s: seq<Place>): set<string> {
    set p | p in s :: p.id
  }

  /** No two places share an id. */
  predicate UniqueIds(s: seq<Place>) {
    forall i, j :: 0 <= i < j < |s| ==> s[i].id != s[j].id
  }

  lemma IdSetSnoc(s: seq<Place>, p: Place)
    ensures IdSet(s + [p]) == IdSet(s) + {p.id}
  {
    forall x | x in IdSet(s + [p]) ensures x in IdSet(s) + {p.id} {
      var q :| q in s + [p] && q.id == x;
      if q != p { assert q in s; }
    }
    forall x | x in IdSet(s) ensures x in IdSet(s + [p]) {
      var q :| q in s && q.id == x;
      assert q in s + [p];
    }
    assert p in s + [p];
  }

  /** `indexOfFirst { it.id == id }` as an option: the first place with the id. */
  function IndexOfId(s: seq<Place>, id: string): (r: Option<nat>)
    ensures r.None? <==> id !in IdSet(s)
    ensures r.Some? ==> r.value < |s| && s[r.value].id == id
                        && forall k :: 0 <= k < r.value ==> s[k].id != id
  {
    if s == [] then None
    else if s[0].id == id then Some(0)
    else
      match IndexOfId(s[1..], id)
      case None =>
        assert forall p :: p in s ==> p == s[0] || p in s[1..];
        None
      case Some(i) =>
        assert s[1..][i] in s;
        Some(i + 1)
  }

  /** Kotlin `distinctBy { it.id }`: the first place with each id, in order. */
  function DistinctById(s: seq<Place>): (r: seq<Place>)
    ensures UniqueIds(r)
    ensures IdSet(r) == IdSet(s)
    ensures forall p :: p in r ==> p in s
  {
    if s == [] then []
    else
      var init := s[..|s| - 1];
      var last := s[|s| - 1];
      var r := DistinctById(init);
      IdSetSnoc(r, last);
      assert s == init + [last];
      IdSetSnoc(init, last);
      if last.id in IdSet(r) then r
      else
        assert forall i :: 0 <= i < |r| ==> r[i] in r;
        r + [last]
  }

  /** First-seen wins: every kept place is the first one in `s` with its id. */
  lemma {:induction false} DistinctKeepsFirst(s: seq<Place>, i: nat)
    requires i < |DistinctById(s)|
    ensures exists j :: 0 <= j < |s| && s[j] == DistinctById(s)[i]
                        && forall k :: 0 <= k < j ==> s[k].id != s[j].id
  {
    var init := s[..|s| - 1];
    var last := s[|s| - 1];
    var r := DistinctById(init);
    var d := DistinctById(s);
    assert d == if last.id in IdSet(r) then r else r + [last];
    if i < |r| {
      DistinctKeepsFirst(init, i);
      var j :| 0 <= j < |init| && init[j] == r[i] && forall k :: 0 <= k < j ==> init[k].id != init[j].id;
      assert s[j] == init[j];
      assert d[i] == r[i];
      assert forall k :: 0 <= k < j ==> s[k] == init[k];
    } else {
      var j := |s| - 1;
      assert d[i] == s[j];
      assert last.id !in IdSet(init);
      forall k | 0 <= k < j ensures s[k].id != s[j].id {
        assert s[k] == init[k];
        assert init[k] in init;
      }
    }
  }

  /** Deduplicating a list whose ids are already unique changes nothing. */
  lemma {:induction false} DistinctOfUnique(s: seq<Place>)
    requires UniqueIds(s)
    ensures DistinctById(s) == s
  {
    if s != [] {
      var n := |s| - 1;
      var init := s[..n];
      var last := s[n];
      assert s == init + [last];
      assert forall i :: 0 <= i < n ==> init[i] == s[i];
      assert UniqueIds(init);
      DistinctOfUnique(init);
      var r := DistinctById(init);
      assert last.id !in IdSet(init) by {
        forall q | q in init ensures q.id != last.id {
          var k :| 0 <= k < n && init[k] == q;
          assert s[k].id != s[n].id;
        }
      }
      assert DistinctById(s) == r + [last];
    }
  }

  /** In a list with unique ids, different places have different ids. */
  lemma DistinctPlacesDistinctIds(s: seq<Place>, p: Place, q: Place)
    requires UniqueIds(s) && p in s && q in s && p != q
    ensures p.id != q.id
  {
    var i :| 0 <= i < |s| && s[i] == p;
    var j :| 0 <= j < |s| && s[j] == q;
    assert i != j;
  }

  /** Unique ids imply no duplicates. */
  lemma UniqueIdsNoDup(s: seq<Place>)
    requires UniqueIds(s)
    ensures NoDup(s)
  {
  }

  /** A sub-multiset of a list with unique ids has unique ids. */
  lemma SubMultisetUniqueIds(s: seq<Place>, t: seq<Place>)
    requires UniqueIds(t) && multiset(s) <= multiset(t)
    ensures UniqueIds(s)
  {
    UniqueIdsNoDup(t);
    SubMultisetNoDup(s, t);
    forall i, j | 0 <= i < j < |s| ensures s[i].id != s[j].id {
      assert s[i] in multiset(t) && s[j] in multiset(t);
      DistinctPlacesDistinctIds(t, s[i], s[j]);
    }
  }
}
