/** The result screen's state holder (capstone-backup ResultViewModel.kt):
    the places of a recommendation, the visible part after the search query
    and the sort mode, and a bounded selection of place ids. */
module ResultUi {
  import opened Wrappers
  import opened Seqs
  import opened Strings
  import opened TravelModels
  import opened KakaoLocal

  datatype SortMode = DEFAULT | NAME | DISTANCE | RATING

  /** At most this many places can be selected. */
  const MaxSelection: int := 5

  datatype ResultUiState = ResultUiState(
    weather: Option<WeatherInfo>,
    allPlaces: seq<Place>,
    visiblePlaces: seq<Place>,
    selectedIds: set<string>,
    sortMode: SortMode,
    query: string,
    maxSelection: int)

  /** `ResultUiState()` with every parameter left at its default. */
  function InitialState(): (s: ResultUiState)
    ensures s.weather == None && s.allPlaces == [] && s.visiblePlaces == []
    ensures s.selectedIds == {} && s.sortMode == DEFAULT && s.query == ""
    ensures s.maxSelection == MaxSelection
  {
    ResultUiState(None, [], [], {}, DEFAULT, "", MaxSelection)
  }

  // ---------------------------------------------------------------------
  // `recomputeVisible`
  // ---------------------------------------------------------------------

  /** The lowercased name, address (absent reads as "") or category name
      of `p` contains the needle. */
  predicate Matches(p: Place, needle: string) {
    || Contains(Lowercase(p.name), needle)
    || Contains(Lowercase(p.address.GetOr("")), needle)
    || Contains(Lowercase(CategoryName(p.category)), needle)
  }

  /** The search step: a blank query keeps every place, any other keeps the
      places that match the trimmed, lowercased query, in order. */
  function Searched(all: seq<Place>, query: string): (r: seq<Place>)
    ensures IsBlank(query) ==> r == all
    ensures forall p :: p in r <==> p in all && (IsBlank(query) || Matches(p, Lowercase(Trim(query))))
    ensures multiset(r) <= multiset(all)
  {
    if IsBlank(query) then all
    else
      var needle := Lowercase(Trim(query));
      FilterSubMultiset(all, (p: Place) => Matches(p, needle));
      Filter(all, (p: Place) => Matches(p, needle))
  }

  /** `sortedBy { it.name.lowercase() }`. */
  predicate NameFirst(a: Place, b: Place) {
    LexLe(Lowercase(a.name), Lowercase(b.name))
  }

  /** `sortedByDescending { it.rating ?: Double.NEGATIVE_INFINITY }`: a
      rating before no rating, higher ratings first. */
  predicate HigherRatedFirst(a: Place, b: Place) {
    match (a.rating, b.rating)
    case (_, None) => true
    case (None, Some(_)) => false
    case (Some(x), Some(y)) => x >= y
  }

  lemma NameFirstTotal()
    ensures TotalPreorder(NameFirst)
  {
    forall a: Place, b: Place ensures NameFirst(a, b) || NameFirst(b, a) {
      LexLeTotal(Lowercase(a.name), Lowercase(b.name));
    }
    forall a: Place, b: Place, c: Place | NameFirst(a, b) && NameFirst(b, c) ensures NameFirst(a, c) {
      LexLeTrans(Lowercase(a.name), Lowercase(b.name), Lowercase(c.name));
    }
  }

  lemma HigherRatedFirstTotal()
    ensures TotalPreorder(HigherRatedFirst)
  {
  }

  /** The order of one sort mode; `DEFAULT` keeps the order of the list. */
  function Order(mode: SortMode): (Place, Place) -> bool
    requires mode != DEFAULT
  {
    match mode
    case NAME => NameFirst
    case DISTANCE => NearerFirst
    case RATING => HigherRatedFirst
  }

  /** The sort step. */
  function Sorted(s: seq<Place>, mode: SortMode): (r: seq<Place>)
    ensures mode == DEFAULT ==> r == s
  {
    if mode == DEFAULT then s else SortBy(s, Order(mode))
  }

  /** `visiblePlaces`: the search, then the sort. */
  function Visible(all: seq<Place>, query: string, mode: SortMode): seq<Place> {
    Sorted(Searched(all, query), mode)
  }

  /** `recomputeVisible()`: only `visiblePlaces` changes. */
  function RecomputeVisible(s: ResultUiState): (r: ResultUiState)
    ensures r == s.(visiblePlaces := r.visiblePlaces)
    ensures r.visiblePlaces == Visible(s.allPlaces, s.query, s.sortMode)
  {
    s.(visiblePlaces := Visible(s.allPlaces, s.query, s.sortMode))
  }

  /** A stable sort by a total preorder: a sorted permutation in which
      places that rank equal keep their order. */
  lemma StableSort(s: seq<Place>, le: (Place, Place) -> bool)
    requires TotalPreorder(le)
    ensures multiset(SortBy(s, le)) == multiset(s)
    ensures SortedBy(SortBy(s, le), le)
    ensures forall x :: Ties(SortBy(s, le), le, x) == Ties(s, le, x)
  {
    SortPermutes(s, le);
    SortSorted(s, le);
    SortKeepsTies(s, le);
  }

  /** Each sort mode orders the visible places by its key and is a
      permutation of the search result; places that rank equal (the same
      lowercased name, the same distance key, the same rating) keep their
      order. */
  lemma SortProperties(s: seq<Place>, mode: SortMode)
    ensures multiset(Sorted(s, mode)) == multiset(s)
    ensures mode == NAME ==> SortedBy(Sorted(s, mode), NameFirst)
    ensures mode == DISTANCE ==> SortedBy(Sorted(s, mode), NearerFirst)
    ensures mode == RATING ==> SortedBy(Sorted(s, mode), HigherRatedFirst)
    ensures mode != DEFAULT ==> forall x :: Ties(Sorted(s, mode), Order(mode), x) == Ties(s, Order(mode), x)
  {
    match mode
    case DEFAULT =>
    case NAME =>
      NameFirstTotal();
      StableSort(s, NameFirst);
    case DISTANCE =>
      NearerFirstTotal();
      StableSort(s, NearerFirst);
    case RATING =>
      HigherRatedFirstTotal();
      StableSort(s, HigherRatedFirst);
  }

  /** Places without a distance come after every place with one below
      `Int.MAX_VALUE`; places without a rating come after every rated one. */
  lemma AbsentLast(r: seq<Place>, i: nat, j: nat)
    requires i < j < |r|
    ensures SortedBy(r, NearerFirst) && r[i].distanceMeters.None? ==> DistanceKey(r[j]) == IntMaxValue
    ensures SortedBy(r, HigherRatedFirst) && r[i].rating.None? ==> r[j].rating.None?
  {
  }

  /** `visiblePlaces` is a rearrangement of some of `allPlaces`: exactly the
      places that pass the search, each as often as in `allPlaces`. */
  lemma VisibleSubPermutation(all: seq<Place>, query: string, mode: SortMode)
    ensures var v := Visible(all, query, mode);
      && multiset(v) <= multiset(all)
      && multiset(v) == multiset(Searched(all, query))
      && (forall p :: p in v <==> p in all && (IsBlank(query) || Matches(p, Lowercase(Trim(query)))))
  {
    var f := Searched(all, query);
    SortProperties(f, mode);
    assert forall p :: p in Visible(all, query, mode) <==> p in multiset(f);
  }

  /** A blank query shows every place; the default order is the list's. */
  lemma BlankQueryShowsAll(all: seq<Place>, query: string, mode: SortMode)
    requires IsBlank(query)
    ensures multiset(Visible(all, query, mode)) == multiset(all)
    ensures mode == DEFAULT ==> Visible(all, query, mode) == all
  {
    SortProperties(all, mode);
  }

  // ---------------------------------------------------------------------
  // Selection
  // ---------------------------------------------------------------------

  /** The kept selection of `setResult`/`setAllPlaces`: the selected ids
      that some place of the new list has. */
  function KeptIds(selected: set<string>, places: seq<Place>): (r: set<string>)
    ensures forall id :: id in r <==> id in selected && exists p :: p in places && p.id == id
    ensures |r| <= |selected|
  {
    var r := set id | id in selected && id in IdSet(places);
    SubsetCount(r, selected);
    r
  }

  lemma SubsetCount<T>(a: set<T>, b: set<T>)
    requires a <= b
    ensures |a| <= |b|
  {
    assert b == a + (b - a);
  }

  /** `toggleSelect`: a selected id is removed, an unselected one added
      while fewer than `max` are selected; otherwise nothing changes. */
  function Toggled(selected: set<string>, id: string, max: int): (r: set<string>)
    ensures id in selected ==> r == selected - {id}
    ensures id !in selected && |selected| < max ==> r == selected + {id}
    ensures id !in selected && |selected| >= max ==> r == selected
  {
    if id in selected then selected - {id}
    else if |selected| >= max then selected
    else selected + {id}
  }

  /** The toggle never takes the selection over the bound, and it changes
      the membership of its own id only. */
  lemma ToggledBounded(selected: set<string>, id: string, max: int)
    requires |selected| <= max
    ensures |Toggled(selected, id, max)| <= max
    ensures forall x :: x != id ==> (x in Toggled(selected, id, max) <==> x in selected)
  {
    if id in selected {
      assert |selected - {id}| == |selected| - 1;
    } else if |selected| < max {
      assert |selected + {id}| == |selected| + 1;
    }
  }

  /** Toggling an id twice restores the selection, unless the first toggle
      was refused at the bound. */
  lemma ToggledTwice(selected: set<string>, id: string, max: int)
    requires id in selected || |selected| < max
    requires |selected| <= max
    ensures Toggled(Toggled(selected, id, max), id, max) == selected
  {
    if id in selected {
      assert |selected - {id}| == |selected| - 1;
    }
  }

  /** `selectedPlaces`: the places whose id is selected, in list order. */
  function SelectedPlaces(s: ResultUiState): (r: seq<Place>)
    ensures forall p :: p in r <==> p in s.allPlaces && p.id in s.selectedIds
    ensures r == Filter(s.allPlaces, (p: Place) => p.id in s.selectedIds)
  {
    Filter(s.allPlaces, (p: Place) => p.id in s.selectedIds)
  }

  /** Distinct ids in a list are as many as its places. */
  /** The last place of a list with unique ids brings a new id. */
  lemma LastIdFresh(s: seq<Place>)
    requires UniqueIds(s) && s != []
    ensures UniqueIds(s[..|s| - 1]) && s[|s| - 1].id !in IdSet(s[..|s| - 1])
  {
    var init := s[..|s| - 1];
    forall q | q in init ensures q.id != s[|s| - 1].id {
      var k :| 0 <= k < |init| && init[k] == q;
      assert s[k] == q;
    }
  }

  lemma {:induction false} UniqueIdsCount(s: seq<Place>)
    requires UniqueIds(s)
    ensures |IdSet(s)| == |s|
  {
    if s != [] {
      var init := s[..|s| - 1];
      var last := s[|s| - 1];
      assert s == init + [last];
      LastIdFresh(s);
      UniqueIdsCount(init);
      IdSetSnoc(init, last);
    }
  }


  /** Over a list of unique ids the selected places are at most as many as
      the selected ids. */
  lemma SelectedPlacesBounded(s: ResultUiState)
    requires UniqueIds(s.allPlaces)
    ensures |SelectedPlaces(s)| <= |s.selectedIds|
  {
    var r := SelectedPlaces(s);
    FilterSubMultiset(s.allPlaces, (p: Place) => p.id in s.selectedIds);
    SubMultisetUniqueIds(r, s.allPlaces);
    UniqueIdsCount(r);
    SubsetCount(IdSet(r), s.selectedIds);
  }

  // ---------------------------------------------------------------------
  // The view model
  // ---------------------------------------------------------------------

  class ResultViewModel {
    /** `_ui.value`. */
    var ui: ResultUiState

    /** The selection stays within its bound and `visiblePlaces` is always
        recomputed from the list, the query and the sort mode. */
    predicate Valid()
      reads this
    {
      && ui.maxSelection == MaxSelection
      && |ui.selectedIds| <= ui.maxSelection
      && ui.visiblePlaces == Visible(ui.allPlaces, ui.query, ui.sortMode)
    }

    constructor()
      ensures Valid() && ui == InitialState()
    {
      ui := InitialState();
    }

    /** `setResult(result)`: the result's weather and places, the selection
        kept where the new places have the id. */
    method SetResult(result: RecommendationResult)
      requires Valid()
      modifies this
      ensures Valid()
      ensures ui == RecomputeVisible(old(ui).(weather := result.weather, allPlaces := result.places,
                                              selectedIds := KeptIds(old(ui.selectedIds), result.places)))
    {
      var keepIds := KeptIds(ui.selectedIds, result.places);
      ui := RecomputeVisible(ui.(weather := result.weather, allPlaces := result.places, selectedIds := keepIds));
    }

    /** `setAllPlaces(list)`: as `setResult` but the weather stays. */
    method SetAllPlaces(list: seq<Place>)
      requires Valid()
      modifies this
      ensures Valid()
      ensures ui == RecomputeVisible(old(ui).(allPlaces := list, selectedIds := KeptIds(old(ui.selectedIds), list)))
    {
      var keepIds := KeptIds(ui.selectedIds, list);
      ui := RecomputeVisible(ui.(allPlaces := list, selectedIds := keepIds));
    }

    /** `setQuery(q)`: the same query changes nothing. */
    method SetQuery(q: string)
      requires Valid()
      modifies this
      ensures Valid()
      ensures q == old(ui.query) ==> ui == old(ui)
      ensures ui == RecomputeVisible(old(ui).(query := q))
    {
      if q == ui.query {
        return;
      }
      ui := RecomputeVisible(ui.(query := q));
    }

    /** `setSortMode(mode)`: the same mode changes nothing. */
    method SetSortMode(mode: SortMode)
      requires Valid()
      modifies this
      ensures Valid()
      ensures mode == old(ui.sortMode) ==> ui == old(ui)
      ensures ui == RecomputeVisible(old(ui).(sortMode := mode))
    {
      if mode == ui.sortMode {
        return;
      }
      ui := RecomputeVisible(ui.(sortMode := mode));
    }

    /** `toggleSelect(p)` on a copy of the selected ids. */
    method ToggleSelect(p: Place)
      requires Valid()
      modifies this
      ensures Valid()
      ensures ui == old(ui).(selectedIds := Toggled(old(ui.selectedIds), p.id, old(ui.maxSelection)))
    {
      ToggledBounded(ui.selectedIds, p.id, ui.maxSelection);
      var cur := ui.selectedIds;
      if p.id in cur {
        cur := cur - {p.id};
      } else {
        if |cur| >= ui.maxSelection {
          return;
        }
        cur := cur + {p.id};
      }
      ui := RecomputeVisible(ui.(selectedIds := cur));
    }

    /** `clearSelected()`. */
    method ClearSelected()
      requires Valid()
      modifies this
      ensures Valid()
      ensures ui == old(ui).(selectedIds := {})
    {
      ui := RecomputeVisible(ui.(selectedIds := {}));
    }
  }
}
