/** The earlier main screen's state holder (capstone-backup
    MainViewModel.kt): the filter, the list of places the user picked, and
    the recommendation it builds. */
module BackupMainUi {
  import opened Wrappers
  import opened Seqs
  import opened Strings
  import opened TravelModels

  datatype MainUiState = MainUiState(filter: FilterState, loading: bool, error: Option<string>)

  /** `MainUiState()` with every parameter left at its default. */
  function InitialState(): (s: MainUiState)
    ensures s.filter == DefaultFilter() && !s.loading && s.error == None
  {
    MainUiState(DefaultFilter(), false, None)
  }

  /** `togglePlaceSelection(place)`: the first selected place with the same
      id is removed; with none, `place` is appended. */
  function PlaceToggled(selected: seq<Place>, place: Place): (r: seq<Place>)
  {
    match IndexOfId(selected, place.id)
    case Some(i) => selected[..i] + selected[i + 1..]
    case None => selected + [place]
  }

  /** Taking out the place at `i` keeps the ids unique and every other
      place. */
  lemma RemoveAt(s: seq<Place>, i: nat)
    requires UniqueIds(s) && i < |s|
    ensures var r := s[..i] + s[i + 1..];
      && UniqueIds(r)
      && (forall p :: p in r <==> p in s && p.id != s[i].id)
  {
    var r := s[..i] + s[i + 1..];
    forall a, b | 0 <= a < b < |r| ensures r[a].id != r[b].id {
      var a' := if a < i then a else a + 1;
      var b' := if b < i then b else b + 1;
      assert r[a] == s[a'] && r[b] == s[b'];
    }
    forall p ensures p in r <==> p in s && p.id != s[i].id {
      if p in r {
        var k :| 0 <= k < |r| && r[k] == p;
        var k' := if k < i then k else k + 1;
        assert p == s[k'] && k' != i;
      }
      if p in s && p.id != s[i].id {
        var k :| 0 <= k < |s| && s[k] == p;
        if k < i { assert r[k] == p; } else { assert r[k - 1] == p; }
      }
    }
  }

  /** Appending a place with a new id keeps the ids unique. */
  lemma AppendNew(s: seq<Place>, place: Place)
    requires UniqueIds(s) && place.id !in IdSet(s)
    ensures UniqueIds(s + [place])
  {
    var r := s + [place];
    forall i, j | 0 <= i < j < |r| ensures r[i].id != r[j].id {
      if j == |s| {
        assert r[i] in s;
      }
    }
  }

  /** Over a selection with unique ids, the toggle flips the membership of
      the place's id alone and keeps the ids unique and the other places. */
  lemma PlaceToggledProperties(selected: seq<Place>, place: Place)
    requires UniqueIds(selected)
    ensures var r := PlaceToggled(selected, place);
      && UniqueIds(r)
      && (place.id in IdSet(r) <==> place.id !in IdSet(selected))
      && (forall p: Place :: p.id != place.id ==> (p in r <==> p in selected))
      && (place.id !in IdSet(selected) ==> r == selected + [place])
      && (place.id in IdSet(selected) ==> |r| == |selected| - 1)
  {
    var r := PlaceToggled(selected, place);
    match IndexOfId(selected, place.id)
    case None =>
      IdSetSnoc(selected, place);
      AppendNew(selected, place);
    case Some(i) =>
      RemoveAt(selected, i);
      assert place.id !in IdSet(r);
  }

  /** Toggling a place that is not selected twice restores the selection. */
  lemma PlaceToggledTwice(selected: seq<Place>, place: Place)
    requires place.id !in IdSet(selected)
    ensures PlaceToggled(PlaceToggled(selected, place), place) == selected
  {
    var r := selected + [place];
    assert PlaceToggled(selected, place) == r;
    assert r[|selected|] in r;
    forall j | 0 <= j < |selected| ensures r[j].id != place.id {
      assert r[j] == selected[j] && selected[j] in selected;
    }
    assert IndexOfId(r, place.id) == Some(|selected|);
    assert r[..|selected|] == selected;
  }

  /** `f.region.ifBlank { "Seoul" }`: the region whose weather is asked. */
  function WeatherRegion(region: string): (r: string)
    ensures !IsBlank(r)
    ensures IsBlank(region) ==> r == "Seoul"
    ensures !IsBlank(region) ==> r == region
  {
    assert !IsWhitespace("Seoul"[0]);
    IfBlank(region, "Seoul")
  }

  /** The `try` block of `buildRecommendation`: the weather, then
      `recommend` with the filter as it is. */
  function RecommendationOutcome(f: FilterState, getWeather: string -> Attempt<Option<WeatherInfo>>,
                                 recommend: (FilterState, Option<WeatherInfo>) -> Attempt<RecommendationResult>)
    : (r: Attempt<RecommendationResult>)
    ensures getWeather(WeatherRegion(f.region)).Thrown? ==> r == Thrown(getWeather(WeatherRegion(f.region)).message)
    ensures getWeather(WeatherRegion(f.region)).Done? ==> r == recommend(f, getWeather(WeatherRegion(f.region)).value)
  {
    match getWeather(WeatherRegion(f.region))
    case Thrown(e) => Thrown(e)
    case Done(weather) => recommend(f, weather)
  }

  class MainViewModel {
    /** `_ui.value`. */
    var ui: MainUiState
    /** `_recommendationResult.value`. */
    var recommendationResult: Option<RecommendationResult>
    /** `_selectedPlaces.value`. */
    var selectedPlaces: seq<Place>

    constructor()
      ensures ui == InitialState() && recommendationResult == None && selectedPlaces == []
    {
      ui := InitialState();
      recommendationResult := None;
      selectedPlaces := [];
    }

    method SetRegion(text: string)
      modifies this
      ensures ui == old(ui).(filter := old(ui.filter).(region := text))
      ensures recommendationResult == old(recommendationResult) && selectedPlaces == old(selectedPlaces)
    {
      ui := ui.(filter := ui.filter.(region := text));
    }

    method ToggleCategory(cat: Category)
      modifies this
      ensures ui == old(ui).(filter := old(ui.filter).(categories := Toggle(old(ui.filter.categories), cat)))
      ensures recommendationResult == old(recommendationResult) && selectedPlaces == old(selectedPlaces)
    {
      var now := ui.filter;
      var next := Toggle(now.categories, cat);
      ui := ui.(filter := now.(categories := next));
    }

    method SetDuration(d: TripDuration)
      modifies this
      ensures ui == old(ui).(filter := old(ui.filter).(duration := d))
      ensures recommendationResult == old(recommendationResult) && selectedPlaces == old(selectedPlaces)
    {
      ui := ui.(filter := ui.filter.(duration := d));
    }

    method SetBudget(value: Int32)
      modifies this
      ensures ui == old(ui).(filter := old(ui.filter).(budgetPerPerson := value))
      ensures recommendationResult == old(recommendationResult) && selectedPlaces == old(selectedPlaces)
    {
      ui := ui.(filter := ui.filter.(budgetPerPerson := value));
    }

    method SetCompanion(c: Companion)
      modifies this
      ensures ui == old(ui).(filter := old(ui.filter).(companion := c))
      ensures recommendationResult == old(recommendationResult) && selectedPlaces == old(selectedPlaces)
    {
      ui := ui.(filter := ui.filter.(companion := c));
    }

    /** `togglePlaceSelection(place)` on a mutable copy: `find` scans for
        the first place with the id, `remove` takes it out, else `add`
        appends. */
    method TogglePlaceSelection(place: Place)
      modifies this
      ensures selectedPlaces == PlaceToggled(old(selectedPlaces), place)
      ensures UniqueIds(old(selectedPlaces)) ==> UniqueIds(selectedPlaces)
      ensures ui == old(ui) && recommendationResult == old(recommendationResult)
    {
      var currentSelected := selectedPlaces;
      var i := 0;
      while i < |currentSelected| && currentSelected[i].id != place.id
        invariant 0 <= i <= |currentSelected|
        invariant forall k :: 0 <= k < i ==> currentSelected[k].id != place.id
      {
        i := i + 1;
      }
      if i < |currentSelected| {
        assert IndexOfId(currentSelected, place.id) == Some(i);
        currentSelected := currentSelected[..i] + currentSelected[i + 1..];
      } else {
        assert place.id !in IdSet(currentSelected) by {
          forall q | q in currentSelected ensures q.id != place.id {
            var k :| 0 <= k < |currentSelected| && currentSelected[k] == q;
          }
        }
        currentSelected := currentSelected + [place];
      }
      if UniqueIds(selectedPlaces) {
        PlaceToggledProperties(selectedPlaces, place);
      }
      selectedPlaces := currentSelected;
    }

    /** `buildRecommendation(onReady)` up to the start of its coroutine:
        the selection is emptied first; loading starts and the error is
        cleared. */
    method BuildRecommendation() returns (f: FilterState)
      modifies this
      ensures f == old(ui.filter)
      ensures selectedPlaces == [] && ui == old(ui).(loading := true, error := None)
      ensures recommendationResult == old(recommendationResult)
    {
      selectedPlaces := [];
      f := ui.filter;
      ui := ui.(loading := true, error := None);
    }

    /** The completion of the `buildRecommendation` coroutine: a result is
        stored, an exception's (nullable) message becomes the error, and
        the `finally` always ends loading. */
    method OnRecommendationFinished(outcome: Attempt<RecommendationResult>)
      modifies this
      ensures !ui.loading && ui.filter == old(ui.filter) && selectedPlaces == old(selectedPlaces)
      ensures outcome.Done? ==> recommendationResult == Some(outcome.value) && ui.error == old(ui.error)
      ensures outcome.Thrown? ==> recommendationResult == old(recommendationResult) && ui.error == outcome.message
    {
      match outcome {
        case Done(rec) =>
          recommendationResult := Some(rec);
        case Thrown(m) =>
          ui := ui.(error := m);
      }
      ui := ui.(loading := false);
    }
  }
}
