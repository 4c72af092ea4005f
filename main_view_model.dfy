/** The main screen's state holder (app MainViewModel.kt): the filter the
    user edits, and the search that runs the repository with it, guarded
    against a second start while one is in flight. */
module MainUi {
  import opened Wrappers
  import opened Seqs
  import opened Strings
  import opened TravelModels
  import opened Repository

  datatype MainUiState = MainUiState(
    filter: FilterState,
    loading: bool,
    error: Option<string>,
    lastResult: Option<RecommendationResult>)

  /** `MainUiState()` with every parameter left at its default. */
  function InitialState(): (s: MainUiState)
    ensures s.filter == DefaultFilter() && !s.loading && s.error == None && s.lastResult == None
  {
    MainUiState(DefaultFilter(), false, None, None)
  }

  /** The radius `onSearchClicked` asks for: `max(1500, 2500)`. */
  const SearchRadius: int := 2500

  /** The candidate count `onSearchClicked` asks for. */
  const CandidateSize: int := 15

  /** The region searched when the filter's is blank, and the fallback
      when the region has no coordinates. */
  const DefaultRegion: string := "서울"

  /** The error text of a failed recommendation without a message. */
  const FailureText: string := "추천 실패"

  /** The call `onSearchClicked` makes on the repository: its filter (the
      categories defaulted) and centre (the region's, else Seoul's). */
  datatype SearchCall = SearchCall(filter: FilterState, lat: real, lng: real)

  /** The geocoding part of the `runCatching` block of `onSearchClicked`:
      the region's centre, else Seoul's, else the "no coordinates"
      exception.  An exception of a geocoding call ends the block at once,
      so Seoul is asked only when the region's lookup returned null. */
  function PrepareSearch(f0: FilterState, geocode: string -> Attempt<Option<(real, real)>>): (r: Attempt<SearchCall>)
    ensures geocode(RegionOrDefault(f0.region)).Thrown? ==> r == Thrown(geocode(RegionOrDefault(f0.region)).message)
    ensures geocode(RegionOrDefault(f0.region)) == Done(None) && geocode(DefaultRegion).Thrown? ==>
      r == Thrown(geocode(DefaultRegion).message)
    ensures geocode(RegionOrDefault(f0.region)) == Done(None) && geocode(DefaultRegion) == Done(None) ==>
      r == Thrown(Some("지역 좌표를 찾을 수 없습니다: " + RegionOrDefault(f0.region)))
    ensures geocode(RegionOrDefault(f0.region)).Done? && geocode(RegionOrDefault(f0.region)).value.Some? ==> r.Done?
    ensures geocode(RegionOrDefault(f0.region)) == Done(None) ==>
      geocode(DefaultRegion).Done? && geocode(DefaultRegion).value.Some? ==> r.Done?
    ensures r.Done? ==>
      || geocode(RegionOrDefault(f0.region)) == Done(Some((r.value.lat, r.value.lng)))
      || (geocode(RegionOrDefault(f0.region)) == Done(None) && geocode(DefaultRegion) == Done(Some((r.value.lat, r.value.lng))))
    ensures r.Done? ==>
      && r.value.filter == f0.(categories := r.value.filter.categories)
      && r.value.filter.categories != []
      && (f0.categories != [] ==> r.value.filter.categories == f0.categories)
      && (f0.categories == [] ==> r.value.filter.categories == [FOOD])
  {
    var region := RegionOrDefault(f0.region);
    match geocode(region)
    case Thrown(e) => Thrown(e)
    case Done(first) =>
      var second := if first.Some? then Done(first) else geocode(DefaultRegion);
      match second
      case Thrown(e) => Thrown(e)
      case Done(center) =>
        if center.None? then Thrown(Some("지역 좌표를 찾을 수 없습니다: " + region))
        else
          var (lat, lng) := center.value;
          Done(SearchCall(f0.(categories := CategoriesOrDefault(f0.categories)), lat, lng))
  }

  /** The `runCatching` block of `onSearchClicked`: the prepared call of
      `recommendWithGpt`, whose exceptions end the block like its own. */
  function SearchOutcome(f0: FilterState, geocode: string -> Attempt<Option<(real, real)>>,
                         recommendWithGpt: (FilterState, real, real, int, int) -> Attempt<RecommendationResult>)
    : (r: Attempt<RecommendationResult>)
    ensures PrepareSearch(f0, geocode).Thrown? ==> r == Thrown(PrepareSearch(f0, geocode).message)
    ensures PrepareSearch(f0, geocode).Done? ==>
      var c := PrepareSearch(f0, geocode).value;
      r == recommendWithGpt(c.filter, c.lat, c.lng, SearchRadius, CandidateSize)
  {
    match PrepareSearch(f0, geocode)
    case Thrown(e) => Thrown(e)
    case Done(c) => recommendWithGpt(c.filter, c.lat, c.lng, SearchRadius, CandidateSize)
  }

  /** The `runCatching` block of `buildRecommendation`: the weather of the
      region (blank means Seoul), then `recommend` with the filter as it
      is; either call's exception ends the block. */
  function RecommendationOutcome(f: FilterState, getWeather: string -> Attempt<Option<WeatherInfo>>,
                                 recommend: (FilterState, Option<WeatherInfo>) -> Attempt<RecommendationResult>)
    : (r: Attempt<RecommendationResult>)
    ensures getWeather(RegionOrDefault(f.region)).Thrown? ==> r == Thrown(getWeather(RegionOrDefault(f.region)).message)
    ensures getWeather(RegionOrDefault(f.region)).Done? ==> r == recommend(f, getWeather(RegionOrDefault(f.region)).value)
  {
    match getWeather(RegionOrDefault(f.region))
    case Thrown(e) => Thrown(e)
    case Done(weather) => recommend(f, weather)
  }

  /** `onSuccess` / `onFailure`: loading ends; a result is kept, a failure
      shows its message or the fixed failure text. */
  function Finished(s: MainUiState, outcome: Attempt<RecommendationResult>): (r: MainUiState)
    ensures !r.loading && r.filter == s.filter
    ensures outcome.Done? ==> r.lastResult == Some(outcome.value) && r.error == s.error
    ensures outcome.Thrown? ==> r.lastResult == s.lastResult && r.error.Some?
    ensures outcome.Thrown? && outcome.message.Some? ==> r.error == outcome.message
    ensures outcome.Thrown? && outcome.message.None? ==> r.error == Some(FailureText)
  {
    match outcome
    case Done(res) => s.(loading := false, lastResult := Some(res))
    case Thrown(m) => s.(loading := false, error := Some(m.GetOr(FailureText)))
  }

  class MainViewModel {
    /** `_ui.value`. */
    var ui: MainUiState
    /** Set while a search started by `onSearchClicked` has not completed. */
    var searchInFlight: bool

    constructor()
      ensures ui == InitialState() && !searchInFlight
    {
      ui := InitialState();
      searchInFlight := false;
    }

    method UpdateFilter(newFilter: FilterState)
      modifies this
      ensures ui == old(ui).(filter := newFilter) && searchInFlight == old(searchInFlight)
    {
      ui := ui.(filter := newFilter);
    }

    /** `onSearchClicked()` up to the start of its coroutine: ignored while
        a search is in flight; else the flag is set, loading starts, the
        error is cleared, and the filter of this moment is what the search
        will use. */
    method OnSearchClicked() returns (started: Option<FilterState>)
      modifies this
      ensures old(searchInFlight) ==> started == None && ui == old(ui) && searchInFlight
      ensures !old(searchInFlight) ==>
        && started == Some(old(ui.filter))
        && searchInFlight
        && ui == old(ui).(loading := true, error := None)
    {
      if searchInFlight {
        return None;
      }
      searchInFlight := true;
      var f0 := ui.filter;
      ui := ui.(loading := true, error := None);
      return Some(f0);
    }

    /** The completion of the search coroutine. */
    method OnSearchFinished(outcome: Attempt<RecommendationResult>)
      modifies this
      ensures ui == Finished(old(ui), outcome) && !searchInFlight
    {
      match outcome {
        case Done(res) =>
          ui := ui.(loading := false, lastResult := Some(res));
        case Thrown(m) =>
          ui := ui.(loading := false, error := Some(m.GetOr(FailureText)));
      }
      searchInFlight := false;
    }

    /** `buildRecommendation()` up to the start of its coroutine; it does
        not look at or touch the in-flight flag. */
    method BuildRecommendation() returns (f: FilterState)
      modifies this
      ensures f == old(ui.filter)
      ensures ui == old(ui).(loading := true, error := None) && searchInFlight == old(searchInFlight)
    {
      f := ui.filter;
      ui := ui.(loading := true, error := None);
    }

    /** The completion of the `buildRecommendation` coroutine. */
    method OnRecommendationFinished(outcome: Attempt<RecommendationResult>)
      modifies this
      ensures ui == Finished(old(ui), outcome) && searchInFlight == old(searchInFlight)
    {
      ui := Finished(ui, outcome);
    }

    method ToggleCategory(category: Category)
      modifies this
      ensures ui == old(ui).(filter := old(ui.filter).(categories := Toggle(old(ui.filter.categories), category)))
      ensures searchInFlight == old(searchInFlight)
    {
      var current := ui.filter.categories;
      var newCats := Toggle(current, category);
      ui := ui.(filter := ui.filter.(categories := newCats));
    }

    method SetRegion(region: string)
      modifies this
      ensures ui == old(ui).(filter := old(ui.filter).(region := region)) && searchInFlight == old(searchInFlight)
    {
      ui := ui.(filter := ui.filter.(region := region));
    }

    method SetDuration(duration: TripDuration)
      modifies this
      ensures ui == old(ui).(filter := old(ui.filter).(duration := duration)) && searchInFlight == old(searchInFlight)
    {
      ui := ui.(filter := ui.filter.(duration := duration));
    }

    method SetBudget(budgetPerPerson: Int32)
      modifies this
      ensures ui == old(ui).(filter := old(ui.filter).(budgetPerPerson := budgetPerPerson))
      ensures searchInFlight == old(searchInFlight)
    {
      ui := ui.(filter := ui.filter.(budgetPerPerson := budgetPerPerson));
    }

    method SetCompanion(companion: Companion)
      modifies this
      ensures ui == old(ui).(filter := old(ui.filter).(companion := companion)) && searchInFlight == old(searchInFlight)
    {
      ui := ui.(filter := ui.filter.(companion := companion));
    }

    /** `consumeResult()`: the result is dropped, nothing else changes. */
    method ConsumeResult()
      modifies this
      ensures ui == old(ui).(lastResult := None) && searchInFlight == old(searchInFlight)
    {
      ui := ui.(lastResult := None);
    }
  }
}
