/** The list logic of the result screen (app ResultScreen.kt): the
    selection order of place ids, the texts of the map labels (top-pick
    star, highlight, selection badges), the selected places and the Naver
    search query of a place. */
module ResultScreen {
  import opened Wrappers
  import opened Seqs
  import opened Strings
  import opened TravelModels

  /** The prefix of a top pick's or a highlighted label. */
  const Star: string := "★ "

  // ---------------------------------------------------------------------
  // Label texts
  // ---------------------------------------------------------------------

  /** A label's base text: starred for a top pick. */
  function BaseText(p: Place, topIds: set<string>): string {
    if p.id in topIds then Star + p.name else p.name
  }

  /** The text `focusOn` gives the focused label: the base as it is when it
      already starts with the star, else starred. */
  function Highlighted(base: string): (r: string)
    ensures StartsWith(r, Star)
    ensures StartsWith(base, Star) ==> r == base
    ensures !StartsWith(base, Star) ==> r == Star + base
  {
    if StartsWith(base, Star) then base
    else
      assert (Star + base)[..|Star|] == Star;
      Star + base
  }

  /** Highlighting never stacks a second star. */
  lemma HighlightedIdempotent(base: string)
    ensures Highlighted(Highlighted(base)) == Highlighted(base)
  {
  }

  /** A focused label reads "★ name" whether or not the place is a top
      pick (for a name that does not itself start with the star). */
  lemma HighlightedBase(p: Place, topIds: set<string>)
    requires !StartsWith(p.name, Star)
    ensures Highlighted(BaseText(p, topIds)) == Star + p.name
  {
    if p.id in topIds {
      assert (Star + p.name)[..|Star|] == Star;
    }
  }

  /** `baseNameById` as `addMarkersAndStore` fills it: the base text of
      every place, a later place overwriting an earlier one with its id. */
  function BaseNames(places: seq<Place>, topIds: set<string>): (m: map<string, string>)
    ensures m.Keys == IdSet(places)
  {
    if places == [] then map[]
    else
      var init := places[..|places| - 1];
      var p := places[|places| - 1];
      assert places == init + [p];
      IdSetSnoc(init, p);
      BaseNames(init, topIds)[p.id := BaseText(p, topIds)]
  }

  /** Over places with unique ids, each label's base text is its place's. */
  lemma {:induction false} BaseNamesOfUnique(places: seq<Place>, topIds: set<string>)
    requires UniqueIds(places)
    ensures forall p :: p in places ==> BaseNames(places, topIds)[p.id] == BaseText(p, topIds)
  {
    if places != [] {
      var init := places[..|places| - 1];
      var last := places[|places| - 1];
      assert places == init + [last];
      assert UniqueIds(init);
      BaseNamesOfUnique(init, topIds);
      forall p | p in places ensures BaseNames(places, topIds)[p.id] == BaseText(p, topIds) {
        if p != last {
          assert p in init;
          DistinctPlacesDistinctIds(places, p, last);
        }
      }
    }
  }

  /** The badge text of the selection at index `k`: "[k+1] base". */
  function BadgeText(k: nat, base: string): string {
    "[" + DecimalString(k + 1) + "] " + base
  }

  /** The label texts after `refreshSelectedBadgesOnLabels` over the first
      ids of `order`: every base text, then the badge of each selected id
      in order. */
  function Badged(base: map<string, string>, order: seq<string>): (m: map<string, string>)
    ensures m.Keys == base.Keys
  {
    if order == [] then base
    else
      var k := |order| - 1;
      var m := Badged(base, order[..k]);
      if order[k] in base then m[order[k] := BadgeText(k, base[order[k]])] else m
  }

  /** With a selection without duplicates, a selected label shows its
      1-based position in the selection and every other label its base
      text. */
  lemma {:induction false} BadgedProperties(base: map<string, string>, order: seq<string>)
    requires NoDup(order)
    ensures forall id :: id in base && id !in order ==> Badged(base, order)[id] == base[id]
    ensures forall k :: 0 <= k < |order| && order[k] in base ==>
      Badged(base, order)[order[k]] == BadgeText(k, base[order[k]])
  {
    if order != [] {
      var n := |order| - 1;
      var init := order[..n];
      assert NoDup(init);
      BadgedProperties(base, init);
      forall k | 0 <= k < |order| && order[k] in base
        ensures Badged(base, order)[order[k]] == BadgeText(k, base[order[k]])
      {
        if k < n {
          assert order[k] == init[k];
          assert order[k] != order[n];
        }
      }
      forall id | id in base && id !in order ensures Badged(base, order)[id] == base[id] {
        assert id !in init && id != order[n];
      }
    }
  }

  /** A badge never reads as a highlight: after a tap, the tapped label's
      badge is gone. */
  lemma BadgeNotHighlighted(k: nat, base: string)
    ensures !StartsWith(BadgeText(k, base), Star)
  {
    assert BadgeText(k, base)[0] == '[';
  }

  // ---------------------------------------------------------------------
  // Selection
  // ---------------------------------------------------------------------

  /** The ids of a list of places, in order. */
  function Ids(s: seq<Place>): (r: seq<string>)
    ensures |r| == |s| && forall i :: 0 <= i < |s| ==> r[i] == s[i].id
  {
    seq(|s|, i requires 0 <= i < |s| => s[i].id)
  }

  /** `selectedPlaces`: for each selected id in selection order, the first
      place with that id; ids without a place are skipped. */
  function SelectedPlaces(order: seq<string>, places: seq<Place>): (r: seq<Place>)
    ensures |r| <= |order|
    ensures forall p :: p in r ==> IndexOfId(places, p.id).Some? && places[IndexOfId(places, p.id).value] == p
  {
    if order == [] then []
    else
      var rest := SelectedPlaces(order[1..], places);
      match IndexOfId(places, order[0])
      case Some(i) => [places[i]] + rest
      case None => rest
  }

  /** The selected places follow the selection order exactly, skipping
      only the ids no place has. */
  lemma {:induction false} SelectedPlacesOrder(order: seq<string>, places: seq<Place>)
    ensures Ids(SelectedPlaces(order, places)) == Filter(order, (id: string) => id in IdSet(places))
  {
    if order != [] {
      SelectedPlacesOrder(order[1..], places);
      var rest := SelectedPlaces(order[1..], places);
      match IndexOfId(places, order[0])
      case Some(i) =>
        assert Ids([places[i]] + rest) == [order[0]] + Ids(rest);
      case None =>
    }
  }

  /** `toggleSelect`: an id in the order is removed, any other appended. */
  lemma SelectionToggle(order: seq<string>, id: string)
    requires NoDup(order)
    ensures NoDup(Toggle(order, id))
    ensures id !in order ==> Toggle(order, id) == order + [id] && Toggle(Toggle(order, id), id) == order
    ensures id in order ==> id !in Toggle(order, id) && |Toggle(order, id)| == |order| - 1
  {
    ToggleTwice(order, id);
    if id in order {
      WithoutShorter(order, id);
    }
  }

  /** The route button is enabled from two selections on. */
  predicate RouteEnabled(order: seq<string>) {
    |order| >= 2
  }

  /** The screen's remembered state once the map has loaded: the selection
      order, the base text of each label, the text each label shows and
      the id of the label `focusOn` highlighted last. */
  class ResultScreenState {
    var selectedOrder: seq<string>
    var baseNameById: map<string, string>
    var labelText: map<string, string>
    var highlightedId: Option<string>

    /** No id is selected twice and every label has a base text. */
    predicate Valid()
      reads this
    {
      NoDup(selectedOrder) && labelText.Keys == baseNameById.Keys
    }

    /** The labels of `addMarkersAndStore`, each showing its base text,
        no selection and no highlight. */
    constructor(places: seq<Place>, topIds: set<string>)
      ensures Valid()
      ensures selectedOrder == [] && baseNameById == BaseNames(places, topIds) && labelText == baseNameById
      ensures highlightedId == None
    {
      selectedOrder := [];
      baseNameById := BaseNames(places, topIds);
      labelText := BaseNames(places, topIds);
      highlightedId := None;
    }

    /** `refreshSelectedBadgesOnLabels`: every label back to its base text,
        then the badge of each selected id. */
    method Refresh()
      requires Valid()
      modifies this
      ensures Valid()
      ensures labelText == Badged(baseNameById, selectedOrder)
      ensures selectedOrder == old(selectedOrder) && baseNameById == old(baseNameById)
      ensures highlightedId == old(highlightedId)
    {
      var base := baseNameById;
      var order := selectedOrder;
      var texts := labelText;
      var remaining := base.Keys;
      while remaining != {}
        invariant remaining <= base.Keys
        invariant texts.Keys == base.Keys
        invariant forall id :: id in base && id !in remaining ==> texts[id] == base[id]
        decreases |remaining|
      {
        var id :| id in remaining;
        texts := texts[id := base[id]];
        remaining := remaining - {id};
      }
      assert texts == base;
      assert order[..0] == [];
      for index := 0 to |order|
        invariant texts == Badged(base, order[..index])
      {
        var id := order[index];
        assert order[..index + 1][..index] == order[..index];
        if id in base {
          texts := texts[id := BadgeText(index, base[id])];
        }
      }
      assert order[..|order|] == order;
      labelText := texts;
    }

    /** `toggleSelect(p)`: the id leaves the order or joins it at the end,
        and the badges are refreshed. */
    method ToggleSelect(p: Place)
      requires Valid()
      modifies this
      ensures Valid()
      ensures selectedOrder == Toggle(old(selectedOrder), p.id)
      ensures baseNameById == old(baseNameById) && labelText == Badged(baseNameById, selectedOrder)
      ensures highlightedId == old(highlightedId)
    {
      if p.id in selectedOrder {
        selectedOrder := Without(selectedOrder, p.id);
      } else {
        selectedOrder := selectedOrder + [p.id];
      }
      Refresh();
    }

    /** The clear button: no selection, every label at its base text, and
        the route button disabled. */
    method ClearSelection()
      requires Valid()
      modifies this
      ensures Valid()
      ensures selectedOrder == [] && !RouteEnabled(selectedOrder)
      ensures baseNameById == old(baseNameById) && labelText == baseNameById
      ensures highlightedId == old(highlightedId)
    {
      selectedOrder := [];
      Refresh();
    }

    /** `focusOn(p)` with the map loaded (the camera move aside): the label
        highlighted before goes back to its base text, and p's label, when
        it has one, shows its highlighted text and becomes the highlighted
        one.  Every other label keeps its text, badge included. */
    method FocusOn(p: Place, topIds: set<string>)
      requires Valid()
      modifies this
      ensures Valid()
      ensures selectedOrder == old(selectedOrder) && baseNameById == old(baseNameById)
      ensures highlightedId == if p.id in baseNameById then Some(p.id) else old(highlightedId)
      ensures p.id in baseNameById ==> labelText[p.id] == Highlighted(baseNameById[p.id])
      ensures old(highlightedId).Some? && old(highlightedId).value in baseNameById && old(highlightedId).value != p.id ==>
        labelText[old(highlightedId).value] == baseNameById[old(highlightedId).value]
      ensures forall id :: id in old(labelText) && id != p.id && Some(id) != old(highlightedId) ==>
        labelText[id] == old(labelText)[id]
    {
      if highlightedId.Some? {
        var prevId := highlightedId.value;
        if prevId in labelText && prevId in baseNameById {
          labelText := labelText[prevId := baseNameById[prevId]];
        }
      }
      var base := if p.id in baseNameById then baseNameById[p.id] else BaseText(p, topIds);
      if p.id in labelText {
        labelText := labelText[p.id := Highlighted(base)];
        highlightedId := Some(p.id);
      }
    }

    /** The `onToggle` of a top-pick card or a place row: `toggleSelect(p)`
        then `focusOn(p)`.  The tapped place's label shows its highlighted
        base text, not its badge, and the label highlighted before shows
        its plain base text; every other label shows its badge or base. */
    method Tap(p: Place, topIds: set<string>)
      requires Valid()
      modifies this
      ensures Valid()
      ensures selectedOrder == Toggle(old(selectedOrder), p.id) && baseNameById == old(baseNameById)
      ensures highlightedId == if p.id in baseNameById then Some(p.id) else old(highlightedId)
      ensures p.id in baseNameById ==> labelText[p.id] == Highlighted(baseNameById[p.id])
      ensures old(highlightedId).Some? && old(highlightedId).value in baseNameById && old(highlightedId).value != p.id ==>
        labelText[old(highlightedId).value] == baseNameById[old(highlightedId).value]
      ensures forall id :: id in baseNameById && id != p.id && Some(id) != old(highlightedId) ==>
        labelText[id] == Badged(baseNameById, selectedOrder)[id]
    {
      ToggleSelect(p);
      FocusOn(p, topIds);
    }
  }

  // ---------------------------------------------------------------------
  // The Naver search query
  // ---------------------------------------------------------------------

  /** `isNullOrBlank()`. */
  predicate NullOrBlank(s: Option<string>) {
    s.None? || IsBlank(s.value)
  }

  /** `buildNaverQuery(place, regionHint)`: the parts region hint, name,
      address, the optional ones only when not blank, joined by spaces. */
  method BuildNaverQuery(place: Place, regionHint: Option<string>) returns (q: string)
    ensures !NullOrBlank(regionHint) && !NullOrBlank(place.address) ==>
      q == regionHint.value + " " + place.name + " " + place.address.value
    ensures !NullOrBlank(regionHint) && NullOrBlank(place.address) ==> q == regionHint.value + " " + place.name
    ensures NullOrBlank(regionHint) && !NullOrBlank(place.address) ==> q == place.name + " " + place.address.value
    ensures NullOrBlank(regionHint) && NullOrBlank(place.address) ==> q == place.name
  {
    var parts: seq<string> := [];
    if !NullOrBlank(regionHint) {
      parts := parts + [regionHint.value];
    }
    parts := parts + [place.name];
    if !NullOrBlank(place.address) {
      parts := parts + [place.address.value];
    }
    q := JoinSpaces(parts);
    JoinSpacesThree(parts);
  }
}
