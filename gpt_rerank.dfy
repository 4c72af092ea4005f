/** The language-model rerank adapter of the backup app
    (capstone-backup/.../GptRerankUseCase.kt).  The reflective field
    lookups become lookups in a map from declared field name to a tagged
    value; the chat completion and its JSON parsing become an abstract
    reply. */
module GptRerank {
  import opened Wrappers
  import opened Seqs
  import opened TravelModels
  import opened Strings

  // ---------------------------------------------------------------------
  // Objects seen through reflection
  // ---------------------------------------------------------------------

  /** The runtime value of a declared field. */
  datatype Value =
    | VString(s: string)
    | VDouble(d: real)
    | VFloat(f: real)
    | VInt(i: int)
    | VLong(l: int)
    | VBool(b: bool)
    | VEnum(name: string)
    | VNull

  /** An object: its declared fields and their values. */
  type Obj = map<FieldName, Value>

  /** The declared fields of a `Place`. */
  function PlaceFields(p: Place): (o: Obj)
    ensures id in o && category in o && lat in o
  {
    map[
      id := VString(p.id),
      name := VString(p.name),
      category := VEnum(CategoryName(p.category)),
      lat := VDouble(p.lat),
      lng := VDouble(p.lng),
      distanceMeters := (match p.distanceMeters case Some(d) => VInt(d) case None => VNull),
      rating := (match p.rating case Some(r) => VDouble(r) case None => VNull),
      address := (match p.address case Some(a) => VString(a) case None => VNull),
      score := (match p.score case Some(s) => VDouble(s) case None => VNull)]
  }

  /** The declared fields of a `WeatherInfo`. */
  function WeatherFields(w: WeatherInfo): Obj {
    map[
      tempC := VDouble(w.tempC),
      condition := VString(w.condition),
      icon := (match w.icon case Some(i) => VString(i) case None => VNull)]
  }

  /** The declared field names the lookups try. */
  datatype FieldName =
    | id | placeId | name | place_name | address | roadAddressName
    | addressName | road_address_name | address_name | latitude | lat | y
    | longitude | lng | x | category | categoryName | category_name
    | isIndoorHint | indoor | tempC | temperatureC | temp | temp_c
    | temperature | feelsLikeC | feels_like | feelsLike | feels_like_c | humidity
    | hum | condition | main | weatherMain | description | status
    | windKph | wind_kph | windSpeedKph | wind_speed | wind | windMps
    | wind_mps | distanceMeters | rating | score | icon

  // The alias lists of the lookups.
  const IdNames: seq<FieldName> := [id, placeId]
  const NameNames: seq<FieldName> := [name, place_name]
  const AddressNames: seq<FieldName> :=
    [address, roadAddressName, addressName, road_address_name, address_name]
  const LatNames: seq<FieldName> := [latitude, lat, y]
  const LngNames: seq<FieldName> := [longitude, lng, x]
  const TagNames: seq<FieldName> := [category, categoryName, category_name]
  const IndoorNames: seq<FieldName> := [isIndoorHint, indoor]
  const TempNames: seq<FieldName> := [tempC, temperatureC, temp, temp_c, temperature]
  const FeelsNames: seq<FieldName> := [feelsLikeC, feels_like, feelsLike, feels_like_c]
  const HumidityNames: seq<FieldName> := [humidity, hum]
  const ConditionNames: seq<FieldName> := [condition, main, weatherMain, description, status]
  const WindNames: seq<FieldName> :=
    [windKph, wind_kph, windSpeedKph, wind_speed, wind, windMps, wind_mps]

  // ---------------------------------------------------------------------
  // `getField` as written: the cast to T is unchecked
  // ---------------------------------------------------------------------

  /** The field exists and is not null. */
  predicate Present(o: Obj, n: FieldName) {
    n in o && o[n] != VNull
  }

  /** What `getField` returns: the first alias that exists with a non-null
      value, whatever its type, since `as? T` on an erased `T` checks
      nothing. */
  function FirstNonNull(o: Obj, names: seq<FieldName>): Option<Value> {
    if names == [] then None
    else if Present(o, names[0]) then Some(o[names[0]])
    else FirstNonNull(o, names[1..])
  }

  /** The lookup finds a value exactly when some alias is present, and then
      it is the value of the first present alias. */
  lemma {:induction false} FirstNonNullSpec(o: Obj, names: seq<FieldName>)
    ensures var r := FirstNonNull(o, names);
      && (r.Some? <==> exists i :: 0 <= i < |names| && Present(o, names[i]))
      && (r.Some? ==> exists i :: 0 <= i < |names| && Present(o, names[i]) && r.value == o[names[i]]
                                  && forall j :: 0 <= j < i ==> !Present(o, names[j]))
  {
    if names != [] && !Present(o, names[0]) {
      FirstNonNullSpec(o, names[1..]);
      var r := FirstNonNull(o, names[1..]);
      assert forall i :: 0 < i < |names| ==> names[i] == names[1..][i - 1];
      if r.Some? {
        var i :| 0 <= i < |names[1..]| && Present(o, names[1..][i]) && r.value == o[names[1..][i]]
                 && forall j :: 0 <= j < i ==> !Present(o, names[1..][j]);
        assert Present(o, names[i + 1]) && forall j :: 0 <= j < i + 1 ==> !Present(o, names[j]);
      }
    }
  }

  /** No alias present: nothing found. */
  lemma {:induction false} FirstNonNullNone(o: Obj, names: seq<FieldName>)
    requires forall n :: n in names ==> !Present(o, n)
    ensures FirstNonNull(o, names) == None
  {
    if names != [] {
      FirstNonNullNone(o, names[1..]);
    }
  }

  /** `getField(o, *names)`: the loop over the aliases. */
  method GetField(o: Obj, names: seq<FieldName>) returns (v: Option<Value>)
    ensures v == FirstNonNull(o, names)
  {
    for k := 0 to |names|
      invariant FirstNonNull(o, names) == FirstNonNull(o, names[k..])
    {
      assert names[k..][1..] == names[k + 1..];
      if names[k] in o {
        var value := o[names[k]];
        if value != VNull {
          return Some(value);
        }
      }
    }
    return None;
  }

  /** `getString(o, *names)` as written: the caller's cast to `String`
      throws `ClassCastException` when the first non-null alias holds some
      other type. */
  function GetStringAsWritten(o: Obj, names: seq<FieldName>): (r: Attempt<Option<string>>)
    ensures r.Thrown? <==> FirstNonNull(o, names).Some? && !FirstNonNull(o, names).value.VString?
  {
    match FirstNonNull(o, names)
    case None => Done(None)
    case Some(VString(s)) => Done(Some(s))
    case Some(_) => Thrown(None)
  }

  // ---------------------------------------------------------------------
  // Typed lookups
  // ---------------------------------------------------------------------

  /** The first alias whose value converts to the requested type. */
  function FirstMatch<T>(o: Obj, names: seq<FieldName>, conv: Value -> Option<T>): Option<T> {
    if names == [] then None
    else if names[0] in o && conv(o[names[0]]).Some? then conv(o[names[0]])
    else FirstMatch(o, names[1..], conv)
  }

  /** The alias converts under `conv`. */
  predicate Converts<T>(o: Obj, n: FieldName, conv: Value -> Option<T>) {
    n in o && conv(o[n]).Some?
  }

  /** The lookup finds a value exactly when some alias converts, and then
      it is the converted value of the first alias that does. */
  lemma {:induction false} FirstMatchSpec<T>(o: Obj, names: seq<FieldName>, conv: Value -> Option<T>)
    ensures var r := FirstMatch(o, names, conv);
      && (r.Some? <==> exists i :: 0 <= i < |names| && Converts(o, names[i], conv))
      && (r.Some? ==> exists i :: 0 <= i < |names| && Converts(o, names[i], conv) && r == conv(o[names[i]])
                                  && forall j :: 0 <= j < i ==> !Converts(o, names[j], conv))
  {
    if names != [] && !Converts(o, names[0], conv) {
      FirstMatchSpec(o, names[1..], conv);
      var r := FirstMatch(o, names[1..], conv);
      assert forall i :: 0 < i < |names| ==> names[i] == names[1..][i - 1];
      if r.Some? {
        var i :| 0 <= i < |names[1..]| && Converts(o, names[1..][i], conv) && r == conv(o[names[1..][i]])
                 && forall j :: 0 <= j < i ==> !Converts(o, names[1..][j], conv);
        assert Converts(o, names[i + 1], conv) && forall j :: 0 <= j < i + 1 ==> !Converts(o, names[j], conv);
      }
    }
  }

  /** No alias converts: nothing found. */
  lemma {:induction false} FirstMatchNone<T>(o: Obj, names: seq<FieldName>, conv: Value -> Option<T>)
    requires forall n :: n in names ==> !Converts(o, n, conv)
    ensures FirstMatch(o, names, conv) == None
  {
    if names != [] {
      assert !Converts(o, names[0], conv);
      FirstMatchNone(o, names[1..], conv);
    }
  }

  function AsString(v: Value): Option<string> {
    if v.VString? then Some(v.s) else None
  }

  function AsBool(v: Value): Option<bool> {
    if v.VBool? then Some(v.b) else None
  }

  /** The `when (v)` of `getDouble`: numbers widen, strings are parsed. */
  function AsDouble(parseReal: string -> Option<real>): Value -> Option<real> {
    (v: Value) =>
      match v
      case VDouble(d) => Some(d)
      case VFloat(f) => Some(f)
      case VInt(i) => Some(i as real)
      case VLong(l) => Some(l as real)
      case VString(s) => parseReal(s)
      case _ => None
  }

  /** `getString` with the cast checked: a value of another type is skipped
      like a missing one. */
  function GetString(o: Obj, names: seq<FieldName>): Option<string> {
    FirstMatch(o, names, AsString)
  }

  /** Where the first non-null alias is a string, the lookup as written
      and the typed one agree. */
  lemma {:induction false} StringLookupsAgree(o: Obj, names: seq<FieldName>)
    requires FirstNonNull(o, names).Some? ==> FirstNonNull(o, names).value.VString?
    ensures GetStringAsWritten(o, names) == Done(GetString(o, names))
  {
    if names != [] && !Present(o, names[0]) {
      StringLookupsAgree(o, names[1..]);
    }
  }

  /** `getDouble(o, *names)`: the loop over the aliases; a string that does
      not parse moves on to the next alias. */
  method GetDouble(o: Obj, names: seq<FieldName>, parseReal: string -> Option<real>) returns (v: Option<real>)
    ensures v == FirstMatch(o, names, AsDouble(parseReal))
  {
    for k := 0 to |names|
      invariant FirstMatch(o, names, AsDouble(parseReal)) == FirstMatch(o, names[k..], AsDouble(parseReal))
    {
      assert names[k..][1..] == names[k + 1..];
      if names[k] in o {
        match o[names[k]]
        case VDouble(d) => return Some(d);
        case VFloat(f) => return Some(f);
        case VInt(i) => return Some(i as real);
        case VLong(l) => return Some(l as real);
        case VString(s) =>
          var parsed := parseReal(s);
          if parsed.Some? {
            return parsed;
          }
        case _ =>
      }
    }
    return None;
  }

  // ---------------------------------------------------------------------
  // The compact projection of a candidate
  // ---------------------------------------------------------------------

  datatype CompactEntry = CompactEntry(
    id: string, name: string, addr: string, lat: real, lng: real, tags: string, isIndoorHint: Option<bool>)

  /** The `mapNotNull` lambda of `rerank`, with typed lookups. */
  function Compact(o: Obj, category: string, parseReal: string -> Option<real>): (r: Option<CompactEntry>)
    ensures r.Some? <==>
      && GetString(o, IdNames).Some? && GetString(o, NameNames).Some?
      && FirstMatch(o, LatNames, AsDouble(parseReal)).Some? && FirstMatch(o, LngNames, AsDouble(parseReal)).Some?
    ensures r.Some? ==>
      && (GetString(o, AddressNames).None? ==> r.value.addr == "")
      && (GetString(o, TagNames).None? ==> r.value.tags == category)
  {
    var pid := GetString(o, IdNames);
    var pname := GetString(o, NameNames);
    var addr := GetString(o, AddressNames).GetOr("");
    var plat := FirstMatch(o, LatNames, AsDouble(parseReal));
    var plng := FirstMatch(o, LngNames, AsDouble(parseReal));
    var tags := GetString(o, TagNames).GetOr(category);
    var hint := FirstMatch(o, IndoorNames, AsBool);
    if pid.None? || pname.None? || plat.None? || plng.None? then None
    else Some(CompactEntry(pid.value, pname.value, addr, plat.value, plng.value, tags, hint))
  }

  /** Every place projects: its id, name and coordinates always resolve,
      its `category` is an enum and so is no tag, and it has no indoor
      hint. */
  lemma CompactOfPlace(p: Place, category: string, parseReal: string -> Option<real>)
    ensures Compact(PlaceFields(p), category, parseReal)
         == Some(CompactEntry(p.id, p.name, p.address.GetOr(""), p.lat, p.lng, category, None))
  {
    IdKey(p);
    PlaceName(p);
    PlaceCoordinates(p, parseReal);
    PlaceAddress(p);
    PlaceNoTags(p);
  }

  lemma PlaceName(p: Place)
    ensures GetString(PlaceFields(p), NameNames) == Some(p.name)
  {
  }

  lemma PlaceCoordinates(p: Place, parseReal: string -> Option<real>)
    ensures FirstMatch(PlaceFields(p), LatNames, AsDouble(parseReal)) == Some(p.lat)
    ensures FirstMatch(PlaceFields(p), LngNames, AsDouble(parseReal)) == Some(p.lng)
  {
    assert LatNames[1..][1..] == [y];
    assert LngNames[1..][1..] == [x];
  }

  lemma PlaceAddress(p: Place)
    ensures GetString(PlaceFields(p), AddressNames) == p.address
  {
    if p.address.None? {
      FirstMatchNone(PlaceFields(p), AddressNames, AsString);
    }
  }

  lemma PlaceNoTags(p: Place)
    ensures GetString(PlaceFields(p), TagNames) == None
    ensures FirstMatch(PlaceFields(p), IndoorNames, AsBool) == None
  {
    FirstMatchNone(PlaceFields(p), TagNames, AsString);
    FirstMatchNone(PlaceFields(p), IndoorNames, AsBool);
  }

  /** `candidates.mapNotNull { ... }`. */
  function Projection(candidates: seq<Place>, category: string, parseReal: string -> Option<real>)
    : seq<CompactEntry>
  {
    if candidates == [] then []
    else
      var rest := Projection(candidates[1..], category, parseReal);
      match Compact(PlaceFields(candidates[0]), category, parseReal)
      case None => rest
      case Some(e) => [e] + rest
  }

  /** With typed lookups no candidate is lost, so the projection is empty
      only for an empty list. */
  lemma {:induction false} ProjectionComplete(candidates: seq<Place>, category: string,
                                              parseReal: string -> Option<real>)
    ensures |Projection(candidates, category, parseReal)| == |candidates|
  {
    if candidates != [] {
      CompactOfPlace(candidates[0], category, parseReal);
      ProjectionComplete(candidates[1..], category, parseReal);
    }
  }

  /** The lambda as written: the tag lookup goes through `getString`. */
  function CompactAsWritten(o: Obj, category: string, parseReal: string -> Option<real>)
    : Attempt<Option<CompactEntry>>
  {
    match GetStringAsWritten(o, IdNames)
    case Thrown(e) => Thrown(e)
    case Done(pid) =>
      match GetStringAsWritten(o, NameNames)
      case Thrown(e) => Thrown(e)
      case Done(pname) =>
        match GetStringAsWritten(o, AddressNames)
        case Thrown(e) => Thrown(e)
        case Done(addr) =>
          var plat := FirstMatch(o, LatNames, AsDouble(parseReal));
          var plng := FirstMatch(o, LngNames, AsDouble(parseReal));
          match GetStringAsWritten(o, TagNames)
          case Thrown(e) => Thrown(e)
          case Done(tags) =>
            var hint := FirstMatch(o, IndoorNames, AsBool);
            if pid.None? || pname.None? || plat.None? || plng.None? then Done(None)
            else Done(Some(CompactEntry(pid.value, pname.value, addr.GetOr(""), plat.value, plng.value,
                                        tags.GetOr(category), hint)))
  }

  /** The projection as written: the first exception ends `rerank`. */
  function ProjectionAsWritten(candidates: seq<Place>, category: string, parseReal: string -> Option<real>)
    : Attempt<seq<CompactEntry>>
  {
    if candidates == [] then Done([])
    else
      match CompactAsWritten(PlaceFields(candidates[0]), category, parseReal)
      case Thrown(e) => Thrown(e)
      case Done(head) =>
        match ProjectionAsWritten(candidates[1..], category, parseReal)
        case Thrown(e) => Thrown(e)
        case Done(rest) => Done(if head.Some? then [head.value] + rest else rest)
  }

  /** As written, the tag lookup of every place throws: `category` is a
      non-null enum, which the unchecked cast lets through and the cast to
      `String` rejects. */
  lemma TagLookupThrows(p: Place)
    ensures GetStringAsWritten(PlaceFields(p), TagNames).Thrown?
    ensures CompactAsWritten(PlaceFields(p), "", p => None).Thrown?
  {
    var o := PlaceFields(p);
    assert Present(o, TagNames[0]);
    IdKey(p);
    assert FirstNonNull(o, NameNames) == Some(VString(p.name));
    AddressAsWritten(p);
  }

  lemma AddressAsWritten(p: Place)
    ensures GetStringAsWritten(PlaceFields(p), AddressNames) == Done(p.address)
  {
    if p.address.None? {
      FirstNonNullNone(PlaceFields(p), AddressNames);
    }
  }

  /** Hence the projection as written throws for every non-empty list. */
  lemma ProjectionAsWrittenThrows(candidates: seq<Place>, category: string, parseReal: string -> Option<real>)
    requires candidates != []
    ensures ProjectionAsWritten(candidates, category, parseReal).Thrown?
  {
    var o := PlaceFields(candidates[0]);
    TagLookupThrows(candidates[0]);
    CompactThrowsAlike(o, category, parseReal);
  }

  /** Whether the lambda throws does not depend on the category argument
      or the number parser. */
  lemma CompactThrowsAlike(o: Obj, category: string, parseReal: string -> Option<real>)
    ensures CompactAsWritten(o, category, parseReal).Thrown? == CompactAsWritten(o, "", p => None).Thrown?
  {
  }

  // ---------------------------------------------------------------------
  // The weather brief
  // ---------------------------------------------------------------------

  /** `putIfNotNull`: the keys are all different, so a put appends. */
  function PutIfNotNull(m: seq<(FieldName, Value)>, key: FieldName, value: Option<Value>): seq<(FieldName, Value)> {
    if value.Some? then m + [(key, value.value)] else m
  }

  /** Kotlin `Double.toInt()`: rounds toward zero and saturates. */
  function DoubleToInt(d: real): Int32 {
    var t := if d >= 0.0 then d.Floor else -((-d).Floor);
    if t > IntMaxValue then IntMaxValue
    else if t < -0x8000_0000 then -0x8000_0000
    else t
  }

  /** The position of each brief key in insertion order. */
  function BriefRank(key: FieldName): int {
    match key
    case tempC => 0
    case feelsLikeC => 1
    case humidity => 2
    case condition => 3
    case wind => 4
    case _ => 5
  }

  /** The keys of a brief, in insertion order. */
  function Keys(m: seq<(FieldName, Value)>): seq<FieldName> {
    seq(|m|, i requires 0 <= i < |m| => m[i].0)
  }

  /** A found number, boxed as a `Double`. */
  function DoubleValue(d: Option<real>): (v: Option<Value>)
    ensures v.Some? == d.Some?
  {
    if d.Some? then Some(VDouble(d.value)) else None
  }

  /** A found number, truncated to an `Int`. */
  function IntValue(d: Option<real>): (v: Option<Value>)
    ensures v.Some? == d.Some?
  {
    if d.Some? then Some(VInt(DoubleToInt(d.value))) else None
  }

  /** The puts of the `weatherBrief` block, given the looked-up values. */
  function BriefOf(temperature: Option<real>, feelsLike: Option<real>, humidityValue: Option<real>,
                   conditionText: string, windSpeed: Option<real>): seq<(FieldName, Value)>
  {
    var m := PutIfNotNull([], tempC, DoubleValue(temperature));
    var m := PutIfNotNull(m, feelsLikeC, DoubleValue(feelsLike));
    var m := PutIfNotNull(m, humidity, IntValue(humidityValue));
    var m := PutIfNotNull(m, condition, Some(VString(conditionText)));
    PutIfNotNull(m, wind, DoubleValue(windSpeed))
  }

  /** The `weatherBrief` block: each value looked up under its aliases and
      put only when present; the condition defaults to "Unknown". */
  function Brief(w: Obj, parseReal: string -> Option<real>): seq<(FieldName, Value)> {
    BriefOf(FirstMatch(w, TempNames, AsDouble(parseReal)), FirstMatch(w, FeelsNames, AsDouble(parseReal)),
            FirstMatch(w, HumidityNames, AsDouble(parseReal)), GetString(w, ConditionNames).GetOr("Unknown"),
            FirstMatch(w, WindNames, AsDouble(parseReal)))
  }

  /** The brief is computed by the same lookups through `getDouble`. */
  method WeatherBrief(w: Obj, parseReal: string -> Option<real>) returns (m: seq<(FieldName, Value)>)
    ensures m == Brief(w, parseReal)
  {
    var temperature := GetDouble(w, TempNames, parseReal);
    var feelsLike := GetDouble(w, FeelsNames, parseReal);
    var humidityValue := GetDouble(w, HumidityNames, parseReal);
    var conditionText := GetString(w, ConditionNames).GetOr("Unknown");
    var windSpeed := GetDouble(w, WindNames, parseReal);
    m := [];
    m := PutIfNotNull(m, tempC, DoubleValue(temperature));
    m := PutIfNotNull(m, feelsLikeC, DoubleValue(feelsLike));
    m := PutIfNotNull(m, humidity, IntValue(humidityValue));
    m := PutIfNotNull(m, condition, Some(VString(conditionText)));
    m := PutIfNotNull(m, wind, DoubleValue(windSpeed));
  }

  /** The brief holds each key at most once, in the order of the block;
      the condition is always there, every other key exactly when its
      value was found. */
  lemma BriefOfProperties(temperature: Option<real>, feelsLike: Option<real>, humidityValue: Option<real>,
                          conditionText: string, windSpeed: Option<real>)
    ensures var m := BriefOf(temperature, feelsLike, humidityValue, conditionText, windSpeed); var k := Keys(m);
      && (forall i, j :: 0 <= i < j < |m| ==> BriefRank(m[i].0) < BriefRank(m[j].0))
      && (forall i :: 0 <= i < |m| ==> BriefRank(m[i].0) < 5)
      && (condition, VString(conditionText)) in m
      && (tempC in k <==> temperature.Some?)
      && (feelsLikeC in k <==> feelsLike.Some?)
      && (humidity in k <==> humidityValue.Some?)
      && (wind in k <==> windSpeed.Some?)
  {
    PutsRanked(DoubleValue(temperature), DoubleValue(feelsLike), IntValue(humidityValue),
               Some(VString(conditionText)), DoubleValue(windSpeed));
    PutsCondition(DoubleValue(temperature), DoubleValue(feelsLike), IntValue(humidityValue),
                  Some(VString(conditionText)), DoubleValue(windSpeed));
    RanksBelowMeans(BriefOf(temperature, feelsLike, humidityValue, conditionText, windSpeed), 5);
    PutsKeys(DoubleValue(temperature), DoubleValue(feelsLike), IntValue(humidityValue),
             Some(VString(conditionText)), DoubleValue(windSpeed));
    BriefKeys(DoubleValue(temperature), DoubleValue(feelsLike), IntValue(humidityValue), DoubleValue(windSpeed));
  }

  /** The five puts, for any values with a condition. */
  lemma PutsRanked(v1: Option<Value>, v2: Option<Value>, v3: Option<Value>, v4: Option<Value>, v5: Option<Value>)
    requires v4.Some?
    ensures var m := PutIfNotNull(PutIfNotNull(PutIfNotNull(PutIfNotNull(PutIfNotNull(
                       [], tempC, v1), feelsLikeC, v2), humidity, v3), condition, v4), wind, v5);
      RanksBelow(m, 5)
  {
    var m1 := PutIfNotNull([], tempC, v1);
    var m2 := PutIfNotNull(m1, feelsLikeC, v2);
    var m3 := PutIfNotNull(m2, humidity, v3);
    var m4 := PutIfNotNull(m3, condition, v4);
    assert RanksBelow(m1, 1) by { PutRanked([], tempC, v1, 0); }
    assert RanksBelow(m2, 2) by { PutRanked(m1, feelsLikeC, v2, 1); }
    assert RanksBelow(m3, 3) by { PutRanked(m2, humidity, v3, 2); }
    assert RanksBelow(m4, 4) by { PutRanked(m3, condition, v4, 3); }
    PutRanked(m4, wind, v5, 4);
  }

  /** The condition is among the five puts. */
  lemma PutsCondition(v1: Option<Value>, v2: Option<Value>, v3: Option<Value>, v4: Option<Value>, v5: Option<Value>)
    requires v4.Some?
    ensures (condition, v4.value) in PutIfNotNull(PutIfNotNull(PutIfNotNull(PutIfNotNull(PutIfNotNull(
                                      [], tempC, v1), feelsLikeC, v2), humidity, v3), condition, v4), wind, v5)
  {
    var m4 := PutIfNotNull(PutIfNotNull(PutIfNotNull(PutIfNotNull([], tempC, v1), feelsLikeC, v2), humidity, v3),
                           condition, v4);
    assert m4[|m4| - 1] == (condition, v4.value);
    assert PutIfNotNull(m4, wind, v5)[|m4| - 1] == (condition, v4.value);
  }

  /** The keys of the five puts. */
  lemma PutsKeys(v1: Option<Value>, v2: Option<Value>, v3: Option<Value>, v4: Option<Value>, v5: Option<Value>)
    requires v4.Some?
    ensures Keys(PutIfNotNull(PutIfNotNull(PutIfNotNull(PutIfNotNull(PutIfNotNull(
                   [], tempC, v1), feelsLikeC, v2), humidity, v3), condition, v4), wind, v5))
         == Opt(tempC, v1) + Opt(feelsLikeC, v2) + Opt(humidity, v3) + [condition] + Opt(wind, v5)
  {
    var m1 := PutIfNotNull([], tempC, v1);
    var m2 := PutIfNotNull(m1, feelsLikeC, v2);
    var m3 := PutIfNotNull(m2, humidity, v3);
    var m4 := PutIfNotNull(m3, condition, v4);
    PutKeys([], tempC, v1);
    PutKeys(m1, feelsLikeC, v2);
    PutKeys(m2, humidity, v3);
    PutKeys(m3, condition, v4);
    PutKeys(m4, wind, v5);
    assert Keys([]) == [];
    var k1, k2, k3 := Opt(tempC, v1), Opt(feelsLikeC, v2), Opt(humidity, v3);
    assert Keys(m1) == k1;
    assert Keys(m2) == k1 + k2;
    assert Keys(m3) == k1 + k2 + k3;
    assert Keys(m4) == k1 + k2 + k3 + [condition];
  }

  /** The same, for the looked-up values of an object. */
  lemma BriefProperties(w: Obj, parseReal: string -> Option<real>)
    ensures var m := Brief(w, parseReal); var k := Keys(m);
      && (forall i, j :: 0 <= i < j < |m| ==> BriefRank(m[i].0) < BriefRank(m[j].0))
      && (forall i :: 0 <= i < |m| ==> BriefRank(m[i].0) < 5)
      && (condition, VString(GetString(w, ConditionNames).GetOr("Unknown"))) in m
      && (tempC in k <==> FirstMatch(w, TempNames, AsDouble(parseReal)).Some?)
      && (feelsLikeC in k <==> FirstMatch(w, FeelsNames, AsDouble(parseReal)).Some?)
      && (humidity in k <==> FirstMatch(w, HumidityNames, AsDouble(parseReal)).Some?)
      && (wind in k <==> FirstMatch(w, WindNames, AsDouble(parseReal)).Some?)
  {
    BriefOfProperties(FirstMatch(w, TempNames, AsDouble(parseReal)), FirstMatch(w, FeelsNames, AsDouble(parseReal)),
                      FirstMatch(w, HumidityNames, AsDouble(parseReal)), GetString(w, ConditionNames).GetOr("Unknown"),
                      FirstMatch(w, WindNames, AsDouble(parseReal)));
  }

  lemma BriefKeys(v1: Option<Value>, v2: Option<Value>, v3: Option<Value>, v5: Option<Value>)
    ensures var k := Opt(tempC, v1) + Opt(feelsLikeC, v2) + Opt(humidity, v3) + [condition] + Opt(wind, v5);
      && (tempC in k <==> v1.Some?) && (feelsLikeC in k <==> v2.Some?)
      && (humidity in k <==> v3.Some?) && (wind in k <==> v5.Some?)
  {
  }

  /** The key, when the value is present. */
  function Opt(key: FieldName, value: Option<Value>): seq<FieldName> {
    if value.Some? then [key] else []
  }

  /** The ranks of the keys rise strictly and stay below `bound`. */
  predicate RanksBelow(m: seq<(FieldName, Value)>, bound: int) {
    m == [] || (BriefRank(m[|m| - 1].0) < bound && RanksBelow(m[..|m| - 1], BriefRank(m[|m| - 1].0)))
  }

  lemma {:induction false} RanksBelowMeans(m: seq<(FieldName, Value)>, bound: int)
    requires RanksBelow(m, bound)
    ensures forall i, j :: 0 <= i < j < |m| ==> BriefRank(m[i].0) < BriefRank(m[j].0)
    ensures forall i :: 0 <= i < |m| ==> BriefRank(m[i].0) < bound
  {
    if m != [] {
      var n := |m| - 1;
      RanksBelowMeans(m[..n], BriefRank(m[n].0));
      assert forall i :: 0 <= i < n ==> m[..n][i] == m[i];
    }
  }

  /** A put after every smaller rank keeps the ranks rising and adds its
      key exactly when the value is present. */
  lemma PutRanked(m: seq<(FieldName, Value)>, key: FieldName, value: Option<Value>, rank: int)
    requires BriefRank(key) == rank && RanksBelow(m, rank)
    ensures RanksBelow(PutIfNotNull(m, key, value), rank + 1)
  {
    if value.Some? {
      assert (m + [(key, value.value)])[..|m|] == m;
    } else if m != [] {
      RanksWeaken(m, rank, rank + 1);
    }
  }

  lemma RanksWeaken(m: seq<(FieldName, Value)>, bound: int, bound': int)
    requires RanksBelow(m, bound) && bound <= bound'
    ensures RanksBelow(m, bound')
  {
  }

  /** A put adds its key exactly when the value is present. */
  lemma PutKeys(m: seq<(FieldName, Value)>, key: FieldName, value: Option<Value>)
    ensures Keys(PutIfNotNull(m, key, value)) == Keys(m) + Opt(key, value)
  {
  }

  /** Of a `WeatherInfo` only the temperature and the condition resolve. */
  lemma WeatherInfoBrief(wi: WeatherInfo, parseReal: string -> Option<real>)
    ensures var w := WeatherFields(wi);
      && FirstMatch(w, TempNames, AsDouble(parseReal)) == Some(wi.tempC)
      && FirstMatch(w, FeelsNames, AsDouble(parseReal)).None?
      && FirstMatch(w, HumidityNames, AsDouble(parseReal)).None?
      && FirstMatch(w, WindNames, AsDouble(parseReal)).None?
      && GetString(w, ConditionNames) == Some(wi.condition)
      && GetStringAsWritten(w, ConditionNames) == Done(Some(wi.condition))
      && Brief(w, parseReal) == [(tempC, VDouble(wi.tempC)), (condition, VString(wi.condition))]
  {
    WeatherAbsent(wi, parseReal);
    WeatherNoWind(wi, parseReal);
  }

  lemma WeatherAbsent(wi: WeatherInfo, parseReal: string -> Option<real>)
    ensures FirstMatch(WeatherFields(wi), FeelsNames, AsDouble(parseReal)).None?
    ensures FirstMatch(WeatherFields(wi), HumidityNames, AsDouble(parseReal)).None?
  {
    FirstMatchNone(WeatherFields(wi), FeelsNames, AsDouble(parseReal));
    FirstMatchNone(WeatherFields(wi), HumidityNames, AsDouble(parseReal));
  }

  lemma WeatherNoWind(wi: WeatherInfo, parseReal: string -> Option<real>)
    ensures FirstMatch(WeatherFields(wi), WindNames, AsDouble(parseReal)).None?
  {
    FirstMatchNone(WeatherFields(wi), WindNames, AsDouble(parseReal));
  }

  // ---------------------------------------------------------------------
  // Reply -> candidates
  // ---------------------------------------------------------------------

  /** One entry of the parsed reply. */
  datatype RankedPlace = RankedPlace(id: string, score: real, reason: string, indoor: Option<bool>)

  predicate ScoreDesc(a: RankedPlace, b: RankedPlace) {
    a.score >= b.score
  }

  lemma ScoreDescTotal()
    ensures TotalPreorder(ScoreDesc)
  {
  }

  /** `associateBy { getString(it, "id", "placeId") ?: "" }`: a later place
      replaces an earlier one with the same key. */
  function Associate(candidates: seq<Place>): map<string, Place> {
    if candidates == [] then map[]
    else
      var last := candidates[|candidates| - 1];
      Associate(candidates[..|candidates| - 1])[last.id := last]
  }

  /** Every candidate's id is a key, and each key maps to a candidate
      with that id. */
  lemma {:induction false} AssociateSpec(candidates: seq<Place>)
    ensures var m := Associate(candidates);
      && (forall k :: k in m ==> m[k] in candidates && m[k].id == k)
      && (forall p :: p in candidates ==> p.id in m)
  {
    if candidates != [] {
      var n := |candidates| - 1;
      AssociateSpec(candidates[..n]);
      assert forall p :: p in candidates ==> p in candidates[..n] || p == candidates[n];
    }
  }

  /** `.filterKeys { it.isNotBlank() }`. */
  function ById(candidates: seq<Place>): (m: map<string, Place>)
    ensures forall k :: k in m <==> !IsBlank(k) && exists p :: p in candidates && p.id == k
    ensures forall k :: k in m ==> m[k] in candidates && m[k].id == k
  {
    AssociateSpec(candidates);
    var a := Associate(candidates);
    map k | k in a && !IsBlank(k) :: a[k]
  }

  /** The key of each candidate: its id, by either lookup. */
  lemma IdKey(p: Place)
    ensures GetString(PlaceFields(p), IdNames) == Some(p.id)
    ensures GetStringAsWritten(PlaceFields(p), IdNames) == Done(Some(p.id))
  {
  }

  /** The last candidate with an id is the one kept for it. */
  lemma {:induction false} ByIdLastWins(candidates: seq<Place>, i: nat)
    requires i < |candidates| && !IsBlank(candidates[i].id)
    requires forall j :: i < j < |candidates| ==> candidates[j].id != candidates[i].id
    ensures ById(candidates)[candidates[i].id] == candidates[i]
  {
    AssociateLastWins(candidates, i);
  }

  lemma {:induction false} AssociateLastWins(candidates: seq<Place>, i: nat)
    requires i < |candidates|
    requires forall j :: i < j < |candidates| ==> candidates[j].id != candidates[i].id
    ensures candidates[i].id in Associate(candidates) && Associate(candidates)[candidates[i].id] == candidates[i]
  {
    var n := |candidates| - 1;
    if i < n {
      var init := candidates[..n];
      assert init[i] == candidates[i];
      AssociateLastWins(init, i);
    }
  }

  /** `.mapNotNull { byId[it.id] }`. */
  function Lookup(picked: seq<RankedPlace>, byId: map<string, Place>): seq<Place> {
    if picked == [] then []
    else (if picked[0].id in byId then [byId[picked[0].id]] else []) + Lookup(picked[1..], byId)
  }

  /** The reply entries whose ids name a candidate. */
  function Known(picked: seq<RankedPlace>, byId: map<string, Place>): seq<RankedPlace> {
    Filter(picked, (r: RankedPlace) => r.id in byId)
  }

  /** The looked-up places are, one for one, the places of the known
      entries. */
  lemma {:induction false} LookupKnown(picked: seq<RankedPlace>, byId: map<string, Place>)
    ensures var l := Lookup(picked, byId); var k := Known(picked, byId);
      && |l| == |k|
      && forall i :: 0 <= i < |l| ==> k[i].id in byId && l[i] == byId[k[i].id]
  {
    if picked != [] {
      LookupKnown(picked[1..], byId);
      assert picked == [picked[0]] + picked[1..];
      FilterConcat([picked[0]], picked[1..], (r: RankedPlace) => r.id in byId);
    }
  }

  /** The resolution of a non-empty reply: by descending score (ties in
      reply order), unknown ids dropped, at most 5. */
  function Resolve(picked: seq<RankedPlace>, candidates: seq<Place>): seq<Place> {
    var l := Lookup(SortBy(picked, ScoreDesc), ById(candidates));
    l[..Min(5, |l|)]
  }

  /** Known entries of equal score keep their reply order through the
      sort. */
  lemma KnownTies(picked: seq<RankedPlace>, byId: map<string, Place>)
    ensures forall x :: Ties(Known(SortBy(picked, ScoreDesc), byId), ScoreDesc, x)
                        == Ties(Known(picked, byId), ScoreDesc, x)
  {
    ScoreDescTotal();
    forall x ensures Ties(Known(SortBy(picked, ScoreDesc), byId), ScoreDesc, x)
                     == Ties(Known(picked, byId), ScoreDesc, x)
    {
      FilteredTies(picked, ScoreDesc, (r: RankedPlace) => r.id in byId, x);
    }
  }

  /** The resolved list has at most five places, each an input candidate
      with a non-blank id, and is the list of places of the known reply
      entries taken in non-increasing score, entries of equal score in
      reply order. */
  lemma ResolveProperties(picked: seq<RankedPlace>, candidates: seq<Place>)
    ensures var out := Resolve(picked, candidates);
      var byId := ById(candidates);
      var k := Known(SortBy(picked, ScoreDesc), byId);
      && |out| == Min(5, |k|)
      && SortedBy(k, ScoreDesc)
      && multiset(k) == multiset(Known(picked, byId))
      && (forall x :: Ties(k, ScoreDesc, x) == Ties(Known(picked, byId), ScoreDesc, x))
      && (forall i :: 0 <= i < |out| ==> k[i].id in byId && out[i] == byId[k[i].id] && out[i].id == k[i].id)
      && (forall p :: p in out ==> p in candidates && !IsBlank(p.id))
  {
    var byId := ById(candidates);
    var s := SortBy(picked, ScoreDesc);
    var k := Known(s, byId);
    LookupKnown(s, byId);
    ScoreDescTotal();
    SortSorted(picked, ScoreDesc);
    forall i, j | 0 <= i < j < |k| ensures ScoreDesc(k[i], k[j]) {
      FilterSortedBy(s, ScoreDesc, (r: RankedPlace) => r.id in byId);
    }
    SortPermutes(picked, ScoreDesc);
    KnownPermutes(s, picked, byId);
    KnownTies(picked, byId);
  }

  /** Filtering keeps a sorted list sorted. */
  lemma {:induction false} FilterSortedBy<T>(s: seq<T>, le: (T, T) -> bool, p: T -> bool)
    requires SortedBy(s, le)
    ensures SortedBy(Filter(s, p), le)
  {
    if s != [] {
      FilterSortedBy(s[1..], le, p);
      assert s == [s[0]] + s[1..];
      FilterConcat([s[0]], s[1..], p);
      var f := Filter(s, p);
      var rest := Filter(s[1..], p);
      forall i, j | 0 <= i < j < |f| ensures le(f[i], f[j]) {
        if p(s[0]) && i == 0 {
          assert f[j] == rest[j - 1] && rest[j - 1] in s[1..];
          var m :| 0 <= m < |s[1..]| && s[1..][m] == f[j];
          assert s[1 + m] == f[j];
        } else if p(s[0]) {
          assert f[i] == rest[i - 1] && f[j] == rest[j - 1];
        }
      }
    }
  }

  /** Filtering respects permutations. */
  lemma KnownPermutes(s: seq<RankedPlace>, t: seq<RankedPlace>, byId: map<string, Place>)
    requires multiset(s) == multiset(t)
    ensures multiset(Known(s, byId)) == multiset(Known(t, byId))
  {
    forall x ensures multiset(Known(s, byId))[x] == multiset(Known(t, byId))[x] {
      FilterCount(s, (r: RankedPlace) => r.id in byId, x);
      FilterCount(t, (r: RankedPlace) => r.id in byId, x);
    }
  }

  /** `rerank(category, weather, candidates)` with typed lookups.  The
      chat completion is `completion`: `Thrown` when the call throws or
      when the reply parses with a null `picked` (the "{}" of a reply
      without choices), `Done(None)` when the reply does not parse,
      `Done(Some(picked))` otherwise. */
  function Rerank(category: string, weather: WeatherInfo, candidates: seq<Place>,
                  completion: Attempt<Option<seq<RankedPlace>>>, parseReal: string -> Option<real>)
    : (r: Attempt<seq<Place>>)
    ensures candidates == [] ==> r == Done(candidates)
    ensures candidates != [] && completion.Thrown? ==> r.Thrown?
    ensures (completion == Done(None) || completion == Done(Some([]))) ==> r == Done(candidates)
    ensures candidates != [] && completion.Done? && completion.value.Some? && completion.value.value != [] ==>
      r == Done(Resolve(completion.value.value, candidates))
  {
    ProjectionComplete(candidates, category, parseReal);
    var compact := Projection(candidates, category, parseReal);
    if compact == [] then Done(candidates)
    else
      match completion
      case Thrown(e) => Thrown(e)
      case Done(reply) =>
        var picked := if reply.Some? then reply.value else [];
        if picked == [] then Done(candidates)
        else Done(Resolve(picked, candidates))
  }

  /** `rerank(category, weather, candidates)` as written. */
  function RerankAsWritten(category: string, weather: WeatherInfo, candidates: seq<Place>,
                           completion: Attempt<Option<seq<RankedPlace>>>, parseReal: string -> Option<real>)
    : Attempt<seq<Place>>
  {
    match ProjectionAsWritten(candidates, category, parseReal)
    case Thrown(e) => Thrown(e)
    case Done(compact) =>
      if compact == [] then Done(candidates)
      else
        match completion
        case Thrown(e) => Thrown(e)
        case Done(reply) =>
          var picked := if reply.Some? then reply.value else [];
          if picked == [] then Done(candidates)
          else Done(Resolve(picked, candidates))
  }

  /** The adapter overload `rerank(filter, candidates, weather)`: without
      weather, or when the rerank throws, the candidates are kept. */
  function RerankAdapter(filter: FilterState, candidates: seq<Place>, weather: Option<WeatherInfo>,
                         completion: Attempt<Option<seq<RankedPlace>>>, parseReal: string -> Option<real>)
    : (r: RecommendationResult)
    ensures r.weather == weather
    ensures weather.None? || completion.Thrown? ==> r.places == candidates
  {
    var ranked :=
      if weather.None? then candidates
      else match Rerank("카페", weather.value, candidates, completion, parseReal)
        case Done(l) => l
        case Thrown(_) => candidates;
    NewResult(ranked, weather)
  }

  /** Whatever the reply, the adapter returns the candidates themselves or
      at most five of them. */
  lemma AdapterAtMostFive(filter: FilterState, candidates: seq<Place>, weather: Option<WeatherInfo>,
                          completion: Attempt<Option<seq<RankedPlace>>>, parseReal: string -> Option<real>)
    ensures var r := RerankAdapter(filter, candidates, weather, completion, parseReal);
      r.places == candidates || (|r.places| <= 5 && forall p :: p in r.places ==> p in candidates)
  {
    if weather.Some? && completion.Done? && completion.value.Some? && completion.value.value != []
       && candidates != []
    {
      ResolveProperties(completion.value.value, candidates);
    }
  }

  /** The adapter as written. */
  function RerankAdapterAsWritten(filter: FilterState, candidates: seq<Place>, weather: Option<WeatherInfo>,
                                  completion: Attempt<Option<seq<RankedPlace>>>, parseReal: string -> Option<real>)
    : RecommendationResult
  {
    var ranked :=
      if weather.None? then candidates
      else match RerankAsWritten("카페", weather.value, candidates, completion, parseReal)
        case Done(l) => l
        case Thrown(_) => candidates;
    NewResult(ranked, weather)
  }

  /** As written, the adapter never reorders: the rerank either sees an
      empty list or throws on the first candidate's tag lookup. */
  lemma AdapterAsWrittenKeepsCandidates(filter: FilterState, candidates: seq<Place>, weather: Option<WeatherInfo>,
                                        completion: Attempt<Option<seq<RankedPlace>>>,
                                        parseReal: string -> Option<real>)
    ensures RerankAdapterAsWritten(filter, candidates, weather, completion, parseReal).places == candidates
  {
    if candidates != [] {
      ProjectionAsWrittenThrows(candidates, "카페", parseReal);
    }
  }

  /** With typed lookups, a non-empty reply naming a candidate does
      reorder: the adapter returns the best-scored named candidate first. */
  lemma AdapterReranks(filter: FilterState, candidates: seq<Place>, wi: WeatherInfo,
                       picked: seq<RankedPlace>, parseReal: string -> Option<real>)
    requires candidates != [] && picked != []
    ensures var r := RerankAdapter(filter, candidates, Some(wi), Done(Some(picked)), parseReal);
      r.places == Resolve(picked, candidates)
  {
  }
}
