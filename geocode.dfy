/**
 * The geocoding route of the front end: it asks a language model for the
 * coordinates of a district and village and, when the answer cannot be used
 * or the request fails, falls back to a small table of district coordinates.
 * The model's answer is an input; the district table lookup is modelled in
 * full, both as JavaScript evaluates the object lookup and as the table was
 * meant to be read (its own entries only).
 */
module Geocode {
  import opened Wrappers
  import opened Text

  datatype Coords = Coords(lat: real, lon: real)

  const Ghaziabad: Coords := Coords(28.6692, 77.4538)
  const Baghpat: Coords := Coords(28.9444, 77.2181)
  const Delhi: Coords := Coords(28.6139, 77.2090)
  const Uttarkashi: Coords := Coords(30.7308, 78.4494)

  /** The fallback table, keyed by lower-case district names. */
  const DefaultCoords: map<string, Coords> := map[
    "ghaziabad" := Ghaziabad,
    "baghpat" := Baghpat,
    "delhi" := Delhi,
    "uttarkashi" := Uttarkashi,
    "uttar kashi" := Uttarkashi,
    "uttarkashi district" := Uttarkashi]

  /** The properties every plain JavaScript object inherits from `Object.prototype`. */
  const ObjectPrototypeKeys: set<string> := {
    "constructor", "__defineGetter__", "__defineSetter__", "hasOwnProperty",
    "__lookupGetter__", "__lookupSetter__", "isPrototypeOf", "propertyIsEnumerable",
    "toString", "valueOf", "__proto__", "toLocaleString"}

  /** What `defaultCoords[key]` evaluates to: an own entry, an inherited member (a truthy function or object), or `undefined`. */
  datatype Property = OwnEntry(coords: Coords) | Inherited(name: string) | Missing {
    predicate Truthy() { !Missing? }
  }

  function PropertyOf(key: string): (p: Property)
    ensures key in DefaultCoords ==> p == OwnEntry(DefaultCoords[key])
    ensures key !in DefaultCoords && key in ObjectPrototypeKeys ==> p == Inherited(key)
    ensures p.Missing? <==> key !in DefaultCoords && key !in ObjectPrototypeKeys
  {
    if key in DefaultCoords then OwnEntry(DefaultCoords[key])
    else if key in ObjectPrototypeKeys then Inherited(key)
    else Missing
  }

  /** A key that differs from every table key in its length or its first character is not in the table. */
  lemma NotATableKey(key: string)
    requires key != []
    requires (|key| != 9 || key[0] != 'g') && (|key| != 7 || key[0] != 'b') && (|key| != 5 || key[0] != 'd')
    requires (|key| != 10 || key[0] != 'u') && (|key| != 11 || key[0] != 'u') && (|key| != 19 || key[0] != 'u')
    ensures key !in DefaultCoords
  {
  }

  /** The first lookup key: the district lower-cased with all whitespace removed. */
  function StrippedKey(district: string): string {
    StripWhitespace(ToLower(district))
  }

  /** The second lookup key: the district lower-cased as it is. */
  function LowerKey(district: string): string {
    ToLower(district)
  }

  /**
   * The lookup as written: `defaultCoords[stripped] || defaultCoords[lower] || defaultCoords.delhi`,
   * where each lookup may also find an inherited property.
   */
  function LookupAsWritten(district: string): (p: Property)
    ensures p.Truthy()
  {
    var first := PropertyOf(StrippedKey(district));
    if first.Truthy() then first
    else
      var second := PropertyOf(LowerKey(district));
      if second.Truthy() then second else PropertyOf("delhi")
  }

  /** `coords.lat` and `coords.lon` of the looked-up value: `undefined` for an inherited member. */
  function LatLonOf(p: Property): (r: (Option<real>, Option<real>))
    ensures p.OwnEntry? <==> r.0.Some? && r.1.Some?
  {
    if p.OwnEntry? then (Some(p.coords.lat), Some(p.coords.lon)) else (None, None)
  }

  /** The lookup as meant: the first normalised key with an own entry in the table, else Delhi. */
  function DistrictCoords(district: string): (c: Coords)
    ensures StrippedKey(district) in DefaultCoords ==> c == DefaultCoords[StrippedKey(district)]
    ensures StrippedKey(district) !in DefaultCoords && LowerKey(district) in DefaultCoords ==>
      c == DefaultCoords[LowerKey(district)]
    ensures StrippedKey(district) !in DefaultCoords && LowerKey(district) !in DefaultCoords ==> c == Delhi
    ensures c in DefaultCoords.Values
  {
    var stripped := StrippedKey(district);
    var lower := LowerKey(district);
    if stripped in DefaultCoords then DefaultCoords[stripped]
    else if lower in DefaultCoords then DefaultCoords[lower]
    else
      assert DefaultCoords["delhi"] == Delhi;
      Delhi
  }

  /** "constructor" and "__proto__" are the only inherited names a lower-cased district can equal. */
  lemma LowerCaseInheritedKeys(key: string)
    requires key in ObjectPrototypeKeys
    ensures ToLower(key) == key <==> key == "constructor" || key == "__proto__"
  {
    if key == "constructor" || key == "__proto__" {
      assert ToLower(key) == key;
    } else if key == "__defineGetter__" || key == "__defineSetter__" || key == "propertyIsEnumerable"
      || key == "__lookupGetter__" || key == "__lookupSetter__" {
      UpperChanges(key, 8);
    } else if key == "hasOwnProperty" {
      UpperChanges(key, 3);
    } else if key == "valueOf" {
      UpperChanges(key, 5);
    } else {
      assert key == "isPrototypeOf" || key == "toString" || key == "toLocaleString";
      UpperChanges(key, 2);
    }
  }

  /** When neither lookup key names an inherited member, the lookup as written yields the meant coordinates. */
  lemma LookupAgreesWithoutInheritedKeys(district: string)
    requires StrippedKey(district) !in ObjectPrototypeKeys && LowerKey(district) !in ObjectPrototypeKeys
    ensures LookupAsWritten(district) == OwnEntry(DistrictCoords(district))
    ensures LatLonOf(LookupAsWritten(district)) == (Some(DistrictCoords(district).lat), Some(DistrictCoords(district).lon))
  {
    assert "delhi" in DefaultCoords;
  }

  /** A district whose lower-cased form has no whitespace is looked up under that one key, twice. */
  lemma KeysWithoutWhitespace(district: string, key: string)
    requires ToLower(district) == key
    requires forall i :: 0 <= i < |key| ==> !IsWhitespace(key[i])
    ensures StrippedKey(district) == key && LowerKey(district) == key
  {
    StripWhitespaceNoop(key);
  }

  lemma ConstructorKeys()
    ensures StrippedKey("Constructor") == "constructor" && LowerKey("Constructor") == "constructor"
  {
    LowerCased("Constructor", "constructor");
    LettersAreNotWhitespace("constructor");
    KeysWithoutWhitespace("Constructor", "constructor");
  }

  /** A district called "Constructor" reaches `Object.prototype.constructor`: the response carries no coordinates. */
  lemma ConstructorDistrictLosesCoordinates()
    ensures LookupAsWritten("Constructor") == Inherited("constructor")
    ensures LatLonOf(LookupAsWritten("Constructor")) == (None, None)
    ensures DistrictCoords("Constructor") == Delhi
  {
    ConstructorKeys();
    NotATableKey("constructor");
  }

  lemma ProtoKeys()
    ensures StrippedKey("__proto__") == "__proto__" && LowerKey("__proto__") == "__proto__"
  {
    assert ToLower("__proto__") == "__proto__";
    KeysWithoutWhitespace("__proto__", "__proto__");
  }

  /** The same happens for "__proto__", which finds `Object.prototype` itself. */
  lemma ProtoDistrictLosesCoordinates()
    ensures LookupAsWritten("__proto__") == Inherited("__proto__")
    ensures LatLonOf(LookupAsWritten("__proto__")) == (None, None)
    ensures DistrictCoords("__proto__") == Delhi
  {
    ProtoKeys();
    NotATableKey("__proto__");
  }

  lemma UttarKashiLower()
    ensures ToLower("Uttar Kashi") == "uttar kashi"
  {
    LowerCased("Uttar Kashi", "uttar kashi");
  }

  lemma UttarKashiWords()
    ensures "uttar kashi" == "uttar" + " " + "kashi"
    ensures "uttarkashi" == "uttar" + "kashi"
  {
  }

  lemma UttarKashiKeys()
    ensures StrippedKey("Uttar Kashi") == "uttarkashi"
  {
    UttarKashiLower();
    UttarKashiWords();
    LettersAreNotWhitespace("uttar");
    LettersAreNotWhitespace("kashi");
    StripOneSpace("uttar", "kashi");
  }

  /** "Uttar Kashi" finds the uttarkashi entry through the whitespace-free key. */
  lemma SpacedUttarkashiResolves()
    ensures StrippedKey("Uttar Kashi") == "uttarkashi"
    ensures DistrictCoords("Uttar Kashi") == Uttarkashi
  {
    UttarKashiKeys();
  }

  lemma UttarkashiDistrictLower()
    ensures ToLower("Uttarkashi District") == "uttarkashi district"
  {
    LowerCased("Uttarkashi District", "uttarkashi district");
  }

  lemma UttarkashiDistrictWords()
    ensures "uttarkashi district" == "uttarkashi" + " " + "district"
    ensures "uttarkashidistrict" == "uttarkashi" + "district"
  {
  }

  lemma UttarkashiDistrictKeys()
    ensures StrippedKey("Uttarkashi District") == "uttarkashidistrict"
    ensures LowerKey("Uttarkashi District") == "uttarkashi district"
  {
    UttarkashiDistrictLower();
    UttarkashiDistrictWords();
    LettersAreNotWhitespace("uttarkashi");
    LettersAreNotWhitespace("district");
    StripOneSpace("uttarkashi", "district");
  }

  /** "Uttarkashi District" has no whitespace-free entry and is found only through the lower-cased key. */
  lemma UttarkashiDistrictResolvesBySecondKey()
    ensures StrippedKey("Uttarkashi District") == "uttarkashidistrict"
    ensures StrippedKey("Uttarkashi District") !in DefaultCoords
    ensures LowerKey("Uttarkashi District") == "uttarkashi district"
    ensures DistrictCoords("Uttarkashi District") == Uttarkashi
  {
    UttarkashiDistrictKeys();
    NotATableKey("uttarkashidistrict");
  }

  /** The request body: each field absent, or the value sent. */
  datatype Body = Body(district: Option<string>, village: Option<string>)

  /** `value || "Unknown"`: absent and empty values both become "Unknown". */
  function OrUnknown(v: Option<string>): (r: string)
    ensures r != ""
    ensures v.Some? && v.value != "" ==> r == v.value
    ensures !(v.Some? && v.value != "") ==> r == "Unknown"
  {
    if v.Some? && v.value != "" then v.value else "Unknown"
  }

  /**
   * What the language model's answer yields once its text is read: it threw,
   * it held a usable JSON object, only the coordinate numbers could be found
   * in its text, or nothing could be used.
   */
  datatype ModelAnswer =
    | ModelThrew(message: string)
    | JsonAnswer(latitude: real, longitude: real, location: string)
    | NumbersInText(latitude: real, longitude: real)
    | NoCoordinates

  /**
   * The JSON the route answers with. A coordinate that evaluates to
   * `undefined` is left out of the JSON, hence the optional fields.
   */
  datatype Response =
    | ErrorResponse(status: int, error: string)
    | Located(latitude: Option<real>, longitude: Option<real>, location: string, fallback: bool)

  /** `${village}, ${district}`. */
  function LocationOf(village: string, district: string): string {
    village + ", " + district
  }

  /** The coordinates the fallback table gives a district, as the lookup was meant: always both. */
  function TableLatLon(district: string): (r: (Option<real>, Option<real>))
    ensures r == (Some(DistrictCoords(district).lat), Some(DistrictCoords(district).lon))
  {
    var c := DistrictCoords(district);
    (Some(c.lat), Some(c.lon))
  }

  /** The coordinates the fallback table gives a district, as the lookup is written. */
  function WrittenLatLon(district: string): (r: (Option<real>, Option<real>))
    ensures r == LatLonOf(LookupAsWritten(district))
  {
    LatLonOf(LookupAsWritten(district))
  }

  /**
   * The route, for a given reading of the fallback table. `body` is the
   * parsed request (`Err` when it cannot be read), `hasKey` whether the
   * model's API key is configured, and `answer` what the model's reply
   * yields.
   */
  function RouteWith(body: Result<Body>, hasKey: bool, answer: ModelAnswer,
                     table: string -> (Option<real>, Option<real>)): (r: Response)
    ensures r.ErrorResponse? <==> body.Ok? && !hasKey
    ensures r.ErrorResponse? ==> r == ErrorResponse(500, "GEMINI_API_KEY not configured")
    ensures r.Located? ==> (r.fallback <==> body.Err? || answer.ModelThrew?)
    ensures r.Located? && (body.Err? || !(answer.JsonAnswer? || answer.NumbersInText?)) ==>
      (r.latitude, r.longitude) == table(DistrictOf(body))
    ensures r.Located? && body.Ok? && (answer.JsonAnswer? || answer.NumbersInText?) ==>
      r.latitude == Some(answer.latitude) && r.longitude == Some(answer.longitude)
  {
    match body
    case Err(_) =>
      // the body could not be read: both names keep their "Unknown" defaults
      var c := table("Unknown");
      Located(c.0, c.1, LocationOf("Unknown", "Unknown"), true)
    case Ok(b) =>
      var district := OrUnknown(b.district);
      var village := OrUnknown(b.village);
      if !hasKey then ErrorResponse(500, "GEMINI_API_KEY not configured")
      else if district == "" || village == "" then ErrorResponse(400, "District and village are required")
      else
        match answer
        case ModelThrew(_) =>
          var c := table(district);
          Located(c.0, c.1, LocationOf(village, district), true)
        case JsonAnswer(lat, lon, location) => Located(Some(lat), Some(lon), location, false)
        case NumbersInText(lat, lon) => Located(Some(lat), Some(lon), LocationOf(village, district), false)
        case NoCoordinates =>
          var c := table(district);
          Located(c.0, c.1, LocationOf(village, district), false)
  }

  /** The route with the table read over its own entries. */
  function GeocodeRoute(body: Result<Body>, hasKey: bool, answer: ModelAnswer): (r: Response)
    ensures r.Located? ==> r.latitude.Some? && r.longitude.Some?
  {
    RouteWith(body, hasKey, answer, TableLatLon)
  }

  /** The route as written, where the table lookup may find an inherited member. */
  function GeocodeRouteAsWritten(body: Result<Body>, hasKey: bool, answer: ModelAnswer): (r: Response)
    ensures r.Located? ==> (r.latitude.Some? <==> r.longitude.Some?)
    ensures r.Located? && r.latitude.None? ==>
      StrippedKey(DistrictOf(body)) in ObjectPrototypeKeys || LowerKey(DistrictOf(body)) in ObjectPrototypeKeys
  {
    RouteWith(body, hasKey, answer, WrittenLatLon)
  }

  /** The district name the fallback table is asked about. */
  function DistrictOf(body: Result<Body>): string {
    if body.Ok? then OrUnknown(body.value.district) else "Unknown"
  }

  /** When the district's keys name no inherited member, the route as written answers as meant. */
  lemma RouteAgreesWithoutInheritedKeys(body: Result<Body>, hasKey: bool, answer: ModelAnswer)
    requires StrippedKey(DistrictOf(body)) !in ObjectPrototypeKeys && LowerKey(DistrictOf(body)) !in ObjectPrototypeKeys
    ensures GeocodeRouteAsWritten(body, hasKey, answer) == GeocodeRoute(body, hasKey, answer)
  {
    LookupAgreesWithoutInheritedKeys(DistrictOf(body));
  }

  /**
   * As written, a request for district "Constructor" whose model answer has no
   * coordinates is answered without a latitude or a longitude, where the
   * meant route answers with Delhi's.
   */
  lemma ConstructorRouteLosesCoordinates(village: string)
    requires village != ""
    ensures GeocodeRouteAsWritten(Ok(Body(Some("Constructor"), Some(village))), true, NoCoordinates)
      == Located(None, None, LocationOf(village, "Constructor"), false)
    ensures GeocodeRoute(Ok(Body(Some("Constructor"), Some(village))), true, NoCoordinates)
      == Located(Some(Delhi.lat), Some(Delhi.lon), LocationOf(village, "Constructor"), false)
  {
    var body := Ok(Body(Some("Constructor"), Some(village)));
    assert DistrictOf(body) == "Constructor";
    ConstructorDistrictLosesCoordinates();
    assert WrittenLatLon("Constructor") == (None, None);
    assert TableLatLon("Constructor") == (Some(Delhi.lat), Some(Delhi.lon));
  }

  /** Defaulting makes both names non-empty, so the "required" error can never be returned. */
  lemma NeverMissingNames(body: Result<Body>, hasKey: bool, answer: ModelAnswer)
    ensures GeocodeRoute(body, hasKey, answer).ErrorResponse? ==>
      GeocodeRoute(body, hasKey, answer) == ErrorResponse(500, "GEMINI_API_KEY not configured")
    ensures GeocodeRoute(body, hasKey, answer).ErrorResponse? <==> body.Ok? && !hasKey
  {
  }

  /**
   * Whenever the model's answer is not used, the response holds the table
   * coordinates of the defaulted district and names "village, district";
   * it is flagged as a fallback exactly on the error path.
   */
  lemma FallbackResponses(body: Result<Body>, hasKey: bool, answer: ModelAnswer)
    requires body.Err? || (hasKey && (answer.ModelThrew? || answer.NoCoordinates?))
    ensures var district := if body.Ok? then OrUnknown(body.value.district) else "Unknown";
      var village := if body.Ok? then OrUnknown(body.value.village) else "Unknown";
      GeocodeRoute(body, hasKey, answer)
        == Located(Some(DistrictCoords(district).lat), Some(DistrictCoords(district).lon),
                   LocationOf(village, district), body.Err? || answer.ModelThrew?)
  {
  }

  /** An unreadable body falls back to Delhi for "Unknown, Unknown". */
  lemma UnreadableBodyFallsBackToDelhi(message: string, hasKey: bool, answer: ModelAnswer)
    ensures GeocodeRoute(Err(message), hasKey, answer) == Located(Some(Delhi.lat), Some(Delhi.lon), LocationOf("Unknown", "Unknown"), true)
  {
    LowerCased("Unknown", "unknown");
    LettersAreNotWhitespace("unknown");
    KeysWithoutWhitespace("Unknown", "unknown");
    NotATableKey("unknown");
  }
}
