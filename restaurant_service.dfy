/**
 * The browser-side restaurant service: the price-filter conversion, the
 * reshaping of a backend restaurant record into the record the UI shows,
 * the query strings of the search and cached-listing requests, and what each
 * request yields for a given `fetch` reply.
 *
 * A backend record is an arbitrary parsed JSON value, read with JavaScript's
 * rules: `a || b` picks `b` when `a` is falsy or missing, `a ?? b` only when
 * `a` is null or missing, and a property of anything but an object is missing.
 */
module RestaurantService {
  import opened Wrappers
  import opened JsonValues
  import opened Text
  import opened BrowserApi

  const NullRecordError := "Cannot read properties of null (reading 'location')"
  const TrimTypeError := "part.trim is not a function"
  const SearchFailed := "Failed to fetch restaurants"
  const DetailsFailed := "Failed to fetch restaurant details"
  const CachedFailed := "Failed to fetch cached restaurants"

  /** The location fields a display address is built from, in order. */
  const AddressKeys: seq<string> := ["address1", "address2", "address3", "city", "state", "zip_code", "country"]

  // ---------------------------------------------------------------------------
  // The price filter

  /** `convertPriceFilter`: null or "" give undefined (None); any other string gives the decimal of its length. */
  function ConvertPriceFilter(price: Option<string>): (r: Option<string>)
    ensures r.None? <==> price.None? || price.value == ""
    ensures r.Some? ==> r.value != "" && AllDigits(r.value) && DecimalValue(r.value) == |price.value|
  {
    if price.None? || price.value == "" then None
    else
      DecimalRoundTrip(|price.value|);
      Some(NatToString(|price.value|))
  }

  /** Two price strings convert alike exactly when they are equally long; "$$$" is sent as "3". */
  lemma ConvertPriceByLength(p: string, q: string)
    requires p != "" && q != ""
    ensures ConvertPriceFilter(Some(p)) == ConvertPriceFilter(Some(q)) <==> |p| == |q|
    ensures ConvertPriceFilter(Some("$$$")) == Some("3")
  {
    if ConvertPriceFilter(Some(p)) == ConvertPriceFilter(Some(q)) {
      DecimalRoundTrip(|p|);
      DecimalRoundTrip(|q|);
    }
  }

  // ---------------------------------------------------------------------------
  // JavaScript property reads

  /** `v.key`: an object's own property, missing (None) for anything else. */
  function Prop(v: Json, key: string): Option<Json> {
    if v.JDict? && key in v.fields then Some(v.fields[key]) else None
  }

  /** `v?.key` on a value that may itself be missing. */
  function OptProp(v: Option<Json>, key: string): Option<Json> {
    if v.Some? then Prop(v.value, key) else None
  }

  /** `a || fallback`. */
  function Or(a: Option<Json>, fallback: Json): Json {
    if a.Some? && JsTruthy(a.value) then a.value else fallback
  }

  /** `a || undefined`. */
  function OrUndefined(a: Option<Json>): Option<Json> {
    if a.Some? && JsTruthy(a.value) then a else None
  }

  /** `a ?? fallback`. */
  function Nullish(a: Option<Json>, fallback: Json): Json {
    if a.None? || a.value.JNull? then fallback else a.value
  }

  /** Reading `a || d` back through `|| d` changes nothing. */
  lemma OrAgain(a: Option<Json>, fallback: Json)
    requires !JsTruthy(fallback) || a.None? || JsTruthy(a.value)
    ensures Or(Some(Or(a, fallback)), fallback) == Or(a, fallback)
  {
  }

  /**
   * `v.length > 0`: an array or a string by its length, an object by a numeric
   * `length` property; other values have no length.
   */
  predicate HasPositiveLength(v: Json) {
    match v
    case JList(items) => |items| > 0
    case JStr(s) => |s| > 0
    case JDict(fields) =>
      "length" in fields
      && (match fields["length"]
          case JInt(i) => i > 0
          case JFloat(f) => f > 0.0
          case JBool(b) => b
          case _ => false)
    case _ => false
  }

  // ---------------------------------------------------------------------------
  // The UI record

  datatype FrontLocation = FrontLocation(
    address1: Json,
    address2: Option<Json>,
    address3: Option<Json>,
    city: Json,
    state: Json,
    zipCode: Json,
    country: Json,
    displayAddress: Json)

  datatype FrontRestaurant = FrontRestaurant(
    businessId: Json,
    name: Json,
    rating: Json,
    price: Json,
    phone: Json,
    location: FrontLocation,
    latitude: Json,
    longitude: Json,
    photos: Json,
    categories: Json,
    isOpen: Json)

  /** `loc.k || ''` when that is truthy, as the one-element list `.filter(Boolean)` keeps, and nothing otherwise. */
  function PartOf(loc: Json, key: string): seq<Json> {
    var part := Or(Prop(loc, key), JStr(""));
    if JsTruthy(part) then [part] else []
  }

  /** `[loc.k || '' for k in keys].filter(Boolean)`: the truthy field values, in key order. */
  function TruthyFields(loc: Json, keys: seq<string>): seq<Json> {
    if keys == [] then [] else PartOf(loc, keys[0]) + TruthyFields(loc, keys[1..])
  }

  /** `parts.filter(part => part.trim() !== '')`: a part that is not a string has no `trim` and raises. */
  function NonBlankParts(parts: seq<Json>): Result<seq<Json>, string> {
    if parts == [] then Ok([])
    else if !parts[0].JStr? then Err(TrimTypeError)
    else
      var rest := NonBlankParts(parts[1..]);
      if rest.Err? then rest
      else Ok((if Trim(parts[0].s) != "" then [parts[0]] else []) + rest.value)
  }

  /** The `display_address` of the UI record: the backend's one when it has a positive length, otherwise built from the fields. */
  function DisplayAddress(loc: Json): Result<Json, string> {
    var given := Or(Prop(loc, "display_address"), JList([]));
    if HasPositiveLength(given) then Ok(given)
    else
      match NonBlankParts(TruthyFields(loc, AddressKeys))
      case Ok(parts) => Ok(JList(parts))
      case Err(e) => Err(e)
  }

  /** The location object `transformRestaurant` reads: the record's `location`, or `{}` when that is falsy or missing. */
  function LocationOf(b: Json): Json {
    Or(Prop(b, "location"), JDict(map[]))
  }

  /** The `transformedLocation` object, around a display address already chosen. */
  function TransformedLocation(loc: Json, display: Json): FrontLocation {
    FrontLocation(
      Or(Prop(loc, "address1"), JStr("")),
      OrUndefined(Prop(loc, "address2")),
      OrUndefined(Prop(loc, "address3")),
      Or(Prop(loc, "city"), JStr("")),
      Or(Prop(loc, "state"), JStr("")),
      Or(Prop(loc, "zip_code"), JStr("")),
      Or(Prop(loc, "country"), JStr("")),
      display)
  }

  /** The `transformed` object around a location already reshaped. */
  function TransformedRecord(b: Json, location: FrontLocation): FrontRestaurant {
    var coordinates := Prop(b, "coordinates");
    FrontRestaurant(
      Or(Prop(b, "business_id"), Or(Prop(b, "id"), JStr(""))),
      Or(Prop(b, "name"), JStr("")),
      Or(Prop(b, "rating"), JInt(0)),
      Or(Prop(b, "price"), JStr("")),
      Or(Prop(b, "phone"), JStr("")),
      location,
      Or(OptProp(coordinates, "latitude"), JInt(0)),
      Or(OptProp(coordinates, "longitude"), JInt(0)),
      Or(Prop(b, "photos"), JList([])),
      Or(Prop(b, "categories"), JList([])),
      Nullish(Prop(b, "is_open"), JBool(true)))
  }

  /** `transformRestaurant`: reading a null record raises, and so does building a display address from a non-string part. */
  function Transform(b: Json): (r: Result<FrontRestaurant, string>)
    ensures b.JNull? ==> r == Err(NullRecordError)
    ensures !b.JNull? ==> (r.Ok? <==> DisplayAddress(LocationOf(b)).Ok?)
  {
    if b.JNull? then Err(NullRecordError)
    else
      var loc := LocationOf(b);
      match DisplayAddress(loc)
      case Err(e) => Err(e)
      case Ok(display) => Ok(TransformedRecord(b, TransformedLocation(loc, display)))
  }

  /** What each field of a successfully transformed record holds. */
  lemma TransformFields(b: Json)
    requires Transform(b).Ok?
    // business_id falls back to id, then to ''
    ensures Prop(b, "business_id").Some? && JsTruthy(Prop(b, "business_id").value) ==>
      Transform(b).value.businessId == b.fields["business_id"]
    ensures !(Prop(b, "business_id").Some? && JsTruthy(Prop(b, "business_id").value)) ==>
      Transform(b).value.businessId == (if Prop(b, "id").Some? && JsTruthy(b.fields["id"]) then b.fields["id"] else JStr(""))
    // falsy address lines become undefined, a falsy or missing rating or coordinate becomes 0
    ensures (Transform(b).value.location.address2.None? <==> !(Prop(LocationOf(b), "address2").Some? && JsTruthy(LocationOf(b).fields["address2"])))
    ensures (Transform(b).value.location.address3.None? <==> !(Prop(LocationOf(b), "address3").Some? && JsTruthy(LocationOf(b).fields["address3"])))
    ensures JsTruthy(Transform(b).value.rating) || Transform(b).value.rating == JInt(0)
    ensures (Prop(b, "rating").None? || !JsTruthy(b.fields["rating"])) ==> Transform(b).value.rating == JInt(0)
    ensures OptProp(Prop(b, "coordinates"), "latitude").None? ==> Transform(b).value.latitude == JInt(0)
    ensures OptProp(Prop(b, "coordinates"), "longitude").None? ==> Transform(b).value.longitude == JInt(0)
    // is_open defaults to true only when null or missing
    ensures (Prop(b, "is_open").None? || b.fields["is_open"].JNull?) ==> Transform(b).value.isOpen == JBool(true)
    ensures Prop(b, "is_open").Some? && !b.fields["is_open"].JNull? ==> Transform(b).value.isOpen == b.fields["is_open"]
  {
  }

  /** A display address with a positive length is passed through untouched. */
  lemma DisplayAddressKept(b: Json)
    requires !b.JNull?
    requires Prop(LocationOf(b), "display_address").Some?
    requires HasPositiveLength(LocationOf(b).fields["display_address"])
    ensures Transform(b).Ok?
    ensures Transform(b).value.location.displayAddress == LocationOf(b).fields["display_address"]
  {
  }

  /** A field is usable for a built address: missing, falsy or a string. */
  predicate TextField(loc: Json, key: string) {
    var v := Prop(loc, key);
    v.None? || !JsTruthy(v.value) || v.value.JStr?
  }

  /** The non-blank string fields among `keys`, in order: the address the UI shows when none is given. */
  function NonBlankStringFields(loc: Json, keys: seq<string>): seq<Json> {
    if keys == [] then [] else NonBlankField(loc, keys[0]) + NonBlankStringFields(loc, keys[1..])
  }

  /** The non-blank string value of one field, or nothing. */
  function NonBlankField(loc: Json, key: string): seq<Json> {
    var v := Prop(loc, key);
    if v.Some? && v.value.JStr? && Trim(v.value.s) != "" then [v.value] else []
  }

  lemma HeadPart(loc: Json, key: string, rest: seq<Json>, done: seq<Json>)
    requires TextField(loc, key)
    requires NonBlankParts(rest) == Ok(done)
    ensures NonBlankParts(PartOf(loc, key) + rest) == Ok(NonBlankField(loc, key) + done)
  {
    var parts := PartOf(loc, key) + rest;
    if PartOf(loc, key) == [] {
      assert parts == rest;
      var v := Prop(loc, key);
      if v.Some? && v.value.JStr? {
        assert v.value.s == "";
        assert Trim(v.value.s) == "";
      }
      assert NonBlankField(loc, key) == [];
      assert NonBlankField(loc, key) + done == done;
    } else {
      assert parts[1..] == rest;
    }
  }

  lemma {:induction false} PartsOfTextFields(loc: Json, keys: seq<string>)
    requires forall k :: k in keys ==> TextField(loc, k)
    ensures NonBlankParts(TruthyFields(loc, keys)) == Ok(NonBlankStringFields(loc, keys))
    decreases |keys|
  {
    if keys != [] {
      assert forall k :: k in keys[1..] ==> k in keys;
      PartsOfTextFields(loc, keys[1..]);
      HeadPart(loc, keys[0], TruthyFields(loc, keys[1..]), NonBlankStringFields(loc, keys[1..]));
    }
  }

  /**
   * Without a usable `display_address`, and with every address field a string
   * when present and truthy, the display address is the non-blank fields in
   * the order address1, address2, address3, city, state, zip_code, country.
   */
  lemma DisplayAddressFromFields(b: Json)
    requires !b.JNull?
    requires !HasPositiveLength(Or(Prop(LocationOf(b), "display_address"), JList([])))
    requires forall k :: k in AddressKeys ==> TextField(LocationOf(b), k)
    ensures Transform(b).Ok?
    ensures Transform(b).value.location.displayAddress == JList(NonBlankStringFields(LocationOf(b), AddressKeys))
  {
    PartsOfTextFields(LocationOf(b), AddressKeys);
  }

  lemma {:induction false} NonTextFieldRaises(loc: Json, keys: seq<string>, k: string)
    requires k in keys && !TextField(loc, k)
    ensures NonBlankParts(TruthyFields(loc, keys)).Err?
    decreases |keys|
  {
    var head := PartOf(loc, keys[0]);
    var rest := TruthyFields(loc, keys[1..]);
    var parts := head + rest;
    if keys[0] == k {
      assert parts[0] == head[0] && !head[0].JStr?;
    } else {
      NonTextFieldRaises(loc, keys[1..], k);
      if head == [] {
        assert parts == rest;
      } else {
        assert parts[1..] == rest;
      }
    }
  }

  /** A truthy non-string address field (a numeric zip code, say) makes the built address, and so the record, raise. */
  lemma NonStringAddressFieldRaises(b: Json, k: string)
    requires !b.JNull?
    requires !HasPositiveLength(Or(Prop(LocationOf(b), "display_address"), JList([])))
    requires k in AddressKeys && !TextField(LocationOf(b), k)
    ensures Transform(b) == Err(TrimTypeError)
  {
    NonTextFieldRaises(LocationOf(b), AddressKeys, k);
    NonBlankPartsError(TruthyFields(LocationOf(b), AddressKeys));
  }

  lemma {:induction false} NonBlankPartsError(parts: seq<Json>)
    ensures NonBlankParts(parts).Err? ==> NonBlankParts(parts) == Err(TrimTypeError)
    decreases |parts|
  {
    if parts != [] && parts[0].JStr? {
      NonBlankPartsError(parts[1..]);
    }
  }

  /** The address part of the UI record as a JavaScript object (an undefined address line is a missing key). */
  function LocationObject(l: FrontLocation): Json {
    var lines := map["address1" := l.address1, "city" := l.city, "state" := l.state,
                     "zip_code" := l.zipCode, "country" := l.country, "display_address" := l.displayAddress];
    var with2 := if l.address2.Some? then lines["address2" := l.address2.value] else lines;
    JDict(if l.address3.Some? then with2["address3" := l.address3.value] else with2)
  }

  /** The UI record as a JavaScript object. */
  function AsObject(fr: FrontRestaurant): Json {
    JDict(map[
      "business_id" := fr.businessId, "name" := fr.name, "rating" := fr.rating,
      "price" := fr.price, "phone" := fr.phone, "location" := LocationObject(fr.location),
      "coordinates" := JDict(map["latitude" := fr.latitude, "longitude" := fr.longitude]),
      "photos" := fr.photos, "categories" := fr.categories, "is_open" := fr.isOpen])
  }

  lemma {:induction false} TruthyFieldsAgree(loc: Json, out: Json, keys: seq<string>)
    requires forall k :: k in keys ==> OrUndefined(Prop(out, k)) == OrUndefined(Prop(loc, k))
    ensures TruthyFields(out, keys) == TruthyFields(loc, keys)
    decreases |keys|
  {
    if keys != [] {
      assert forall k :: k in keys[1..] ==> k in keys;
      TruthyFieldsAgree(loc, out, keys[1..]);
      assert OrUndefined(Prop(out, keys[0])) == OrUndefined(Prop(loc, keys[0]));
    }
  }

  lemma LocationObjectProps(l: FrontLocation)
    ensures Prop(LocationObject(l), "address1") == Some(l.address1)
    ensures Prop(LocationObject(l), "address2") == l.address2
    ensures Prop(LocationObject(l), "address3") == l.address3
    ensures Prop(LocationObject(l), "city") == Some(l.city)
    ensures Prop(LocationObject(l), "state") == Some(l.state)
    ensures Prop(LocationObject(l), "zip_code") == Some(l.zipCode)
    ensures Prop(LocationObject(l), "country") == Some(l.country)
    ensures Prop(LocationObject(l), "display_address") == Some(l.displayAddress)
  {
  }

  /** A line read through `|| ''` reads the same through `|| ''` or `|| undefined` again. */
  lemma LineAgain(p: Option<Json>)
    ensures OrUndefined(Some(Or(p, JStr("")))) == OrUndefined(p)
    ensures Or(Some(Or(p, JStr(""))), JStr("")) == Or(p, JStr(""))
  {
  }

  /** An optional line read through `|| undefined` reads the same again. */
  lemma OptionalLineAgain(p: Option<Json>)
    ensures OrUndefined(OrUndefined(p)) == OrUndefined(p)
  {
  }

  /** The reshaped location, written out as an object, keeps the truthy address lines of the original and reshapes to itself. */
  lemma LocationAgain(loc: Json, display: Json)
    ensures forall k :: k in AddressKeys ==>
      OrUndefined(Prop(LocationObject(TransformedLocation(loc, display)), k)) == OrUndefined(Prop(loc, k))
    ensures TransformedLocation(LocationObject(TransformedLocation(loc, display)), display) == TransformedLocation(loc, display)
  {
    var l := TransformedLocation(loc, display);
    LocationObjectProps(l);
    LineAgain(Prop(loc, "address1"));
    OptionalLineAgain(Prop(loc, "address2"));
    OptionalLineAgain(Prop(loc, "address3"));
    LineAgain(Prop(loc, "city"));
    LineAgain(Prop(loc, "state"));
    LineAgain(Prop(loc, "zip_code"));
    LineAgain(Prop(loc, "country"));
  }

  /** A value with a positive length is truthy, so `|| []` keeps it. */
  lemma PositiveLengthKept(v: Json)
    requires HasPositiveLength(v)
    ensures Or(Some(v), JList([])) == v
  {
  }

  /** A display address built from the fields is built again, from the same fields, out of the reshaped location. */
  lemma BuiltAddressAgain(loc: Json, display: Json)
    requires DisplayAddress(loc) == Ok(display) && !HasPositiveLength(display)
    ensures DisplayAddress(LocationObject(TransformedLocation(loc, display))) == Ok(display)
  {
    var l := TransformedLocation(loc, display);
    var out := LocationObject(l);
    LocationObjectProps(l);
    assert display.JList?;
    assert Or(Prop(out, "display_address"), JList([])) == display;
    LocationAgain(loc, display);
    TruthyFieldsAgree(loc, out, AddressKeys);
  }

  /** A display address, once computed, is computed again from the reshaped location. */
  lemma DisplayAddressAgain(loc: Json, display: Json)
    requires DisplayAddress(loc) == Ok(display)
    ensures DisplayAddress(LocationObject(TransformedLocation(loc, display))) == Ok(display)
  {
    if HasPositiveLength(display) {
      var l := TransformedLocation(loc, display);
      LocationObjectProps(l);
      PositiveLengthKept(display);
    } else {
      BuiltAddressAgain(loc, display);
    }
  }

  lemma RecordAgain(b: Json, location: FrontLocation)
    ensures TransformedRecord(AsObject(TransformedRecord(b, location)), location) == TransformedRecord(b, location)
  {
    AsObjectProps(TransformedRecord(b, location));
  }

  /** The properties of a UI record written out as an object. */
  lemma AsObjectProps(fr: FrontRestaurant)
    ensures var o := AsObject(fr);
            Prop(o, "business_id") == Some(fr.businessId) && Prop(o, "id") == None
            && Prop(o, "name") == Some(fr.name) && Prop(o, "rating") == Some(fr.rating)
            && Prop(o, "price") == Some(fr.price) && Prop(o, "phone") == Some(fr.phone)
            && OptProp(Prop(o, "coordinates"), "latitude") == Some(fr.latitude)
            && OptProp(Prop(o, "coordinates"), "longitude") == Some(fr.longitude)
            && Prop(o, "photos") == Some(fr.photos) && Prop(o, "categories") == Some(fr.categories)
            && Prop(o, "is_open") == Some(fr.isOpen)
  {
  }

  /** A record whose display address is known transforms to the record built around it. */
  lemma TransformOk(b: Json, display: Json)
    requires !b.JNull? && DisplayAddress(LocationOf(b)) == Ok(display)
    ensures Transform(b) == Ok(TransformedRecord(b, TransformedLocation(LocationOf(b), display)))
  {
  }

  /** The location `transformRestaurant` reads from a UI record written out as an object. */
  lemma LocationOfObject(fr: FrontRestaurant)
    ensures LocationOf(AsObject(fr)) == LocationObject(fr.location)
  {
  }

  lemma TransformAgain(b: Json, display: Json)
    requires !b.JNull? && DisplayAddress(LocationOf(b)) == Ok(display)
    ensures Transform(AsObject(TransformedRecord(b, TransformedLocation(LocationOf(b), display))))
      == Ok(TransformedRecord(b, TransformedLocation(LocationOf(b), display)))
  {
    var location := TransformedLocation(LocationOf(b), display);
    var o := AsObject(TransformedRecord(b, location));
    LocationOfObject(TransformedRecord(b, location));
    DisplayAddressAgain(LocationOf(b), display);
    LocationAgain(LocationOf(b), display);
    RecordAgain(b, location);
    TransformOk(o, display);
  }

  /** Transforming a transformed record again gives the same record. */
  lemma TransformIdempotent(b: Json)
    requires Transform(b).Ok?
    ensures Transform(AsObject(Transform(b).value)) == Transform(b)
  {
    TransformAgain(b, DisplayAddress(LocationOf(b)).value);
  }

  // ---------------------------------------------------------------------------
  // Query strings

  /** A value of the search parameter object, as `typeof` sees it. */
  datatype ParamValue = PUndefined | PString(s: string) | PBool(b: bool) | POther

  type Query = seq<(string, string)>

  /** What one `[key, value]` entry contributes to the search query. */
  function EntryQuery(key: string, value: ParamValue): (r: Query)
    ensures |r| <= 1 && (r != [] ==> r[0].0 == key)
    ensures value.PUndefined? || value.POther? ==> r == []
    ensures key == "price" && value.PString? ==> (r == [] <==> value.s == "")
    ensures key == "price" && value.PString? && r != [] ==> AllDigits(r[0].1) && DecimalValue(r[0].1) == |value.s|
    ensures key == "open_now" && value.PBool? ==> r == [(key, if value.b then "true" else "false")]
    ensures key != "price" && value.PString? ==> r == [(key, value.s)]
    ensures key != "open_now" && value.PBool? ==> r == []
  {
    match value
    case PUndefined => []
    case POther => []
    case PString(s) =>
      if key == "price" then
        match ConvertPriceFilter(Some(s))
        case Some(p) => [(key, p)]
        case None => []
      else [(key, s)]
    case PBool(b) => if key == "open_now" then [(key, if b then "true" else "false")] else []
  }

  /** The query of `searchRestaurants`, entry by entry in the parameter object's order. */
  function SearchQuery(params: seq<(string, ParamValue)>): Query {
    if params == [] then []
    else SearchQuery(params[..|params| - 1]) + EntryQuery(params[|params| - 1].0, params[|params| - 1].1)
  }

  /** The loop of `searchRestaurants` that appends to the URL parameters. */
  method BuildSearchQuery(params: seq<(string, ParamValue)>) returns (query: Query)
    ensures query == SearchQuery(params)
  {
    query := [];
    var i := 0;
    while i < |params|
      invariant 0 <= i <= |params|
      invariant query == SearchQuery(params[..i])
    {
      var (key, value) := params[i];
      match value {
        case PUndefined =>
        case PString(s) =>
          if key == "price" {
            var backendPrice := ConvertPriceFilter(Some(s));
            if backendPrice.Some? {
              query := query + [(key, backendPrice.value)];
            }
          } else {
            query := query + [(key, s)];
          }
        case PBool(b) =>
          if key == "open_now" {
            query := query + [(key, if b then "true" else "false")];
          }
        case POther =>
      }
      assert params[..i + 1][..i] == params[..i];
      i := i + 1;
    }
    assert params[..i] == params;
  }

  /** Every pair of the query comes from one entry of the parameters, and every entry's pair is in it. */
  lemma {:induction false} SearchQueryFromEntries(params: seq<(string, ParamValue)>)
    ensures |SearchQuery(params)| <= |params|
    ensures forall q :: q in SearchQuery(params) ==>
      exists i :: 0 <= i < |params| && q in EntryQuery(params[i].0, params[i].1)
    ensures forall i :: 0 <= i < |params| ==>
      forall q :: q in EntryQuery(params[i].0, params[i].1) ==> q in SearchQuery(params)
    decreases |params|
  {
    if params != [] {
      var init := params[..|params| - 1];
      var last := params[|params| - 1];
      SearchQueryFromEntries(init);
      assert forall i :: 0 <= i < |init| ==> init[i] == params[i];
      forall q | q in SearchQuery(params)
        ensures exists i :: 0 <= i < |params| && q in EntryQuery(params[i].0, params[i].1)
      {
        if q in SearchQuery(init) {
          var i :| 0 <= i < |init| && q in EntryQuery(init[i].0, init[i].1);
          assert params[i] == init[i];
        } else {
          assert q in EntryQuery(last.0, last.1);
        }
      }
    }
  }

  /** The query `getCachedRestaurants` sends: `limit` only when it is truthy, then always `fetch_images=true`. */
  method CachedQuery(limit: Option<int>) returns (query: Query)
    ensures |query| >= 1 && query[|query| - 1] == ("fetch_images", "true")
    ensures |query| == 2 <==> limit.Some? && limit.value != 0
    ensures |query| <= 2
    ensures |query| == 2 ==> query[0] == ("limit", IntToString(limit.value))
  {
    query := [];
    if limit.Some? && limit.value != 0 {
      query := query + [("limit", IntToString(limit.value))];
    }
    query := query + [("fetch_images", "true")];
  }

  // ---------------------------------------------------------------------------
  // Responses

  /** `data.map(transformRestaurant)`. */
  function TransformAll(items: seq<Json>): (r: Result<seq<FrontRestaurant>, string>)
    ensures r.Ok? <==> forall i :: 0 <= i < |items| ==> Transform(items[i]).Ok?
    ensures r.Ok? ==> |r.value| == |items| && forall i :: 0 <= i < |items| ==> Transform(items[i]) == Ok(r.value[i])
  {
    MapResults(Transform, items)
  }

  /** The message of the TypeError `data.map(...)` throws on a body that is not an array. */
  function NotArrayError(body: Json): string {
    if body.JNull? then "Cannot read properties of null (reading 'map')" else "data.map is not a function"
  }

  /** A listing reply: a fetch failure propagates, a non-ok status raises `failure`, a non-array body has no `map`. */
  function ListingResult(reply: FetchReply, failure: string): (r: Result<seq<FrontRestaurant>, string>)
    ensures reply.NetworkError? ==> r == Err(reply.message)
    ensures reply.Response? && !reply.ok ==> r == Err(failure)
    ensures reply.Response? && reply.ok && !reply.body.JList? ==> r == Err(NotArrayError(reply.body))
    ensures reply.Response? && reply.ok && reply.body.JList? ==> r == TransformAll(reply.body.items)
  {
    match reply
    case NetworkError(m) => Err(m)
    case Response(ok, _, _, body) =>
      if !ok then Err(failure)
      else if !body.JList? then Err(NotArrayError(body))
      else TransformAll(body.items)
  }

  /** `searchRestaurants` for a reply. */
  function SearchResult(reply: FetchReply): Result<seq<FrontRestaurant>, string> {
    ListingResult(reply, SearchFailed)
  }

  /** `getCachedRestaurants` for a reply. */
  function CachedResult(reply: FetchReply): Result<seq<FrontRestaurant>, string> {
    ListingResult(reply, CachedFailed)
  }

  /** `getRestaurantDetails`: every failure, whatever its cause, surfaces as the same message. */
  function DetailsResult(reply: FetchReply): (r: Result<FrontRestaurant, string>)
    ensures r.Err? ==> r.error == DetailsFailed
    ensures r.Ok? <==> reply.Response? && reply.ok && Transform(reply.body).Ok?
    ensures r.Ok? ==> r.value == Transform(reply.body).value
  {
    if reply.NetworkError? || !reply.ok then Err(DetailsFailed)
    else
      match Transform(reply.body)
      case Ok(fr) => Ok(fr)
      case Err(_) => Err(DetailsFailed)
  }
}
