/**
 * The record shapes of app/models/base.py with their defaults, and the two
 * conversions the store wrappers rely on: validating a stored dict into a
 * record (`Restaurant(**row)`) and dumping a record back into a dict
 * (`restaurant.model_dump()`). Validation follows the declared field types:
 * a missing required field or a value of the wrong JSON type is an error, a
 * missing optional field takes its declared default.
 */
module BaseModels {
  import opened Wrappers
  import opened JsonValues

  datatype Coordinates = Coordinates(latitude: real, longitude: real)

  datatype Location = Location(
    address1: Option<string>,
    address2: Option<string>,
    address3: Option<string>,
    city: string,
    state: string,
    zipCode: string,
    country: Option<string>,
    displayAddress: Option<seq<string>>)

  datatype Category = Category(alias: string, title: string)

  datatype OperatingHours = OperatingHours(
    timeOpen: Option<string>,
    timeClosed: Option<string>,
    isHoursVerified: bool,
    isConsenting: bool,
    isOpen: Option<bool>)

  datatype Restaurant = Restaurant(
    businessId: string,
    name: string,
    rating: real,
    price: Option<string>,
    phone: Option<string>,
    location: Location,
    coordinates: Coordinates,
    photos: seq<string>,
    categories: seq<Category>,
    isClosed: Option<bool>,
    isOpen: bool)

  datatype RestaurantWithHours = RestaurantWithHours(restaurant: Restaurant, operatingHours: Option<OperatingHours>)

  datatype SearchParams = SearchParams(
    term: Option<string>,
    location: string,
    radius: Option<real>,
    limit: Option<int>,
    sortBy: Option<string>,
    price: Option<string>,
    categories: Option<string>,
    offset: Option<int>,
    openNow: Option<bool>)

  // ---------------------------------------------------------------------------
  // Construction with defaults (keyword construction naming only the required fields)

  function NewLocation(city: string, state: string, zipCode: string): Location {
    Location(None, None, None, city, state, zipCode, Some("US"), None)
  }

  function NewOperatingHours(): OperatingHours {
    OperatingHours(None, None, false, false, None)
  }

  function NewRestaurant(businessId: string, name: string, rating: real, location: Location, coordinates: Coordinates): Restaurant {
    Restaurant(businessId, name, rating, None, None, location, coordinates, [], [], None, true)
  }

  function NewRestaurantWithHours(restaurant: Restaurant): RestaurantWithHours {
    RestaurantWithHours(restaurant, None)
  }

  function NewSearchParams(location: string): SearchParams {
    SearchParams(None, location, None, Some(20), Some("best_match"), None, None, None, None)
  }

  // ---------------------------------------------------------------------------
  // Field validation

  function Missing(key: string): string { key + ": Field required" }
  function WrongType(key: string): string { key + ": Input has the wrong type" }

  function ReqStr(d: Dict, key: string): (r: Result<string, string>)
    ensures r.Ok? <==> key in d && d[key].JStr?
    ensures r.Ok? ==> d[key] == JStr(r.value)
  {
    if key !in d then Err(Missing(key))
    else if d[key].JStr? then Ok(d[key].s)
    else Err(WrongType(key))
  }

  /** An `Optional[str]` field: absent takes `default`, JSON null is None. */
  function OptStr(d: Dict, key: string, default: Option<string>): (r: Result<Option<string>, string>)
    ensures key !in d ==> r == Ok(default)
    ensures r.Ok? <==> key !in d || d[key].JNull? || d[key].JStr?
  {
    if key !in d then Ok(default)
    else match d[key]
      case JNull => Ok(None)
      case JStr(s) => Ok(Some(s))
      case _ => Err(WrongType(key))
  }

  /** A `float` field: JSON integers and floats are accepted. */
  function ReqFloat(d: Dict, key: string): (r: Result<real, string>)
    ensures r.Ok? <==> key in d && (d[key].JInt? || d[key].JFloat?)
  {
    if key !in d then Err(Missing(key))
    else match d[key]
      case JInt(i) => Ok(i as real)
      case JFloat(f) => Ok(f)
      case _ => Err(WrongType(key))
  }

  function BoolWithDefault(d: Dict, key: string, default: bool): (r: Result<bool, string>)
    ensures key !in d ==> r == Ok(default)
    ensures r.Ok? <==> key !in d || d[key].JBool?
  {
    if key !in d then Ok(default)
    else if d[key].JBool? then Ok(d[key].b)
    else Err(WrongType(key))
  }

  function OptBool(d: Dict, key: string): (r: Result<Option<bool>, string>)
    ensures key !in d ==> r == Ok(None)
    ensures r.Ok? <==> key !in d || d[key].JNull? || d[key].JBool?
  {
    if key !in d then Ok(None)
    else match d[key]
      case JNull => Ok(None)
      case JBool(b) => Ok(Some(b))
      case _ => Err(WrongType(key))
  }

  function ParseStrs(items: seq<Json>): (r: Result<seq<string>, string>)
    ensures r.Ok? ==> |r.value| == |items|
  {
    if items == [] then Ok([])
    else if !items[0].JStr? then Err("list item: Input should be a valid string")
    else
      var rest :- ParseStrs(items[1..]);
      Ok([items[0].s] + rest)
  }

  function StrList(d: Dict, key: string): Result<seq<string>, string> {
    if key !in d then Ok([])
    else if d[key].JList? then ParseStrs(d[key].items)
    else Err(WrongType(key))
  }

  function OptStrList(d: Dict, key: string): Result<Option<seq<string>>, string> {
    if key !in d then Ok(None)
    else match d[key]
      case JNull => Ok(None)
      case JList(items) =>
        var strs :- ParseStrs(items);
        Ok(Some(strs))
      case _ => Err(WrongType(key))
  }

  function ParseCategory(v: Json): Result<Category, string> {
    if !v.JDict? then Err("category: Input should be a valid dictionary")
    else
      var alias :- ReqStr(v.fields, "alias");
      var title :- ReqStr(v.fields, "title");
      Ok(Category(alias, title))
  }

  function ParseCategories(items: seq<Json>): (r: Result<seq<Category>, string>)
    ensures r.Ok? ==> |r.value| == |items|
  {
    if items == [] then Ok([])
    else
      var c :- ParseCategory(items[0]);
      var rest :- ParseCategories(items[1..]);
      Ok([c] + rest)
  }

  function ParseLocation(v: Json): Result<Location, string> {
    if !v.JDict? then Err("location: Input should be a valid dictionary")
    else
      var d := v.fields;
      var a1 :- OptStr(d, "address1", None);
      var a2 :- OptStr(d, "address2", None);
      var a3 :- OptStr(d, "address3", None);
      var city :- ReqStr(d, "city");
      var state :- ReqStr(d, "state");
      var zip :- ReqStr(d, "zip_code");
      var country :- OptStr(d, "country", Some("US"));
      var display :- OptStrList(d, "display_address");
      Ok(Location(a1, a2, a3, city, state, zip, country, display))
  }

  function ParseCoordinates(v: Json): Result<Coordinates, string> {
    if !v.JDict? then Err("coordinates: Input should be a valid dictionary")
    else
      var lat :- ReqFloat(v.fields, "latitude");
      var lon :- ReqFloat(v.fields, "longitude");
      Ok(Coordinates(lat, lon))
  }

  /**
   * `business_id` is read from its alias `id` when that key is present,
   * otherwise from its own name (populate_by_name).
   */
  function BusinessIdKey(d: Dict): string {
    if "id" in d then "id" else "business_id"
  }

  /** `Restaurant(**d)`: validation of a store row or vendor dict; unknown keys are ignored. */
  function ParseRestaurant(d: Dict): Result<Restaurant, string> {
    var id :- ReqStr(d, BusinessIdKey(d));
    var name :- ReqStr(d, "name");
    var rating :- ReqFloat(d, "rating");
    var price :- OptStr(d, "price", None);
    var phone :- OptStr(d, "phone", None);
    var location :- if "location" in d then ParseLocation(d["location"]) else Err(Missing("location"));
    var coordinates :- if "coordinates" in d then ParseCoordinates(d["coordinates"]) else Err(Missing("coordinates"));
    var photos :- StrList(d, "photos");
    var categories :- if "categories" !in d then Ok([])
                      else if d["categories"].JList? then ParseCategories(d["categories"].items)
                      else Err(WrongType("categories"));
    var isClosed :- OptBool(d, "is_closed");
    var isOpen :- BoolWithDefault(d, "is_open", true);
    Ok(Restaurant(id, name, rating, price, phone, location, coordinates, photos, categories, isClosed, isOpen))
  }

  // ---------------------------------------------------------------------------
  // Dumping (model_dump, by field name)

  function OptStrJson(o: Option<string>): Json {
    if o.Some? then JStr(o.value) else JNull
  }

  function OptBoolJson(o: Option<bool>): Json {
    if o.Some? then JBool(o.value) else JNull
  }

  function DumpStrs(s: seq<string>): (r: seq<Json>)
    ensures |r| == |s|
  {
    if s == [] then [] else [JStr(s[0])] + DumpStrs(s[1..])
  }

  function DumpCategory(c: Category): Json {
    JDict(map["alias" := JStr(c.alias), "title" := JStr(c.title)])
  }

  function DumpCategories(cs: seq<Category>): (r: seq<Json>)
    ensures |r| == |cs|
  {
    if cs == [] then [] else [DumpCategory(cs[0])] + DumpCategories(cs[1..])
  }

  function DumpLocation(l: Location): Dict {
    map[
      "address1" := OptStrJson(l.address1),
      "address2" := OptStrJson(l.address2),
      "address3" := OptStrJson(l.address3),
      "city" := JStr(l.city),
      "state" := JStr(l.state),
      "zip_code" := JStr(l.zipCode),
      "country" := OptStrJson(l.country),
      "display_address" := if l.displayAddress.Some? then JList(DumpStrs(l.displayAddress.value)) else JNull
    ]
  }

  function DumpCoordinates(c: Coordinates): Json {
    JDict(map["latitude" := JFloat(c.latitude), "longitude" := JFloat(c.longitude)])
  }

  function DumpRestaurant(r: Restaurant): (d: Dict)
    ensures "id" !in d && "business_id" in d && d["business_id"] == JStr(r.businessId)
  {
    map[
      "business_id" := JStr(r.businessId),
      "name" := JStr(r.name),
      "rating" := JFloat(r.rating),
      "price" := OptStrJson(r.price),
      "phone" := OptStrJson(r.phone),
      "location" := JDict(DumpLocation(r.location)),
      "coordinates" := DumpCoordinates(r.coordinates),
      "photos" := JList(DumpStrs(r.photos)),
      "categories" := JList(DumpCategories(r.categories)),
      "is_closed" := OptBoolJson(r.isClosed),
      "is_open" := JBool(r.isOpen)
    ]
  }

  // ---------------------------------------------------------------------------
  // Properties

  lemma {:induction false} StrsRoundTrip(s: seq<string>)
    ensures ParseStrs(DumpStrs(s)) == Ok(s)
  {
    if s != [] {
      StrsRoundTrip(s[1..]);
      assert DumpStrs(s)[1..] == DumpStrs(s[1..]);
      assert [s[0]] + s[1..] == s;
    }
  }

  lemma CategoryRoundTrip(c: Category)
    ensures ParseCategory(DumpCategory(c)) == Ok(c)
  {
  }

  lemma {:induction false} CategoriesRoundTrip(cs: seq<Category>)
    ensures ParseCategories(DumpCategories(cs)) == Ok(cs)
  {
    if cs != [] {
      var items := DumpCategories(cs);
      assert items[0] == DumpCategory(cs[0]);
      assert items[1..] == DumpCategories(cs[1..]);
      CategoryRoundTrip(cs[0]);
      CategoriesRoundTrip(cs[1..]);
      assert [cs[0]] + cs[1..] == cs;
    }
  }

  /** The entries of a dumped location, one per field. */
  lemma DumpedLocationValues(l: Location)
    ensures var d := DumpLocation(l);
            "address1" in d && d["address1"] == OptStrJson(l.address1)
            && "address2" in d && d["address2"] == OptStrJson(l.address2)
            && "address3" in d && d["address3"] == OptStrJson(l.address3)
            && "city" in d && d["city"] == JStr(l.city)
            && "state" in d && d["state"] == JStr(l.state)
            && "zip_code" in d && d["zip_code"] == JStr(l.zipCode)
            && "country" in d && d["country"] == OptStrJson(l.country)
            && "display_address" in d
            && d["display_address"] == if l.displayAddress.Some? then JList(DumpStrs(l.displayAddress.value)) else JNull
  {
  }

  /** A dict whose every field validates to the matching field of `l` validates to `l`. */
  lemma ParsedLocationFromFields(d: Dict, l: Location)
    requires OptStr(d, "address1", None) == Ok(l.address1)
    requires OptStr(d, "address2", None) == Ok(l.address2)
    requires OptStr(d, "address3", None) == Ok(l.address3)
    requires ReqStr(d, "city") == Ok(l.city) && ReqStr(d, "state") == Ok(l.state) && ReqStr(d, "zip_code") == Ok(l.zipCode)
    requires OptStr(d, "country", Some("US")) == Ok(l.country)
    requires OptStrList(d, "display_address") == Ok(l.displayAddress)
    ensures ParseLocation(JDict(d)) == Ok(l)
  {
  }

  lemma LocationRoundTrip(l: Location)
    ensures ParseLocation(JDict(DumpLocation(l))) == Ok(l)
  {
    DumpedLocationValues(l);
    if l.displayAddress.Some? {
      StrsRoundTrip(l.displayAddress.value);
    }
    ParsedLocationFromFields(DumpLocation(l), l);
  }

  lemma CoordinatesRoundTrip(c: Coordinates)
    ensures ParseCoordinates(DumpCoordinates(c)) == Ok(c)
  {
  }

  /** A dict whose every field validates to the matching field of `r` validates to `r`. */
  lemma ParsedFromFields(d: Dict, r: Restaurant)
    requires ReqStr(d, BusinessIdKey(d)) == Ok(r.businessId)
    requires ReqStr(d, "name") == Ok(r.name) && ReqFloat(d, "rating") == Ok(r.rating)
    requires OptStr(d, "price", None) == Ok(r.price) && OptStr(d, "phone", None) == Ok(r.phone)
    requires "location" in d && ParseLocation(d["location"]) == Ok(r.location)
    requires "coordinates" in d && ParseCoordinates(d["coordinates"]) == Ok(r.coordinates)
    requires StrList(d, "photos") == Ok(r.photos)
    requires "categories" in d && d["categories"].JList? && ParseCategories(d["categories"].items) == Ok(r.categories)
    requires OptBool(d, "is_closed") == Ok(r.isClosed) && BoolWithDefault(d, "is_open", true) == Ok(r.isOpen)
    ensures ParseRestaurant(d) == Ok(r)
  {
  }

  /** Validating a dumped restaurant gives the restaurant back: what the cache stores is what it returns. */
  lemma RestaurantRoundTrip(r: Restaurant)
    ensures ParseRestaurant(DumpRestaurant(r)) == Ok(r)
  {
    DumpedScalars(r);
    DumpedParts(r);
    ParsedFromFields(DumpRestaurant(r), r);
  }

  /** The scalar fields of a dumped restaurant validate back. */
  lemma DumpedScalars(r: Restaurant)
    ensures var d := DumpRestaurant(r);
            ReqStr(d, BusinessIdKey(d)) == Ok(r.businessId)
            && ReqStr(d, "name") == Ok(r.name) && ReqFloat(d, "rating") == Ok(r.rating)
            && OptStr(d, "price", None) == Ok(r.price) && OptStr(d, "phone", None) == Ok(r.phone)
            && OptBool(d, "is_closed") == Ok(r.isClosed) && BoolWithDefault(d, "is_open", true) == Ok(r.isOpen)
  {
  }

  /** The nested fields of a dumped restaurant validate back. */
  lemma DumpedParts(r: Restaurant)
    ensures var d := DumpRestaurant(r);
            "location" in d && ParseLocation(d["location"]) == Ok(r.location)
            && "coordinates" in d && ParseCoordinates(d["coordinates"]) == Ok(r.coordinates)
            && StrList(d, "photos") == Ok(r.photos)
            && "categories" in d && d["categories"].JList? && ParseCategories(d["categories"].items) == Ok(r.categories)
  {
    DumpedValues(r);
    LocationRoundTrip(r.location);
    CoordinatesRoundTrip(r.coordinates);
    StrsRoundTrip(r.photos);
    CategoriesRoundTrip(r.categories);
  }

  lemma DumpedValues(r: Restaurant)
    ensures var d := DumpRestaurant(r);
            "location" in d && d["location"] == JDict(DumpLocation(r.location))
            && "coordinates" in d && d["coordinates"] == DumpCoordinates(r.coordinates)
            && "photos" in d && d["photos"] == JList(DumpStrs(r.photos))
            && "categories" in d && d["categories"] == JList(DumpCategories(r.categories))
  {
  }

  /** The dict holding only the required keys validates to the record with every declared default. */
  lemma RestaurantDefaults(id: string, name: string, rating: real, l: Location, c: Coordinates)
    ensures ParseRestaurant(map[
              "id" := JStr(id), "name" := JStr(name), "rating" := JFloat(rating),
              "location" := JDict(DumpLocation(l)),
              "coordinates" := JDict(map["latitude" := JFloat(c.latitude), "longitude" := JFloat(c.longitude)])])
            == Ok(NewRestaurant(id, name, rating, l, c))
    ensures var r := NewRestaurant(id, name, rating, l, c);
            r.price == None && r.phone == None && r.photos == [] && r.categories == []
            && r.isClosed == None && r.isOpen
  {
    var d := map[
      "id" := JStr(id), "name" := JStr(name), "rating" := JFloat(rating),
      "location" := JDict(DumpLocation(l)),
      "coordinates" := JDict(map["latitude" := JFloat(c.latitude), "longitude" := JFloat(c.longitude)])];
    RequiredOnlyValues(id, name, rating, l, c);
    LocationRoundTrip(l);
    CoordinatesRoundTrip(c);
    ParsedFromRequired(d, NewRestaurant(id, name, rating, l, c));
  }

  lemma RequiredOnlyValues(id: string, name: string, rating: real, l: Location, c: Coordinates)
    ensures var d := map[
              "id" := JStr(id), "name" := JStr(name), "rating" := JFloat(rating),
              "location" := JDict(DumpLocation(l)),
              "coordinates" := JDict(map["latitude" := JFloat(c.latitude), "longitude" := JFloat(c.longitude)])];
            d.Keys == {"id", "name", "rating", "location", "coordinates"}
            && d["id"] == JStr(id) && d["name"] == JStr(name) && d["rating"] == JFloat(rating)
            && d["location"] == JDict(DumpLocation(l)) && d["coordinates"] == DumpCoordinates(c)
  {
  }

  /** A dict with the required keys only, each validating to the matching field of `r`, validates to `r` with the defaults. */
  lemma ParsedFromRequired(d: Dict, r: Restaurant)
    requires d.Keys == {"id", "name", "rating", "location", "coordinates"}
    requires ReqStr(d, "id") == Ok(r.businessId)
    requires ReqStr(d, "name") == Ok(r.name) && ReqFloat(d, "rating") == Ok(r.rating)
    requires ParseLocation(d["location"]) == Ok(r.location) && ParseCoordinates(d["coordinates"]) == Ok(r.coordinates)
    requires r.price == None && r.phone == None && r.photos == [] && r.categories == [] && r.isClosed == None && r.isOpen
    ensures ParseRestaurant(d) == Ok(r)
  {
  }

  /** `business_id` is populated from the alias `id` and, with that key absent, by its own name. */
  lemma BusinessIdSources(d: Dict, id: string)
    requires "id" !in d
    ensures ParseRestaurant(d[ "id" := JStr(id)]).Ok? ==> ParseRestaurant(d[ "id" := JStr(id)]).value.businessId == id
    ensures ParseRestaurant(d[ "business_id" := JStr(id)]).Ok? ==> ParseRestaurant(d[ "business_id" := JStr(id)]).value.businessId == id
  {
    BusinessIdFromKey(d[ "id" := JStr(id)]);
    BusinessIdFromKey(d[ "business_id" := JStr(id)]);
  }

  lemma BusinessIdFromKey(d: Dict)
    ensures ParseRestaurant(d).Ok? ==> ReqStr(d, BusinessIdKey(d)) == Ok(ParseRestaurant(d).value.businessId)
  {
  }

  /** Each required field of a restaurant: without it validation fails. */
  lemma RestaurantRequiredFields(d: Dict)
    ensures ("id" !in d && "business_id" !in d) ==> ParseRestaurant(d).Err?
    ensures "name" !in d ==> ParseRestaurant(d).Err?
    ensures "rating" !in d ==> ParseRestaurant(d).Err?
    ensures "location" !in d ==> ParseRestaurant(d).Err?
    ensures "coordinates" !in d ==> ParseRestaurant(d).Err?
  {
  }

  /** A validated record's location is the validation of the row's `location` value. */
  lemma RestaurantLocation(d: Dict)
    ensures ParseRestaurant(d).Ok? ==> "location" in d && ParseLocation(d["location"]) == Ok(ParseRestaurant(d).value.location)
  {
  }

  /** A location dict with only city, state and zip code: country `US`, every optional line None. */
  lemma LocationDefaults(city: string, state: string, zip: string)
    ensures ParseLocation(JDict(map["city" := JStr(city), "state" := JStr(state), "zip_code" := JStr(zip)]))
            == Ok(NewLocation(city, state, zip))
    ensures NewLocation(city, state, zip).country == Some("US")
  {
  }

  /** City, state and zip code are required. */
  lemma LocationRequiredFields(d: Dict)
    ensures ("city" !in d || "state" !in d || "zip_code" !in d) ==> ParseLocation(JDict(d)).Err?
  {
  }

  /** Defaults of the records that have no required field besides `location` or none at all. */
  lemma RecordDefaults(location: string, r: Restaurant)
    ensures var h := NewOperatingHours();
            h.timeOpen == None && h.timeClosed == None && h.isOpen == None
            && !h.isHoursVerified && !h.isConsenting
    ensures var p := NewSearchParams(location);
            p.location == location && p.limit == Some(20) && p.sortBy == Some("best_match")
            && p.term == None && p.radius == None && p.price == None && p.categories == None
            && p.offset == None && p.openNow == None
    ensures NewRestaurantWithHours(r).restaurant == r && NewRestaurantWithHours(r).operatingHours == None
  {
  }
}
