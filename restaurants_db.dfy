/**
 * The restaurant cache of app/db/restaurants.py (the `origin` side of its
 * merge conflicts): store-first lookups that fall back to the business
 * directory (Yelp) and cache what it returns, and the read paths that
 * validate stored rows. The cache is a table of dumped records keyed by
 * business id; the directory's answers, the store's query answers and
 * whether a store call raises (`Some(message)`) are inputs. Every failure
 * that escapes an operation carries the operation's own message prefix.
 */
module RestaurantsDb {
  import opened Wrappers
  import opened JsonValues
  import opened BaseModels

  const GetPrefix := "Failed to get restaurant: "
  const CreatePrefix := "Failed to create restaurant: "
  const SearchPrefix := "Yelp API search failed: "
  const CachePrefix := "Database search failed: "
  const PhonePrefix := "Failed to search by phone: "
  const StoredPrefix := "Failed to get stored restaurants: "
  const PendingPrefix := "Failed to get restaurants without hours: "
  const NotFoundError := "Restaurant not found"

  /**
   * The table after `upsert`-ing `write(r)` under `r.businessId` for each of
   * `rs` in order, skipping the writes whose store call raises.
   */
  function Upserted(rows: map<string, Dict>, rs: seq<Restaurant>, storeFault: nat -> Option<string>,
                    write: Restaurant -> Dict): map<string, Dict>
    decreases |rs|
  {
    if rs == [] then rows
    else
      var k := |rs| - 1;
      var before := Upserted(rows, rs[..k], storeFault, write);
      if storeFault(k).Some? then before else before[rs[k].businessId := write(rs[k])]
  }

  /** The cache after `create_restaurant` was attempted for each of `rs` in order: each stores the restaurant's dump. */
  function Cached(rows: map<string, Dict>, rs: seq<Restaurant>, storeFault: nat -> Option<string>): map<string, Dict> {
    Upserted(rows, rs, storeFault, DumpRestaurant)
  }

  /** `[Restaurant(**r) for r in rows]`: all rows validate, or the first failure is raised. */
  function ParseAll(rows: seq<Dict>): (r: Result<seq<Restaurant>, string>)
    ensures r.Ok? ==> |r.value| == |rows| && forall i :: 0 <= i < |rows| ==> ParseRestaurant(rows[i]) == Ok(r.value[i])
    ensures r.Err? ==> exists i :: 0 <= i < |rows| && ParseRestaurant(rows[i]) == Err(r.error)
  {
    MapResults(ParseRestaurant, rows)
  }

  function DumpAll(rs: seq<Restaurant>): (r: seq<Dict>)
    ensures |r| == |rs| && forall i :: 0 <= i < |rs| ==> r[i] == DumpRestaurant(rs[i])
  {
    seq(|rs|, i requires 0 <= i < |rs| => DumpRestaurant(rs[i]))
  }

  /** `search_cached_restaurants`: no rows gives `[]`; otherwise every row is validated. */
  function SearchCached(response: Result<seq<Dict>, string>): (r: Result<seq<Restaurant>, string>)
    ensures response == Ok([]) ==> r == Ok([])
    ensures response.Err? ==> r == Err(CachePrefix + response.error)
  {
    match response
    case Err(m) => Err(CachePrefix + m)
    case Ok(rows) =>
      if rows == [] then Ok([])
      else match ParseAll(rows)
        case Err(m) => Err(CachePrefix + m)
        case Ok(rs) => Ok(rs)
  }

  /** `get_restaurants_without_hours`: the store's list in the store's order. */
  function PendingRows(response: Result<seq<Dict>, string>): (r: Result<seq<Dict>, string>)
    ensures response.Ok? ==> r == response
    ensures response.Err? ==> r == Err(PendingPrefix + response.error)
  {
    match response
    case Ok(rows) => Ok(rows)
    case Err(m) => Err(PendingPrefix + m)
  }

  /** The lookup by business id that the verification step uses: absent or invalid rows are errors. */
  function FindRestaurant(rows: map<string, Dict>, businessId: string): (r: Result<Restaurant, string>)
    ensures businessId !in rows ==> r.Err?
    ensures r.Ok? ==> businessId in rows && ParseRestaurant(rows[businessId]) == Ok(r.value)
  {
    if businessId !in rows then Err(NotFoundError)
    else ParseRestaurant(rows[businessId])
  }

  // ---------------------------------------------------------------------------
  // `get_stored_restaurants`: rows are re-shaped, validated, the failures skipped, the rest cut to `limit`

  /** The location the read path rebuilds: address1, city, state and zip code copied, the rest fixed. */
  function NormalLocation(l: Dict): Dict {
    map[
      "address1" := DictGet(l, "address1", JNull),
      "address2" := JNull,
      "address3" := JNull,
      "city" := DictGet(l, "city", JNull),
      "state" := DictGet(l, "state", JNull),
      "zip_code" := DictGet(l, "zip_code", JNull),
      "country" := JStr("US"),
      "display_address" := JNull
    ]
  }

  /** One stored row, re-shaped and validated; a location that is not a dict raises (no `.get`). */
  function NormaliseRow(d: Dict): Result<Restaurant, string> {
    if "location" !in d then ParseRestaurant(d)
    else if !d["location"].JDict? then Err(NoGetError(d["location"]))
    else ParseRestaurant(d["location" := JDict(NormalLocation(d["location"].fields))])
  }

  function NormaliseAll(rows: seq<Dict>): seq<Restaurant>
    decreases |rows|
  {
    if rows == [] then []
    else
      var k := |rows| - 1;
      var before := NormaliseAll(rows[..k]);
      match NormaliseRow(rows[k])
      case Ok(r) => before + [r]
      case Err(_) => before
  }

  /** Python's `s[:n]` for an integer `n`: negative `n` drops that many elements from the end. */
  function PyPrefix<T>(s: seq<T>, n: int): (r: seq<T>)
    ensures n >= 0 ==> r == s[..if n < |s| then n else |s|]
    ensures n < 0 ==> r == s[..if |s| + n > 0 then |s| + n else 0]
  {
    if n >= 0 then s[..if n < |s| then n else |s|]
    else s[..if |s| + n > 0 then |s| + n else 0]
  }

  /** `if limit: restaurants = restaurants[:limit]`: None and 0 leave the list whole. */
  function ApplyLimit<T>(s: seq<T>, limit: Option<int>): seq<T> {
    if limit.Some? && limit.value != 0 then PyPrefix(s, limit.value) else s
  }

  function StoredSpec(stored: Result<seq<Dict>, string>, limit: Option<int>): Result<seq<Restaurant>, string> {
    match stored
    case Err(m) => Err(StoredPrefix + m)
    case Ok(rows) => Ok(ApplyLimit(NormaliseAll(rows), limit))
  }

  /** `get_stored_restaurants`: walks the store's answer, appending each row that validates. */
  method GetStoredRestaurants(stored: Result<seq<Dict>, string>, limit: Option<int>) returns (r: Result<seq<Restaurant>, string>)
    ensures r == StoredSpec(stored, limit)
  {
    if stored.Err? {
      return Err(StoredPrefix + stored.error);
    }
    var rows := stored.value;
    var restaurants: seq<Restaurant> := [];
    var i := 0;
    while i < |rows|
      invariant 0 <= i <= |rows|
      invariant restaurants == NormaliseAll(rows[..i])
    {
      assert rows[..i + 1][..i] == rows[..i];
      var restaurant := NormaliseRow(rows[i]);
      if restaurant.Ok? {
        restaurants := restaurants + [restaurant.value];
      }
      i := i + 1;
    }
    assert rows[..i] == rows;
    if limit.Some? && limit.value != 0 {
      restaurants := PyPrefix(restaurants, limit.value);
    }
    return Ok(restaurants);
  }

  // ---------------------------------------------------------------------------
  // Properties

  lemma ParseDumpAll(rs: seq<Restaurant>)
    ensures ParseAll(DumpAll(rs)) == Ok(rs)
  {
    var rows := DumpAll(rs);
    forall i | 0 <= i < |rows|
      ensures ParseRestaurant(rows[i]) == Ok(rs[i])
    {
      ParseDumpedAt(rs, i);
    }
    MapResultsAll(ParseRestaurant, rows, rs);
  }

  lemma ParseDumpedAt(rs: seq<Restaurant>, i: nat)
    requires i < |rs|
    ensures ParseRestaurant(DumpAll(rs)[i]) == Ok(rs[i])
  {
    RestaurantRoundTrip(rs[i]);
  }

  /** A cached search over rows the cache itself dumped returns exactly those restaurants. */
  lemma SearchCachedOfDumped(rs: seq<Restaurant>)
    ensures SearchCached(Ok(DumpAll(rs))) == Ok(rs)
  {
    ParseDumpAll(rs);
  }

  /** Ids that no successful store call wrote keep their old cache entry (or stay absent). */
  lemma CachedUntouched(rows: map<string, Dict>, rs: seq<Restaurant>, storeFault: nat -> Option<string>, id: string)
    requires forall i :: 0 <= i < |rs| && storeFault(i).None? ==> rs[i].businessId != id
    ensures id in Cached(rows, rs, storeFault) <==> id in rows
    ensures id in rows ==> Cached(rows, rs, storeFault)[id] == rows[id]
  {
    UpsertedUntouched(rows, rs, storeFault, DumpRestaurant, id);
  }

  lemma {:induction false} UpsertedUntouched(rows: map<string, Dict>, rs: seq<Restaurant>, storeFault: nat -> Option<string>,
                                             write: Restaurant -> Dict, id: string)
    requires forall i :: 0 <= i < |rs| && storeFault(i).None? ==> rs[i].businessId != id
    ensures id in Upserted(rows, rs, storeFault, write) <==> id in rows
    ensures id in rows ==> Upserted(rows, rs, storeFault, write)[id] == rows[id]
    decreases |rs|
  {
    if rs != [] {
      var k := |rs| - 1;
      UpsertedAt(rows, rs, storeFault, write, id);
      assert forall i :: 0 <= i < k ==> rs[..k][i] == rs[i];
      UpsertedUntouched(rows, rs[..k], storeFault, write, id);
    }
  }

  /** The last restaurant whose store call succeeded for an id is what the cache holds for it. */
  lemma CachedLast(rows: map<string, Dict>, rs: seq<Restaurant>, storeFault: nat -> Option<string>, i: nat)
    requires i < |rs| && storeFault(i).None?
    requires forall j :: i < j < |rs| && storeFault(j).None? ==> rs[j].businessId != rs[i].businessId
    ensures rs[i].businessId in Cached(rows, rs, storeFault)
    ensures Cached(rows, rs, storeFault)[rs[i].businessId] == DumpRestaurant(rs[i])
  {
    UpsertedLast(rows, rs, storeFault, DumpRestaurant, i);
  }

  lemma {:induction false} UpsertedLast(rows: map<string, Dict>, rs: seq<Restaurant>, storeFault: nat -> Option<string>,
                                        write: Restaurant -> Dict, i: nat)
    requires i < |rs| && storeFault(i).None?
    requires forall j :: i < j < |rs| && storeFault(j).None? ==> rs[j].businessId != rs[i].businessId
    ensures rs[i].businessId in Upserted(rows, rs, storeFault, write)
    ensures Upserted(rows, rs, storeFault, write)[rs[i].businessId] == write(rs[i])
    decreases |rs|
  {
    var k := |rs| - 1;
    var prefix := rs[..k];
    UpsertedAt(rows, rs, storeFault, write, rs[i].businessId);
    if i < k {
      assert prefix[i] == rs[i];
      forall j | i < j < k && storeFault(j).None?
        ensures prefix[j].businessId != prefix[i].businessId
      {
        assert prefix[j] == rs[j];
      }
      UpsertedLast(rows, prefix, storeFault, write, i);
    }
  }

  /** One id of the table after the last write, in terms of the table before it. */
  lemma UpsertedAt(rows: map<string, Dict>, rs: seq<Restaurant>, storeFault: nat -> Option<string>,
                   write: Restaurant -> Dict, id: string)
    requires rs != []
    ensures var k := |rs| - 1;
            var before := Upserted(rows, rs[..k], storeFault, write);
            var written := storeFault(k).None? && rs[k].businessId == id;
            (id in Upserted(rows, rs, storeFault, write) <==> written || id in before)
            && (written ==> Upserted(rows, rs, storeFault, write)[id] == write(rs[k]))
            && (!written && id in before ==> Upserted(rows, rs, storeFault, write)[id] == before[id])
  {
  }

  /** One re-shaped row that validates has the fixed location shape. */
  lemma NormaliseRowShape(d: Dict)
    ensures NormaliseRow(d).Ok? ==>
              var l := NormaliseRow(d).value.location;
              l.address2 == None && l.address3 == None && l.displayAddress == None && l.country == Some("US")
  {
    if "location" !in d {
      RestaurantRequiredFields(d);
    } else if d["location"].JDict? {
      RestaurantLocation(d["location" := JDict(NormalLocation(d["location"].fields))]);
    }
  }

  /** Every restaurant `get_stored_restaurants` returns has the fixed location shape and a country of `US`. */
  lemma {:induction false} NormalisedShape(rows: seq<Dict>)
    ensures forall r :: r in NormaliseAll(rows) ==>
              r.location.address2 == None && r.location.address3 == None
              && r.location.displayAddress == None && r.location.country == Some("US")
    ensures |NormaliseAll(rows)| <= |rows|
    decreases |rows|
  {
    if rows != [] {
      var k := |rows| - 1;
      NormalisedShape(rows[..k]);
      NormaliseRowShape(rows[k]);
    }
  }

  /** The copied address fields: the city of a returned restaurant is the string its stored location held. */
  lemma NormalisedCopiesCity(d: Dict)
    requires NormaliseRow(d).Ok? && "location" in d
    ensures d["location"].JDict? && "city" in d["location"].fields
            && d["location"].fields["city"] == JStr(NormaliseRow(d).value.location.city)
    ensures "state" in d["location"].fields && d["location"].fields["state"] == JStr(NormaliseRow(d).value.location.state)
    ensures "zip_code" in d["location"].fields && d["location"].fields["zip_code"] == JStr(NormaliseRow(d).value.location.zipCode)
    ensures NormaliseRow(d).value.location.address1.Some? ==>
              "address1" in d["location"].fields && d["location"].fields["address1"] == JStr(NormaliseRow(d).value.location.address1.value)
  {
    RestaurantLocation(d["location" := JDict(NormalLocation(d["location"].fields))]);
  }

  /** A positive limit bounds the result; zero or no limit keeps every validated row. */
  lemma LimitBounds(s: seq<Restaurant>, limit: Option<int>)
    ensures limit.Some? && limit.value > 0 ==> |ApplyLimit(s, limit)| <= limit.value
    ensures (limit.None? || limit.value == 0) ==> ApplyLimit(s, limit) == s
    ensures ApplyLimit(s, limit) <= s
  {
  }

  /** A negative limit, as Python slicing reads it, drops rows from the end. */
  lemma NegativeLimitDropsFromEnd()
    ensures ApplyLimit([1, 2, 3], Some(-1)) == [1, 2]
  {
  }

  class RestaurantDB {
    var rows: map<string, Dict>

    constructor ()
      ensures rows == map[]
    {
      rows := map[];
    }

    /** `create_restaurant`: stores the dumped record, or raises with its prefix and stores nothing. */
    method CreateRestaurant(restaurant: Restaurant, storeFault: Option<string>) returns (r: Result<Dict, string>)
      modifies this
      ensures storeFault.None? ==> r == Ok(DumpRestaurant(restaurant)) && rows == old(rows)[restaurant.businessId := DumpRestaurant(restaurant)]
      ensures storeFault.Some? ==> r == Err(CreatePrefix + storeFault.value) && rows == old(rows)
    {
      var data := DumpRestaurant(restaurant);
      if storeFault.Some? {
        return Err(CreatePrefix + storeFault.value);
      }
      rows := rows[restaurant.businessId := data];
      return Ok(data);
    }

    /** `get_restaurant`: the cached record when there is one, else the directory's answer, cached. */
    method GetRestaurant(businessId: string, readFault: Option<string>,
                         yelp: Result<Option<Restaurant>, string>, storeFault: Option<string>)
      returns (r: Result<Option<Restaurant>, string>)
      modifies this
      ensures readFault.Some? ==> r == Err(GetPrefix + readFault.value) && rows == old(rows)
      ensures readFault.None? && businessId in old(rows) && old(rows)[businessId] != map[] ==>
                rows == old(rows)
                && r == (match ParseRestaurant(old(rows)[businessId])
                         case Ok(x) => Ok(Some(x))
                         case Err(m) => Err(GetPrefix + m))
      ensures readFault.None? && (businessId !in old(rows) || old(rows)[businessId] == map[]) ==>
                match yelp
                case Err(m) => r == Err(GetPrefix + m) && rows == old(rows)
                case Ok(None) => r == Ok(None) && rows == old(rows)
                case Ok(Some(x)) =>
                  if storeFault.Some? then r == Err(GetPrefix + CreatePrefix + storeFault.value) && rows == old(rows)
                  else r == Ok(Some(x)) && rows == old(rows)[x.businessId := DumpRestaurant(x)]
    {
      if readFault.Some? {
        return Err(GetPrefix + readFault.value);
      }
      if businessId in rows && rows[businessId] != map[] {
        var parsed := ParseRestaurant(rows[businessId]);
        if parsed.Err? {
          return Err(GetPrefix + parsed.error);
        }
        return Ok(Some(parsed.value));
      }
      if yelp.Err? {
        return Err(GetPrefix + yelp.error);
      }
      if yelp.value.None? {
        return Ok(None);
      }
      var restaurant := yelp.value.value;
      var created := CreateRestaurant(restaurant, storeFault);
      if created.Err? {
        assert GetPrefix + created.error == GetPrefix + CreatePrefix + storeFault.value;
        return Err(GetPrefix + created.error);
      }
      return Ok(Some(restaurant));
    }

    /** Attempts `create_restaurant` for each restaurant in order, skipping those whose store call raises. */
    method CacheEach(rs: seq<Restaurant>, storeFault: nat -> Option<string>)
      modifies this
      ensures rows == Cached(old(rows), rs, storeFault)
    {
      var i := 0;
      while i < |rs|
        invariant 0 <= i <= |rs|
        invariant rows == Cached(old(rows), rs[..i], storeFault)
      {
        assert rs[..i + 1][..i] == rs[..i];
        var created := CreateRestaurant(rs[i], storeFault(i));
        i := i + 1;
      }
      assert rs[..i] == rs;
    }

    /** `search_restaurants`: the directory's full list, returned unchanged after each entry was offered to the cache. */
    method SearchRestaurants(yelp: Result<seq<Restaurant>, string>, storeFault: nat -> Option<string>)
      returns (r: Result<seq<Restaurant>, string>)
      modifies this
      ensures yelp.Err? ==> r == Err(SearchPrefix + yelp.error) && rows == old(rows)
      ensures yelp.Ok? ==> r == yelp && rows == Cached(old(rows), yelp.value, storeFault)
    {
      if yelp.Err? {
        return Err(SearchPrefix + yelp.error);
      }
      CacheEach(yelp.value, storeFault);
      return yelp;
    }

    /** `search_by_phone`: stored matches without consulting the directory; only on a miss is the directory asked and its answer cached. */
    method SearchByPhone(phone: string, stored: Result<seq<Dict>, string>,
                         yelp: Result<seq<Restaurant>, string>, storeFault: nat -> Option<string>)
      returns (r: Result<seq<Restaurant>, string>)
      modifies this
      ensures stored.Err? ==> r == Err(PhonePrefix + stored.error) && rows == old(rows)
      ensures stored.Ok? && stored.value != [] ==>
                rows == old(rows)
                && r == (match ParseAll(stored.value)
                         case Ok(rs) => Ok(rs)
                         case Err(m) => Err(PhonePrefix + m))
      ensures stored == Ok([]) ==>
                (yelp.Err? ==> r == Err(PhonePrefix + yelp.error) && rows == old(rows))
                && (yelp.Ok? ==> r == yelp && rows == Cached(old(rows), yelp.value, storeFault))
    {
      if stored.Err? {
        return Err(PhonePrefix + stored.error);
      }
      if stored.value != [] {
        var parsed := ParseAll(stored.value);
        if parsed.Err? {
          return Err(PhonePrefix + parsed.error);
        }
        return Ok(parsed.value);
      }
      if yelp.Err? {
        return Err(PhonePrefix + yelp.error);
      }
      CacheEach(yelp.value, storeFault);
      return yelp;
    }
  }

  /**
   * Cache-aside in one line: a restaurant fetched from the directory and
   * cached is afterwards served from the cache, equal to what was fetched.
   */
  lemma FetchedThenServedFromCache(rows: map<string, Dict>, x: Restaurant)
    ensures var rows' := rows[x.businessId := DumpRestaurant(x)];
            x.businessId in rows' && rows'[x.businessId] != map[]
            && ParseRestaurant(rows'[x.businessId]) == Ok(x)
  {
    RestaurantRoundTrip(x);
  }
}
