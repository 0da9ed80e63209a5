/**
 * The operating-hours table of app/db/operating_hours.py. A row is the
 * store's dict; the store gives each inserted row a fresh integer `id`.
 * Every writer reads the restaurant's row first and then either updates
 * the row with that `id` or inserts a new one. Whether a store call raises
 * is an input to each operation (`readFails`, `writeFails`, `queryFails`).
 */
module OperatingHoursDb {
  import opened Wrappers
  import opened JsonValues

  datatype HoursTable = HoursTable(rows: seq<Dict>, nextId: int)

  /** Every row carries a store-assigned integer id below `nextId`, and no two rows share one. */
  ghost predicate TableValid(t: HoursTable) {
    && (forall i :: 0 <= i < |t.rows| ==> "id" in t.rows[i] && t.rows[i]["id"].JInt? && t.rows[i]["id"].i < t.nextId)
    && (forall i, j :: 0 <= i < j < |t.rows| ==> t.rows[i]["id"] != t.rows[j]["id"])
  }

  predicate RowFor(row: Dict, restaurantId: string) {
    "restaurant_id" in row && row["restaurant_id"] == JStr(restaurantId)
  }

  /** The position of the first row of the restaurant, in store order. */
  function FirstMatch(rows: seq<Dict>, restaurantId: string): (r: Option<nat>)
    ensures r.Some? ==> r.value < |rows| && RowFor(rows[r.value], restaurantId)
                        && forall j :: 0 <= j < r.value ==> !RowFor(rows[j], restaurantId)
    ensures r.None? ==> forall j :: 0 <= j < |rows| ==> !RowFor(rows[j], restaurantId)
  {
    if rows == [] then None
    else if RowFor(rows[0], restaurantId) then Some(0)
    else match FirstMatch(rows[1..], restaurantId)
      case None => None
      case Some(k) => Some(k + 1)
  }

  /** `get_hours`: the first matching row, or None when there is none or the query raises. */
  function HoursOf(t: HoursTable, restaurantId: string, readFails: bool): (r: Option<Dict>)
    ensures readFails ==> r.None?
    ensures r.Some? ==> r.value in t.rows && RowFor(r.value, restaurantId)
  {
    if readFails then None
    else match FirstMatch(t.rows, restaurantId)
      case None => None
      case Some(i) => Some(t.rows[i])
  }

  /** `.update(data).eq('id', id)`: every row with that id gets the keys of `data` overwritten; other keys stay. */
  function MergeWhereId(rows: seq<Dict>, id: Json, data: Dict): (r: seq<Dict>)
    ensures |r| == |rows|
    ensures forall i :: 0 <= i < |rows| ==>
              r[i] == if "id" in rows[i] && rows[i]["id"] == id then rows[i] + data else rows[i]
  {
    seq(|rows|, i requires 0 <= i < |rows| => if "id" in rows[i] && rows[i]["id"] == id then rows[i] + data else rows[i])
  }

  datatype WriteResult = WriteResult(ok: bool, table: HoursTable)

  /**
   * The shared read-then-insert-or-update step of the three writers. A
   * raised write leaves the table unchanged and reports false; so does a
   * row found without an `id` (the KeyError is caught the same way).
   */
  function Upsert(t: HoursTable, restaurantId: string, data: Dict, readFails: bool, writeFails: bool): WriteResult {
    match HoursOf(t, restaurantId, readFails)
    case Some(existing) =>
      if writeFails || "id" !in existing then WriteResult(false, t)
      else WriteResult(true, t.(rows := MergeWhereId(t.rows, existing["id"], data)))
    case None =>
      if writeFails then WriteResult(false, t)
      else WriteResult(true, HoursTable(t.rows + [data["id" := JInt(t.nextId)]], t.nextId + 1))
  }

  function HoursData(restaurantId: string, timeOpen: Json, timeClosed: Json, isOpen: Json): Dict {
    map[
      "restaurant_id" := JStr(restaurantId),
      "time_open" := timeOpen,
      "time_closed" := timeClosed,
      "is_open" := isOpen,
      "is_hours_verified" := JBool(true),
      "is_consenting" := JBool(true)
    ]
  }

  function UnverifiedData(restaurantId: string): Dict {
    map["restaurant_id" := JStr(restaurantId), "is_hours_verified" := JBool(false)]
  }

  function ConsentData(restaurantId: string, isConsenting: bool): Dict {
    map["restaurant_id" := JStr(restaurantId), "is_consenting" := JBool(isConsenting)]
  }

  /** `update_hours` as a function of the table. */
  function UpdateHoursSpec(t: HoursTable, restaurantId: string, timeOpen: Json, timeClosed: Json, isOpen: Json,
                           readFails: bool, writeFails: bool): WriteResult {
    Upsert(t, restaurantId, HoursData(restaurantId, timeOpen, timeClosed, isOpen), readFails, writeFails)
  }

  /** `get_hours_bulk` over the rows a successful `.in_('business_id', ids)` query returns, in store order. */
  function BulkMap(rows: seq<Dict>, ids: seq<string>): map<string, Dict>
    decreases |rows|
  {
    if rows == [] then map[]
    else
      var last := rows[|rows| - 1];
      var earlier := BulkMap(rows[..|rows| - 1], ids);
      if "business_id" in last && last["business_id"].JStr? && last["business_id"].s in ids
      then earlier[last["business_id"].s := last]
      else earlier
  }

  function BulkSpec(t: HoursTable, ids: seq<string>, queryFails: bool): map<string, Dict> {
    if ids == [] || queryFails then map[] else BulkMap(t.rows, ids)
  }

  // ---------------------------------------------------------------------------
  // Properties of the writers

  /** At most one row per restaurant id. */
  ghost predicate OneRowPerRestaurant(rows: seq<Dict>) {
    forall i, j :: 0 <= i < j < |rows| && "restaurant_id" in rows[i] && "restaurant_id" in rows[j]
      ==> rows[i]["restaurant_id"] != rows[j]["restaurant_id"]
  }

  lemma {:induction false} MergeKeepsIds(rows: seq<Dict>, id: Json, data: Dict)
    requires "id" !in data
    ensures forall i :: 0 <= i < |rows| ==> ("id" in MergeWhereId(rows, id, data)[i] <==> "id" in rows[i])
    ensures forall i :: 0 <= i < |rows| && "id" in rows[i] ==> MergeWhereId(rows, id, data)[i]["id"] == rows[i]["id"]
  {
  }

  /** The row a successful write leaves as the restaurant's first row: the old one overlaid with `data`, or a fresh one. */
  function WrittenRow(t: HoursTable, restaurantId: string, data: Dict): Dict {
    match HoursOf(t, restaurantId, false)
    case Some(existing) => existing + data
    case None => data["id" := JInt(t.nextId)]
  }

  /**
   * A successful write whose read succeeded makes `WrittenRow` the
   * restaurant's first row, adds a row only when the restaurant had none,
   * and changes no row of another restaurant.
   */
  lemma UpsertThenGet(t: HoursTable, restaurantId: string, data: Dict)
    requires TableValid(t) && "id" !in data && "restaurant_id" in data && data["restaurant_id"] == JStr(restaurantId)
    ensures Upsert(t, restaurantId, data, false, false).ok
    ensures HoursOf(Upsert(t, restaurantId, data, false, false).table, restaurantId, false) == Some(WrittenRow(t, restaurantId, data))
    ensures |Upsert(t, restaurantId, data, false, false).table.rows|
            == if HoursOf(t, restaurantId, false).Some? then |t.rows| else |t.rows| + 1
    ensures forall i :: 0 <= i < |t.rows| && !RowFor(t.rows[i], restaurantId) ==>
              Upsert(t, restaurantId, data, false, false).table.rows[i] == t.rows[i]
  {
    var rows' := Upsert(t, restaurantId, data, false, false).table.rows;
    match FirstMatch(t.rows, restaurantId)
    case Some(i) =>
      var id := t.rows[i]["id"];
      assert rows' == MergeWhereId(t.rows, id, data);
      forall j | 0 <= j < |t.rows| && j != i
        ensures rows'[j] == t.rows[j]
      {
      }
      FirstMatchIs(rows', restaurantId, i);
    case None =>
      assert rows' == t.rows + [data["id" := JInt(t.nextId)]];
      FirstMatchIs(rows', restaurantId, |t.rows|);
  }

  /** Keys that a write names take the written value, whatever the row held before. */
  lemma OverlayValues(base: Dict, data: Dict, k: string)
    requires k in data
    ensures k in base + data && (base + data)[k] == data[k]
  {
  }

  lemma {:induction false} FirstMatchIs(rows: seq<Dict>, restaurantId: string, i: nat)
    requires i < |rows| && RowFor(rows[i], restaurantId)
    requires forall j :: 0 <= j < i ==> !RowFor(rows[j], restaurantId)
    ensures FirstMatch(rows, restaurantId) == Some(i)
  {
    if i > 0 {
      FirstMatchIs(rows[1..], restaurantId, i - 1);
    }
  }

  /** After a successful `update_hours` whose read succeeded, the restaurant's row holds exactly what was written, verified and consenting. */
  lemma UpdateHoursThenGet(t: HoursTable, restaurantId: string, timeOpen: Json, timeClosed: Json, isOpen: Json)
    requires TableValid(t)
    ensures UpdateHoursSpec(t, restaurantId, timeOpen, timeClosed, isOpen, false, false).ok
    ensures var now := HoursOf(UpdateHoursSpec(t, restaurantId, timeOpen, timeClosed, isOpen, false, false).table, restaurantId, false);
            && now.Some?
            && "time_open" in now.value && "time_closed" in now.value && "is_open" in now.value
            && "is_hours_verified" in now.value && "is_consenting" in now.value
            && now.value["time_open"] == timeOpen && now.value["time_closed"] == timeClosed
            && now.value["is_open"] == isOpen
            && now.value["is_hours_verified"] == JBool(true) && now.value["is_consenting"] == JBool(true)
  {
    var data := HoursData(restaurantId, timeOpen, timeClosed, isOpen);
    UpsertThenGet(t, restaurantId, data);
    var row := WrittenRow(t, restaurantId, data);
    var base := if HoursOf(t, restaurantId, false).Some? then HoursOf(t, restaurantId, false).value else map["id" := JInt(t.nextId)];
    assert row == base + data;
    OverlayValues(base, data, "time_open");
    OverlayValues(base, data, "time_closed");
    OverlayValues(base, data, "is_open");
    OverlayValues(base, data, "is_hours_verified");
    OverlayValues(base, data, "is_consenting");
  }

  /** `mark_hours_unverified` on an existing row changes the verified flag and nothing else in it. */
  lemma MarkUnverifiedKeepsOtherFields(t: HoursTable, restaurantId: string)
    requires TableValid(t) && HoursOf(t, restaurantId, false).Some?
    ensures var before := HoursOf(t, restaurantId, false).value;
            var after := HoursOf(Upsert(t, restaurantId, UnverifiedData(restaurantId), false, false).table, restaurantId, false);
            && after.Some?
            && "is_hours_verified" in after.value && after.value["is_hours_verified"] == JBool(false)
            && forall k :: k != "is_hours_verified" ==> (k in after.value <==> k in before) && (k in before ==> after.value[k] == before[k])
  {
    UpsertThenGet(t, restaurantId, UnverifiedData(restaurantId));
  }

  /** `update_consent` on an existing row changes the consent flag and nothing else in it. */
  lemma UpdateConsentKeepsOtherFields(t: HoursTable, restaurantId: string, isConsenting: bool)
    requires TableValid(t) && HoursOf(t, restaurantId, false).Some?
    ensures var before := HoursOf(t, restaurantId, false).value;
            var after := HoursOf(Upsert(t, restaurantId, ConsentData(restaurantId, isConsenting), false, false).table, restaurantId, false);
            && after.Some?
            && "is_consenting" in after.value && after.value["is_consenting"] == JBool(isConsenting)
            && forall k :: k != "is_consenting" ==> (k in after.value <==> k in before) && (k in before ==> after.value[k] == before[k])
  {
    UpsertThenGet(t, restaurantId, ConsentData(restaurantId, isConsenting));
  }

  /** When the read succeeds, a writer never creates a second row for a restaurant. */
  lemma UpsertKeepsOneRowPerRestaurant(t: HoursTable, restaurantId: string, data: Dict, writeFails: bool)
    requires TableValid(t) && OneRowPerRestaurant(t.rows)
    requires "id" !in data && "restaurant_id" in data && data["restaurant_id"] == JStr(restaurantId)
    ensures OneRowPerRestaurant(Upsert(t, restaurantId, data, false, writeFails).table.rows)
  {
    if !writeFails {
      var rows' := Upsert(t, restaurantId, data, false, writeFails).table.rows;
      UpsertThenGet(t, restaurantId, data);
      match FirstMatch(t.rows, restaurantId)
      case Some(i) =>
        forall a, b | 0 <= a < b < |rows'| && "restaurant_id" in rows'[a] && "restaurant_id" in rows'[b]
          ensures rows'[a]["restaurant_id"] != rows'[b]["restaurant_id"]
        {
          assert a != i ==> rows'[a] == t.rows[a];
          assert b != i ==> rows'[b] == t.rows[b];
        }
      case None =>
    }
  }

  /** The uniqueness above depends on the read: a read that raises lets the writer insert a duplicate row. */
  lemma ReadFailureDuplicatesRow()
    ensures var row := map["id" := JInt(0), "restaurant_id" := JStr("R1")];
            var t := HoursTable([row], 1);
            && TableValid(t) && OneRowPerRestaurant(t.rows)
            && !OneRowPerRestaurant(Upsert(t, "R1", UnverifiedData("R1"), true, false).table.rows)
  {
    var row := map["id" := JInt(0), "restaurant_id" := JStr("R1")];
    var t := HoursTable([row], 1);
    var rows' := Upsert(t, "R1", UnverifiedData("R1"), true, false).table.rows;
    assert rows'[0]["restaurant_id"] == rows'[1]["restaurant_id"];
  }

  /** A write that raises changes nothing and reports false. */
  lemma FailedWriteChangesNothing(t: HoursTable, restaurantId: string, data: Dict, readFails: bool)
    ensures Upsert(t, restaurantId, data, readFails, true) == WriteResult(false, t)
  {
  }

  predicate CarriesId(row: Dict, key: string) {
    "business_id" in row && row["business_id"] == JStr(key)
  }

  /** The last position whose row carries `key` as its business id. */
  function LastCarrying(rows: seq<Dict>, key: string): (r: Option<nat>)
    ensures r.Some? ==> r.value < |rows| && CarriesId(rows[r.value], key)
                        && forall j :: r.value < j < |rows| ==> !CarriesId(rows[j], key)
    ensures r.None? ==> forall j :: 0 <= j < |rows| ==> !CarriesId(rows[j], key)
    decreases |rows|
  {
    if rows == [] then None
    else if CarriesId(rows[|rows| - 1], key) then Some(|rows| - 1)
    else LastCarrying(rows[..|rows| - 1], key)
  }

  /** What `get_hours_bulk` maps a business id to: the last returned row carrying it, if it was requested. */
  lemma {:induction false} BulkMapContents(rows: seq<Dict>, ids: seq<string>, key: string)
    ensures key in BulkMap(rows, ids) <==> key in ids && LastCarrying(rows, key).Some?
    ensures key in BulkMap(rows, ids) ==> BulkMap(rows, ids)[key] == rows[LastCarrying(rows, key).value]
    decreases |rows|
  {
    if rows != [] {
      var init := rows[..|rows| - 1];
      BulkMapContents(init, ids, key);
      if LastCarrying(init, key).Some? {
        assert init[LastCarrying(init, key).value] == rows[LastCarrying(init, key).value];
      }
    }
  }

  /** Empty input or a failing query gives the empty map; every key is a requested id. */
  lemma BulkSpecBounds(t: HoursTable, ids: seq<string>, queryFails: bool)
    ensures ids == [] || queryFails ==> BulkSpec(t, ids, queryFails) == map[]
    ensures forall k :: k in BulkSpec(t, ids, queryFails) ==> k in ids
  {
    forall k | k in BulkSpec(t, ids, queryFails)
      ensures k in ids
    {
      BulkMapContents(t.rows, ids, k);
    }
  }

  class OperatingHoursDB {
    var table: HoursTable

    ghost predicate Valid()
      reads this
    {
      TableValid(table)
    }

    constructor ()
      ensures Valid() && table == HoursTable([], 0)
    {
      table := HoursTable([], 0);
    }

    method GetHours(restaurantId: string, readFails: bool) returns (r: Option<Dict>)
      ensures r.Some? ==> !readFails && (exists i :: 0 <= i < |table.rows| && table.rows[i] == r.value
                                                     && RowFor(r.value, restaurantId)
                                                     && forall j :: 0 <= j < i ==> !RowFor(table.rows[j], restaurantId))
      ensures r.None? ==> readFails || forall j :: 0 <= j < |table.rows| ==> !RowFor(table.rows[j], restaurantId)
    {
      if readFails {
        return None;
      }
      var i := 0;
      while i < |table.rows|
        invariant 0 <= i <= |table.rows|
        invariant forall j :: 0 <= j < i ==> !RowFor(table.rows[j], restaurantId)
      {
        if RowFor(table.rows[i], restaurantId) {
          return Some(table.rows[i]);
        }
        i := i + 1;
      }
      return None;
    }

    method Write(restaurantId: string, data: Dict, readFails: bool, writeFails: bool) returns (ok: bool)
      requires Valid() && "id" !in data
      modifies this
      ensures Valid()
      ensures WriteResult(ok, table) == Upsert(old(table), restaurantId, data, readFails, writeFails)
    {
      var existing := GetHours(restaurantId, readFails);
      assert existing == HoursOf(table, restaurantId, readFails) by {
        if existing.Some? {
          var i :| 0 <= i < |table.rows| && table.rows[i] == existing.value && RowFor(existing.value, restaurantId)
                   && forall j :: 0 <= j < i ==> !RowFor(table.rows[j], restaurantId);
          assert FirstMatch(table.rows, restaurantId) == Some(i);
        }
      }
      if writeFails {
        return false;
      }
      if existing.Some? {
        if "id" !in existing.value {
          return false;
        }
        table := table.(rows := MergeWhereId(table.rows, existing.value["id"], data));
        assert forall i :: 0 <= i < |table.rows| ==> table.rows[i]["id"] == old(table).rows[i]["id"];
      } else {
        table := HoursTable(table.rows + [data["id" := JInt(table.nextId)]], table.nextId + 1);
      }
      return true;
    }

    /** `update_hours`: writes the given times and open state, verified and consenting. */
    method UpdateHours(restaurantId: string, timeOpen: Json, timeClosed: Json, isOpen: Json,
                       readFails: bool, writeFails: bool) returns (ok: bool)
      requires Valid()
      modifies this
      ensures Valid()
      ensures WriteResult(ok, table) == UpdateHoursSpec(old(table), restaurantId, timeOpen, timeClosed, isOpen, readFails, writeFails)
      ensures ok <==> !writeFails
    {
      ok := Write(restaurantId, HoursData(restaurantId, timeOpen, timeClosed, isOpen), readFails, writeFails);
    }

    /** `mark_hours_unverified`: writes only the restaurant id and `is_hours_verified = False`. */
    method MarkHoursUnverified(restaurantId: string, readFails: bool, writeFails: bool) returns (ok: bool)
      requires Valid()
      modifies this
      ensures Valid()
      ensures WriteResult(ok, table) == Upsert(old(table), restaurantId, UnverifiedData(restaurantId), readFails, writeFails)
      ensures ok <==> !writeFails
    {
      ok := Write(restaurantId, UnverifiedData(restaurantId), readFails, writeFails);
    }

    /** `update_consent`: writes only the restaurant id and the consent flag. */
    method UpdateConsent(restaurantId: string, isConsenting: bool, readFails: bool, writeFails: bool) returns (ok: bool)
      requires Valid()
      modifies this
      ensures Valid()
      ensures WriteResult(ok, table) == Upsert(old(table), restaurantId, ConsentData(restaurantId, isConsenting), readFails, writeFails)
      ensures ok <==> !writeFails
    {
      ok := Write(restaurantId, ConsentData(restaurantId, isConsenting), readFails, writeFails);
    }

    /** `get_hours_bulk`: fills the map row by row, a later row overwriting an earlier one with the same key. */
    method GetHoursBulk(ids: seq<string>, queryFails: bool) returns (hoursMap: map<string, Dict>)
      ensures hoursMap == BulkSpec(table, ids, queryFails)
    {
      if ids == [] || queryFails {
        return map[];
      }
      hoursMap := map[];
      var k := 0;
      while k < |table.rows|
        invariant 0 <= k <= |table.rows|
        invariant hoursMap == BulkMap(table.rows[..k], ids)
      {
        var hours := table.rows[k];
        assert table.rows[..k + 1][..k] == table.rows[..k];
        if "business_id" in hours && hours["business_id"].JStr? && hours["business_id"].s in ids {
          hoursMap := hoursMap[hours["business_id"].s := hours];
        }
        k := k + 1;
      }
      assert table.rows[..k] == table.rows;
    }
  }
}
