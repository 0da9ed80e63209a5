/**
 * The verification orchestrator of app/clients/vapi.py: `check_hours`,
 * which looks a restaurant up, calls it (when calls are enabled), waits for
 * the call to end, reads the call analysis and decides whether the hours
 * were verified; and `dispatch_calls`, one tick of the dispatch loop, which
 * runs `check_hours` on up to five restaurants still lacking verified hours.
 *
 * The hours store is the `OperatingHoursDB` object the orchestrator writes
 * through. The restaurant update that `check_hours` requests is never
 * awaited in the source, so it is reported as data (`CheckReport.update`)
 * and the restaurant store is not changed.
 */
module Verification {
  import opened Wrappers
  import opened JsonValues
  import opened BaseModels
  import opened OperatingHoursDb
  import opened RestaurantsDb
  import opened VapiClient
  import opened Text

  /** The HTTP error `check_hours` raises for every failure. */
  datatype HttpError = HttpError(status: int, detail: string)

  const InternalError := 500
  const EarliestHour := 8
  const BatchSize := 5
  const PhoneTypeError := "expected string or bytes-like object, got 'NoneType'"
  const NoFieldError := "\"Restaurant\" object has no field \"is_hours_verified\""

  /** What the vendor and the hours store answer during one `check_hours`. */
  datatype CallWorld = CallWorld(placement: HttpReply, polls: nat -> HttpReply, analysis: HttpReply,
                                 hoursReadFails: bool, hoursWriteFails: bool)

  datatype Decision = Verified(timeOpen: Json, timeClosed: Json, isOpen: Json) | Unverified

  /** The success evaluation and structured data a check obtained, and the decision taken on them. */
  datatype Evidence = Evidence(successEvaluation: Json, structuredData: Json, decision: Decision)

  /** The value `check_hours` returns, with the restaurant update it requested. */
  datatype CheckReport = CheckReport(successEvaluation: Json, structuredData: Json, update: Dict)

  /** The structured data used when calls are disabled. */
  const DisabledData: Json := JDict(map["time_open" := JStr("N/A"), "time_closed" := JStr("N/A"), "is_open" := JBool(false)])

  function VerifiedUpdate(timeOpen: Json, timeClosed: Json, isOpen: Json): Dict {
    map[
      "is_open" := isOpen,
      "is_hours_verified" := JBool(true),
      "operating_hours" := JDict(map["time_open" := timeOpen, "time_closed" := timeClosed, "is_open" := isOpen])
    ]
  }

  const UnverifiedUpdate: Dict := map["is_hours_verified" := JBool(false), "is_closed" := JBool(true)]

  function UpdateFor(d: Decision): Dict {
    match d
    case Verified(o, c, i) => VerifiedUpdate(o, c, i)
    case Unverified => UnverifiedUpdate
  }

  /**
   * The guard of `check_hours`, evaluated left to right with Python's
   * short-circuit: a truthy success evaluation, truthy structured data and
   * both time keys `in` it. `in` raises on a number or boolean, and the
   * values are then read with `.get`, which raises on anything but a dict.
   */
  function Decide(successEvaluation: Json, structuredData: Json): Result<Decision, string> {
    if !Truthy(successEvaluation) || !Truthy(structuredData) then Ok(Unverified)
    else
      var hasOpen :- Contains(structuredData, "time_open");
      if !hasOpen then Ok(Unverified)
      else
        var hasClosed :- Contains(structuredData, "time_closed");
        if !hasClosed then Ok(Unverified)
        else
          var timeOpen :- Get(structuredData, "time_open", JNull);
          var timeClosed :- Get(structuredData, "time_closed", JNull);
          var isOpen :- Get(structuredData, "is_open", JNull);
          Ok(Verified(timeOpen, timeClosed, isOpen))
  }

  /** The call itself: place it, wait for it, fetch its analysis and read the two entries with their defaults. */
  function CallEvidence(phone: Option<string>, world: CallWorld): Result<(Json, Json), string> {
    if phone.None? then Err(PhoneTypeError)
    else
      var callId :- MakeCall(phone.value, world.placement);
      var completedAt :- WaitSpec(world.polls, 0, DefaultMaxAttempts, 0, DefaultMaxRetries);
      var analysis :- GetCallAnalysis(world.analysis);
      var structuredData :- Get(analysis, "structuredData", JDict(map[]));
      var successEvaluation :- Get(analysis, "successEvaluation", JBool(false));
      Ok((successEvaluation, structuredData))
  }

  /** Everything `check_hours` does before it writes: lookup, call (or the disabled stand-in) and decision. */
  function Gather(restaurantId: string, enableCalls: bool, restaurants: map<string, Dict>, world: CallWorld): Result<Evidence, string> {
    var restaurant :- FindRestaurant(restaurants, restaurantId);
    var answers :- if enableCalls then CallEvidence(restaurant.phone, world) else Ok((JBool(false), DisabledData));
    var decision :- Decide(answers.0, answers.1);
    Ok(Evidence(answers.0, answers.1, decision))
  }

  /** The hours table after `check_hours`: written only on a verified decision. */
  function CheckTable(g: Result<Evidence, string>, t: HoursTable, restaurantId: string, world: CallWorld): HoursTable {
    if g.Ok? && g.value.decision.Verified? then
      var d := g.value.decision;
      UpdateHoursSpec(t, restaurantId, d.timeOpen, d.timeClosed, d.isOpen, world.hoursReadFails, world.hoursWriteFails).table
    else t
  }

  /** The outcome of `check_hours` as intended: the report with the requested update, or the failure as an HTTP 500. */
  function CheckResult(g: Result<Evidence, string>): Result<CheckReport, HttpError> {
    match g
    case Err(m) => Err(HttpError(InternalError, m))
    case Ok(e) => Ok(CheckReport(e.successEvaluation, e.structuredData, UpdateFor(e.decision)))
  }

  /**
   * The outcome as written: after the hours are written, the verified branch
   * assigns `is_hours_verified` on the restaurant record, a field the record
   * does not declare, and the validation library refuses the assignment.
   */
  function CheckResultAsWritten(g: Result<Evidence, string>): Result<CheckReport, HttpError> {
    match g
    case Err(m) => Err(HttpError(InternalError, m))
    case Ok(e) =>
      if e.decision.Verified? then Err(HttpError(InternalError, NoFieldError))
      else Ok(CheckReport(e.successEvaluation, e.structuredData, UnverifiedUpdate))
  }

  /** `check_hours` up to its decision: the lookup, then the call (or the disabled stand-in), then the decision. */
  method GatherEvidence(restaurantId: string, enableCalls: bool, restaurants: map<string, Dict>, world: CallWorld)
    returns (g: Result<Evidence, string>)
    ensures g == Gather(restaurantId, enableCalls, restaurants, world)
  {
    var restaurant := FindRestaurant(restaurants, restaurantId);
    if restaurant.Err? {
      return Err(restaurant.error);
    }
    var successEvaluation: Json, structuredData: Json;
    if enableCalls {
      var phone := restaurant.value.phone;
      if phone.None? {
        return Err(PhoneTypeError);
      }
      var callId := MakeCall(phone.value, world.placement);
      if callId.Err? {
        return Err(callId.error);
      }
      var completion := WaitForCallCompletion(world.polls, DefaultMaxAttempts, DefaultMaxRetries);
      if completion.Err? {
        return Err(completion.error);
      }
      var analysis := GetCallAnalysis(world.analysis);
      if analysis.Err? {
        return Err(analysis.error);
      }
      var sd := Get(analysis.value, "structuredData", JDict(map[]));
      if sd.Err? {
        return Err(sd.error);
      }
      var se := Get(analysis.value, "successEvaluation", JBool(false));
      successEvaluation, structuredData := se.value, sd.value;
    } else {
      successEvaluation, structuredData := JBool(false), DisabledData;
    }
    var decision := Decide(successEvaluation, structuredData);
    if decision.Err? {
      return Err(decision.error);
    }
    g := Ok(Evidence(successEvaluation, structuredData, decision.value));
  }

  /** `check_hours`, step by step, writing through `hoursDb`; any failure is raised as an HTTP 500. */
  method CheckHours(restaurantId: string, enableCalls: bool, restaurants: map<string, Dict>, world: CallWorld,
                    hoursDb: OperatingHoursDB)
    returns (r: Result<CheckReport, HttpError>)
    requires hoursDb.Valid()
    modifies hoursDb
    ensures hoursDb.Valid()
    ensures r == CheckResult(Gather(restaurantId, enableCalls, restaurants, world))
    ensures hoursDb.table == CheckTable(Gather(restaurantId, enableCalls, restaurants, world), old(hoursDb.table), restaurantId, world)
  {
    var g := GatherEvidence(restaurantId, enableCalls, restaurants, world);
    if g.Err? {
      return Err(HttpError(InternalError, g.error));
    }
    var e := g.value;
    match e.decision {
      case Verified(timeOpen, timeClosed, isOpen) =>
        var written := hoursDb.UpdateHours(restaurantId, timeOpen, timeClosed, isOpen, world.hoursReadFails, world.hoursWriteFails);
        r := Ok(CheckReport(e.successEvaluation, e.structuredData, VerifiedUpdate(timeOpen, timeClosed, isOpen)));
      case Unverified =>
        r := Ok(CheckReport(e.successEvaluation, e.structuredData, UnverifiedUpdate));
    }
  }

  // ---------------------------------------------------------------------------
  // `dispatch_calls`

  /** One restaurant taken from the batch and the outcome of checking it. */
  datatype Attempt = Attempt(businessId: Json, result: Result<CheckReport, HttpError>)

  datatype Tick = Tick(attempts: seq<Attempt>, table: HoursTable)

  /** The check of one pending row's id: an id that is not a string names no stored restaurant. */
  function AttemptResult(id: Json, enableCalls: bool, restaurants: map<string, Dict>, world: CallWorld, t: HoursTable): (Result<CheckReport, HttpError>, HoursTable) {
    if id.JStr? then
      var g := Gather(id.s, enableCalls, restaurants, world);
      (CheckResult(g), CheckTable(g, t, id.s, world))
    else (Err(HttpError(InternalError, NotFoundError)), t)
  }

  /** The same attempt over `check_hours` as written: a verified check writes its hours and then fails. */
  function AttemptResultAsWritten(id: Json, enableCalls: bool, restaurants: map<string, Dict>, world: CallWorld, t: HoursTable)
    : (Result<CheckReport, HttpError>, HoursTable)
  {
    if id.JStr? then
      var g := Gather(id.s, enableCalls, restaurants, world);
      (CheckResultAsWritten(g), CheckTable(g, t, id.s, world))
    else (Err(HttpError(InternalError, NotFoundError)), t)
  }

  /**
   * The batch from row `k` on. A row without `business_id` raises inside the
   * per-restaurant handler's own message and so ends the tick; the clock is
   * read once per restaurant, and before eight o'clock the tick ends; a
   * failed check is recorded and the next restaurant is taken.
   */
  function TickFrom(batch: seq<Dict>, k: nat, hourAt: nat -> int, enableCalls: bool, restaurants: map<string, Dict>,
                    worlds: nat -> CallWorld, t: HoursTable): Tick
    decreases |batch| - k
  {
    if k >= |batch| || "business_id" !in batch[k] || hourAt(k) < EarliestHour then Tick([], t)
    else
      var id := batch[k]["business_id"];
      var step := AttemptResult(id, enableCalls, restaurants, worlds(k), t);
      var rest := TickFrom(batch, k + 1, hourAt, enableCalls, restaurants, worlds, step.1);
      Tick([Attempt(id, step.0)] + rest.attempts, rest.table)
  }

  function Batch(rows: seq<Dict>): seq<Dict> {
    rows[..if |rows| < BatchSize then |rows| else BatchSize]
  }

  /** One tick: no pending list, an empty one, or a client without an API key ends it at once. */
  function TickSpec(pending: Result<seq<Dict>, string>, apiKey: Option<string>, hourAt: nat -> int, enableCalls: bool,
                    restaurants: map<string, Dict>, worlds: nat -> CallWorld, t: HoursTable): Tick {
    if PendingRows(pending).Err? || pending.value == [] || NewClient(apiKey).Err? then Tick([], t)
    else TickFrom(Batch(pending.value), 0, hourAt, enableCalls, restaurants, worlds, t)
  }

  /** The check of one pending row, writing through `hoursDb`. */
  method CheckOne(id: Json, enableCalls: bool, restaurants: map<string, Dict>, world: CallWorld, hoursDb: OperatingHoursDB)
    returns (result: Result<CheckReport, HttpError>)
    requires hoursDb.Valid()
    modifies hoursDb
    ensures hoursDb.Valid()
    ensures (result, hoursDb.table) == AttemptResult(id, enableCalls, restaurants, world, old(hoursDb.table))
  {
    if id.JStr? {
      result := CheckHours(id.s, enableCalls, restaurants, world, hoursDb);
    } else {
      result := Err(HttpError(InternalError, NotFoundError));
    }
  }

  lemma TickFromStops(batch: seq<Dict>, k: nat, hourAt: nat -> int, enableCalls: bool, restaurants: map<string, Dict>,
                      worlds: nat -> CallWorld, t: HoursTable)
    requires k < |batch| && ("business_id" !in batch[k] || hourAt(k) < EarliestHour)
    ensures TickFrom(batch, k, hourAt, enableCalls, restaurants, worlds, t) == Tick([], t)
  {
  }

  lemma TickFromSteps(batch: seq<Dict>, k: nat, hourAt: nat -> int, enableCalls: bool, restaurants: map<string, Dict>,
                      worlds: nat -> CallWorld, t: HoursTable)
    requires k < |batch| && "business_id" in batch[k] && hourAt(k) >= EarliestHour
    ensures var step := AttemptResult(batch[k]["business_id"], enableCalls, restaurants, worlds(k), t);
            var rest := TickFrom(batch, k + 1, hourAt, enableCalls, restaurants, worlds, step.1);
            TickFrom(batch, k, hourAt, enableCalls, restaurants, worlds, t)
              == Tick([Attempt(batch[k]["business_id"], step.0)] + rest.attempts, rest.table)
  {
  }

  /** One checked row carries the loop's account of the tick over to the next row. */
  lemma TickResumes(done: seq<Attempt>, batch: seq<Dict>, k: nat, hourAt: nat -> int, enableCalls: bool,
                    restaurants: map<string, Dict>, worlds: nat -> CallWorld, before: HoursTable,
                    result: Result<CheckReport, HttpError>, after: HoursTable, goal: Tick)
    requires k < |batch| && "business_id" in batch[k] && hourAt(k) >= EarliestHour
    requires (result, after) == AttemptResult(batch[k]["business_id"], enableCalls, restaurants, worlds(k), before)
    requires done + TickFrom(batch, k, hourAt, enableCalls, restaurants, worlds, before).attempts == goal.attempts
    requires TickFrom(batch, k, hourAt, enableCalls, restaurants, worlds, before).table == goal.table
    ensures (done + [Attempt(batch[k]["business_id"], result)])
            + TickFrom(batch, k + 1, hourAt, enableCalls, restaurants, worlds, after).attempts == goal.attempts
    ensures TickFrom(batch, k + 1, hourAt, enableCalls, restaurants, worlds, after).table == goal.table
  {
    TickFromSteps(batch, k, hourAt, enableCalls, restaurants, worlds, before);
    var rest := TickFrom(batch, k + 1, hourAt, enableCalls, restaurants, worlds, after);
    var attempt := Attempt(batch[k]["business_id"], result);
    assert done + ([attempt] + rest.attempts) == (done + [attempt]) + rest.attempts;
  }

  /** `dispatch_calls` over the store's pending list; `worlds(k)` answers the `k`-th check. */
  method DispatchCalls(pending: Result<seq<Dict>, string>, apiKey: Option<string>, hourAt: nat -> int, enableCalls: bool,
                       restaurants: map<string, Dict>, worlds: nat -> CallWorld, hoursDb: OperatingHoursDB)
    returns (attempts: seq<Attempt>)
    requires hoursDb.Valid()
    modifies hoursDb
    ensures hoursDb.Valid()
    ensures Tick(attempts, hoursDb.table) == TickSpec(pending, apiKey, hourAt, enableCalls, restaurants, worlds, old(hoursDb.table))
  {
    attempts := [];
    var restaurantsWithoutHours := PendingRows(pending);
    if restaurantsWithoutHours.Err? || restaurantsWithoutHours.value == [] {
      return;
    }
    var client := NewClient(apiKey);
    if client.Err? {
      return;
    }
    attempts := DispatchBatch(Batch(restaurantsWithoutHours.value), hourAt, enableCalls, restaurants, worlds, hoursDb);
  }

  /** The loop of `dispatch_calls` over one batch. */
  method DispatchBatch(batch: seq<Dict>, hourAt: nat -> int, enableCalls: bool,
                       restaurants: map<string, Dict>, worlds: nat -> CallWorld, hoursDb: OperatingHoursDB)
    returns (attempts: seq<Attempt>)
    requires hoursDb.Valid()
    modifies hoursDb
    ensures hoursDb.Valid()
    ensures Tick(attempts, hoursDb.table) == TickFrom(batch, 0, hourAt, enableCalls, restaurants, worlds, old(hoursDb.table))
  {
    attempts := [];
    ghost var goal := TickFrom(batch, 0, hourAt, enableCalls, restaurants, worlds, hoursDb.table);
    var i := 0;
    while i < |batch|
      invariant 0 <= i <= |batch|
      invariant hoursDb.Valid()
      invariant attempts + TickFrom(batch, i, hourAt, enableCalls, restaurants, worlds, hoursDb.table).attempts == goal.attempts
      invariant TickFrom(batch, i, hourAt, enableCalls, restaurants, worlds, hoursDb.table).table == goal.table
    {
      if "business_id" !in batch[i] || hourAt(i) < EarliestHour {
        TickFromStops(batch, i, hourAt, enableCalls, restaurants, worlds, hoursDb.table);
        assert attempts + [] == attempts;
        return;
      }
      var id := batch[i]["business_id"];
      ghost var before := hoursDb.table;
      var result := CheckOne(id, enableCalls, restaurants, worlds(i), hoursDb);
      TickResumes(attempts, batch, i, hourAt, enableCalls, restaurants, worlds, before, result, hoursDb.table, goal);
      attempts := attempts + [Attempt(id, result)];
      i := i + 1;
    }
    assert attempts + [] == attempts;
  }

  // ---------------------------------------------------------------------------
  // Properties of the decision

  /** On a dict, hours count as verified exactly when the evaluation is truthy and both time keys are present; the values are read from it. */
  lemma DecideOnDict(successEvaluation: Json, fields: Dict)
    ensures var r := Decide(successEvaluation, JDict(fields));
            r.Ok?
            && (r.value.Verified? <==> Truthy(successEvaluation) && "time_open" in fields && "time_closed" in fields)
            && (r.value.Verified? ==> r.value == Verified(fields["time_open"], fields["time_closed"], DictGet(fields, "is_open", JNull)))
  {
  }

  /** A falsy evaluation or falsy structured data is never verified and never raises. */
  lemma DecideFalsyIsUnverified(successEvaluation: Json, structuredData: Json)
    requires !Truthy(successEvaluation) || !Truthy(structuredData)
    ensures Decide(successEvaluation, structuredData) == Ok(Unverified)
  {
  }

  /** Truthy structured data that is a number or boolean makes the key test raise. */
  lemma DecideScalarRaises(successEvaluation: Json, structuredData: Json)
    requires Truthy(successEvaluation) && Truthy(structuredData)
    requires structuredData.JInt? || structuredData.JFloat? || structuredData.JBool?
    ensures Decide(successEvaluation, structuredData).Err?
  {
  }

  /** A string or list that contains both keys passes the key test and then raises at `.get`. */
  lemma DecideNonDictWithKeysRaises(successEvaluation: Json, structuredData: Json)
    requires Truthy(successEvaluation)
    requires (structuredData.JStr? && HasInfix(structuredData.s, "time_open") && HasInfix(structuredData.s, "time_closed"))
             || (structuredData.JList? && JStr("time_open") in structuredData.items && JStr("time_closed") in structuredData.items)
    ensures Decide(successEvaluation, structuredData).Err?
  {
    assert Truthy(structuredData);
  }

  /** A concrete string that passes the key test: both names occur in it. */
  lemma StringWithBothKeysRaises()
    ensures Decide(JBool(true), JStr("time_open-time_closed")).Err?
  {
    var s := "time_open-time_closed";
    HasInfixAt(s, "time_open", 0);
    HasInfixAt(s, "time_closed", 10);
    DecideNonDictWithKeysRaises(JBool(true), JStr(s));
  }

  // ---------------------------------------------------------------------------
  // Properties of `check_hours`

  /** A verified check writes the hours (verified, consenting) and requests the restaurant update with them. */
  lemma VerifiedCheckWritesHours(g: Result<Evidence, string>, restaurantId: string, world: CallWorld, t: HoursTable)
    requires TableValid(t) && !world.hoursReadFails && !world.hoursWriteFails
    requires g.Ok? && g.value.decision.Verified?
    ensures var d := g.value.decision;
            var now := HoursOf(CheckTable(g, t, restaurantId, world), restaurantId, false);
            && now.Some?
            && "time_open" in now.value && "time_closed" in now.value && "is_open" in now.value
            && "is_hours_verified" in now.value && "is_consenting" in now.value
            && now.value["time_open"] == d.timeOpen && now.value["time_closed"] == d.timeClosed && now.value["is_open"] == d.isOpen
            && now.value["is_hours_verified"] == JBool(true) && now.value["is_consenting"] == JBool(true)
            && CheckResult(g).Ok?
            && "is_hours_verified" in CheckResult(g).value.update && "is_open" in CheckResult(g).value.update
            && CheckResult(g).value.update["is_hours_verified"] == JBool(true)
            && CheckResult(g).value.update["is_open"] == d.isOpen
  {
    var d := g.value.decision;
    UpdateHoursThenGet(t, restaurantId, d.timeOpen, d.timeClosed, d.isOpen);
  }

  /** Any check that is not verified leaves the hours table as it was; when it completes it requests "unverified and closed". */
  lemma UnverifiedCheckLeavesHours(g: Result<Evidence, string>, restaurantId: string, world: CallWorld, t: HoursTable)
    requires !(g.Ok? && g.value.decision.Verified?)
    ensures CheckTable(g, t, restaurantId, world) == t
    ensures CheckResult(g).Ok? ==> CheckResult(g).value.update == UnverifiedUpdate
    ensures CheckResult(g).Err? ==> CheckResult(g).error.status == InternalError
  {
  }

  /** The update a completed check requests tells the two outcomes apart: only a verified one carries the hours. */
  lemma UpdatesDiffer(timeOpen: Json, timeClosed: Json, isOpen: Json)
    ensures VerifiedUpdate(timeOpen, timeClosed, isOpen) != UnverifiedUpdate
  {
    assert "operating_hours" in VerifiedUpdate(timeOpen, timeClosed, isOpen);
    assert "operating_hours" !in UnverifiedUpdate;
  }

  /** An unknown restaurant fails with an HTTP 500 before anything is called or written. */
  lemma UnknownRestaurantFails(restaurantId: string, enableCalls: bool, restaurants: map<string, Dict>, world: CallWorld, t: HoursTable)
    requires restaurantId !in restaurants
    ensures var g := Gather(restaurantId, enableCalls, restaurants, world);
            CheckResult(g).Err? && CheckResult(g).error.status == InternalError && CheckTable(g, t, restaurantId, world) == t
  {
  }

  /** With calls disabled no restaurant is ever verified: a stored restaurant gets the unverified update and the hours are untouched. */
  lemma DisabledCallsNeverVerify(restaurantId: string, restaurants: map<string, Dict>, world: CallWorld, t: HoursTable)
    ensures var g := Gather(restaurantId, false, restaurants, world);
            CheckTable(g, t, restaurantId, world) == t
            && (FindRestaurant(restaurants, restaurantId).Ok? ==>
                  CheckResult(g) == Ok(CheckReport(JBool(false), DisabledData, UnverifiedUpdate)))
  {
  }

  /** A restaurant with no phone number cannot be called: the check fails and nothing is written. */
  lemma MissingPhoneFails(restaurantId: string, restaurants: map<string, Dict>, world: CallWorld, t: HoursTable)
    requires FindRestaurant(restaurants, restaurantId).Ok? && FindRestaurant(restaurants, restaurantId).value.phone.None?
    ensures var g := Gather(restaurantId, true, restaurants, world);
            CheckResult(g) == Err(HttpError(InternalError, PhoneTypeError)) && CheckTable(g, t, restaurantId, world) == t
  {
  }

  /** A call the poller gave up on (or timed out waiting for) verifies nothing. */
  lemma UnfinishedCallFails(restaurantId: string, restaurants: map<string, Dict>, world: CallWorld, t: HoursTable)
    requires WaitSpec(world.polls, 0, DefaultMaxAttempts, 0, DefaultMaxRetries).Err?
    ensures var g := Gather(restaurantId, true, restaurants, world);
            CheckResult(g).Err? && CheckTable(g, t, restaurantId, world) == t
  {
  }

  // A worked example: restaurant R1 answers its call and reports its hours.

  function R1(): Restaurant {
    Restaurant("R1", "Example Diner", 4.5, None, Some("4155551234"),
               NewLocation("San Francisco", "CA", "94105"), Coordinates(37.0, -122.0), [], [], None, true)
  }

  function R1Hours(): Json {
    JDict(map["time_open" := JStr("9:00 AM"), "time_closed" := JStr("9:00 PM"), "is_open" := JBool(true)])
  }

  /** Every poll reports the call ended. */
  function R1Polls(k: nat): HttpReply {
    Reply(200, JDict(map["status" := JStr("ended")]), "")
  }

  function R1World(): CallWorld {
    CallWorld(
      Reply(201, JDict(map["id" := JStr("call-1")]), ""),
      R1Polls,
      Reply(200, JDict(map["analysis" := JDict(map["successEvaluation" := JBool(true), "structuredData" := R1Hours()])]), ""),
      false, false)
  }

  lemma R1Found()
    ensures FindRestaurant(map["R1" := DumpRestaurant(R1())], "R1") == Ok(R1())
  {
    RestaurantRoundTrip(R1());
  }

  lemma R1Placed()
    ensures MakeCall("4155551234", R1World().placement) == Ok(JStr("call-1"))
  {
    var phone := "4155551234";
    assert AllDigits(phone);
    assert phone[..1][0] == '4';
    FormatTenDigits(phone);
  }

  lemma R1Ended()
    ensures WaitSpec(R1World().polls, 0, DefaultMaxAttempts, 0, DefaultMaxRetries) == Ok(0)
  {
    assert GetCallStatus(R1World().polls(0)) == Ok(JStr("ended"));
  }

  function R1Analysis(): Json {
    JDict(map["successEvaluation" := JBool(true), "structuredData" := R1Hours()])
  }

  lemma R1Answers()
    ensures CallEvidence(Some("4155551234"), R1World()) == Ok((JBool(true), R1Hours()))
  {
    R1Placed();
    R1Ended();
    assert GetCallAnalysis(R1World().analysis) == Ok(R1Analysis());
    assert Get(R1Analysis(), "structuredData", JDict(map[])) == Ok(R1Hours());
    assert Get(R1Analysis(), "successEvaluation", JBool(false)) == Ok(JBool(true));
  }

  lemma R1Decides()
    ensures Decide(JBool(true), R1Hours()) == Ok(Verified(JStr("9:00 AM"), JStr("9:00 PM"), JBool(true)))
  {
    DecideOnDict(JBool(true), R1Hours().fields);
  }

  /** The successful path of a check with calls enabled, step by step. */
  lemma GatherSucceeds(restaurantId: string, restaurants: map<string, Dict>, world: CallWorld,
                       r: Restaurant, successEvaluation: Json, structuredData: Json, d: Decision)
    requires FindRestaurant(restaurants, restaurantId) == Ok(r)
    requires CallEvidence(r.phone, world) == Ok((successEvaluation, structuredData))
    requires Decide(successEvaluation, structuredData) == Ok(d)
    ensures Gather(restaurantId, true, restaurants, world) == Ok(Evidence(successEvaluation, structuredData, d))
  {
  }

  lemma R1Evidence()
    ensures Gather("R1", true, map["R1" := DumpRestaurant(R1())], R1World())
            == Ok(Evidence(JBool(true), R1Hours(), Verified(JStr("9:00 AM"), JStr("9:00 PM"), JBool(true))))
  {
    R1Found();
    R1Answers();
    R1Decides();
    assert R1().phone == Some("4155551234");
    GatherSucceeds("R1", map["R1" := DumpRestaurant(R1())], R1World(), R1(), JBool(true), R1Hours(),
                   Verified(JStr("9:00 AM"), JStr("9:00 PM"), JBool(true)));
  }

  function R1Outcome(): Result<Evidence, string> {
    Ok(Evidence(JBool(true), R1Hours(), Verified(JStr("9:00 AM"), JStr("9:00 PM"), JBool(true))))
  }

  /** The call checks out: R1's hours row holds 9:00 AM to 9:00 PM, open, verified; the update marks R1 verified and open. */
  lemma R1Verified(t: HoursTable)
    requires TableValid(t)
    ensures HoursOf(CheckTable(R1Outcome(), t, "R1", R1World()), "R1", false).Some?
    ensures var now := HoursOf(CheckTable(R1Outcome(), t, "R1", R1World()), "R1", false).value;
            "time_open" in now && "time_closed" in now && "is_open" in now && "is_hours_verified" in now
            && now["time_open"] == JStr("9:00 AM") && now["time_closed"] == JStr("9:00 PM")
            && now["is_open"] == JBool(true) && now["is_hours_verified"] == JBool(true)
    ensures CheckResult(R1Outcome()) == Ok(CheckReport(JBool(true), R1Hours(), VerifiedUpdate(JStr("9:00 AM"), JStr("9:00 PM"), JBool(true))))
  {
    var g := R1Outcome();
    assert g.Ok? && g.value.decision == Verified(JStr("9:00 AM"), JStr("9:00 PM"), JBool(true));
    VerifiedCheckWritesHours(g, "R1", R1World(), t);
  }

  /** As written, the same run (whose hours R1Verified shows written) fails with an HTTP 500, so no restaurant update is requested. */
  lemma R1FailsAsWritten()
    ensures CheckResultAsWritten(R1Outcome()) == Err(HttpError(InternalError, NoFieldError))
    ensures CheckResult(R1Outcome()).Ok?
  {
  }

  /** As written, every verified check fails after its write; the unverified and failing checks agree with the intended outcome. */
  lemma AsWrittenDiffersOnlyWhenVerified(g: Result<Evidence, string>)
    ensures (g.Ok? && g.value.decision.Verified?) ==> CheckResultAsWritten(g).Err? && CheckResult(g).Ok?
    ensures !(g.Ok? && g.value.decision.Verified?) ==> CheckResultAsWritten(g) == CheckResult(g)
  {
  }

  /**
   * As written, an attempt leaves the same hours table as the corrected one;
   * only a verified check's outcome differs: it is the HTTP 500 of the
   * rejected assignment, which the tick's handler logs as a failure.
   */
  lemma AsWrittenAttemptWritesThenFails(id: Json, enableCalls: bool, restaurants: map<string, Dict>, world: CallWorld, t: HoursTable)
    ensures AttemptResultAsWritten(id, enableCalls, restaurants, world, t).1 == AttemptResult(id, enableCalls, restaurants, world, t).1
    ensures id.JStr? && Gather(id.s, enableCalls, restaurants, world).Ok? && Gather(id.s, enableCalls, restaurants, world).value.decision.Verified? ==>
              AttemptResultAsWritten(id, enableCalls, restaurants, world, t).0 == Err(HttpError(InternalError, NoFieldError))
              && AttemptResult(id, enableCalls, restaurants, world, t).0.Ok?
    ensures !(id.JStr? && Gather(id.s, enableCalls, restaurants, world).Ok? && Gather(id.s, enableCalls, restaurants, world).value.decision.Verified?) ==>
              AttemptResultAsWritten(id, enableCalls, restaurants, world, t).0 == AttemptResult(id, enableCalls, restaurants, world, t).0
  {
    if id.JStr? {
      AsWrittenDiffersOnlyWhenVerified(Gather(id.s, enableCalls, restaurants, world));
    }
  }

  /** As written, R1's attempt in a tick is recorded as a failure although its verified hours were written. */
  lemma R1AttemptFailsAfterWrite(t: HoursTable)
    requires TableValid(t)
    ensures var step := AttemptResultAsWritten(JStr("R1"), true, map["R1" := DumpRestaurant(R1())], R1World(), t);
            Unwritten(Attempt(JStr("R1"), step.0))
            && HoursOf(step.1, "R1", false).Some?
            && "is_hours_verified" in HoursOf(step.1, "R1", false).value
            && HoursOf(step.1, "R1", false).value["is_hours_verified"] == JBool(true)
  {
    R1Evidence();
    assert Gather("R1", true, map["R1" := DumpRestaurant(R1())], R1World()) == R1Outcome();
    R1Verified(t);
    R1FailsAsWritten();
  }

  // ---------------------------------------------------------------------------
  // Properties of a dispatch tick

  /** Attempt `j` of `a` is row `k + j` of `rows`: that row has an id, the attempt checked it, and the clock read at least eight. */
  predicate TakenInOrder(a: seq<Attempt>, j: nat, rows: seq<Dict>, k: nat, hourAt: nat -> int) {
    j < |a| && k + j < |rows| && "business_id" in rows[k + j]
    && a[j].businessId == rows[k + j]["business_id"] && hourAt(k + j) >= EarliestHour
  }

  /** The attempts of a tick are the batch's rows from `k` on, in order, each with an id, each taken at eight o'clock or later. */
  lemma {:induction false} TickFromFollowsBatch(batch: seq<Dict>, k: nat, hourAt: nat -> int, enableCalls: bool,
                                                restaurants: map<string, Dict>, worlds: nat -> CallWorld, t: HoursTable)
    ensures forall j :: 0 <= j < |TickFrom(batch, k, hourAt, enableCalls, restaurants, worlds, t).attempts| ==>
              TakenInOrder(TickFrom(batch, k, hourAt, enableCalls, restaurants, worlds, t).attempts, j, batch, k, hourAt)
    decreases |batch| - k
  {
    if !(k >= |batch| || "business_id" !in batch[k] || hourAt(k) < EarliestHour) {
      var id := batch[k]["business_id"];
      var step := AttemptResult(id, enableCalls, restaurants, worlds(k), t);
      var rest := TickFrom(batch, k + 1, hourAt, enableCalls, restaurants, worlds, step.1);
      var a := TickFrom(batch, k, hourAt, enableCalls, restaurants, worlds, t).attempts;
      assert a == [Attempt(id, step.0)] + rest.attempts;
      var next := k + 1;
      TickFromFollowsBatch(batch, next, hourAt, enableCalls, restaurants, worlds, step.1);
      forall j | 0 <= j < |a|
        ensures TakenInOrder(a, j, batch, k, hourAt)
      {
        if j > 0 {
          var i := j - 1;
          assert TakenInOrder(rest.attempts, i, batch, next, hourAt);
          assert a[j] == rest.attempts[j - 1];
          assert k + 1 + (j - 1) == k + j;
        }
      }
    }
  }

  /** Every restaurant of the batch is attempted when every row has an id and the clock stays past eight: a failed check does not stop the tick. */
  lemma {:induction false} TickFromAttemptsAll(batch: seq<Dict>, k: nat, hourAt: nat -> int, enableCalls: bool,
                                               restaurants: map<string, Dict>, worlds: nat -> CallWorld, t: HoursTable)
    requires k <= |batch|
    requires forall j :: k <= j < |batch| ==> "business_id" in batch[j] && hourAt(j) >= EarliestHour
    ensures |TickFrom(batch, k, hourAt, enableCalls, restaurants, worlds, t).attempts| == |batch| - k
    decreases |batch| - k
  {
    if k < |batch| {
      var id := batch[k]["business_id"];
      var step := AttemptResult(id, enableCalls, restaurants, worlds(k), t);
      TickFromAttemptsAll(batch, k + 1, hourAt, enableCalls, restaurants, worlds, step.1);
    }
  }

  /** An attempt that failed, or completed without verifying the hours. */
  predicate Unwritten(a: Attempt) {
    a.result.Err? || a.result.value.update == UnverifiedUpdate
  }

  /** One attempt that failed or came back unverified leaves the hours table as it was. */
  lemma AttemptWritesOnlyOnVerified(id: Json, enableCalls: bool, restaurants: map<string, Dict>, world: CallWorld, t: HoursTable)
    ensures Unwritten(Attempt(id, AttemptResult(id, enableCalls, restaurants, world, t).0)) ==>
              AttemptResult(id, enableCalls, restaurants, world, t).1 == t
  {
    if id.JStr? {
      var g := Gather(id.s, enableCalls, restaurants, world);
      if g.Ok? && g.value.decision.Verified? {
        var d := g.value.decision;
        UpdatesDiffer(d.timeOpen, d.timeClosed, d.isOpen);
      }
    }
  }

  /** The hours table changes only through verified checks: a tick whose every attempt failed or was unverified writes nothing. */
  lemma {:induction false} TickFromWritesOnlyOnVerified(batch: seq<Dict>, k: nat, hourAt: nat -> int, enableCalls: bool,
                                                        restaurants: map<string, Dict>, worlds: nat -> CallWorld, t: HoursTable)
    requires forall j :: 0 <= j < |TickFrom(batch, k, hourAt, enableCalls, restaurants, worlds, t).attempts| ==>
               Unwritten(TickFrom(batch, k, hourAt, enableCalls, restaurants, worlds, t).attempts[j])
    ensures TickFrom(batch, k, hourAt, enableCalls, restaurants, worlds, t).table == t
    decreases |batch| - k
  {
    if !(k >= |batch| || "business_id" !in batch[k] || hourAt(k) < EarliestHour) {
      var id := batch[k]["business_id"];
      var step := AttemptResult(id, enableCalls, restaurants, worlds(k), t);
      var next := k + 1;
      var rest := TickFrom(batch, next, hourAt, enableCalls, restaurants, worlds, step.1);
      var all := TickFrom(batch, k, hourAt, enableCalls, restaurants, worlds, t);
      assert all == Tick([Attempt(id, step.0)] + rest.attempts, rest.table);
      assert Unwritten(all.attempts[0]);
      AttemptWritesOnlyOnVerified(id, enableCalls, restaurants, worlds(k), t);
      forall j | 0 <= j < |rest.attempts|
        ensures Unwritten(rest.attempts[j])
      {
        assert rest.attempts[j] == all.attempts[j + 1];
      }
      TickFromWritesOnlyOnVerified(batch, next, hourAt, enableCalls, restaurants, worlds, step.1);
    }
  }

  /** A tick checks at most five restaurants, in the store's order, each with an id, none before eight o'clock. */
  lemma TickBounds(pending: Result<seq<Dict>, string>, apiKey: Option<string>, hourAt: nat -> int, enableCalls: bool,
                   restaurants: map<string, Dict>, worlds: nat -> CallWorld, t: HoursTable)
    ensures |TickSpec(pending, apiKey, hourAt, enableCalls, restaurants, worlds, t).attempts| <= BatchSize
    ensures TickSpec(pending, apiKey, hourAt, enableCalls, restaurants, worlds, t).attempts != [] ==>
              pending.Ok? && apiKey.Some? && apiKey.value != ""
    ensures forall j :: 0 <= j < |TickSpec(pending, apiKey, hourAt, enableCalls, restaurants, worlds, t).attempts| ==>
              TakenInOrder(TickSpec(pending, apiKey, hourAt, enableCalls, restaurants, worlds, t).attempts, j, pending.value, 0, hourAt)
  {
    if !(PendingRows(pending).Err? || pending.value == [] || NewClient(apiKey).Err?) {
      var batch := Batch(pending.value);
      TickFromFollowsBatch(batch, 0, hourAt, enableCalls, restaurants, worlds, t);
      var a := TickSpec(pending, apiKey, hourAt, enableCalls, restaurants, worlds, t).attempts;
      assert a == TickFrom(batch, 0, hourAt, enableCalls, restaurants, worlds, t).attempts;
      forall j | 0 <= j < |a|
        ensures TakenInOrder(a, j, pending.value, 0, hourAt)
      {
        assert TakenInOrder(a, j, batch, 0, hourAt);
        assert batch[0 + j] == pending.value[0 + j];
      }
      if a != [] {
        assert TakenInOrder(a, |a| - 1, batch, 0, hourAt);
      }
    }
  }

  /** Before eight o'clock nothing is checked; past it, with ids on every row, the whole batch of up to five is. */
  lemma TickClockAndIsolation(pending: seq<Dict>, apiKey: string, hourAt: nat -> int, enableCalls: bool,
                              restaurants: map<string, Dict>, worlds: nat -> CallWorld, t: HoursTable)
    requires pending != [] && apiKey != ""
    ensures hourAt(0) < EarliestHour ==>
              TickSpec(Ok(pending), Some(apiKey), hourAt, enableCalls, restaurants, worlds, t) == Tick([], t)
    ensures (forall j :: 0 <= j < |pending| ==> "business_id" in pending[j] && hourAt(j) >= EarliestHour) ==>
              |TickSpec(Ok(pending), Some(apiKey), hourAt, enableCalls, restaurants, worlds, t).attempts|
              == if |pending| < BatchSize then |pending| else BatchSize
  {
    var batch := Batch(pending);
    if forall j :: 0 <= j < |pending| ==> "business_id" in pending[j] && hourAt(j) >= EarliestHour {
      TickFromAttemptsAll(batch, 0, hourAt, enableCalls, restaurants, worlds, t);
    }
  }

  /** A tick writes hours only if one of its attempts reported a verified update. */
  lemma TickWritesOnlyOnVerified(pending: Result<seq<Dict>, string>, apiKey: Option<string>, hourAt: nat -> int, enableCalls: bool,
                                 restaurants: map<string, Dict>, worlds: nat -> CallWorld, t: HoursTable)
    requires forall j :: 0 <= j < |TickSpec(pending, apiKey, hourAt, enableCalls, restaurants, worlds, t).attempts| ==>
               Unwritten(TickSpec(pending, apiKey, hourAt, enableCalls, restaurants, worlds, t).attempts[j])
    ensures TickSpec(pending, apiKey, hourAt, enableCalls, restaurants, worlds, t).table == t
  {
    if !(PendingRows(pending).Err? || pending.value == [] || NewClient(apiKey).Err?) {
      assert TickSpec(pending, apiKey, hourAt, enableCalls, restaurants, worlds, t)
          == TickFrom(Batch(pending.value), 0, hourAt, enableCalls, restaurants, worlds, t);
      TickFromWritesOnlyOnVerified(Batch(pending.value), 0, hourAt, enableCalls, restaurants, worlds, t);
    }
  }
}
