/**
 * The voice-call vendor client of app/clients/vapi.py: phone-number
 * normalisation, call placement, status polling with a retry budget, and
 * the analysis fetch. Each HTTP exchange is an input `HttpReply` (the
 * vendor's answer or a transport failure); the sleeps between polls are
 * not modelled. Every vendor failure surfaces as `Err(message)` with the
 * message the client builds.
 */
module VapiClient {
  import opened Wrappers
  import opened JsonValues
  import opened Text

  /** One HTTP exchange as seen by the client: a response or a raised transport error. */
  datatype HttpReply = Reply(code: int, body: Json, text: string) | Transport(message: string)

  const BaseUrl := "https://api.vapi.ai"
  const DefaultMaxAttempts := 60
  const DefaultMaxRetries := 3
  const PhoneLengthError := "Phone number must be 10 or 11 digits"
  const CallPrefix := "Failed to make call: "
  const StatusPrefix := "Failed to get call status: "
  const AnalysisPrefix := "Failed to get call analysis: "
  const TimeoutMessage := "Call timed out waiting for completion"

  /** The headers sent with every request: the API key as a bearer token. */
  function Headers(apiKey: string): (h: map<string, string>)
    ensures h.Keys == {"Authorization", "Content-Type"}
    ensures h["Authorization"] == "Bearer " + apiKey && h["Content-Type"] == "application/json"
  {
    map["Authorization" := "Bearer " + apiKey, "Content-Type" := "application/json"]
  }

  /** The client's constructor: a missing or empty API key is refused; otherwise the request headers carry it. */
  function NewClient(apiKey: Option<string>): (r: Result<map<string, string>, string>)
    ensures r.Ok? <==> apiKey.Some? && apiKey.value != ""
    ensures r.Ok? ==> r.value == Headers(apiKey.value)
  {
    if apiKey.None? || apiKey.value == "" then Err("VAPI_API_KEY not found in environment variables")
    else Ok(Headers(apiKey.value))
  }

  // ---------------------------------------------------------------------------
  // `_format_phone_number`

  /**
   * Keeps the digits; ten digits get a leading `1`; anything but eleven
   * digits is refused. An input without `+` becomes `+` and the digits; an
   * input that already starts with `+` is returned exactly as given.
   */
  function FormatPhoneNumber(phone: string): (r: Result<string, string>)
    ensures r.Err? <==> |Digits(phone)| != 10 && |Digits(phone)| != 11
    ensures r.Err? ==> r.error == PhoneLengthError
    ensures r.Ok? && StartsWith(phone, "+") ==> r.value == phone
  {
    var digits := Digits(phone);
    var digits := if |digits| == 10 then "1" + digits else digits;
    if |digits| != 11 then Err(PhoneLengthError)
    else if !StartsWith(phone, "+") then Ok("+" + digits)
    else Ok(phone)
  }

  /** A ten-digit number without `+` is given the North American country code. */
  lemma FormatTenDigits(phone: string)
    requires |Digits(phone)| == 10 && !StartsWith(phone, "+")
    ensures FormatPhoneNumber(phone) == Ok("+1" + Digits(phone))
  {
    assert "+" + ("1" + Digits(phone)) == "+1" + Digits(phone);
  }

  /** An eleven-digit number without `+` keeps its digits, whatever the first one is. */
  lemma FormatElevenDigits(phone: string)
    requires |Digits(phone)| == 11 && !StartsWith(phone, "+")
    ensures FormatPhoneNumber(phone) == Ok("+" + Digits(phone))
  {
  }

  /** Without a leading `+` the result has the E.164 shape `+` followed by eleven digits, the input's digits preserved at the end. */
  lemma {:induction false} FormatShape(phone: string)
    requires FormatPhoneNumber(phone).Ok? && !StartsWith(phone, "+")
    ensures var out := FormatPhoneNumber(phone).value;
            |out| == 12 && out[0] == '+' && AllDigits(out[1..])
            && out[|out| - |Digits(phone)|..] == Digits(phone)
  {
    var out := FormatPhoneNumber(phone).value;
    var d := Digits(phone);
    if |d| == 10 {
      assert out == "+" + ("1" + d);
      assert out[1..] == "1" + d;
    } else {
      assert out == "+" + d;
      assert out[1..] == d;
    }
  }

  /** Formatting a formatted number changes nothing. */
  lemma FormatIdempotent(phone: string)
    requires FormatPhoneNumber(phone).Ok?
    ensures FormatPhoneNumber(FormatPhoneNumber(phone).value) == FormatPhoneNumber(phone)
  {
    var out := FormatPhoneNumber(phone).value;
    if !StartsWith(phone, "+") {
      FormatShape(phone);
      DigitsAppend("+", out[1..]);
      assert "+" + out[1..] == out;
      assert Digits("+") == [];
      assert Digits(out) == out[1..];
      assert StartsWith(out, "+");
    }
  }

  /** A `+` followed by ten digits is accepted as it stands: the country code `1` is not added. */
  lemma PlusTenDigitsKept(d: string)
    requires AllDigits(d) && |d| == 10
    ensures FormatPhoneNumber("+" + d) == Ok("+" + d)
  {
    DigitsAppend("+", d);
    assert Digits("+") == [];
  }

  /** A `+` input keeps its punctuation, so the result need not have the E.164 shape. */
  lemma PlusInputKeptVerbatim(d: string)
    requires AllDigits(d) && |d| == 10
    ensures FormatPhoneNumber("+1 " + d) == Ok("+1 " + d)
    ensures !AllDigits(("+1 " + d)[1..])
  {
    DigitsAppend("+1 ", d);
    assert Digits("+1 ") == "1";
    assert ("+1 " + d)[1..][1] == ' ';
  }

  // ---------------------------------------------------------------------------
  // `make_call`, `get_call_status`, `get_call_analysis`

  /** The JSON body of the call-placement request. */
  function CallBody(formatted: string, phoneNumberId: Json, assistantId: Json): (b: Json)
    ensures b.JDict? && "customer" in b.fields && b.fields["customer"] == JDict(map["number" := JStr(formatted)])
  {
    JDict(map[
      "name" := JStr("Test Call"),
      "phoneNumberId" := phoneNumberId,
      "customer" := JDict(map["number" := JStr(formatted)]),
      "assistantId" := assistantId
    ])
  }

  /**
   * `make_call`: a malformed number fails before any request; status 200 or
   * 201 yields the reply's `id` (None when absent); any other status, a
   * transport error or a reply body without `.get` fails with the call prefix.
   */
  function MakeCall(phone: string, reply: HttpReply): (r: Result<Json, string>)
    ensures FormatPhoneNumber(phone).Err? ==> r == Err(PhoneLengthError)
    ensures FormatPhoneNumber(phone).Ok? && reply.Reply? && (reply.code == 200 || reply.code == 201) && reply.body.JDict?
            ==> r == Ok(DictGet(reply.body.fields, "id", JNull))
    ensures FormatPhoneNumber(phone).Ok? && reply.Reply? && reply.code != 200 && reply.code != 201
            ==> r == Err(CallPrefix + "VAPI call failed with status " + IntToString(reply.code) + ": " + reply.text)
    ensures FormatPhoneNumber(phone).Ok? && reply.Transport? ==> r == Err(CallPrefix + reply.message)
  {
    var formatted :- FormatPhoneNumber(phone);
    match reply
    case Transport(m) => Err(CallPrefix + m)
    case Reply(code, body, text) =>
      if code == 201 || code == 200 then
        match Get(body, "id", JNull)
        case Ok(id) => Ok(id)
        case Err(m) => Err(CallPrefix + m)
      else Err(CallPrefix + "VAPI call failed with status " + IntToString(code) + ": " + text)
  }

  /** `get_call_status`: the reply's `status`, `"unknown"` when absent; a non-200 reply is wrapped twice. */
  function GetCallStatus(reply: HttpReply): (r: Result<Json, string>)
    ensures reply.Reply? && reply.code == 200 && reply.body.JDict? ==> r == Ok(DictGet(reply.body.fields, "status", JStr("unknown")))
    ensures reply.Reply? && reply.code != 200 ==> r == Err(StatusPrefix + StatusPrefix + reply.text)
    ensures reply.Transport? ==> r == Err(StatusPrefix + reply.message)
  {
    match reply
    case Transport(m) => Err(StatusPrefix + m)
    case Reply(code, body, text) =>
      if code != 200 then Err(StatusPrefix + StatusPrefix + text)
      else match Get(body, "status", JStr("unknown"))
        case Ok(s) => Ok(s)
        case Err(m) => Err(StatusPrefix + m)
  }

  /** `get_call_analysis`: the reply's `analysis`, `{}` when absent. */
  function GetCallAnalysis(reply: HttpReply): (r: Result<Json, string>)
    ensures reply.Reply? && reply.code == 200 && reply.body.JDict? ==> r == Ok(DictGet(reply.body.fields, "analysis", JDict(map[])))
    ensures reply.Reply? && reply.code != 200 ==> r == Err(AnalysisPrefix + AnalysisPrefix + reply.text)
    ensures reply.Transport? ==> r == Err(AnalysisPrefix + reply.message)
  {
    match reply
    case Transport(m) => Err(AnalysisPrefix + m)
    case Reply(code, body, text) =>
      if code != 200 then Err(AnalysisPrefix + AnalysisPrefix + text)
      else match Get(body, "analysis", JDict(map[]))
        case Ok(a) => Ok(a)
        case Err(m) => Err(AnalysisPrefix + m)
  }

  // ---------------------------------------------------------------------------
  // `wait_for_call_completion`

  predicate IsCompletion(status: Json) {
    status == JStr("ended") || status == JStr("completed")
  }

  predicate IsFailedStatus(status: Json) {
    status == JStr("failed") || status == JStr("error")
  }

  /** A poll that costs a retry: a raised status request or a failed status. */
  predicate CostsRetry(reply: HttpReply) {
    GetCallStatus(reply).Err? || IsFailedStatus(GetCallStatus(reply).value)
  }

  predicate Completes(reply: HttpReply) {
    GetCallStatus(reply).Ok? && IsCompletion(GetCallStatus(reply).value)
  }

  /**
   * The message raised when the retry budget is spent. A failed status is
   * raised inside the poll's `try` and caught by its own handler, so it
   * reaches the caller wrapped in the poll-error message.
   */
  function GiveUpMessage(maxRetries: int, reply: HttpReply): string {
    var cause := match GetCallStatus(reply)
                 case Err(m) => m
                 case Ok(s) => "Call failed with status: " + (if s.JStr? then s.s else "") + " after " + IntToString(maxRetries) + " retries";
    "Failed to check call status after " + IntToString(maxRetries) + " retries: " + cause
  }

  /**
   * The loop from poll `attempt` on with `retries` already spent: `Ok(k)` when
   * poll `k` reports completion. The retry counter is never reset, so failures
   * count cumulatively, not consecutively; other statuses cost nothing.
   */
  function WaitSpec(polls: nat -> HttpReply, attempt: nat, maxAttempts: int, retries: int, maxRetries: int): Result<nat, string>
    decreases maxAttempts - attempt
  {
    if attempt >= maxAttempts then Err(TimeoutMessage)
    else if Completes(polls(attempt)) then Ok(attempt)
    else if CostsRetry(polls(attempt)) then
      if retries + 1 >= maxRetries then Err(GiveUpMessage(maxRetries, polls(attempt)))
      else WaitSpec(polls, attempt + 1, maxAttempts, retries + 1, maxRetries)
    else WaitSpec(polls, attempt + 1, maxAttempts, retries, maxRetries)
  }

  /** The polling loop: poll `i` is answered by `polls(i)`. */
  method WaitForCallCompletion(polls: nat -> HttpReply, maxAttempts: int, maxRetries: int) returns (r: Result<nat, string>)
    ensures r == WaitSpec(polls, 0, maxAttempts, 0, maxRetries)
  {
    var retries := 0;
    var i: nat := 0;
    while i < maxAttempts
      invariant WaitSpec(polls, i, maxAttempts, retries, maxRetries) == WaitSpec(polls, 0, maxAttempts, 0, maxRetries)
      decreases maxAttempts - i
    {
      var status := GetCallStatus(polls(i));
      if status.Ok? && IsCompletion(status.value) {
        return Ok(i);
      }
      if status.Err? || IsFailedStatus(status.value) {
        retries := retries + 1;
        if retries >= maxRetries {
          return Err(GiveUpMessage(maxRetries, polls(i)));
        }
      }
      i := i + 1;
    }
    return Err(TimeoutMessage);
  }

  /** The number of retry-costing polls among polls `from` up to (not including) `to`. */
  function RetryCost(polls: nat -> HttpReply, from: nat, to: nat): nat
    decreases to - from
  {
    if from >= to then 0
    else (if CostsRetry(polls(from)) then 1 else 0) + RetryCost(polls, from + 1, to)
  }

  /** Success is reported at the first completing poll, within the attempt budget. */
  lemma {:induction false} WaitSucceedsAtFirstCompletion(polls: nat -> HttpReply, attempt: nat, maxAttempts: int, retries: int, maxRetries: int)
    ensures var r := WaitSpec(polls, attempt, maxAttempts, retries, maxRetries);
            r.Ok? ==> attempt <= r.value < maxAttempts && Completes(polls(r.value))
                      && forall j :: attempt <= j < r.value ==> !Completes(polls(j))
    decreases maxAttempts - attempt
  {
    if attempt < maxAttempts && !Completes(polls(attempt)) {
      if CostsRetry(polls(attempt)) {
        WaitSucceedsAtFirstCompletion(polls, attempt + 1, maxAttempts, retries + 1, maxRetries);
      } else {
        WaitSucceedsAtFirstCompletion(polls, attempt + 1, maxAttempts, retries, maxRetries);
      }
    }
  }

  /** A completing poll within budget, preceded by fewer retry-costing polls than the budget allows, is reached. */
  lemma {:induction false} WaitReachesCompletion(polls: nat -> HttpReply, attempt: nat, maxAttempts: int, retries: int, maxRetries: int, k: nat)
    requires attempt <= k < maxAttempts && Completes(polls(k))
    requires forall j :: attempt <= j < k ==> !Completes(polls(j))
    requires retries + RetryCost(polls, attempt, k) < maxRetries
    ensures WaitSpec(polls, attempt, maxAttempts, retries, maxRetries) == Ok(k)
    decreases k - attempt
  {
    if attempt < k {
      if CostsRetry(polls(attempt)) {
        WaitReachesCompletion(polls, attempt + 1, maxAttempts, retries + 1, maxRetries, k);
      } else {
        WaitReachesCompletion(polls, attempt + 1, maxAttempts, retries, maxRetries, k);
      }
    }
  }

  /** The loop gives up only once the retry-costing polls have used up the budget. */
  lemma {:induction false} GiveUpNeedsBudgetSpent(polls: nat -> HttpReply, attempt: nat, maxAttempts: int, retries: int, maxRetries: int)
    requires maxAttempts >= attempt
    ensures var r := WaitSpec(polls, attempt, maxAttempts, retries, maxRetries);
            r.Err? && r.error != TimeoutMessage ==> retries + RetryCost(polls, attempt, maxAttempts) >= maxRetries
    decreases maxAttempts - attempt
  {
    if attempt < maxAttempts && !Completes(polls(attempt)) {
      if CostsRetry(polls(attempt)) {
        if retries + 1 < maxRetries {
          GiveUpNeedsBudgetSpent(polls, attempt + 1, maxAttempts, retries + 1, maxRetries);
        }
      } else {
        GiveUpNeedsBudgetSpent(polls, attempt + 1, maxAttempts, retries, maxRetries);
      }
    }
  }

  /** The loop gives up at the very poll whose retry cost brings the counter to the budget. */
  lemma {:induction false} GiveUpAtBudget(polls: nat -> HttpReply, attempt: nat, maxAttempts: int, retries: int, maxRetries: int, k: nat)
    requires attempt <= k < maxAttempts
    requires forall j :: attempt <= j <= k ==> !Completes(polls(j))
    requires CostsRetry(polls(k))
    requires retries + RetryCost(polls, attempt, k) + 1 == maxRetries
    ensures WaitSpec(polls, attempt, maxAttempts, retries, maxRetries) == Err(GiveUpMessage(maxRetries, polls(k)))
    decreases k - attempt
  {
    if attempt < k {
      if CostsRetry(polls(attempt)) {
        GiveUpAtBudget(polls, attempt + 1, maxAttempts, retries + 1, maxRetries, k);
      } else {
        GiveUpAtBudget(polls, attempt + 1, maxAttempts, retries, maxRetries, k);
      }
    }
  }

  /** No positive attempt budget: the loop times out without polling. */
  lemma NoAttemptsTimesOut(polls: nat -> HttpReply, maxAttempts: int, maxRetries: int)
    requires maxAttempts <= 0
    ensures WaitSpec(polls, 0, maxAttempts, 0, maxRetries) == Err(TimeoutMessage)
  {
  }

  /** Statuses other than completion and failure never end the loop early: with only those, it times out. */
  lemma {:induction false} PendingStatusesTimeOut(polls: nat -> HttpReply, attempt: nat, maxAttempts: int, retries: int, maxRetries: int)
    requires forall j :: attempt <= j ==> !Completes(polls(j)) && !CostsRetry(polls(j))
    ensures WaitSpec(polls, attempt, maxAttempts, retries, maxRetries) == Err(TimeoutMessage)
    decreases maxAttempts - attempt
  {
    if attempt < maxAttempts {
      PendingStatusesTimeOut(polls, attempt + 1, maxAttempts, retries, maxRetries);
    }
  }

  function FailedThenRinging(k: nat): HttpReply {
    Reply(200, JDict(map["status" := if k % 2 == 0 then JStr("failed") else JStr("ringing")]), "")
  }

  /** Failures separated by ringing polls still add up: the third failure, at poll 4, ends the loop. */
  lemma NonConsecutiveFailuresAddUp()
    ensures WaitSpec(FailedThenRinging, 0, DefaultMaxAttempts, 0, DefaultMaxRetries)
            == Err(GiveUpMessage(DefaultMaxRetries, FailedThenRinging(4)))
  {
    assert CostsRetry(FailedThenRinging(0)) && !CostsRetry(FailedThenRinging(1)) && !Completes(FailedThenRinging(1));
    assert CostsRetry(FailedThenRinging(2)) && !CostsRetry(FailedThenRinging(3)) && !Completes(FailedThenRinging(3));
    assert CostsRetry(FailedThenRinging(4)) && !Completes(FailedThenRinging(4));
    assert !Completes(FailedThenRinging(0)) && !Completes(FailedThenRinging(2));
  }
}
