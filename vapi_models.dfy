/**
 * The request and response shapes of app/models/vapi.py: the call request
 * with its four "either an inline object or an id, not both" rules and the
 * 40-character name limit, the call-status literal set of the response, and
 * the shape of a business-hours answer.
 */
module VapiModels {
  import opened Wrappers
  import opened JsonValues

  /** The inline configuration objects carry no fields of their own. */
  datatype Inline = Inline

  datatype CallRequest = CallRequest(
    name: Option<string>,
    assistantId: Option<string>,
    assistant: Option<Inline>,
    assistantOverrides: Option<Dict>,
    squadId: Option<string>,
    squad: Option<Inline>,
    phoneNumberId: Option<string>,
    phoneNumber: Option<Inline>,
    customerId: Option<string>,
    customer: Option<Inline>)

  /** One validation failure, in the order the fields are declared. */
  datatype RequestError =
    | NameTooLong
    | BothAssistantAndAssistantId
    | BothSquadAndSquadId
    | BothPhoneNumberAndPhoneNumberId
    | BothCustomerAndCustomerId

  const MaxNameLength := 40

  /** A per-field check: the error when it fails, nothing otherwise. */
  function Check(failed: bool, e: RequestError): seq<RequestError> {
    if failed then [e] else []
  }

  /**
   * Model validation: every field is checked and all failures are reported
   * together, in field order; a valid request is returned unchanged.
   */
  function ValidateCallRequest(req: CallRequest): Result<CallRequest, seq<RequestError>> {
    var errors :=
      Check(req.name.Some? && |req.name.value| > MaxNameLength, NameTooLong)
      + Check(req.assistant.Some? && req.assistantId.Some?, BothAssistantAndAssistantId)
      + Check(req.squad.Some? && req.squadId.Some?, BothSquadAndSquadId)
      + Check(req.phoneNumber.Some? && req.phoneNumberId.Some?, BothPhoneNumberAndPhoneNumberId)
      + Check(req.customer.Some? && req.customerId.Some?, BothCustomerAndCustomerId);
    if errors == [] then Ok(req) else Err(errors)
  }

  /** The request passes exactly when no pair is given twice and the name fits. */
  lemma ValidationIff(req: CallRequest)
    ensures ValidateCallRequest(req).Ok? <==>
              (req.name.None? || |req.name.value| <= MaxNameLength)
              && !(req.assistant.Some? && req.assistantId.Some?)
              && !(req.squad.Some? && req.squadId.Some?)
              && !(req.phoneNumber.Some? && req.phoneNumberId.Some?)
              && !(req.customer.Some? && req.customerId.Some?)
    ensures ValidateCallRequest(req).Ok? ==> ValidateCallRequest(req).value == req
  {
  }

  /** Each rule on its own: supplying both members of a pair is reported, whatever else holds. */
  lemma {:induction false} BothMembersRejected(req: CallRequest)
    ensures req.assistant.Some? && req.assistantId.Some? ==>
              ValidateCallRequest(req).Err? && BothAssistantAndAssistantId in ValidateCallRequest(req).error
    ensures req.squad.Some? && req.squadId.Some? ==>
              ValidateCallRequest(req).Err? && BothSquadAndSquadId in ValidateCallRequest(req).error
    ensures req.phoneNumber.Some? && req.phoneNumberId.Some? ==>
              ValidateCallRequest(req).Err? && BothPhoneNumberAndPhoneNumberId in ValidateCallRequest(req).error
    ensures req.customer.Some? && req.customerId.Some? ==>
              ValidateCallRequest(req).Err? && BothCustomerAndCustomerId in ValidateCallRequest(req).error
    ensures req.name.Some? && |req.name.value| > MaxNameLength ==>
              ValidateCallRequest(req).Err? && NameTooLong in ValidateCallRequest(req).error
  {
  }

  /** The error list never mentions a rule that holds. */
  lemma ReportedErrorsAreViolations(req: CallRequest)
    ensures ValidateCallRequest(req).Err? ==>
              var errs := ValidateCallRequest(req).error;
              (BothAssistantAndAssistantId in errs ==> req.assistant.Some? && req.assistantId.Some?)
              && (BothSquadAndSquadId in errs ==> req.squad.Some? && req.squadId.Some?)
              && (BothPhoneNumberAndPhoneNumberId in errs ==> req.phoneNumber.Some? && req.phoneNumberId.Some?)
              && (BothCustomerAndCustomerId in errs ==> req.customer.Some? && req.customerId.Some?)
              && (NameTooLong in errs ==> req.name.Some? && |req.name.value| > MaxNameLength)
  {
  }

  /** The `status` literal set of the call response. */
  predicate IsResponseStatus(s: string) {
    s in {"queued", "ringing", "in-progress", "forwarding", "ended"}
  }

  /** The response status set excludes both failure statuses and `completed` that the polling loop tests for. */
  lemma ResponseStatusesExcludePolledFailures()
    ensures !IsResponseStatus("failed") && !IsResponseStatus("error") && !IsResponseStatus("completed")
    ensures IsResponseStatus("ended")
  {
  }

  datatype BusinessHoursResponse = BusinessHoursResponse(
    timeOpen: string,
    timeClosed: string,
    withdrawingConsent: bool,
    isCorrectRestaurant: bool)

  /** All four fields are present with the declared types; the last keeps the vendor's spelling `is_correct_restaraunt`. */
  predicate BusinessHoursFields(d: Dict) {
    "time_open" in d && d["time_open"].JStr?
    && "time_closed" in d && d["time_closed"].JStr?
    && "withdrawing_consent" in d && d["withdrawing_consent"].JBool?
    && "is_correct_restaraunt" in d && d["is_correct_restaraunt"].JBool?
  }

  /** All four fields are required. */
  function ParseBusinessHours(d: Dict): (r: Result<BusinessHoursResponse, string>)
    ensures r.Ok? <==> BusinessHoursFields(d)
    ensures r.Ok? ==> JStr(r.value.timeOpen) == d["time_open"] && JStr(r.value.timeClosed) == d["time_closed"]
    ensures r.Ok? ==> JBool(r.value.withdrawingConsent) == d["withdrawing_consent"]
                      && JBool(r.value.isCorrectRestaurant) == d["is_correct_restaraunt"]
  {
    if BusinessHoursFields(d)
    then Ok(BusinessHoursResponse(d["time_open"].s, d["time_closed"].s, d["withdrawing_consent"].b, d["is_correct_restaraunt"].b))
    else Err("BusinessHoursResponse: Field required or wrong type")
  }
}
