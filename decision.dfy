/** pkg/decision/decision-provider.go: the decision endpoint. The OPA SDK,
    the JSON body decoder and the UUID library are replaced by the results
    they produce for one request; the HTTP response is a value. */
module Decision {
  import opened Wrappers
  import opened GoStd
  import opened Consts
  import opened PdpStates
  import opened PdpStateCell
  import opened Metrics

  datatype ErrorResponseResponseCode = BADREQUEST | UNAUTHORIZED | INTERNALSERVERERROR

  /** GetErrorResponseResponseCode: the map entry for 400, 401 and 500,
      INTERNALSERVERERROR for every other status. */
  function GetErrorResponseResponseCode(httpStatus: int): (r: ErrorResponseResponseCode)
    ensures httpStatus == 400 <==> r == BADREQUEST
    ensures httpStatus == 401 <==> r == UNAUTHORIZED
    ensures httpStatus != 400 && httpStatus != 401 ==> r == INTERNALSERVERERROR
  {
    if httpStatus == 400 then BADREQUEST
    else if httpStatus == 401 then UNAUTHORIZED
    else INTERNALSERVERERROR
  }

  datatype DecisionValue = PERMIT | DENY | INDETERMINATE

  datatype OPADecisionResponse = OPADecisionResponse(
    statusMessage: Option<string>,
    decision: Option<DecisionValue>,
    policyName: Option<string>)

  datatype ErrorResponse = ErrorResponse(
    responseCode: Option<ErrorResponseResponseCode>,
    errorMessage: Option<string>,
    errorDetails: Option<seq<string>>,
    policyName: Option<string>)

  function CreateSuccessDecisionResponse(statusMessage: string, decision: DecisionValue, policyName: string): (r: OPADecisionResponse)
    ensures r.statusMessage == Some(statusMessage) && r.decision == Some(decision) && r.policyName == Some(policyName)
  {
    OPADecisionResponse(Some(statusMessage), Some(decision), Some(policyName))
  }

  /** The response code is derived from the HTTP status. */
  function CreateDecisionExceptionResponse(statusCode: int, errorMessage: string, errorDetails: seq<string>,
                                           policyName: string): (r: ErrorResponse)
    ensures r.responseCode == Some(GetErrorResponseResponseCode(statusCode))
    ensures r.errorMessage == Some(errorMessage) && r.errorDetails == Some(errorDetails) && r.policyName == Some(policyName)
  {
    ErrorResponse(Some(GetErrorResponseResponseCode(statusCode)), Some(errorMessage), Some(errorDetails), Some(policyName))
  }

  /** The `result` of an OPA decision: a boolean or anything else. */
  datatype OpaResult = BoolResult(b: bool) | OtherResult

  /** What opa.Decision returned: a result, or an error with its text. */
  datatype OpaAnswer = Answered(result: OpaResult) | OpaError(message: string)

  /** What json.Decoder made of the body: the policy name (nil when
      absent), or a decoding error with its text. */
  datatype DecodedBody = DecodedRequest(policyName: Option<string>) | DecodeFailed(message: string)

  /** Everything the endpoint learns about one request. */
  datatype DecisionCall = DecisionCall(
    requestId: string,           // the X-ONAP-RequestID request header, "" when absent
    isValidUuid: bool,           // utils.IsValidUUID(requestId)
    parsedUuid: Option<string>,  // uuid.Parse(requestId) in canonical form, None on error
    httpMethod: string,
    body: DecodedBody,
    opaInstance: Outcome,        // opasdk.GetOPASingletonInstance
    answer: OpaAnswer)           // opa.Decision

  datatype Body = DecisionBody(decision: OPADecisionResponse) | ErrorBody(error: ErrorResponse)

  /** The status, body and counter of one decision. */
  datatype Verdict = Verdict(status: int, body: Body, counter: CounterKind)

  const UndefinedErrorMarker: string := "opa_undefined_error"

  /** The checks of OpaDecision in order: state, method, body, policy name,
      OPA instance, OPA error, result. */
  function Decide(state: PdpState, call: DecisionCall): (v: Verdict)
    ensures state != Active ==> v.status == 500 && v.counter == TotalErrors
    ensures state == Active && call.httpMethod != "POST" ==> v.status == 405 && v.counter == TotalErrors
    ensures state == Active && call.httpMethod == "POST" && call.body.DecodeFailed? ==>
      v.status == 400 && v.counter == TotalErrors
    ensures state == Active && call.httpMethod == "POST" && call.body.DecodedRequest? &&
            call.body.policyName in {None, Some("")} ==>
      v.status == 400 && v.counter == TotalErrors
    ensures state == Active && call.httpMethod == "POST" && call.body.DecodedRequest? &&
            call.body.policyName.Some? && call.body.policyName.value != "" ==>
      var policy := call.body.policyName.value;
      (call.opaInstance.Fail? ==> v.status == 500 && v.counter == TotalErrors) &&
      (call.opaInstance.Pass? && call.answer.OpaError? && Contains(call.answer.message, UndefinedErrorMarker) ==>
         v == Verdict(200, DecisionBody(CreateSuccessDecisionResponse(call.answer.message, INDETERMINATE, policy)), IndeterminantDecisions)) &&
      (call.opaInstance.Pass? && call.answer.OpaError? && !Contains(call.answer.message, UndefinedErrorMarker) ==>
         v.status == 400 && v.counter == TotalErrors) &&
      (call.opaInstance.Pass? && call.answer == Answered(BoolResult(true)) ==>
         v == Verdict(200, DecisionBody(CreateSuccessDecisionResponse("OPA Allowed", PERMIT, policy)), PermitDecisions)) &&
      (call.opaInstance.Pass? && call.answer.Answered? && call.answer.result != BoolResult(true) ==>
         v == Verdict(200, DecisionBody(CreateSuccessDecisionResponse("OPA Denied", DENY, policy)), DenyDecisions))
    // errors and only errors count as errors, and carry the matching code
    ensures v.counter == TotalErrors <==> v.body.ErrorBody?
    ensures v.body.ErrorBody? ==> v.body.error.responseCode == Some(GetErrorResponseResponseCode(v.status))
    ensures v.body.DecisionBody? <==> v.status == 200
  {
    if state != Active then
      Verdict(500, ErrorBody(CreateDecisionExceptionResponse(500,
        " System Is In PASSIVE State so Unable To Handle Decision wait until it becomes ACTIVE",
        [" System Is In PASSIVE State so error Handling the request"], "")), TotalErrors)
    else if call.httpMethod != "POST" then
      Verdict(405, ErrorBody(CreateDecisionExceptionResponse(405, "Only POST Method Allowed",
        [call.httpMethod + " MethodNotAllowed"], "")), TotalErrors)
    else
      match call.body
      case DecodeFailed(message) =>
        Verdict(400, ErrorBody(CreateDecisionExceptionResponse(400, "Error decoding the request", [message], "")), TotalErrors)
      case DecodedRequest(policyName) =>
        if policyName.None? || policyName.value == "" then
          Verdict(400, ErrorBody(CreateDecisionExceptionResponse(400, "policy details not provided",
            ["Policy used to make decision is nil"], "")), TotalErrors)
        else
          var policy := policyName.value;
          if call.opaInstance.Fail? then
            Verdict(500, ErrorBody(CreateDecisionExceptionResponse(500, "OPA instance creation error",
              ["Failed to get OPA instance"], policy)), TotalErrors)
          else
            match call.answer
            case OpaError(message) =>
              if Contains(message, UndefinedErrorMarker) then
                Verdict(200, DecisionBody(CreateSuccessDecisionResponse(message, INDETERMINATE, policy)), IndeterminantDecisions)
              else
                Verdict(400, ErrorBody(CreateDecisionExceptionResponse(400, "Error from OPA while making decision",
                  [message], policy)), TotalErrors)
            case Answered(result) =>
              if result == BoolResult(true) then
                Verdict(200, DecisionBody(CreateSuccessDecisionResponse("OPA Allowed", PERMIT, policy)), PermitDecisions)
              else
                Verdict(200, DecisionBody(CreateSuccessDecisionResponse("OPA Denied", DENY, policy)), DenyDecisions)
  }

  /** A 405 carries INTERNALSERVERERROR, the code of every unmapped status. */
  lemma MethodNotAllowedCode(call: DecisionCall)
    requires call.httpMethod != "POST"
    ensures Decide(Active, call).body.error.responseCode == Some(INTERNALSERVERERROR)
  {
  }

  /** The X-ONAP-RequestID response header: the canonical UUID for a valid
      id that parses, not set for a valid id that does not, and "Unknown"
      otherwise. */
  function RequestIdHeader(call: DecisionCall): (r: Option<string>)
    ensures call.requestId != "" && call.isValidUuid ==> r == call.parsedUuid
    ensures !(call.requestId != "" && call.isValidUuid) ==> r == Some("Unknown")
  {
    if call.requestId != "" && call.isValidUuid then call.parsedUuid else Some("Unknown")
  }

  datatype DecisionReply = DecisionReply(headers: map<string, string>, status: int, body: Body)

  /** The headers OpaDecision sets before deciding: the request id and
      the three version headers. The map keys are the names as written;
      Header().Set stores them in canonical form (X-Onap-Requestid,
      X-Latestversion, ...), which is the same header to any HTTP client. */
  method ResponseHeaders(call: DecisionCall) returns (headers: map<string, string>)
    ensures RequestIdHeader(call).Some? ==>
      "X-ONAP-RequestID" in headers && headers["X-ONAP-RequestID"] == RequestIdHeader(call).value
    ensures RequestIdHeader(call).None? ==> "X-ONAP-RequestID" !in headers
    ensures "X-LatestVersion" in headers && headers["X-LatestVersion"] == LatestVersion
    ensures "X-PatchVersion" in headers && headers["X-PatchVersion"] == PatchVersion
    ensures "X-MinorVersion" in headers && headers["X-MinorVersion"] == MinorVersion
    ensures headers.Keys <= {"X-ONAP-RequestID", "X-LatestVersion", "X-PatchVersion", "X-MinorVersion"}
  {
    headers := map[];
    if call.requestId != "" && call.isValidUuid {
      if call.parsedUuid.Some? {
        headers := headers["X-ONAP-RequestID" := call.parsedUuid.value];
      }
    } else {
      headers := headers["X-ONAP-RequestID" := "Unknown"];
    }
    headers := headers["X-LatestVersion" := LatestVersion];
    headers := headers["X-PatchVersion" := PatchVersion];
    headers := headers["X-MinorVersion" := MinorVersion];
  }

  /** OpaDecision(res, req): the request-id and version headers, the
      verdict, and exactly one counter incremented. */
  method OpaDecision(counters: Counters, cell: StateCell, call: DecisionCall) returns (reply: DecisionReply)
    modifies counters
    ensures RequestIdHeader(call).Some? ==>
      "X-ONAP-RequestID" in reply.headers && reply.headers["X-ONAP-RequestID"] == RequestIdHeader(call).value
    ensures RequestIdHeader(call).None? ==> "X-ONAP-RequestID" !in reply.headers
    ensures "X-LatestVersion" in reply.headers && reply.headers["X-LatestVersion"] == LatestVersion
    ensures "X-PatchVersion" in reply.headers && reply.headers["X-PatchVersion"] == PatchVersion
    ensures "X-MinorVersion" in reply.headers && reply.headers["X-MinorVersion"] == MinorVersion
    ensures "Content-Type" in reply.headers && reply.headers["Content-Type"] == "application/json"
    ensures reply.status == Decide(cell.state, call).status && reply.body == Decide(cell.state, call).body
    ensures counters.Snapshot() == Bumped(old(counters.Snapshot()), Decide(cell.state, call).counter)
  {
    var headers := ResponseHeaders(call);
    var v := Decide(cell.GetState(), call);
    counters.Increment(v.counter);
    assert "Content-Type" !in headers;
    headers := headers["Content-Type" := "application/json"];
    reply := DecisionReply(headers, v.status, v.body);
  }

  /** A decision never touches the query counters. */
  lemma DecisionsLeaveQueryCounters(state: PdpState, call: DecisionCall)
    ensures Decide(state, call).counter !in {QuerySuccess, QueryFailure}
  {
  }
}
