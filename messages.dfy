/** pkg/model/mesages.go (with the data declarations of
    pkg/model/pdpresponsedetails.go): the message types exchanged between the
    PDP and the PAP, and the `required` validation of PDP_UPDATE. */
module Messages {
  import opened Wrappers
  import opened GoStd
  import EnumText
  import opened PdpStates
  import opened PdpHealth
  import opened Tosca

  type PdpMessageType = int64

  const PDP_STATUS: PdpMessageType := 0
  const PDP_UPDATE: PdpMessageType := 1
  const PDP_STATE_CHANGE: PdpMessageType := 2
  const PDP_HEALTH_CHECK: PdpMessageType := 3
  const PDP_TOPIC_CHECK: PdpMessageType := 4

  const MessageTypeNames: seq<string> :=
    ["PDP_STATUS", "PDP_UPDATE", "PDP_STATE_CHANGE", "PDP_HEALTH_CHECK", "PDP_TOPIC_CHECK"]
  const UnknownMessageTypePrefix: string := "Unknown PdpMessageType: "

  predicate IsKnownMessageType(t: int) { 0 <= t < |MessageTypeNames| }

  /** PdpMessageType.String. */
  function MessageTypeString(t: PdpMessageType): string
  {
    EnumText.Render(MessageTypeNames, UnknownMessageTypePrefix, t)
  }

  /** PdpMessageType.MarshalJSON: the JSON string of String(). */
  function MessageTypeMarshalJSON(t: PdpMessageType): (r: string)
    ensures |r| >= 2 && r[0] == '"' && r[|r| - 1] == '"' && r[1..|r| - 1] == MessageTypeString(t)
  {
    EnumText.RenderIsJsonPlain(MessageTypeNames, UnknownMessageTypePrefix, t);
    JsonQuote(MessageTypeString(t))
  }

  lemma MessageTypeStringInjective(a: PdpMessageType, b: PdpMessageType)
    requires MessageTypeString(a) == MessageTypeString(b)
    ensures a == b
  {
    EnumText.RenderInjective(MessageTypeNames, UnknownMessageTypePrefix, a, b);
  }

  /** PdpResponseStatus, a string type with the two constants SUCCESS and FAILURE. */
  datatype PdpResponseStatus = Success | Failure
  {
    function Text(): string
    {
      match this
      case Success => "SUCCESS"
      case Failure => "FAILURE"
    }
  }

  /** PdpResponseDetails; its three fields are pointers. */
  datatype PdpResponseDetails = PdpResponseDetails(
    responseTo: Option<string>,
    responseStatus: Option<PdpResponseStatus>,
    responseMessage: Option<string>)

  /** PdpStatus, the only message the PDP sends. `response`, `policies` and
      `pdpSubgroup` may be nil. */
  datatype PdpStatus = PdpStatus(
    messageType: PdpMessageType,
    pdpType: string,
    state: PdpState,
    healthy: PdpHealthStatus,
    description: string,
    response: Option<PdpResponseDetails>,
    policies: Option<seq<ToscaConceptIdentifier>>,
    name: string,
    requestId: string,
    pdpGroup: string,
    pdpSubgroup: Option<string>,
    timestampMs: string,
    deploymentInstanceInfo: string)

  /** PdpUpdate as decoded from JSON. The unexported `policiesToBeUndeployed`
      field is never filled by json.Unmarshal and is not represented. */
  datatype PdpUpdate = PdpUpdate(
    source: string,
    pdpHeartbeatIntervalMs: int64,
    messageType: string,
    policiesToBeDeployed: Option<seq<string>>,
    name: string,
    timestampMs: int64,
    pdpGroup: string,
    pdpSubgroup: string,
    requestId: string)

  /** PdpStateChange as decoded from JSON; it carries no validation tags. */
  datatype PdpStateChange = PdpStateChange(
    source: string,
    state: string,
    messageType: string,
    name: string,
    timestampMs: int64,
    pdpGroup: string,
    pdpSubgroup: string,
    requestId: string)

  /** The PdpUpdate fields tagged `validate:"required"`, in declaration order
      and under their Go names (as the validator reports them). */
  const RequiredFields: seq<string> :=
    ["Source", "PdpHeartbeatIntervalMs", "MessageType", "PoliciesToBeDeloyed", "Name",
     "TimestampMs", "PdpGroup", "PdpSubgroup", "RequestId"]

  /** The `required` tag fails on a field's zero value: "" for a string, 0 for
      an integer, nil for a slice (an empty, non-nil slice passes). */
  predicate IsZeroField(u: PdpUpdate, field: string)
  {
    match field
    case "Source" => u.source == ""
    case "PdpHeartbeatIntervalMs" => u.pdpHeartbeatIntervalMs == 0
    case "MessageType" => u.messageType == ""
    case "PoliciesToBeDeloyed" => u.policiesToBeDeployed.None?
    case "Name" => u.name == ""
    case "TimestampMs" => u.timestampMs == 0
    case "PdpGroup" => u.pdpGroup == ""
    case "PdpSubgroup" => u.pdpSubgroup == ""
    case "RequestId" => u.requestId == ""
    case _ => false
  }

  /** Every required field holds a value other than its zero value. */
  predicate AllRequiredPresent(u: PdpUpdate)
  {
    && u.source != "" && u.pdpHeartbeatIntervalMs != 0 && u.messageType != ""
    && u.policiesToBeDeployed.Some? && u.name != "" && u.timestampMs != 0
    && u.pdpGroup != "" && u.pdpSubgroup != "" && u.requestId != ""
  }

  /** The fields from position `from` on that fail their tag, in order. */
  function FailingFieldsFrom(u: PdpUpdate, from: nat): (r: seq<string>)
    requires from <= |RequiredFields|
    ensures forall f :: f in r <==> f in RequiredFields[from..] && IsZeroField(u, f)
    decreases |RequiredFields| - from
  {
    if from == |RequiredFields| then []
    else
      var field := RequiredFields[from];
      var rest := FailingFieldsFrom(u, from + 1);
      assert RequiredFields[from..] == [field] + RequiredFields[from + 1..];
      if IsZeroField(u, field) then [field] + rest else rest
  }

  /** validator.Struct(u): the list of fields that failed, empty when the
      update is acceptable. */
  function FailingFields(u: PdpUpdate): (r: seq<string>)
    ensures forall f :: f in r <==> f in RequiredFields && IsZeroField(u, f)
    ensures r == [] <==> AllRequiredPresent(u)
  {
    assert RequiredFields[0..] == RequiredFields;
    NoFailingFieldIffPresent(u);
    FailingFieldsFrom(u, 0)
  }

  lemma NoFailingFieldIffPresent(u: PdpUpdate)
    ensures (forall f :: f in RequiredFields ==> !IsZeroField(u, f)) <==> AllRequiredPresent(u)
  {
    if forall f :: f in RequiredFields ==> !IsZeroField(u, f) {
      assert !IsZeroField(u, RequiredFields[0]) && !IsZeroField(u, RequiredFields[1]);
      assert !IsZeroField(u, RequiredFields[2]) && !IsZeroField(u, RequiredFields[3]);
      assert !IsZeroField(u, RequiredFields[4]) && !IsZeroField(u, RequiredFields[5]);
      assert !IsZeroField(u, RequiredFields[6]) && !IsZeroField(u, RequiredFields[7]);
      assert !IsZeroField(u, RequiredFields[8]);
    }
  }

  /** The validation step of the update handler: nil when every required field
      is present, otherwise the list of the failing ones. */
  function ValidatePdpUpdate(u: PdpUpdate): (r: Outcome)
    ensures r.Pass? <==> AllRequiredPresent(u)
    ensures r.Fail? ==> r.error.ValidationError? && r.error.fields != [] &&
                        forall f :: f in r.error.fields <==> f in RequiredFields && IsZeroField(u, f)
  {
    var failing := FailingFields(u);
    if failing == [] then Pass else Fail(ValidationError(failing))
  }

  /** An update addressed to no PDP by name can never pass validation. */
  lemma AnonymousUpdateIsRejected(u: PdpUpdate)
    requires u.name == ""
    ensures ValidatePdpUpdate(u) == Fail(ValidationError(FailingFields(u)))
    ensures "Name" in FailingFields(u)
  {
  }
}
