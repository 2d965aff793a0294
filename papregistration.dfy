/** pkg/kafkacomm/publisher/pdp-pap-registration.go: the status sender and
    the registration message.

    The PdpStatusSender interface is modelled by a sender object that keeps
    every status handed to it, in order, and answers every call with the
    same reply (the test doubles of the repository behave this way). The
    real sender's error rule is a function of the outcomes of the steps it
    takes; the UUID and the clock reading it uses arrive as a Stamp. */
module PapRegistration {
  import opened Wrappers
  import opened GoStd
  import opened PdpStates
  import opened PdpHealth
  import opened Messages
  import opened Consts
  import opened PdpAttributes

  /** A fresh request id and the wall-clock reading in milliseconds. */
  datatype Stamp = Stamp(requestId: string, nowMs: int64)

  /** fmt.Sprintf("%d", ms). */
  function TimestampText(nowMs: int64): (r: string)
    ensures Atoi(r) == Ok(nowMs)
  {
    AtoiOfIntToString(nowMs);
    IntToString(nowMs)
  }

  /** The request id and timestamp overwritten, every other field kept. */
  function Stamped(st: PdpStatus, stamp: Stamp): (r: PdpStatus)
    ensures r.requestId == stamp.requestId && Atoi(r.timestampMs) == Ok(stamp.nowMs)
    ensures r.(requestId := st.requestId, timestampMs := st.timestampMs) == st
  {
    st.(requestId := stamp.requestId, timestampMs := TimestampText(stamp.nowMs))
  }

  /** The fields every status this PDP emits shares. */
  predicate IsOwnStatus(st: PdpStatus, pdpName: string)
  {
    st.messageType == PDP_STATUS && st.pdpType == PdpType && st.healthy == Healthy &&
    st.name == pdpName && st.pdpGroup == PdpGroup && st.policies.None? &&
    st.deploymentInstanceInfo == ""
  }

  class StatusSender {
    var outbox: seq<PdpStatus>
    const reply: Outcome

    constructor (reply: Outcome)
      ensures outbox == [] && this.reply == reply
    {
      outbox := [];
      this.reply := reply;
    }

    /** SendPdpStatus: the status is appended and the reply returned. */
    method SendPdpStatus(pdpStatus: PdpStatus) returns (err: Outcome)
      modifies this`outbox
      ensures outbox == old(outbox) + [pdpStatus]
      ensures err == reply
    {
      outbox := outbox + [pdpStatus];
      err := reply;
    }
  }

  /** What RealPdpStatusSender.SendPdpStatus does with the outcome of
      json.Marshal, whether the producer singleton holds an instance, and
      the outcome of Produce. GetKafkaProducer never returns an error, so
      its error branch cannot be taken; a nil instance makes the Produce
      call dereference nil, which is a panic. A failed Produce is only
      logged: no clause mentions `produce`, because the result does not
      depend on it. */
  datatype Delivery =
    | Delivered(err: Outcome, produced: Option<PdpStatus>)
    | NilProducerPanic

  function RealSendPdpStatus(pdpStatus: PdpStatus, stamp: Stamp,
                             marshal: Outcome, instancePresent: bool, produce: Outcome): (r: Delivery)
    ensures r.NilProducerPanic? <==> marshal.Pass? && !instancePresent
    ensures marshal.Fail? ==> r == Delivered(marshal, None)
    ensures r.Delivered? && r.err.Pass? ==> r.produced.Some?
    ensures marshal.Pass? && instancePresent ==> r == Delivered(Pass, Some(Stamped(pdpStatus, stamp)))
    // the only error reported is the marshalling error
    ensures r.Delivered? ==> r.err == marshal
  {
    if marshal.Fail? then Delivered(marshal, None)
    else if !instancePresent then NilProducerPanic
    else Delivered(Pass, Some(Stamped(pdpStatus, stamp)))
  }

  /** What reaches Produce is the given status with this send's request id
      and timestamp, which parses back to the clock reading. */
  lemma ProducedStatusIsStamped(pdpStatus: PdpStatus, stamp: Stamp, marshal: Outcome,
                                instancePresent: bool, produce: Outcome)
    ensures var r := RealSendPdpStatus(pdpStatus, stamp, marshal, instancePresent, produce);
      r.Delivered? && r.produced.Some? ==>
        r.produced.value.requestId == stamp.requestId &&
        Atoi(r.produced.value.timestampMs) == Ok(stamp.nowMs) &&
        r.produced.value.(requestId := pdpStatus.requestId, timestampMs := pdpStatus.timestampMs) == pdpStatus
  {
  }

  /** The registration status: PASSIVE, no response, no subgroup, and no
      request id or timestamp of its own (the real sender adds both). */
  function RegistrationStatus(pdpName: string): (st: PdpStatus)
    ensures IsOwnStatus(st, pdpName)
    ensures st.state == Passive && st.response.None? && st.pdpSubgroup.None?
    ensures st.description == "Pdp Status Registration Message"
    ensures st.requestId == "" && st.timestampMs == ""
  {
    PdpStatus(PDP_STATUS, PdpType, Passive, Healthy, "Pdp Status Registration Message",
              None, None, pdpName, "", PdpGroup, None, "", "")
  }

  /** SendPdpPapRegistration: one send, whose error is returned unchanged. */
  method SendPdpPapRegistration(s: StatusSender, attrs: Attributes) returns (err: Outcome)
    modifies s`outbox
    ensures s.outbox == old(s.outbox) + [RegistrationStatus(attrs.pdpName)]
    ensures err == s.reply
  {
    var pdpStatus := RegistrationStatus(attrs.pdpName);
    err := s.SendPdpStatus(pdpStatus);
  }
}
