/** pkg/kafkacomm/publisher/pdp-status-publisher.go: the PDP_STATUS
    answers to PDP_UPDATE and PDP_STATE_CHANGE. */
module StatusPublisher {
  import opened Wrappers
  import opened GoStd
  import opened PdpStates
  import opened Messages
  import opened PdpAttributes
  import opened PdpStateCell
  import opened Consts
  import opened PapRegistration

  const UpdateResponseMessage: string := "PDP Update was Successful"
  const StateChangeResponseMessage: string := "PDP State Changed From PASSIVE TO Active"

  /** A response part reporting SUCCESS for the given request. */
  predicate IsSuccessResponseTo(st: PdpStatus, requestId: string, message: string)
  {
    st.response == Some(PdpResponseDetails(Some(requestId), Some(Success), Some(message)))
  }

  /** A status the PDP sends while holding `state` and `subgroup`, stamped. */
  predicate IsCurrentStatus(st: PdpStatus, pdpName: string, state: PdpState, subgroup: string, stamp: Stamp)
  {
    IsOwnStatus(st, pdpName) && st.state == state && st.pdpSubgroup == Some(subgroup) &&
    st.requestId == stamp.requestId && Atoi(st.timestampMs) == Ok(stamp.nowMs)
  }

  function UpdateResponse(state: PdpState, pdpName: string, subgroup: string,
                          u: PdpUpdate, stamp: Stamp): (st: PdpStatus)
    ensures IsCurrentStatus(st, pdpName, state, subgroup, stamp)
    ensures IsSuccessResponseTo(st, u.requestId, UpdateResponseMessage)
    ensures st.description == "Pdp Status Response Message For Pdp Update"
  {
    Stamped(PdpStatus(PDP_STATUS, PdpType, state, PdpHealth.Healthy,
                      "Pdp Status Response Message For Pdp Update",
                      Some(PdpResponseDetails(Some(u.requestId), Some(Success), Some(UpdateResponseMessage))),
                      None, pdpName, "", PdpGroup, Some(subgroup), "", ""), stamp)
  }

  /** The message text is the same whatever state the PDP reports. */
  function StateChangeResponse(state: PdpState, pdpName: string, subgroup: string,
                               m: PdpStateChange, stamp: Stamp): (st: PdpStatus)
    ensures IsCurrentStatus(st, pdpName, state, subgroup, stamp)
    ensures IsSuccessResponseTo(st, m.requestId, StateChangeResponseMessage)
    ensures st.description == "Pdp Status Response Message to Pdp State Change"
  {
    Stamped(PdpStatus(PDP_STATUS, PdpType, state, PdpHealth.Healthy,
                      "Pdp Status Response Message to Pdp State Change",
                      Some(PdpResponseDetails(Some(m.requestId), Some(Success), Some(StateChangeResponseMessage))),
                      None, pdpName, "", PdpGroup, Some(subgroup), "", ""), stamp)
  }

  /** Two responses built with different stamps are different messages. */
  lemma ResponsesDifferByStamp(state: PdpState, pdpName: string, subgroup: string,
                               u: PdpUpdate, m: PdpStateChange, s1: Stamp, s2: Stamp)
    requires s1 != s2
    ensures UpdateResponse(state, pdpName, subgroup, u, s1) != UpdateResponse(state, pdpName, subgroup, u, s2)
    ensures StateChangeResponse(state, pdpName, subgroup, m, s1) != StateChangeResponse(state, pdpName, subgroup, m, s2)
  {
    if s1.requestId == s2.requestId {
      assert Atoi(UpdateResponse(state, pdpName, subgroup, u, s1).timestampMs) == Ok(s1.nowMs);
      assert Atoi(StateChangeResponse(state, pdpName, subgroup, m, s1).timestampMs) == Ok(s1.nowMs);
    }
  }

  /** SendPdpUpdateResponse: reads the current state and subgroup, sends
      once and returns the sender's error unchanged. */
  method SendPdpUpdateResponse(s: StatusSender, attrs: Attributes, cell: StateCell,
                               pdpUpdate: PdpUpdate, stamp: Stamp) returns (err: Outcome)
    modifies s`outbox
    ensures s.outbox == old(s.outbox) + [UpdateResponse(cell.state, attrs.pdpName, attrs.pdpSubgroup, pdpUpdate, stamp)]
    ensures err == s.reply
  {
    var pdpStatus := UpdateResponse(cell.GetState(), attrs.pdpName, attrs.GetPdpSubgroup(), pdpUpdate, stamp);
    err := s.SendPdpStatus(pdpStatus);
  }

  /** SendStateChangeResponse, likewise. */
  method SendStateChangeResponse(s: StatusSender, attrs: Attributes, cell: StateCell,
                                 pdpStateChange: PdpStateChange, stamp: Stamp) returns (err: Outcome)
    modifies s`outbox
    ensures s.outbox == old(s.outbox) + [StateChangeResponse(cell.state, attrs.pdpName, attrs.pdpSubgroup, pdpStateChange, stamp)]
    ensures err == s.reply
  {
    var pdpStatus := StateChangeResponse(cell.GetState(), attrs.pdpName, attrs.GetPdpSubgroup(), pdpStateChange, stamp);
    err := s.SendPdpStatus(pdpStatus);
  }
}
