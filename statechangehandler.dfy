/** The PDP_STATE_CHANGE handler of pkg/kafkacomm/handler. Its source is
    not part of this model; its tests fix that it decodes the message,
    stores the requested state in the lifecycle cell and answers through
    the sender, returning the sender's error. A state name the cell refuses
    is taken here to end the handler with the cell's error, before any
    answer. */
module StateChangeHandler {
  import opened Wrappers
  import opened PdpStates
  import opened Messages
  import opened PdpAttributes
  import opened PdpStateCell
  import opened PapRegistration
  import opened StatusPublisher
  import opened Heartbeat
  import opened WireFormat
  import opened HandlerState

  function HandleStateChange(a: Agent, decoded: Option<PdpStateChange>, pdpName: string,
                             stamp: Stamp, reply: Outcome): (r: Handled)
    ensures decoded.None? ==> r == Handled(a, Fail(DecodeError))
    // an unknown state name: the cell's error, and nothing changes
    ensures decoded.Some? && decoded.value.state !in StateNames ==>
      r == Handled(a, Fail(UnknownStateError(decoded.value.state)))
    // a state name: stored, and one answer reporting it is sent
    ensures decoded.Some? && decoded.value.state in StateNames ==>
      String(r.agent.state) == decoded.value.state &&
      r.agent == a.(state := r.agent.state,
                    outbox := a.outbox + [StateChangeResponse(r.agent.state, pdpName, a.subgroup, decoded.value, stamp)]) &&
      r.err == reply
  {
    match decoded
    case None => Handled(a, Fail(DecodeError))
    case Some(m) =>
      var converted := ConvertStringToEnumState(m.state);
      if converted.1.Fail? then Handled(a, converted.1)
      else
        Handled(a.(state := converted.0,
                   outbox := a.outbox + [StateChangeResponse(converted.0, pdpName, a.subgroup, m, stamp)]),
                reply)
  }

  method PdpStateChangeMessageHandler(message: Payload, p: StatusSender, attrs: Attributes, cell: StateCell,
                                      hb: Scheduler, stamp: Stamp) returns (err: Outcome)
    requires cell.Valid()
    modifies p`outbox, cell
    ensures cell.Valid()
    ensures Handled(Snapshot(attrs, cell, hb, p), err) ==
      HandleStateChange(old(Snapshot(attrs, cell, hb, p)), message.stateChange, attrs.pdpName, stamp, p.reply)
  {
    var pdpStateChange: PdpStateChange;
    match message.stateChange {
      case None => return Fail(DecodeError);
      case Some(m) => pdpStateChange := m;
    }
    err := cell.SetState(pdpStateChange.state);
    if err.Fail? {
      return;
    }
    err := SendStateChangeResponse(p, attrs, cell, pdpStateChange, stamp);
  }

  lemma HandleStateChangeKeepsSound(a: Agent, decoded: Option<PdpStateChange>, pdpName: string, stamp: Stamp, reply: Outcome)
    requires Sound(a)
    ensures Sound(HandleStateChange(a, decoded, pdpName, stamp, reply).agent)
  {
  }
}
