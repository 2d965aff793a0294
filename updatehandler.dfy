/** pkg/kafkacomm/handler/pdp_update_message_handler.go. */
module UpdateHandler {
  import opened Wrappers
  import opened GoStd
  import opened Messages
  import opened PdpAttributes
  import opened PdpStateCell
  import opened PapRegistration
  import opened StatusPublisher
  import opened Heartbeat
  import opened WireFormat
  import opened HandlerState

  /** PdpUpdateMessageHandler on the handler state: decode, validate, store
      subgroup and interval, answer, and only after a successful answer
      start the heartbeat at the stored interval. */
  function HandleUpdate(a: Agent, decoded: Option<PdpUpdate>, pdpName: string,
                        stamp: Stamp, reply: Outcome): (r: Handled)
    // undecodable or invalid: an error, and nothing changes
    ensures decoded.None? ==> r == Handled(a, Fail(DecodeError))
    ensures decoded.Some? && !AllRequiredPresent(decoded.value) ==>
      r.agent == a && r.err == Fail(ValidationError(FailingFields(decoded.value)))
    // valid: the attributes are the message's and exactly one answer is sent
    ensures decoded.Some? && AllRequiredPresent(decoded.value) ==>
      r.agent.subgroup == decoded.value.pdpSubgroup &&
      r.agent.heartbeatInterval == decoded.value.pdpHeartbeatIntervalMs &&
      r.agent.state == a.state &&
      r.agent.outbox == a.outbox + [UpdateResponse(a.state, pdpName, decoded.value.pdpSubgroup, decoded.value, stamp)] &&
      r.err == reply
    // a failed answer is not rolled back and starts no heartbeat
    ensures decoded.Some? && AllRequiredPresent(decoded.value) && reply.Fail? ==>
      r.agent.heartbeat == a.heartbeat
    ensures decoded.Some? && AllRequiredPresent(decoded.value) && reply.Pass? ==>
      r.agent.heartbeat == Started(a.heartbeat, decoded.value.pdpHeartbeatIntervalMs)
  {
    match decoded
    case None => Handled(a, Fail(DecodeError))
    case Some(u) =>
      var v := ValidatePdpUpdate(u);
      if v.Fail? then Handled(a, v)
      else
        var answered := a.(subgroup := u.pdpSubgroup, heartbeatInterval := u.pdpHeartbeatIntervalMs,
                           outbox := a.outbox + [UpdateResponse(a.state, pdpName, u.pdpSubgroup, u, stamp)]);
        if reply.Fail? then Handled(answered, reply)
        else Handled(answered.(heartbeat := Started(a.heartbeat, u.pdpHeartbeatIntervalMs)), Pass)
  }

  /** PdpUpdateMessageHandler(message, p). */
  method PdpUpdateMessageHandler(message: Payload, p: StatusSender, attrs: Attributes, cell: StateCell,
                                 hb: Scheduler, stamp: Stamp) returns (err: Outcome)
    modifies p`outbox, attrs`pdpSubgroup, attrs`pdpHeartbeatInterval, hb
    ensures Handled(Snapshot(attrs, cell, hb, p), err) ==
      HandleUpdate(old(Snapshot(attrs, cell, hb, p)), message.update, attrs.pdpName, stamp, p.reply)
  {
    var pdpUpdate: PdpUpdate;
    match message.update {
      case None => return Fail(DecodeError);
      case Some(u) => pdpUpdate := u;
    }
    err := ValidatePdpUpdate(pdpUpdate);
    if err.Fail? {
      return;
    }
    attrs.SetPdpSubgroup(pdpUpdate.pdpSubgroup);
    attrs.SetPdpHeartbeatInterval(pdpUpdate.pdpHeartbeatIntervalMs);
    err := SendPdpUpdateResponse(p, attrs, cell, pdpUpdate, stamp);
    if err.Fail? {
      return;
    }
    hb.StartHeartbeatIntervalTimer(attrs.GetPdpHeartbeatInterval());
  }

  lemma HandleUpdateKeepsSound(a: Agent, decoded: Option<PdpUpdate>, pdpName: string, stamp: Stamp, reply: Outcome)
    requires Sound(a)
    ensures Sound(HandleUpdate(a, decoded, pdpName, stamp, reply).agent)
  {
    if decoded.Some? {
      StartedKeepsTidy(a.heartbeat, decoded.value.pdpHeartbeatIntervalMs);
    }
  }

  /** An update without a PDP name, which is how PAP addresses a group,
      fails validation: it changes nothing and sends nothing. */
  lemma UnnamedUpdateNeverApplied(a: Agent, u: PdpUpdate, pdpName: string, stamp: Stamp, reply: Outcome)
    requires u.name == ""
    ensures HandleUpdate(a, Some(u), pdpName, stamp, reply) == Handled(a, Fail(ValidationError(FailingFields(u))))
    ensures "Name" in FailingFields(u)
  {
    AnonymousUpdateIsRejected(u);
  }
}
