/** pkg/kafkacomm/handler/pdp_message_handler.go: routing of PAP messages,
    the dispatch loop and the shutdown flag. */
module MessageHandler {
  import opened Wrappers
  import opened Messages
  import opened Consts
  import opened PdpAttributes
  import opened PdpStateCell
  import opened PapRegistration
  import opened Heartbeat
  import opened WireFormat
  import opened TopicConsumer
  import opened HandlerState
  import opened UpdateHandler
  import opened StateChangeHandler

  /** The shutdown flag: false at start, and nothing resets it. */
  class ShutdownState {
    var shutdownFlag: bool

    constructor ()
      ensures !shutdownFlag
    {
      shutdownFlag := false;
    }

    method SetShutdownFlag()
      modifies this
      ensures shutdownFlag
    {
      shutdownFlag := true;
    }

    function IsShutdown(): bool
      reads this
    {
      shutdownFlag
    }
  }

  /** checkIfMessageIsForOpaPdp, with this PDP's name and current subgroup. */
  function CheckIfMessageIsForOpaPdp(message: OpaPdpMessage, pdpName: string, pdpSubgroup: string): (r: bool)
    // a named message is for this PDP exactly when the name is its own
    ensures message.name != "" ==> (r <==> message.name == pdpName)
    // a broadcast needs a group, an assigned PDP, the configured group, and
    // either no subgroup or this PDP's subgroup
    ensures message.name == "" ==>
      (r <==> message.pdpGroup != "" && pdpSubgroup != "" && message.pdpGroup == PdpGroup &&
              (message.pdpSubgroup == "" || message.pdpSubgroup == pdpSubgroup))
  {
    if message.name != "" then message.name == pdpName
    else if message.pdpGroup == "" then false
    else if pdpSubgroup == "" then false
    else if message.pdpGroup != PdpGroup then false
    else if message.pdpSubgroup == "" then true
    else message.pdpSubgroup == pdpSubgroup
  }

  /** What the loop does with one read. */
  datatype Disposition =
    | ReadFailed
    | NilValue
    | Undecodable
    | NotForThisPdp
    | UpdateHandled(err: Outcome)
    | StateChangeHandled(err: Outcome)
    | StatusDiscarded
    | UnknownType(messageType: string)

  datatype Stepped = Stepped(agent: Agent, disposition: Disposition)

  /** One turn of the PdpMessageHandler loop. */
  function Step(a: Agent, read: ReadResult, pdpName: string, stamp: Stamp, reply: Outcome): (r: Stepped)
    // only a targeted PDP_UPDATE or PDP_STATE_CHANGE reaches a handler
    ensures r.disposition.UpdateHandled? ==>
      read.Read? && read.value.Some? && read.value.value.envelope.Some? &&
      CheckIfMessageIsForOpaPdp(read.value.value.envelope.value, pdpName, a.subgroup) &&
      read.value.value.envelope.value.messageType == "PDP_UPDATE" &&
      Handled(r.agent, r.disposition.err) == HandleUpdate(a, read.value.value.update, pdpName, stamp, reply)
    ensures r.disposition.StateChangeHandled? ==>
      read.Read? && read.value.Some? && read.value.value.envelope.Some? &&
      CheckIfMessageIsForOpaPdp(read.value.value.envelope.value, pdpName, a.subgroup) &&
      read.value.value.envelope.value.messageType == "PDP_STATE_CHANGE" &&
      Handled(r.agent, r.disposition.err) == HandleStateChange(a, read.value.value.stateChange, pdpName, stamp, reply)
    // and every targeted message reaches the handler for its type
    ensures read.Read? && read.value.Some? && read.value.value.envelope.Some? &&
            CheckIfMessageIsForOpaPdp(read.value.value.envelope.value, pdpName, a.subgroup) ==>
      (read.value.value.envelope.value.messageType == "PDP_UPDATE" ==> r.disposition.UpdateHandled?) &&
      (read.value.value.envelope.value.messageType == "PDP_STATE_CHANGE" ==> r.disposition.StateChangeHandled?) &&
      (read.value.value.envelope.value.messageType == "PDP_STATUS" <==> r.disposition == StatusDiscarded)
    // a message not for this PDP goes no further
    ensures read.Read? && read.value.Some? && read.value.value.envelope.Some? &&
            !CheckIfMessageIsForOpaPdp(read.value.value.envelope.value, pdpName, a.subgroup) ==>
      r.disposition == NotForThisPdp
    // every other turn changes nothing
    ensures !r.disposition.UpdateHandled? && !r.disposition.StateChangeHandled? ==> r.agent == a
    ensures read.ReadError? <==> r.disposition == ReadFailed
    ensures read == Read(None) <==> r.disposition == NilValue
    ensures (read.Read? && read.value.Some? && read.value.value.envelope.None?) <==> r.disposition == Undecodable
    ensures r.disposition.UnknownType? ==>
      r.disposition.messageType !in {"PDP_UPDATE", "PDP_STATE_CHANGE", "PDP_STATUS"}
  {
    match read
    case ReadError(_) => Stepped(a, ReadFailed)
    case Read(None) => Stepped(a, NilValue)
    case Read(Some(message)) =>
      match message.envelope
      case None => Stepped(a, Undecodable)
      case Some(opaPdpMessage) =>
        if !CheckIfMessageIsForOpaPdp(opaPdpMessage, pdpName, a.subgroup) then Stepped(a, NotForThisPdp)
        else if opaPdpMessage.messageType == "PDP_UPDATE" then
          var h := HandleUpdate(a, message.update, pdpName, stamp, reply);
          Stepped(h.agent, UpdateHandled(h.err))
        else if opaPdpMessage.messageType == "PDP_STATE_CHANGE" then
          var h := HandleStateChange(a, message.stateChange, pdpName, stamp, reply);
          Stepped(h.agent, StateChangeHandled(h.err))
        else if opaPdpMessage.messageType == "PDP_STATUS" then Stepped(a, StatusDiscarded)
        else Stepped(a, UnknownType(opaPdpMessage.messageType))
  }

  /** A PDP_UPDATE whose envelope carries no PDP name (a group broadcast,
      which CheckIfMessageIsForOpaPdp may accept) is never applied: the
      update decoded from the same text has the same empty name and fails
      validation, so the turn leaves the agent as it was. */
  lemma BroadcastUpdateNeverApplied(a: Agent, p: Payload, pdpName: string, stamp: Stamp, reply: Outcome)
    requires Coherent(p) && p.envelope.Some? && p.envelope.value.name == ""
    requires p.envelope.value.messageType == "PDP_UPDATE"
    ensures Step(a, Read(Some(p)), pdpName, stamp, reply).agent == a
  {
    if p.update.Some? {
      UnnamedUpdateNeverApplied(a, p.update.value, pdpName, stamp, reply);
    }
  }

  /** The state after the loop has taken the given deliveries, in order, the
      i-th answered with the i-th stamp. */
  function Run(a: Agent, deliveries: seq<ReadResult>, stamps: seq<Stamp>, pdpName: string, reply: Outcome): Agent
    requires |deliveries| == |stamps|
    decreases |deliveries|
  {
    if |deliveries| == 0 then a
    else
      var n := |deliveries| - 1;
      Step(Run(a, deliveries[..n], stamps[..n], pdpName, reply), deliveries[n], pdpName, stamps[n], reply).agent
  }

  lemma StepKeepsSound(a: Agent, read: ReadResult, pdpName: string, stamp: Stamp, reply: Outcome)
    requires Sound(a)
    ensures Sound(Step(a, read, pdpName, stamp, reply).agent)
  {
    if read.Read? && read.value.Some? && read.value.value.envelope.Some? {
      HandleUpdateKeepsSound(a, read.value.value.update, pdpName, stamp, reply);
      HandleStateChangeKeepsSound(a, read.value.value.stateChange, pdpName, stamp, reply);
    }
  }

  /** However many messages arrive, the lifecycle state stays one of the
      five and the heartbeat timer stays tidy. */
  lemma {:induction false} RunKeepsSound(a: Agent, deliveries: seq<ReadResult>, stamps: seq<Stamp>, pdpName: string, reply: Outcome)
    requires |deliveries| == |stamps| && Sound(a)
    ensures Sound(Run(a, deliveries, stamps, pdpName, reply))
    decreases |deliveries|
  {
    if |deliveries| > 0 {
      var n := |deliveries| - 1;
      RunKeepsSound(a, deliveries[..n], stamps[..n], pdpName, reply);
      StepKeepsSound(Run(a, deliveries[..n], stamps[..n], pdpName, reply), deliveries[n], pdpName, stamps[n], reply);
    }
  }

  /** A status the loop may send: an answer to a request, carrying this
      PDP's fixed fields, a SUCCESS response and a stamp of the run. */
  predicate IsAnswer(st: PdpStatus, pdpName: string, stamps: seq<Stamp>)
  {
    IsOwnStatus(st, pdpName) && st.response.Some? &&
    st.response.value.responseStatus == Some(Success) &&
    exists j :: 0 <= j < |stamps| && st.requestId == stamps[j].requestId
  }

  /** One turn sends at most one status, and that one is a SUCCESS answer
      of this PDP stamped with the turn's stamp. */
  lemma StepOutbox(a: Agent, read: ReadResult, pdpName: string, stamp: Stamp, reply: Outcome)
    ensures var after := Step(a, read, pdpName, stamp, reply).agent.outbox;
      after == a.outbox ||
      (|after| == |a.outbox| + 1 && after[..|a.outbox|] == a.outbox &&
       IsOwnStatus(after[|a.outbox|], pdpName) && after[|a.outbox|].response.Some? &&
       after[|a.outbox|].response.value.responseStatus == Some(Success) &&
       after[|a.outbox|].requestId == stamp.requestId)
  {
    var after := Step(a, read, pdpName, stamp, reply).agent.outbox;
    if after != a.outbox {
      assert after[..|a.outbox|] == a.outbox;
    }
  }

  /** The loop only ever appends to the outbox, and what it appends are
      answers, never a FAILURE. */
  lemma {:induction false} RunOnlyAnswers(a: Agent, deliveries: seq<ReadResult>, stamps: seq<Stamp>, pdpName: string, reply: Outcome)
    requires |deliveries| == |stamps|
    ensures a.outbox <= Run(a, deliveries, stamps, pdpName, reply).outbox
    ensures forall k :: |a.outbox| <= k < |Run(a, deliveries, stamps, pdpName, reply).outbox| ==>
      IsAnswer(Run(a, deliveries, stamps, pdpName, reply).outbox[k], pdpName, stamps)
    ensures |Run(a, deliveries, stamps, pdpName, reply).outbox| <= |a.outbox| + |deliveries|
    decreases |deliveries|
  {
    if |deliveries| > 0 {
      var n := |deliveries| - 1;
      var before := Run(a, deliveries[..n], stamps[..n], pdpName, reply);
      RunOnlyAnswers(a, deliveries[..n], stamps[..n], pdpName, reply);
      var after := Run(a, deliveries, stamps, pdpName, reply);
      assert after == Step(before, deliveries[n], pdpName, stamps[n], reply).agent;
      StepOutbox(before, deliveries[n], pdpName, stamps[n], reply);
      assert before.outbox <= after.outbox;
      forall k | |a.outbox| <= k < |after.outbox|
        ensures IsAnswer(after.outbox[k], pdpName, stamps)
      {
        if k < |before.outbox| {
          assert after.outbox[k] == before.outbox[k];
          var j :| 0 <= j < |stamps[..n]| && before.outbox[k].requestId == stamps[..n][j].requestId;
          assert stamps[..n][j] == stamps[j];
        } else {
          assert after.outbox[k].requestId == stamps[n].requestId;
        }
      }
    }
  }

  /** PdpMessageHandler(ctx, kc, topic, p). The deliveries the consumer holds are
      those that complete before the context is cancelled; once they are
      taken the context is done and the loop returns nil, which is the only
      way it returns. Read, decode and handler errors only end the turn. */
  method PdpMessageHandler(kc: KafkaConsumer, p: StatusSender, attrs: Attributes, cell: StateCell,
                           hb: Scheduler, stamps: seq<Stamp>) returns (err: Outcome)
    requires |kc.consumer.pending| == |stamps| && cell.Valid()
    modifies kc.consumer`pending, p`outbox, attrs`pdpSubgroup, attrs`pdpHeartbeatInterval, cell, hb
    ensures kc.consumer.pending == [] && cell.Valid()
    ensures Snapshot(attrs, cell, hb, p) ==
      Run(old(Snapshot(attrs, cell, hb, p)), old(kc.consumer.pending), stamps, attrs.pdpName, p.reply)
    ensures err == Pass
  {
    ghost var start := Snapshot(attrs, cell, hb, p);
    ghost var deliveries := kc.consumer.pending;
    var i := 0;
    while i < |stamps|
      invariant 0 <= i <= |stamps|
      invariant kc.consumer.pending == deliveries[i..]
      invariant cell.Valid()
      invariant Snapshot(attrs, cell, hb, p) == Run(start, deliveries[..i], stamps[..i], attrs.pdpName, p.reply)
      decreases |stamps| - i
    {
      ghost var before := Snapshot(attrs, cell, hb, p);
      assert deliveries[..i+1][..i] == deliveries[..i] && stamps[..i+1][..i] == stamps[..i];
      var message, readErr := ReadKafkaMessages(kc);
      i := i + 1;
      if readErr.Fail? {
        continue;
      }
      match message {
        case None =>
        case Some(payload) =>
          match payload.envelope {
            case None =>
            case Some(opaPdpMessage) =>
              if CheckIfMessageIsForOpaPdp(opaPdpMessage, attrs.pdpName, attrs.GetPdpSubgroup()) {
                if opaPdpMessage.messageType == "PDP_UPDATE" {
                  var _ := PdpUpdateMessageHandler(payload, p, attrs, cell, hb, stamps[i - 1]);
                } else if opaPdpMessage.messageType == "PDP_STATE_CHANGE" {
                  var _ := PdpStateChangeMessageHandler(payload, p, attrs, cell, hb, stamps[i - 1]);
                }
              }
          }
      }
    }
    assert deliveries[..|stamps|] == deliveries && stamps[..|stamps|] == stamps;
    err := Pass;
  }
}
