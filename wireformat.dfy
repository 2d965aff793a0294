/** The value of a Kafka message read from the PAP topic. The handlers
    decode the same bytes with json.Unmarshal into three Go types; a value
    is represented here by the three decoding results, None standing for an
    unmarshal error. */
module WireFormat {
  import opened Wrappers
  import opened Messages

  /** OpaPdpMessage of pkg/kafkacomm/handler/pdp_message_handler.go: the
      routing fields every PAP message carries. */
  datatype OpaPdpMessage = OpaPdpMessage(
    name: string,
    messageType: string,
    pdpGroup: string,
    pdpSubgroup: string)

  datatype Payload = Payload(
    envelope: Option<OpaPdpMessage>,
    update: Option<PdpUpdate>,
    stateChange: Option<PdpStateChange>)

  /** What decoding one text into three types cannot contradict: each field
      the routing envelope shares with a message type holds the same value,
      and text the envelope cannot decode decodes as neither message (all
      four envelope fields are strings in both message types too). */
  predicate Coherent(p: Payload)
  {
    (p.envelope.None? ==> p.update.None? && p.stateChange.None?) &&
    (p.envelope.Some? && p.update.Some? ==>
       p.update.value.name == p.envelope.value.name &&
       p.update.value.messageType == p.envelope.value.messageType &&
       p.update.value.pdpGroup == p.envelope.value.pdpGroup &&
       p.update.value.pdpSubgroup == p.envelope.value.pdpSubgroup) &&
    (p.envelope.Some? && p.stateChange.Some? ==>
       p.stateChange.value.name == p.envelope.value.name &&
       p.stateChange.value.messageType == p.envelope.value.messageType &&
       p.stateChange.value.pdpGroup == p.envelope.value.pdpGroup &&
       p.stateChange.value.pdpSubgroup == p.envelope.value.pdpSubgroup)
  }
}
