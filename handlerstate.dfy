/** The state the PAP message handlers read and write, gathered into one
    value: the subgroup and heartbeat interval of pkg/pdpattributes, the
    lifecycle state, the heartbeat timer and the statuses sent so far. */
module HandlerState {
  import opened GoStd
  import opened PdpStates
  import opened Messages
  import opened PdpAttributes
  import opened PdpStateCell
  import opened PapRegistration
  import opened Heartbeat

  datatype Agent = Agent(
    subgroup: string,
    heartbeatInterval: int64,
    state: PdpState,
    heartbeat: HeartbeatState,
    outbox: seq<PdpStatus>)

  /** What a handler returns: the new state and its error. */
  datatype Handled = Handled(agent: Agent, err: Wrappers.Outcome)

  function Snapshot(attrs: Attributes, cell: StateCell, hb: Scheduler, s: StatusSender): Agent
    reads attrs, cell, hb, s
  {
    Agent(attrs.pdpSubgroup, attrs.pdpHeartbeatInterval, cell.state, hb.State(), s.outbox)
  }

  /** The invariants the handlers keep: a known lifecycle state and a tidy
      heartbeat timer. */
  predicate Sound(a: Agent)
  {
    IsKnownState(a.state) && Tidy(a.heartbeat)
  }
}
