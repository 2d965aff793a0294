/** pkg/kafkacomm/publisher/pdp-heartbeat.go: the heartbeat timer.

    The three package globals (`ticker`, `stopChan`, `currentInterval`)
    become fields of a Scheduler object. The goroutine a start spawns is
    represented by the ticker it drives: `running` holds every ticker that
    has been started and not yet stopped, whether or not the globals still
    refer to it. Tickers and stop channels are told apart by a serial
    number. */
module Heartbeat {
  import opened Wrappers
  import opened GoStd
  import opened PdpStates
  import opened Messages
  import opened PdpAttributes
  import opened PdpStateCell
  import opened PapRegistration

  datatype Ticker = Ticker(id: nat, intervalMs: int64)

  datatype HeartbeatState = HeartbeatState(
    ticker: Option<Ticker>,
    stopChan: Option<nat>,
    currentInterval: int64,
    running: set<Ticker>,
    nextId: nat)

  /** The state before any start: no ticker, no channel, interval 0. */
  const Idle: HeartbeatState := HeartbeatState(None, None, 0, {}, 0)

  /** The tickers the globals still refer to. */
  function Tracked(h: HeartbeatState): set<Ticker>
  {
    if h.ticker.Some? then {h.ticker.value} else {}
  }

  /** Every running ticker can still be stopped through the globals. */
  predicate Sole(h: HeartbeatState)
  {
    h.running == Tracked(h)
  }

  /** The invariant StartHeartbeatIntervalTimer and StopTicker keep: the
      tracked ticker runs, has a stop channel and ticks at the current
      interval, and all serials were issued. */
  predicate Tidy(h: HeartbeatState)
  {
    Tracked(h) <= h.running &&
    (h.ticker.Some? ==> h.stopChan.Some? && h.ticker.value.intervalMs == h.currentInterval) &&
    (forall t :: t in h.running ==> t.id < h.nextId) &&
    (h.stopChan.Some? ==> h.stopChan.value < h.nextId)
  }

  /** StartHeartbeatIntervalTimer(intervalMs) on the state. */
  function Started(h: HeartbeatState, intervalMs: int64): (r: HeartbeatState)
    // a non-positive interval only forgets the ticker
    ensures intervalMs <= 0 ==> r == h.(ticker := None)
    // the same interval while a ticker exists changes nothing
    ensures intervalMs > 0 && h.ticker.Some? && intervalMs == h.currentInterval ==> r == h
    // otherwise the old ticker stops and one new ticker runs at intervalMs
    ensures intervalMs > 0 && !(h.ticker.Some? && intervalMs == h.currentInterval) ==>
      r.ticker.Some? && r.ticker.value.intervalMs == intervalMs &&
      r.currentInterval == intervalMs && r.stopChan.Some? &&
      r.running == (h.running - Tracked(h)) + {r.ticker.value}
  {
    if intervalMs <= 0 then
      h.(ticker := None)
    else if h.ticker.Some? && intervalMs == h.currentInterval then
      h
    else
      var newTicker := Ticker(h.nextId, intervalMs);
      HeartbeatState(Some(newTicker), Some(h.nextId), intervalMs,
                     (h.running - Tracked(h)) + {newTicker}, h.nextId + 1)
  }

  /** StopTicker on the state: only when both globals are set. */
  function Stopped(h: HeartbeatState): (r: HeartbeatState)
    ensures h.ticker.Some? && h.stopChan.Some? ==>
      r.ticker.None? && r.stopChan.None? && r.running == h.running - Tracked(h) &&
      r.currentInterval == h.currentInterval
    ensures h.ticker.None? || h.stopChan.None? ==> r == h
  {
    if h.ticker.Some? && h.stopChan.Some? then
      h.(ticker := None, stopChan := None, running := h.running - Tracked(h))
    else
      h
  }

  lemma {:induction false} StartedKeepsTidy(h: HeartbeatState, intervalMs: int64)
    requires Tidy(h)
    ensures Tidy(Started(h, intervalMs))
    ensures Started(h, intervalMs).ticker.Some? && Started(h, intervalMs) != h ==>
      Started(h, intervalMs).ticker.value !in h.running
  {
    if intervalMs > 0 && !(h.ticker.Some? && intervalMs == h.currentInterval) {
      var r := Started(h, intervalMs);
      forall t | t in r.running
        ensures t.id < r.nextId
      {
        if t != r.ticker.value {
          assert t in h.running;
        }
      }
    }
  }

  lemma StoppedKeepsTidy(h: HeartbeatState)
    requires Tidy(h)
    ensures Tidy(Stopped(h))
  {
  }

  /** While every running ticker is tracked, a positive start leaves
      exactly one ticker running, at the requested interval. */
  lemma {:induction false} PositiveStartLeavesOneTicker(h: HeartbeatState, intervalMs: int64)
    requires Tidy(h) && Sole(h) && intervalMs > 0
    ensures Sole(Started(h, intervalMs))
    ensures Started(h, intervalMs).running == {Started(h, intervalMs).ticker.value}
    ensures Started(h, intervalMs).ticker.value.intervalMs == intervalMs
    ensures Started(h, intervalMs).currentInterval == intervalMs
  {
    var r := Started(h, intervalMs);
    if h.ticker.Some? && intervalMs == h.currentInterval {
      assert r == h;
    } else {
      assert h.running - Tracked(h) == {};
    }
  }

  /** A non-positive start while a ticker runs orphans it: it keeps running,
      the globals forget it, and StopTicker can no longer reach it. */
  lemma {:induction false} NonPositiveStartOrphansTicker(h: HeartbeatState, intervalMs: int64)
    requires Tidy(h) && h.ticker.Some? && intervalMs <= 0
    ensures h.ticker.value in Started(h, intervalMs).running
    ensures !Sole(Started(h, intervalMs))
    ensures Stopped(Started(h, intervalMs)) == Started(h, intervalMs)
  {
    var r := Started(h, intervalMs);
    assert h.ticker.value in r.running && Tracked(r) == {};
  }

  /** The status a tick sends. */
  function HeartbeatStatus(state: PdpState, pdpName: string, subgroup: string, stamp: Stamp): (st: PdpStatus)
    ensures IsOwnStatus(st, pdpName) && st.response.None?
    ensures st.state == state && st.pdpSubgroup == Some(subgroup)
    ensures st.description == "Pdp heartbeat"
    ensures st.requestId == stamp.requestId && Atoi(st.timestampMs) == Ok(stamp.nowMs)
  {
    Stamped(PdpStatus(PDP_STATUS, Consts.PdpType, state, PdpHealth.Healthy, "Pdp heartbeat",
                      None, None, pdpName, "", Consts.PdpGroup, Some(subgroup), "", ""), stamp)
  }

  /** sendPDPHeartBeat: one send, whose error is returned unchanged. */
  method SendPdpHeartBeat(s: StatusSender, attrs: Attributes, cell: StateCell, stamp: Stamp)
    returns (err: Outcome)
    modifies s`outbox
    ensures s.outbox == old(s.outbox) + [HeartbeatStatus(cell.state, attrs.pdpName, attrs.pdpSubgroup, stamp)]
    ensures err == s.reply
  {
    var pdpStatus := HeartbeatStatus(cell.GetState(), attrs.pdpName, attrs.GetPdpSubgroup(), stamp);
    err := s.SendPdpStatus(pdpStatus);
  }

  class Scheduler {
    var ticker: Option<Ticker>
    var stopChan: Option<nat>
    var currentInterval: int64
    var running: set<Ticker>
    var nextId: nat

    function State(): HeartbeatState
      reads this
    {
      HeartbeatState(ticker, stopChan, currentInterval, running, nextId)
    }

    constructor ()
      ensures State() == Idle && Tidy(State())
    {
      ticker := None;
      stopChan := None;
      currentInterval := 0;
      running := {};
      nextId := 0;
    }

    /** StartHeartbeatIntervalTimer(intervalMs, s). */
    method StartHeartbeatIntervalTimer(intervalMs: int64)
      modifies this
      ensures State() == Started(old(State()), intervalMs)
    {
      if intervalMs <= 0 {
        ticker := None;
        return;
      }
      if ticker.Some? && intervalMs == currentInterval {
        return;
      }
      if ticker.Some? {
        running := running - {ticker.value};
      }
      currentInterval := intervalMs;
      var newTicker := Ticker(nextId, intervalMs);
      ticker := Some(newTicker);
      stopChan := Some(nextId);
      running := running + {newTicker};
      nextId := nextId + 1;
    }

    /** StopTicker(): the goroutine receives on the channel and stops the
        ticker it drives; then both globals are cleared. */
    method StopTicker()
      modifies this
      ensures State() == Stopped(old(State()))
    {
      if ticker.Some? && stopChan.Some? {
        running := running - {ticker.value};
        ticker := None;
        stopChan := None;
      }
    }
  }
}
