/** pkg/metrics/counters.go: six int64 counters, incremented in place. The
    `*Ref` functions hand out a pointer to the counter; here they give its
    value at the time of the call. */
module Metrics {
  import opened GoStd

  datatype CounterSnapshot = CounterSnapshot(
    indeterminantDecisions: int64,
    permitDecisions: int64,
    denyDecisions: int64,
    totalErrors: int64,
    querySuccess: int64,
    queryFailure: int64)

  const Zero: CounterSnapshot := CounterSnapshot(0, 0, 0, 0, 0, 0)

  /** The counter an event bumps. */
  datatype CounterKind = IndeterminantDecisions | PermitDecisions | DenyDecisions | TotalErrors | QuerySuccess | QueryFailure

  /** The value of one counter. */
  function Count(s: CounterSnapshot, k: CounterKind): int64
  {
    match k
    case IndeterminantDecisions => s.indeterminantDecisions
    case PermitDecisions => s.permitDecisions
    case DenyDecisions => s.denyDecisions
    case TotalErrors => s.totalErrors
    case QuerySuccess => s.querySuccess
    case QueryFailure => s.queryFailure
  }

  /** `counter++` on one int64 counter, the other five untouched. */
  function Bumped(s: CounterSnapshot, k: CounterKind): (r: CounterSnapshot)
    ensures Count(r, k) == WrappingIncrement(Count(s, k))
    ensures forall other :: other != k ==> Count(r, other) == Count(s, other)
  {
    match k
    case IndeterminantDecisions => s.(indeterminantDecisions := WrappingIncrement(s.indeterminantDecisions))
    case PermitDecisions => s.(permitDecisions := WrappingIncrement(s.permitDecisions))
    case DenyDecisions => s.(denyDecisions := WrappingIncrement(s.denyDecisions))
    case TotalErrors => s.(totalErrors := WrappingIncrement(s.totalErrors))
    case QuerySuccess => s.(querySuccess := WrappingIncrement(s.querySuccess))
    case QueryFailure => s.(queryFailure := WrappingIncrement(s.queryFailure))
  }

  /** The counters after the given events, in order. */
  function BumpedAll(s: CounterSnapshot, events: seq<CounterKind>): CounterSnapshot
    decreases |events|
  {
    if |events| == 0 then s else BumpedAll(Bumped(s, events[0]), events[1..])
  }

  /** The number of occurrences of one event. */
  function Occurrences(events: seq<CounterKind>, k: CounterKind): (n: nat)
    ensures n <= |events|
    decreases |events|
  {
    if |events| == 0 then 0 else (if events[0] == k then 1 else 0) + Occurrences(events[1..], k)
  }

  /** Below the int64 limit every counter holds the number of its events:
      starting from zero, n increments give n. */
  lemma {:induction false} BumpedAllCounts(s: CounterSnapshot, events: seq<CounterKind>, k: CounterKind)
    requires Count(s, k) as int + |events| <= MaxInt64
    requires Count(s, k) >= 0
    ensures Count(BumpedAll(s, events), k) == Count(s, k) as int + Occurrences(events, k)
    decreases |events|
  {
    if |events| > 0 {
      var next := Bumped(s, events[0]);
      assert Count(next, k) == Count(s, k) + (if events[0] == k then 1 else 0);
      BumpedAllCounts(next, events[1..], k);
    }
  }

  class Counters {
    var indeterminantDecisionsCount: int64
    var permitDecisionsCount: int64
    var denyDecisionsCount: int64
    var totalErrorCount: int64
    var querySuccessCount: int64
    var queryFailureCount: int64

    function Snapshot(): CounterSnapshot
      reads this
    {
      CounterSnapshot(indeterminantDecisionsCount, permitDecisionsCount, denyDecisionsCount,
                      totalErrorCount, querySuccessCount, queryFailureCount)
    }

    constructor ()
      ensures Snapshot() == Zero
    {
      indeterminantDecisionsCount := 0;
      permitDecisionsCount := 0;
      denyDecisionsCount := 0;
      totalErrorCount := 0;
      querySuccessCount := 0;
      queryFailureCount := 0;
    }

    method IncrementIndeterminantDecisionsCount()
      modifies this
      ensures Snapshot() == Bumped(old(Snapshot()), IndeterminantDecisions)
    {
      indeterminantDecisionsCount := WrappingIncrement(indeterminantDecisionsCount);
    }

    method IncrementPermitDecisionsCount()
      modifies this
      ensures Snapshot() == Bumped(old(Snapshot()), PermitDecisions)
    {
      permitDecisionsCount := WrappingIncrement(permitDecisionsCount);
    }

    method IncrementDenyDecisionsCount()
      modifies this
      ensures Snapshot() == Bumped(old(Snapshot()), DenyDecisions)
    {
      denyDecisionsCount := WrappingIncrement(denyDecisionsCount);
    }

    method IncrementTotalErrorCount()
      modifies this
      ensures Snapshot() == Bumped(old(Snapshot()), TotalErrors)
    {
      totalErrorCount := WrappingIncrement(totalErrorCount);
    }

    method IncrementQuerySuccessCount()
      modifies this
      ensures Snapshot() == Bumped(old(Snapshot()), QuerySuccess)
    {
      querySuccessCount := WrappingIncrement(querySuccessCount);
    }

    method IncrementQueryFailureCount()
      modifies this
      ensures Snapshot() == Bumped(old(Snapshot()), QueryFailure)
    {
      queryFailureCount := WrappingIncrement(queryFailureCount);
    }

    /** The Increment* function for one counter. */
    method Increment(k: CounterKind)
      modifies this
      ensures Snapshot() == Bumped(old(Snapshot()), k)
    {
      match k {
        case IndeterminantDecisions => IncrementIndeterminantDecisionsCount();
        case PermitDecisions => IncrementPermitDecisionsCount();
        case DenyDecisions => IncrementDenyDecisionsCount();
        case TotalErrors => IncrementTotalErrorCount();
        case QuerySuccess => IncrementQuerySuccessCount();
        case QueryFailure => IncrementQueryFailureCount();
      }
    }

    /** The getters; the two query getters are named Total* in the source. */
    function IndeterminantDecisionsCountRef(): (r: int64)
      reads this
      ensures r == Count(Snapshot(), IndeterminantDecisions)
    {
      indeterminantDecisionsCount
    }

    function PermitDecisionsCountRef(): (r: int64)
      reads this
      ensures r == Count(Snapshot(), PermitDecisions)
    {
      permitDecisionsCount
    }

    function DenyDecisionsCountRef(): (r: int64)
      reads this
      ensures r == Count(Snapshot(), DenyDecisions)
    {
      denyDecisionsCount
    }

    function TotalErrorCountRef(): (r: int64)
      reads this
      ensures r == Count(Snapshot(), TotalErrors)
    {
      totalErrorCount
    }

    function TotalQuerySuccessCountRef(): (r: int64)
      reads this
      ensures r == Count(Snapshot(), QuerySuccess)
    {
      querySuccessCount
    }

    function TotalQueryFailureCountRef(): (r: int64)
      reads this
      ensures r == Count(Snapshot(), QueryFailure)
    {
      queryFailureCount
    }
  }
}
