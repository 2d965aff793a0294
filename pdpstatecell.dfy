/** The lifecycle cell of pkg/pdpstate. Its source is not part of this
    model; the behaviour here is the one its tests and the state-change
    handler's tests pin down: the cell starts PASSIVE, a valid state name
    stores the converted state, and any other name is an error that leaves
    the stored state as it was. */
module PdpStateCell {
  import opened Wrappers
  import opened PdpStates

  class StateCell {
    var state: PdpState

    /** The stored value is always one of the five states. */
    predicate Valid()
      reads this
    {
      IsKnownState(state)
    }

    constructor ()
      ensures Valid() && state == Passive
    {
      state := Passive;
    }

    /** SetState(name). */
    method SetState(name: string) returns (err: Outcome)
      requires Valid()
      modifies this
      ensures Valid()
      ensures err == ConvertStringToEnumState(name).1
      ensures err.Pass? ==> state == ConvertStringToEnumState(name).0 && String(state) == name
      ensures err.Fail? ==> state == old(state)
    {
      var converted := ConvertStringToEnumState(name);
      err := converted.1;
      if err.Pass? {
        state := converted.0;
      }
    }

    /** GetState (also reached as GetCurrentState and the variable State). */
    function GetState(): PdpState
      reads this
    {
      state
    }
  }
}
