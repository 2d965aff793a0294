/** pkg/model/pdpstate.go: the PDP lifecycle states, an `int` enumeration
    whose zero value is PASSIVE. */
module PdpStates {
  import opened Wrappers
  import opened GoStd
  import EnumText

  type PdpState = int64

  const Passive: PdpState := 0
  const Safe: PdpState := 1
  const Test: PdpState := 2
  const Active: PdpState := 3
  const Terminated: PdpState := 4

  /** Renderings of the five known states, indexed by their value. */
  const StateNames: seq<string> := ["PASSIVE", "SAFE", "TEST", "ACTIVE", "TERMINATED"]
  const UnknownPrefix: string := "Unknown PdpState: "

  /** The zero value of a Go PdpState. */
  const DefaultState: PdpState := 0

  predicate IsKnownState(s: int) { 0 <= s < |StateNames| }

  /** PdpState.String. */
  function String(s: PdpState): string
  {
    EnumText.Render(StateNames, UnknownPrefix, s)
  }

  /** PdpState.MarshalJSON: the JSON string of String(). */
  function MarshalJSON(s: PdpState): (r: string)
    ensures |r| >= 2 && r[0] == '"' && r[|r| - 1] == '"' && r[1..|r| - 1] == String(s)
  {
    EnumText.RenderIsJsonPlain(StateNames, UnknownPrefix, s);
    JsonQuote(String(s))
  }

  /** ConvertStringToEnumState: an exact, case-sensitive match against the five
      names; anything else yields -1 and an error. */
  function ConvertStringToEnumState(state: string): (r: (PdpState, Outcome))
    ensures r.1.Pass? <==> state in StateNames
    ensures r.1.Pass? ==> IsKnownState(r.0) && String(r.0) == state
    ensures r.1.Fail? ==> r.0 == -1 && r.1 == Fail(UnknownStateError(state))
  {
    match state
    case "PASSIVE" => (Passive, Pass)
    case "SAFE" => (Safe, Pass)
    case "TEST" => (Test, Pass)
    case "ACTIVE" => (Active, Pass)
    case "TERMINATED" => (Terminated, Pass)
    case _ => (-1, Fail(UnknownStateError(state)))
  }

  /** Converting the rendering of a known state gives that state back. */
  lemma ConvertOfString(s: PdpState)
    requires IsKnownState(s)
    ensures ConvertStringToEnumState(String(s)) == (s, Pass)
  {
    var r := ConvertStringToEnumState(String(s));
    StringInjective(r.0, s);
  }

  /** Each value has its own rendering, the unknown ones included. */
  lemma StringInjective(a: PdpState, b: PdpState)
    requires String(a) == String(b)
    ensures a == b
  {
    EnumText.RenderInjective(StateNames, UnknownPrefix, a, b);
  }

  /** Every value outside the five renders as "Unknown PdpState: n" and so is
      never accepted back by ConvertStringToEnumState. */
  lemma UnknownStateRendering(s: PdpState)
    requires !IsKnownState(s)
    ensures String(s) == UnknownPrefix + IntToString(s)
    ensures ConvertStringToEnumState(String(s)).1.Fail?
  {
    if ConvertStringToEnumState(String(s)).1.Pass? {
      var t := ConvertStringToEnumState(String(s)).0;
      StringInjective(t, s);
    }
  }
}
