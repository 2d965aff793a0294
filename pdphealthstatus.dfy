/** pkg/model/pdphealthstatus.go: the PDP health statuses, an `int`
    enumeration whose zero value is HEALTHY. */
module PdpHealth {
  import opened GoStd
  import EnumText

  type PdpHealthStatus = int64

  const Healthy: PdpHealthStatus := 0
  const NotHealthy: PdpHealthStatus := 1
  const TestInProgress: PdpHealthStatus := 2
  const Unknown: PdpHealthStatus := 3

  const HealthNames: seq<string> := ["HEALTHY", "NOT_HEALTHY", "TEST_IN_PROGRESS", "UNKNOWN"]
  const UnknownPrefix: string := "Unknown PdpHealthStatus: "

  /** The zero value of a Go PdpHealthStatus. */
  const DefaultHealth: PdpHealthStatus := 0

  predicate IsKnownHealth(h: int) { 0 <= h < |HealthNames| }

  /** PdpHealthStatus.String. */
  function String(h: PdpHealthStatus): string
  {
    EnumText.Render(HealthNames, UnknownPrefix, h)
  }

  /** PdpHealthStatus.MarshalJSON: the JSON string of String(). */
  function MarshalJSON(h: PdpHealthStatus): (r: string)
    ensures |r| >= 2 && r[0] == '"' && r[|r| - 1] == '"' && r[1..|r| - 1] == String(h)
  {
    EnumText.RenderIsJsonPlain(HealthNames, UnknownPrefix, h);
    JsonQuote(String(h))
  }

  /** Each value has its own rendering, the unknown ones included; in
      particular UNKNOWN (3) and an out-of-range value never print alike. */
  lemma StringInjective(a: PdpHealthStatus, b: PdpHealthStatus)
    requires String(a) == String(b)
    ensures a == b
  {
    EnumText.RenderInjective(HealthNames, UnknownPrefix, a, b);
  }

  lemma MarshalJSONInjective(a: PdpHealthStatus, b: PdpHealthStatus)
    requires MarshalJSON(a) == MarshalJSON(b)
    ensures a == b
  {
    var ra, rb := MarshalJSON(a), MarshalJSON(b);
    assert String(a) == ra[1..|ra| - 1] == rb[1..|rb| - 1] == String(b);
    StringInjective(a, b);
  }
}
