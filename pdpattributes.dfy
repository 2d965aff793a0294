/** pkg/pdpattributes/pdpattributes.go: the PDP's identity. The package
    globals become the fields of one object; `PdpName` is assigned once, at
    package initialisation, so it is a constant field here. */
module PdpAttributes {
  import opened GoStd

  predicate IsLowerHex(c: char) { '0' <= c <= '9' || 'a' <= c <= 'f' }

  /** The text of uuid.New().String(): 36 characters, 8-4-4-4-12 lower-case
      hexadecimal digits separated by hyphens. */
  predicate IsCanonicalUuid(u: string)
  {
    |u| == 36 &&
    forall i :: 0 <= i < 36 ==> if i == 8 || i == 13 || i == 18 || i == 23 then u[i] == '-' else IsLowerHex(u[i])
  }

  /** GenerateUniquePdpName, with the random UUID as a parameter. */
  function GenerateUniquePdpName(uuid: string): (name: string)
    requires IsCanonicalUuid(uuid)
    ensures |name| == 40 && name[..4] == "opa-" && name[4..] == uuid
  {
    "opa-" + uuid
  }

  /** Two names are equal only when drawn from the same UUID. */
  lemma GeneratedNamesDistinct(u1: string, u2: string)
    requires IsCanonicalUuid(u1) && IsCanonicalUuid(u2) && u1 != u2
    ensures GenerateUniquePdpName(u1) != GenerateUniquePdpName(u2)
  {
    assert GenerateUniquePdpName(u1)[4..] == u1;
  }

  class Attributes {
    const pdpName: string
    var pdpSubgroup: string
    var pdpHeartbeatInterval: int64

    /** Package initialisation: the name is generated, the other two hold
        their zero values. */
    constructor (uuid: string)
      requires IsCanonicalUuid(uuid)
      ensures pdpName == GenerateUniquePdpName(uuid)
      ensures pdpSubgroup == "" && pdpHeartbeatInterval == 0
    {
      pdpName := GenerateUniquePdpName(uuid);
      pdpSubgroup := "";
      pdpHeartbeatInterval := 0;
    }

    /** SetPdpSubgroup: stores exactly the given text, "" included, and
        touches nothing else. */
    method SetPdpSubgroup(pdpsubgroup: string)
      modifies this`pdpSubgroup
      ensures pdpSubgroup == pdpsubgroup
    {
      pdpSubgroup := pdpsubgroup;
    }

    function GetPdpSubgroup(): string
      reads this`pdpSubgroup
    {
      pdpSubgroup
    }

    /** SetPdpHeartbeatInterval: stores any int64, zero and negative ones
        included, and touches nothing else. */
    method SetPdpHeartbeatInterval(pdpHeartbeatInterval: int64)
      modifies this`pdpHeartbeatInterval
      ensures this.pdpHeartbeatInterval == pdpHeartbeatInterval
    {
      this.pdpHeartbeatInterval := pdpHeartbeatInterval;
    }

    function GetPdpHeartbeatInterval(): int64
      reads this`pdpHeartbeatInterval
    {
      pdpHeartbeatInterval
    }
  }
}
