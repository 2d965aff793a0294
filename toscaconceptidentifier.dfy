/** pkg/model/toscaconceptidentifier.go: a policy identifier (name and
    version). */
module Tosca {
  import opened Wrappers

  datatype ToscaConceptIdentifier = ToscaConceptIdentifier(name: string, version: string)

  datatype PfKey = PfKey(name: string, version: string)

  /** NewToscaConceptIdentifier: stores both strings as given, empty ones too. */
  function NewToscaConceptIdentifier(name: string, version: string): (id: ToscaConceptIdentifier)
    ensures id.name == name && id.version == version
  {
    ToscaConceptIdentifier(name, version)
  }

  /** NewToscaConceptIdentifierFromKey: copies the key's name and version. */
  function NewToscaConceptIdentifierFromKey(key: PfKey): (id: ToscaConceptIdentifier)
    ensures id.name == key.name && id.version == key.version
  {
    ToscaConceptIdentifier(key.name, key.version)
  }

  /** ValidatePapRest: an error exactly when either part is empty. */
  function ValidatePapRest(id: ToscaConceptIdentifier): (r: Outcome)
    ensures r.Fail? <==> id.name == "" || id.version == ""
    ensures r.Fail? ==> r.error == InvalidIdentifier
  {
    if id.name == "" || id.version == "" then Fail(InvalidIdentifier) else Pass
  }

  /** An identifier built from any non-empty name and version validates, and
      one built from a key validates exactly when the key would. */
  lemma ConstructedIdentifiersValidate(name: string, version: string, key: PfKey)
    ensures name != "" && version != "" ==> ValidatePapRest(NewToscaConceptIdentifier(name, version)) == Pass
    ensures ValidatePapRest(NewToscaConceptIdentifierFromKey(key)) ==
            ValidatePapRest(NewToscaConceptIdentifier(key.name, key.version))
  {
  }
}
