/** The values of consts/constants.go that the modelled code reads. */
module Consts {
  const PdpGroup: string := "defaultGroup"
  const PdpType: string := "opa"
  const ServerPort: string := ":8282"
  const SERVER_WAIT_UP_TIME: nat := 5
  const SHUTDOWN_WAIT_TIME: nat := 5
  const LatestVersion: string := "1.0.0"
  const MinorVersion: string := "0"
  const PatchVersion: string := "0"
}
