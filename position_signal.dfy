/** The position-taking signal. */
module PositionSignals {
  datatype PositionSignal = Invalid | None | OpenLong | CloseLong | OpenShort | CloseShort
}
