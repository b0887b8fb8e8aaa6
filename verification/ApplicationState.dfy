/** The states a descriptor's application can be in. */
module ApplicationState {
  datatype AppState =
    | DEPLOYED | AUTH | INVALID | KILLED | LAUNCHED | NO_AUTH | RUNNING | UNREACHABLE | UNKNOWN
}
