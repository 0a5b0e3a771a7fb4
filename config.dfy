/**
 * The constants shared by the server, the controller and the firmware, and
 * the table of authorised RFID cards.
 */
module Config {
  const MinAngle: int := 0
  const MaxAngle: int := 180
  const DefaultStep: int := 15
  const InitialAngle: int := 90

  predicate InRange(angle: int)
  {
    MinAngle <= angle <= MaxAngle
  }

  /** Card UIDs in lower-case hexadecimal, mapped to a display name. */
  const AuthorizedUids: map<string, string> := map["0496c72b" := "Admin"]
}
