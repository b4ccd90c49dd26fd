/**
 * The data model shared by the three routines of src/main.cpp: the two stage
 * axes, the commands the program sends to them, the rows it writes to its CSV
 * file and the visit records and error reports of playback.
 */
module Model {
  /** The two linear stages: axis 1 of the first and of the second detected device. */
  datatype Axis = X | Y

  /**
   * One event on the stage. All but `Dwell` are calls into the motion-control
   * library on one axis (distances in millimetres); `Dwell` is the
   * `sleep_for` pause of playback, during which no axis is commanded.
   */
  datatype Event =
    | Unpark(axis: Axis)
    | MoveRelative(axis: Axis, delta: real)
    | MoveAbsolute(axis: Axis, position: real)
    | WaitUntilIdle(axis: Axis)
    | Park(axis: Axis)
    | Dwell(seconds: int)

  /** True when `e` is a library call on axis `a` (a dwell is on no axis). */
  predicate OnAxis(e: Event, a: Axis) {
    !e.Dwell? && e.axis == a
  }

  /**
   * A three-field CSV row `x,y,n`: a grid waypoint (n is the stay time in
   * seconds) or the origin record written by calibration (n is 0).
   */
  datatype Row = Row(x: real, y: real, stay: int)

  /** A completed waypoint of playback with the clock reading taken after its dwell. */
  datatype Visit = Visit(point: Row, at: string)

  /** Why playback rejected a qualifying line: a failed number conversion or a device error. */
  datatype Cause = Conversion | Device

  /** An error report of playback: the offending line and the cause. */
  datatype Report = Report(line: string, cause: Cause)
}
