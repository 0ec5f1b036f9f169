/** Events a pan gesture recognizer delivers to its target. */
module PanEvents {
  import opened Geometry

  datatype PanState = Began | Changed | Ended | Cancelled | Failed {
    /** The states after which the recognizer sends nothing more for this gesture. */
    predicate IsTerminal() {
      Ended? || Cancelled? || Failed?
    }
  }

  /**
    One pan event: the recognizer's state with its location, cumulative
    translation and velocity, all in the coordinates of the view it is
    attached to.
   */
  datatype PanEvent = PanEvent(state: PanState, location: Point, translation: Point, velocity: Point)
}
