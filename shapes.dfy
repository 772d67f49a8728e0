/** The geometric values of the game framework: axis-aligned rectangles and circles. */
module Shapes {

  /** A Rectangle with its lower-left corner at (x, y). Platform.java wraps one of these. */
  datatype Rect = Rect(x: real, y: real, width: real, height: real)
  {
    /** The top edge, y + height. */
    function Top(): real { y + height }
  }

  /** A Circle with centre (x, y). */
  datatype Circle = Circle(x: real, y: real, radius: real)

  datatype Option<T> = None | Some(value: T)
}
