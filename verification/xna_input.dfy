/** The input snapshots the controllers read: which keys are down and where
    the mouse is. */
module XnaInput {
  /** The keys the controllers look at. */
  datatype Key =
    | Left | Right | Up | Down | PageUp | PageDown
    | LeftControl | RightControl | LeftShift | RightShift | LeftAlt | RightAlt
    | Escape | H | Enter | Space | Add | Subtract

  /** A KeyboardState: the set of keys that are down. */
  type KeyboardState = set<Key>

  /** A MouseState: pointer position in pixels, button states and the
      accumulated scroll-wheel value. */
  datatype MouseState = MouseState(x: int, y: int, leftButton: bool, middleButton: bool,
                                   rightButton: bool, scrollWheelValue: int)
}
