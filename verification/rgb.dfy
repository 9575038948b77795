/** Colours as the program passes them around: a Python 3-tuple of ints. */
module Rgb {

  type RGB = (int, int, int)

  /** Each component is an 8-bit channel value. */
  predicate IsValid(t: RGB) {
    0 <= t.0 <= 255 && 0 <= t.1 <= 255 && 0 <= t.2 <= 255
  }
}
