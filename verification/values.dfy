/**
 Sensor readings are C `float`s. The model never computes with them: a value is kept as its
 32-bit IEEE-754 pattern, so that readings can be compared and passed along but no
 floating-point arithmetic or rounding is assumed.
 */
module Values {

  datatype Float32 = Float32(bits: bv32)

  /**
   `String(x, digits)`: the Arduino fixed-point rendering of `x` with `digits` decimals. It is
   supplied by the caller and left uninterpreted.
   */
  type Formatter = (Float32, nat) -> string
}
