/** sf::Color: four 8-bit channels. */
module Colors {

  /** An unsigned 8-bit channel value. */
  type Byte = x: int | 0 <= x < 256

  datatype Color = Color(r: Byte, g: Byte, b: Byte, a: Byte)

  const Black: Color := Color(0, 0, 0, 255)
  const White: Color := Color(255, 255, 255, 255)

  /** `++` on an sf::Uint8: adds one, wrapping 255 to 0. */
  function Increment(v: Byte): (r: Byte)
    ensures v < 255 ==> r == v + 1
    ensures v == 255 ==> r == 0
  {
    (v + 1) % 256
  }

  /** `--` on an sf::Uint8: subtracts one, wrapping 0 to 255. */
  function Decrement(v: Byte): (r: Byte)
    ensures v > 0 ==> r == v - 1
    ensures v == 0 ==> r == 255
  {
    (v - 1) % 256
  }
}
