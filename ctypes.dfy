/** The C scalar types used by the structs of the hardware interface header,
    kept at their C widths where the width matters. */
module CTypes {

  /** A C `int` on the supported targets: 32-bit two's complement. */
  newtype int32 = x: int | -0x8000_0000 <= x < 0x8000_0000

  /** A `char` or `unsigned char` field, kept as its unsigned 8-bit pattern so
      that the model does not depend on whether the target's `char` is signed. */
  newtype byte = x: int | 0 <= x < 256

  /** A pin identifier. The width of `Pin` is declared in a board header that is
      not part of this model, so a pin is an integer; -1 means "no pin". */
  type Pin = int

  /** The "no pin / not found / auto-select" sentinel. */
  const NoPin: Pin := -1

  /** Conversion of an integer to an 8-bit `char`: the low eight bits survive. */
  function ToByte(x: int): (b: byte)
    ensures (x - b as int) % 256 == 0
  {
    (x % 256) as byte
  }

  /** The value a byte has when the target's `char` is signed (two's complement). */
  function SignedValue(b: byte): (v: int)
    ensures -128 <= v < 128
    ensures v < 0 <==> b >= 0x80
  {
    if b < 0x80 then b as int else b as int - 256
  }

  /** Reading a byte as signed and converting it back gives the same byte, and a
      signed-char value survives the trip through its byte. */
  lemma SignedRoundTrip(b: byte, x: int)
    ensures ToByte(SignedValue(b)) == b
    ensures -128 <= x < 128 ==> SignedValue(ToByte(x)) == x
  {
  }
}
