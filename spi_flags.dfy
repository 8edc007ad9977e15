/** The SPI mode flags (`JshSPIFlags`): clock phase in bit 0, clock polarity in
    bit 1, and the four standard modes built from them. */
module SpiFlags {

  /** The `spiMode` field of the SPI configuration: an `unsigned char` of flag bits. */
  type SpiMode = bv8

  /** Clock phase: data is sampled on the second clock edge. */
  const CPHA: SpiMode := 1
  /** Clock polarity: the clock idles high. */
  const CPOL: SpiMode := 2

  const MODE_0: SpiMode := 0
  const MODE_1: SpiMode := CPHA
  const MODE_2: SpiMode := CPOL
  const MODE_3: SpiMode := CPHA | CPOL

  /** The mode byte for a clock polarity and phase. */
  function Encode(cpol: bool, cpha: bool): (m: SpiMode)
    ensures m < 4
  {
    (if cpol then CPOL else 0) | (if cpha then CPHA else 0)
  }

  /** The clock polarity a mode byte selects. */
  function Cpol(m: SpiMode): bool {
    m & CPOL != 0
  }

  /** The clock phase a mode byte selects. */
  function Cpha(m: SpiMode): bool {
    m & CPHA != 0
  }

  /** Decoding an encoded mode gives back its polarity and phase. */
  lemma DecodeEncode(cpol: bool, cpha: bool)
    ensures Cpol(Encode(cpol, cpha)) == cpol
    ensures Cpha(Encode(cpol, cpha)) == cpha
  {
  }

  /** Every mode byte that uses only the two flag bits is the encoding of its
      own polarity and phase. */
  lemma EncodeDecode(m: SpiMode)
    requires m < 4
    ensures Encode(Cpol(m), Cpha(m)) == m
  {
  }

  /** Different polarity/phase pairs give different modes, so the four modes
      are distinct. */
  lemma EncodeInjective(cpol: bool, cpha: bool, cpol': bool, cpha': bool)
    ensures Encode(cpol, cpha) == Encode(cpol', cpha') ==> cpol == cpol' && cpha == cpha'
  {
    DecodeEncode(cpol, cpha);
    DecodeEncode(cpol', cpha');
  }

  /** Mode n (0 to 3) has CPHA equal to n & 1 and CPOL equal to (n & 2) / 2. */
  lemma ModeBits(n: int)
    requires 0 <= n < 4
    ensures Cpha(n as SpiMode) <==> n % 2 == 1
    ensures Cpol(n as SpiMode) <==> n / 2 == 1
  {
  }

  /** The table of the four modes: (mode number, CPOL, CPHA). */
  const ModeTable: seq<(int, bool, bool)> :=
    [(0, false, false), (1, false, true), (2, true, false), (3, true, true)]

  /** The named mode constants are the rows of the mode table. */
  lemma ModeTableMatches(i: int)
    requires 0 <= i < |ModeTable|
    ensures Encode(ModeTable[i].1, ModeTable[i].2) as int == ModeTable[i].0
    ensures [MODE_0, MODE_1, MODE_2, MODE_3][i] == Encode(ModeTable[i].1, ModeTable[i].2)
  {
  }
}
