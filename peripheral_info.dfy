/** The configuration records of the USART, SPI and I2C peripherals and the
    initialisers that fill a caller-owned record with its defaults. A pin field
    of -1 asks the setup routine to choose the board's default pin. */
module PeripheralInfo {
  import opened Options
  import opened CTypes
  import opened SpiFlags

  const DEFAULT_BAUD_RATE: int32 := 9600
  const DEFAULT_BYTESIZE: byte := 8
  const DEFAULT_PARITY: byte := 0
  const DEFAULT_STOPBITS: byte := 1

  /** The SPI clock rate the initialiser chooses, in bits per second. */
  const DEFAULT_SPI_BAUD_RATE: int32 := 1000000

  /** USART parity, as the values of the `parity` byte name it. */
  datatype Parity = ParityNone | ParityOdd | ParityEven

  /** The byte that stands for a parity setting. */
  function ParityCode(p: Parity): (b: byte)
    ensures b <= 2
  {
    match p
    case ParityNone => 0
    case ParityOdd => 1
    case ParityEven => 2
  }

  /** The parity setting a byte stands for; bytes above 2 name none. */
  function ParityOf(b: byte): (p: Option<Parity>)
    ensures p.Some? <==> b <= 2
  {
    if b == 0 then Some(ParityNone)
    else if b == 1 then Some(ParityOdd)
    else if b == 2 then Some(ParityEven)
    else None
  }

  /** Parity codes and parity settings correspond one to one. */
  lemma ParityRoundTrip(p: Parity, b: byte)
    ensures ParityOf(ParityCode(p)) == Some(p)
    ensures ParityOf(b).Some? ==> ParityCode(ParityOf(b).value) == b
  {
  }

  /** `JshUSARTInfo`. */
  class UsartInfo {
    var baudRate: int32
    var pinRX: Pin
    var pinTX: Pin
    var bytesize: byte
    var parity: byte
    var stopbits: byte
  }

  /** `jshUSARTInitInfo`: 9600 baud, 8 data bits, no parity, one stop bit, and
      both pins left to be chosen by the setup routine. */
  method UsartInitInfo(inf: UsartInfo)
    modifies inf
    ensures inf.baudRate == DEFAULT_BAUD_RATE == 9600
    ensures inf.pinRX == NoPin && inf.pinTX == NoPin
    ensures inf.bytesize == DEFAULT_BYTESIZE == 8
    ensures inf.parity == DEFAULT_PARITY && ParityOf(inf.parity) == Some(ParityNone)
    ensures inf.stopbits == DEFAULT_STOPBITS == 1
  {
    inf.baudRate := DEFAULT_BAUD_RATE;
    inf.pinRX := -1;
    inf.pinTX := -1;
    inf.bytesize := DEFAULT_BYTESIZE;
    inf.parity := DEFAULT_PARITY;
    inf.stopbits := DEFAULT_STOPBITS;
  }

  /** `JshSPIInfo`. */
  class SpiInfo {
    var baudRate: int32
    var pinSCK: Pin
    var pinMISO: Pin
    var pinMOSI: Pin
    var spiMode: SpiMode
  }

  /** `jshSPIInitInfo`: 1 MHz, SPI mode 0 (clock idles low, sampled on the first
      edge), and all three pins left to be chosen by the setup routine. */
  method SpiInitInfo(inf: SpiInfo)
    modifies inf
    ensures inf.baudRate == DEFAULT_SPI_BAUD_RATE == 1000000
    ensures inf.pinSCK == NoPin && inf.pinMISO == NoPin && inf.pinMOSI == NoPin
    ensures inf.spiMode == MODE_0
    ensures !Cpol(inf.spiMode) && !Cpha(inf.spiMode)
  {
    inf.baudRate := DEFAULT_SPI_BAUD_RATE;
    inf.pinSCK := -1;
    inf.pinMISO := -1;
    inf.pinMOSI := -1;
    inf.spiMode := MODE_0;
  }

  /** The `slaveAddr` value that marks a bus master: `(char)-1`. */
  const MASTER: byte := ToByte(-1)

  /** I2C addresses are 7-bit: 0 to 0x7F. */
  predicate IsI2CAddress(address: byte)
    ensures IsI2CAddress(address) <==> SignedValue(address) >= 0
    ensures IsI2CAddress(address) ==> address != MASTER
  {
    address <= 0x7F
  }

  /** The master marker is 0xFF as an unsigned char and -1 as a signed char,
      and in either reading it is not a 7-bit address, so it cannot be mistaken
      for a slave address. */
  lemma MasterIsNotAnAddress()
    ensures MASTER == 0xFF
    ensures SignedValue(MASTER) == -1
    ensures !IsI2CAddress(MASTER)
  {
  }

  /** `JshI2CInfo`. */
  class I2CInfo {
    var pinSCL: Pin
    var pinSDA: Pin
    var slaveAddr: byte

    /** This bus acts as master rather than as a slave with an address. */
    predicate IsMaster()
      reads this
    {
      slaveAddr == MASTER
    }
  }

  /** `jshI2CInitInfo`: master mode, both pins left to be chosen by the setup
      routine. */
  method I2CInitInfo(inf: I2CInfo)
    modifies inf
    ensures inf.pinSCL == NoPin && inf.pinSDA == NoPin
    ensures inf.slaveAddr == MASTER && SignedValue(inf.slaveAddr) == -1
    ensures inf.IsMaster() && !IsI2CAddress(inf.slaveAddr)
  {
    inf.pinSCL := -1;
    inf.pinSDA := -1;
    inf.slaveAddr := ToByte(-1);
  }
}
