# Espruino hardware interface: pin states, SPI modes, peripheral defaults and pin lookup

This project models the part of Espruino's hardware interface header
(`jshardware.h`) that has behaviour of its own rather than only declarations:

- the twelve pin states of `JshPinState` and the `JSHPINSTATE_IS_OUTPUT`
  classification (module `PinStates`);
- the SPI mode flags `JshSPIFlags`: clock phase in bit 0, clock polarity in
  bit 1, and modes 0 to 3 (module `SpiFlags`);
- the USART, SPI and I2C configuration records and the three initialisers that
  fill a caller-owned record with defaults and the -1 "choose the pin for me"
  marker (module `PeripheralInfo`, the records as classes, the initialisers as
  methods that modify them);
- turning a script value into a pin with `jshGetPinFromVar` and
  `jshGetPinFromVarAndUnLock` (module `PinLookup`).

Module `CTypes` holds the C widths the records use: a 32-bit `int`, a byte for
`char` and `unsigned char`, and `Pin` as an integer with -1 as "no pin".
Module `Options` holds an optional value for lookups that may name nothing.

The interpreter's value representation is abstract: a value is a string with
its inline character storage, an integer, or anything else. The board's pin-name
table (`jshGetPinFromString`) and the cast of an integer to `Pin` are not part of
this model. Both are passed to the lookup as function parameters, so every
property of the lookup holds for any name table and any cast.

The string guard reads the character at index 5 of the value's inline storage.
The model reads storage past the characters it is given as NUL. The name passed
to the table is the C string at the start of that storage: the characters before
the first NUL.

## Model

| member | source | states |
|---|---|---|
| PinStates.Code | jsduino/espru/src/jshardware.h:75-88 | each pin state's C value lies in 0..11 |
| PinStates.FromCode | jsduino/espru/src/jshardware.h:75-88 | a C value names a state exactly when it is in 0..11, and the state it names has that value |
| PinStates.CodeRoundTrip | jsduino/espru/src/jshardware.h:75-88 | decoding a state's C value gives the state back, so no two states share a value |
| PinStates.AllStatesComplete | jsduino/espru/src/jshardware.h:75-88 | the list of the twelve states in declaration order contains every state |
| PinStates.PinState.IsOutput | jsduino/espru/src/jshardware.h:90-97 | a state is an output exactly when the macro accepts its C value |
| PinStates.IsOutputMacro | jsduino/espru/src/jshardware.h:90-97 | the macro accepts only C values of enumerators, and never `JSHPINSTATE_UNDEFINED` (0) |
| PinStates.IsOutputMacroAgrees | jsduino/espru/src/jshardware.h:90-97 | the macro is false for every integer that is not an enumerator, and for an enumerator it is true exactly when the state it names is an output |
| PinStates.OutputStatesExactly | jsduino/espru/src/jshardware.h:75-97 | the outputs are exactly GPIO out, open-drain GPIO out, alternate-function out, USART out, DAC out and I2C; the inputs are exactly undefined, the three GPIO inputs, ADC in and USART in; every state is one or the other |
| PinStates.OutputStateCount | jsduino/espru/src/jshardware.h:90-97 | six states are outputs and six are not |
| SpiFlags.Encode | jsduino/espru/src/jshardware.h:151-157 | a polarity/phase pair is encoded in the two low bits only |
| SpiFlags.DecodeEncode | jsduino/espru/src/jshardware.h:151-153 | the CPOL and CPHA bits of an encoded mode are the polarity and phase that were encoded |
| SpiFlags.EncodeDecode | jsduino/espru/src/jshardware.h:151-157 | every mode byte below 4 is the encoding of its own CPOL and CPHA bits |
| SpiFlags.EncodeInjective | jsduino/espru/src/jshardware.h:154-157 | different polarity/phase pairs give different modes, so the four modes are distinct |
| SpiFlags.ModeBits | jsduino/espru/src/jshardware.h:158-163 | mode n in 0..3 has CPHA set exactly when n is odd and CPOL set exactly when n / 2 is 1 |
| SpiFlags.ModeTableMatches | jsduino/espru/src/jshardware.h:154-163 | each row (mode, CPOL, CPHA) of the mode table encodes to its mode number and to the named constant SPIF_SPI_MODE_n |
| PeripheralInfo.ParityCode | jsduino/espru/src/jshardware.h:141 | every parity setting is a byte of at most 2 (the body gives none, odd and even as 0, 1 and 2) |
| PeripheralInfo.ParityOf | jsduino/espru/src/jshardware.h:141 | a parity byte names a setting exactly when it is at most 2 |
| PeripheralInfo.ParityRoundTrip | jsduino/espru/src/jshardware.h:141 | parity settings and the bytes 0..2 correspond one to one |
| PeripheralInfo.UsartInitInfo | jsduino/espru/src/jshardware.h:122-143 | afterwards the record holds 9600 baud, byte size 8, parity 0 (none), one stop bit and -1 for both pins, and nothing else changed |
| PeripheralInfo.SpiInitInfo | jsduino/espru/src/jshardware.h:167-181 | afterwards the record holds 1000000 baud, -1 for SCK, MISO and MOSI, and mode 0 (CPOL clear, CPHA clear), and nothing else changed |
| PeripheralInfo.MasterIsNotAnAddress | jsduino/espru/src/jshardware.h:194-208 | the master marker `(char)-1` is the byte 0xFF, reads as -1 when `char` is signed, and is never a 7-bit slave address |
| PeripheralInfo.IsI2CAddress | jsduino/espru/src/jshardware.h:208 | a byte is a 7-bit address exactly when it reads as non-negative in a signed `char`, and no address is the master marker |
| PeripheralInfo.I2CInitInfo | jsduino/espru/src/jshardware.h:194-205 | afterwards the record holds -1 for SCL and SDA and the master marker as slave address, and nothing else changed |
| CTypes.ToByte | jsduino/espru/src/jshardware.h:204 | converting an integer to an 8-bit `char` keeps it modulo 256: the byte differs from the integer by a multiple of 256 |
| CTypes.SignedRoundTrip | jsduino/espru/src/jshardware.h:197-204 | converting a signed `char` value to its byte and reading it back as signed is the identity in both directions |
| PinLookup.CString | jsduino/espru/src/jshardware.h:53 | the name handed to the table is a prefix of the storage, contains no NUL, and ends at the storage's first NUL or at its end |
| PinLookup.CStringPrefix | jsduino/espru/src/jshardware.h:53 | the name depends only on the storage up to its terminator |
| PinLookup.IsShortName | jsduino/espru/src/jshardware.h:52 | a string whose storage passes the index-5 guard names at most five characters |
| PinLookup.CStringWhole | jsduino/espru/src/jshardware.h:53 | storage without a NUL is read in full as the name |
| PinLookup.PinFromVarName | jsduino/espru/src/jshardware.h:50-53 | a string value holding a NUL-free name is looked up in the table when the name has at most five characters, and gives -1 when it is longer |
| PinLookup.FiveCharacterNameAccepted | jsduino/espru/src/jshardware.h:52 | a corollary: the guard accepts the five-character name "A1234", one more than the comment's four |
| PinLookup.PinFromVar | jsduino/espru/src/jshardware.h:50-58 | an integer gives its cast; a string with NUL at index 5 gives the table's pin for its name; a longer string gives -1; any other value (undefined included) gives -1 |
| PinLookup.PinFromVarSource | jsduino/espru/src/jshardware.h:50-58 | the pin is -1, or the cast of the value's integer, or the table's answer for a NUL-free name of at most five characters taken from the start of the string |
| PinLookup.PinFromVarIgnoresTail | jsduino/espru/src/jshardware.h:52-53 | characters stored after index 5 of a string that passes the guard do not change the pin |
| PinLookup.PinFromVarAndUnLock | jsduino/espru/src/jshardware.h:60-64 | returns exactly the pin `jshGetPinFromVar` returns for the same value |

## Left out

- Every function the header only declares: initialisation and idle work, the
  serial number, the system time and its millisecond conversions, pin names,
  interrupt on/off, delays, pin read/write/state/analog/pulse/watch, scheduled
  output, event checks, USART/SPI/I2C setup and transfers, flash save and load,
  sleep, bit-banging, the SysTick handler and the USB watchdog. Their bodies live
  in per-target source files that are not part of this model.
- Floating-point times, analog values and bit-bang timings: they belong to those
  undeclared bodies.
- The interpreter's value layout and its `jsvIsString`, `jsvIsInt`,
  `jsvGetInteger` and `jsvUnLock`: a script value is an abstract datatype, and
  releasing the value's lock is taken to have no effect on the returned pin.
- PinFromVar: the board's name table and the integer-to-`Pin` cast are function
  parameters, because their definitions are not part of this model; the width
  of `Pin` is not modelled and -1 stands for "no pin".
- PinFromVar: the inline storage of a string is given as a sequence, and
  positions past its end read as NUL; the fixed size of that storage is not
  part of this model.
- The 7-bit rule for I2C addresses is stated as a predicate only, since the
  transfer functions it documents have no body here.
