/** The pin-state vocabulary of the hardware interface (`JshPinState`) and the
    classification of states into outputs and inputs (`JSHPINSTATE_IS_OUTPUT`). */
module PinStates {
  import opened Options

  /** The twelve roles a pin can be configured for, in the order the C
      enumeration declares them. */
  datatype PinState =
    | Undefined
    | GpioOut
    | GpioOutOpenDrain
    | GpioIn
    | GpioInPullUp
    | GpioInPullDown
    | AdcIn
    | AfOut
    | UsartIn
    | UsartOut
    | DacOut
    | I2C
  {
    /** Whether the pin drives its line in this state: exactly the states whose
        C value the `JSHPINSTATE_IS_OUTPUT` macro accepts. */
    predicate IsOutput()
      ensures IsOutput() <==> IsOutputMacro(Code(this))
    {
      match this
      case GpioOut | GpioOutOpenDrain | AfOut | UsartOut | DacOut | I2C => true
      case Undefined | GpioIn | GpioInPullUp | GpioInPullDown | AdcIn | UsartIn => false
    }
  }

  /** Number of enumerators. */
  const StateCount := 12

  /** The C value of each enumerator: its position in the declaration. */
  function Code(s: PinState): (n: int)
    ensures 0 <= n < StateCount
  {
    match s
    case Undefined => 0
    case GpioOut => 1
    case GpioOutOpenDrain => 2
    case GpioIn => 3
    case GpioInPullUp => 4
    case GpioInPullDown => 5
    case AdcIn => 6
    case AfOut => 7
    case UsartIn => 8
    case UsartOut => 9
    case DacOut => 10
    case I2C => 11
  }

  /** The state a C value names, if any. */
  function FromCode(n: int): (r: Option<PinState>)
    ensures r.Some? <==> 0 <= n < StateCount
    ensures r.Some? ==> Code(r.value) == n
  {
    if n == 0 then Some(Undefined)
    else if n == 1 then Some(GpioOut)
    else if n == 2 then Some(GpioOutOpenDrain)
    else if n == 3 then Some(GpioIn)
    else if n == 4 then Some(GpioInPullUp)
    else if n == 5 then Some(GpioInPullDown)
    else if n == 6 then Some(AdcIn)
    else if n == 7 then Some(AfOut)
    else if n == 8 then Some(UsartIn)
    else if n == 9 then Some(UsartOut)
    else if n == 10 then Some(DacOut)
    else if n == 11 then Some(I2C)
    else None
  }

  /** Every state is named by its own code, so no two states share a code. */
  lemma CodeRoundTrip(s: PinState, t: PinState)
    ensures FromCode(Code(s)) == Some(s)
    ensures Code(s) == Code(t) ==> s == t
  {
  }

  /** `JSHPINSTATE_IS_OUTPUT` as the macro writes it: a comparison of the C value
      against the six output enumerators. */
  predicate IsOutputMacro(state: int)
    ensures IsOutputMacro(state) ==> 0 < state < StateCount
  {
    state == Code(GpioOut) ||
    state == Code(GpioOutOpenDrain) ||
    state == Code(AfOut) ||
    state == Code(UsartOut) ||
    state == Code(DacOut) ||
    state == Code(I2C)
  }

  /** The macro rejects every integer that is not an enumerator, and accepts an
      enumerator exactly when the state it names is an output. */
  lemma IsOutputMacroAgrees(n: int)
    ensures FromCode(n).None? ==> !IsOutputMacro(n)
    ensures FromCode(n).Some? ==> (IsOutputMacro(n) <==> FromCode(n).value.IsOutput())
  {
  }

  /** All twelve states in declaration order. */
  function AllStates(): (r: seq<PinState>)
    ensures |r| == StateCount
    ensures forall i :: 0 <= i < |r| ==> Code(r[i]) == i
  {
    [Undefined, GpioOut, GpioOutOpenDrain, GpioIn, GpioInPullUp, GpioInPullDown,
     AdcIn, AfOut, UsartIn, UsartOut, DacOut, I2C]
  }

  /** The states the macro calls outputs. */
  function OutputStates(): set<PinState> {
    set s | s in AllStates() && s.IsOutput()
  }

  /** The states the macro does not call outputs. */
  function InputStates(): set<PinState> {
    set s | s in AllStates() && !s.IsOutput()
  }

  /** Every state appears in the list of all states. */
  lemma AllStatesComplete(s: PinState)
    ensures s in AllStates()
  {
  }

  /** Exactly six states are outputs (GPIO out, open-drain GPIO out, alternate
      function out, USART out, DAC out and I2C) and the other six are not. */
  lemma OutputStatesExactly()
    ensures OutputStates() == {GpioOut, GpioOutOpenDrain, AfOut, UsartOut, DacOut, I2C}
    ensures InputStates() == {Undefined, GpioIn, GpioInPullUp, GpioInPullDown, AdcIn, UsartIn}
    ensures forall s: PinState :: s in OutputStates() || s in InputStates()
  {
    forall s: PinState ensures s in AllStates() {
      AllStatesComplete(s);
    }
  }

  /** Six outputs and six inputs make up the twelve states. */
  lemma OutputStateCount()
    ensures |OutputStates()| == 6 && |InputStates()| == 6
  {
    OutputStatesExactly();
    SixDistinct(GpioOut, GpioOutOpenDrain, AfOut, UsartOut, DacOut, I2C);
    SixDistinct(Undefined, GpioIn, GpioInPullUp, GpioInPullDown, AdcIn, UsartIn);
  }

  /** Six pairwise different values form a set of six. */
  lemma SixDistinct<T>(a: T, b: T, c: T, d: T, e: T, f: T)
    requires a != b && a != c && a != d && a != e && a != f
    requires b != c && b != d && b != e && b != f
    requires c != d && c != e && c != f
    requires d != e && d != f && e != f
    ensures |{a, b, c, d, e, f}| == 6
  {
  }
}
