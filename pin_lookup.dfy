/** Turning a script value into a pin (`jshGetPinFromVar` and
    `jshGetPinFromVarAndUnLock`). The interpreter's values are abstract here; the
    board's name table (`jshGetPinFromString`) and the integer-to-`Pin` cast are
    not part of this model and are passed in as functions. */
module PinLookup {
  import opened CTypes

  /** The terminating character of a C string. */
  const NUL: char := '\0'

  /** The index of the inline string storage that must hold the terminator for
      the value to be taken as a pin name. */
  const NAME_GUARD_INDEX := 5

  /** A script value as the pin lookup sees it: a string with its inline
      character storage, an integer (which includes the interpreter's pin
      values), or anything else, `undefined` among them. */
  datatype ScriptValue = Str(storage: seq<char>) | Int(value: int) | Other

  /** The character at index i of the inline storage; storage beyond the
      string's own characters reads as NUL. */
  function CharAt(storage: seq<char>, i: nat): (c: char)
    ensures i < |storage| ==> c == storage[i]
  {
    if i < |storage| then storage[i] else NUL
  }

  /** The guard on string values: the storage holds a NUL at index 5, so the
      name it starts with has at most five characters. */
  predicate IsShortName(storage: seq<char>)
    ensures IsShortName(storage) ==> |CString(storage)| <= NAME_GUARD_INDEX
  {
    CharAt(storage, NAME_GUARD_INDEX) == NUL
  }

  /** The C string that starts at the beginning of the storage: every character
      up to, and not including, the first NUL. */
  function CString(storage: seq<char>): (s: seq<char>)
    ensures s <= storage
    ensures NUL !in s
    ensures |s| == |storage| || storage[|s|] == NUL
  {
    if storage == [] || storage[0] == NUL then []
    else [storage[0]] + CString(storage[1..])
  }

  /** Storage without a NUL is one C string running to its end. */
  lemma CStringWhole(storage: seq<char>)
    requires NUL !in storage
    ensures CString(storage) == storage
  {
  }

  /** The C string is determined by the storage up to its terminator: storages
      that agree there give the same string. */
  lemma CStringPrefix(storage: seq<char>, k: nat)
    requires k <= |storage|
    requires |CString(storage)| < k
    ensures CString(storage[..k]) == CString(storage)
  {
  }

  /** `jshGetPinFromVar`: an integer becomes a pin by the cast, a string that
      passes the guard is looked up by name, and anything else gives -1. */
  function PinFromVar(v: ScriptValue, pinFromString: seq<char> -> Pin, toPin: int -> Pin): (pin: Pin)
    ensures v.Int? ==> pin == toPin(v.value)
    ensures v.Other? ==> pin == NoPin
    ensures v.Str? && !IsShortName(v.storage) ==> pin == NoPin
    ensures v.Str? && IsShortName(v.storage) ==> pin == pinFromString(CString(v.storage))
  {
    if v.Str? && IsShortName(v.storage) then pinFromString(CString(v.storage))
    else if v.Int? then toPin(v.value)
    else NoPin
  }

  /** The pin either is -1 or comes from exactly the collaborator that the value's
      kind selects: the name table only ever sees names of at most five
      characters without a NUL, and the cast only ever sees the value's integer. */
  lemma PinFromVarSource(v: ScriptValue, pinFromString: seq<char> -> Pin, toPin: int -> Pin)
    ensures var pin := PinFromVar(v, pinFromString, toPin);
      pin == NoPin
      || (v.Int? && pin == toPin(v.value))
      || (v.Str? && exists name :: |name| <= NAME_GUARD_INDEX && NUL !in name
                                  && name <= v.storage && pin == pinFromString(name))
  {
  }

  /** Characters stored after the terminator do not change the pin a string
      value names. */
  lemma PinFromVarIgnoresTail(storage: seq<char>, k: nat, pinFromString: seq<char> -> Pin, toPin: int -> Pin)
    requires IsShortName(storage)
    requires NAME_GUARD_INDEX < k <= |storage|
    ensures PinFromVar(Str(storage[..k]), pinFromString, toPin) == PinFromVar(Str(storage), pinFromString, toPin)
  {
    CStringPrefix(storage, k);
  }

  /** A string value whose storage holds exactly its name: a name of at most
      five characters is looked up in the table, and a longer one gives -1. */
  lemma PinFromVarName(name: seq<char>, pinFromString: seq<char> -> Pin, toPin: int -> Pin)
    requires NUL !in name
    ensures |name| <= NAME_GUARD_INDEX ==> PinFromVar(Str(name), pinFromString, toPin) == pinFromString(name)
    ensures |name| > NAME_GUARD_INDEX ==> PinFromVar(Str(name), pinFromString, toPin) == NoPin
  {
    CStringWhole(name);
  }

  /** The guard lets through a five-character name, one more than the four the
      interface's comment expects of a pin name. */
  lemma FiveCharacterNameAccepted(pinFromString: seq<char> -> Pin, toPin: int -> Pin)
    ensures PinFromVar(Str("A1234"), pinFromString, toPin) == pinFromString("A1234")
  {
    PinFromVarName("A1234", pinFromString, toPin);
  }

  /** `jshGetPinFromVarAndUnLock`: the same pin as `jshGetPinFromVar`. Releasing
      the caller's lock on the value has no effect on the result and is not
      modelled. */
  method PinFromVarAndUnLock(v: ScriptValue, pinFromString: seq<char> -> Pin, toPin: int -> Pin)
    returns (pin: Pin)
    ensures pin == PinFromVar(v, pinFromString, toPin)
  {
    pin := PinFromVar(v, pinFromString, toPin);
  }
}
