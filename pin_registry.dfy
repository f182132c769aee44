/**
 * The pin registry: resolving the GPIO pin that raised an event to the
 * switch it belongs to, by a linear first-match search over PINS.
 */
module PinRegistry {
  import opened Wrappers
  import opened Config

  /**
   * The position of the first occurrence of `x` in `s`, or `None` when `x`
   * does not occur. This is the reference definition of the search.
   */
  function IndexOf(s: seq<int>, x: int): (r: Option<nat>)
    ensures r.None? <==> x !in s
    ensures r.Some? ==> r.value < |s| && s[r.value] == x
    ensures r.Some? ==> forall j :: 0 <= j < r.value ==> s[j] != x
  {
    if |s| == 0 then None
    else if s[0] == x then Some(0)
    else match IndexOf(s[1..], x)
      case None => None
      case Some(k) => Some(k + 1)
  }

  /**
   * Converts a pin identifier to the zero-based identifier of its switch,
   * scanning PINS in order and returning at the first match; an unknown
   * pin falls off the end of the loop and yields `None`.
   */
  method PinToSwitch(pin: int) returns (r: Option<nat>)
    ensures r == IndexOf(PINS, pin)
  {
    var i := 0;
    while i < |PINS|
      invariant 0 <= i <= |PINS|
      invariant forall j :: 0 <= j < i ==> PINS[j] != pin
    {
      if PINS[i] == pin {
        return Some(i);
      }
      i := i + 1;
    }
    return None;
  }

  /** In a table without duplicates, looking up the entry at position `i` gives back `i`. */
  lemma IndexOfDistinct(s: seq<int>, i: nat)
    requires Distinct(s)
    requires i < |s|
    ensures IndexOf(s, s[i]) == Some(i)
  {
  }

  /** Every registered pin resolves to its own switch. */
  lemma PinToSwitchOfPin(i: nat)
    requires i < |PINS|
    ensures IndexOf(PINS, PINS[i]) == Some(i)
  {
    PinsDistinct();
    IndexOfDistinct(PINS, i);
  }

  /** The concrete lookups of the wiring: pin 37 is switch 2, pin 99 is no switch. */
  lemma PinToSwitchExamples()
    ensures IndexOf(PINS, 33) == Some(0)
    ensures IndexOf(PINS, 37) == Some(2)
    ensures IndexOf(PINS, 99) == None
  {
  }
}
