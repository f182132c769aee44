/**
 * The registration loop of `setup`. The calls into the GPIO library are
 * recorded as values, in the order they are made, instead of being
 * performed.
 */
module GpioSetup {
  import opened Wrappers
  import opened Config
  import opened EdgeHandler

  /** The pin-numbering scheme selected by `setmode`. */
  datatype Numbering = Board
  datatype Direction = In
  datatype Pull = PudUp
  datatype Edge = Falling
  /** The callback handed to `add_event_detect`. */
  datatype Callback = OnPressedCallback

  /** The debounce window, in milliseconds, requested for every pin. */
  const BOUNCETIME_MS: nat := 200

  /** One call into the GPIO library. */
  datatype GpioCall =
    | SetMode(numbering: Numbering)
    | SetupPin(pin: int, direction: Direction, pull: Pull)
    | AddEventDetect(pin: int, edge: Edge, callback: Callback, bouncetime: nat)

  /** The calls that register one pin: input with pull-up, then falling-edge detection. */
  function Registration(pin: int): seq<GpioCall> {
    [SetupPin(pin, In, PudUp), AddEventDetect(pin, Falling, OnPressedCallback, BOUNCETIME_MS)]
  }

  /** The registrations of `pins`, in order. */
  function Registrations(pins: seq<int>): seq<GpioCall> {
    if |pins| == 0 then []
    else Registrations(pins[..|pins| - 1]) + Registration(pins[|pins| - 1])
  }

  /** Every call `setup` makes, in order. */
  function SetupCalls(): seq<GpioCall> {
    [SetMode(Board)] + Registrations(PINS)
  }

  /** The pins for which edge detection is registered by `calls`, in order. */
  function DetectedPins(calls: seq<GpioCall>): seq<int> {
    if |calls| == 0 then
      []
    else
      var last := calls[|calls| - 1];
      DetectedPins(calls[..|calls| - 1]) + (if last.AddEventDetect? then [last.pin] else [])
  }

  /**
   * Selects board numbering, then registers every pin of PINS in list
   * order, and returns the calls it made. The GPIO library may raise from
   * any call: `failsAt` names the position in `SetupCalls()` of the first
   * call that raises (`None` when none does). A raising call is made, and
   * recorded, but ends `setup` at once, so `raised` holds and the calls
   * made are a prefix of `SetupCalls()`.
   */
  method Setup(failsAt: Option<nat>) returns (calls: seq<GpioCall>, raised: bool)
    ensures raised <==> failsAt.Some? && failsAt.value < |SetupCalls()|
    ensures !raised ==> calls == SetupCalls()
    ensures raised ==> calls == SetupCalls()[..failsAt.value + 1]
  {
    SetupCallsAt(0);
    calls := [SetMode(Board)];
    if failsAt == Some(0) {
      return calls, true;
    }
    var i := 0;
    while i < |PINS|
      invariant 0 <= i <= |PINS|
      invariant calls == SetupCalls()[..1 + 2 * i]
      invariant failsAt.Some? ==> failsAt.value >= 1 + 2 * i
    {
      SetupCallsAt(i);
      assert SetupCalls()[..2 + 2 * i] == SetupCalls()[..1 + 2 * i] + [SetupCalls()[1 + 2 * i]];
      calls := calls + [SetupPin(PINS[i], In, PudUp)];
      if failsAt == Some(1 + 2 * i) {
        return calls, true;
      }
      assert SetupCalls()[..3 + 2 * i] == SetupCalls()[..2 + 2 * i] + [SetupCalls()[2 + 2 * i]];
      calls := calls + [AddEventDetect(PINS[i], Falling, OnPressedCallback, BOUNCETIME_MS)];
      if failsAt == Some(2 + 2 * i) {
        return calls, true;
      }
      i := i + 1;
    }
    return calls, false;
  }

  /** The registrations of `pins` hold two calls per pin, at positions `2i` and `2i + 1`. */
  lemma {:induction false} RegistrationsAt(pins: seq<int>, i: nat)
    requires i < |pins|
    ensures |Registrations(pins)| == 2 * |pins|
    ensures Registrations(pins)[2 * i] == SetupPin(pins[i], In, PudUp)
    ensures Registrations(pins)[2 * i + 1] == AddEventDetect(pins[i], Falling, OnPressedCallback, BOUNCETIME_MS)
  {
    var n := |pins|;
    var front := pins[..n - 1];
    if i < n - 1 {
      RegistrationsAt(front, i);
    } else if n > 1 {
      RegistrationsAt(front, 0);
    }
  }

  /**
   * `setup` first selects board numbering; then, for the pin of switch
   * `i`, it configures the pin as an input with pull-up and registers
   * falling-edge detection with callback `on_pressed` and a 200 ms
   * debounce window, in this order.
   */
  lemma SetupCallsAt(i: nat)
    requires i < |PINS|
    ensures |SetupCalls()| == 1 + 2 * |PINS|
    ensures SetupCalls()[0] == SetMode(Board)
    ensures SetupCalls()[1 + 2 * i] == SetupPin(PINS[i], In, PudUp)
    ensures SetupCalls()[2 + 2 * i] == AddEventDetect(PINS[i], Falling, OnPressedCallback, 200)
  {
    RegistrationsAt(PINS, i);
  }

  lemma {:induction false} DetectedPinsAppend(a: seq<GpioCall>, b: seq<GpioCall>)
    ensures DetectedPins(a + b) == DetectedPins(a) + DetectedPins(b)
  {
    if |b| > 0 {
      var n := |b|;
      assert (a + b)[..|a + b| - 1] == a + b[..n - 1];
      DetectedPinsAppend(a, b[..n - 1]);
    } else {
      assert a + b == a;
    }
  }

  /** The pins given edge detection by the registrations of `pins` are `pins`, in order. */
  lemma {:induction false} DetectedPinsOfRegistrations(pins: seq<int>)
    ensures DetectedPins(Registrations(pins)) == pins
  {
    if |pins| > 0 {
      var n := |pins|;
      DetectedPinsOfRegistrations(pins[..n - 1]);
      DetectedPinsAppend(Registrations(pins[..n - 1]), Registration(pins[n - 1]));
      var reg := Registration(pins[n - 1]);
      assert reg[..|reg| - 1] == [reg[0]];
      assert [reg[0]][..0] == [];
      assert DetectedPins([reg[0]]) == [];
      assert DetectedPins(reg) == [pins[n - 1]];
      assert pins == pins[..n - 1] + [pins[n - 1]];
    }
  }

  /**
   * `setup` registers edge detection for exactly the pins of PINS, in
   * list order, so each registered pin exactly once and no other pin.
   */
  lemma SetupRegistersEachPinOnce(p: int)
    ensures DetectedPins(SetupCalls()) == PINS
    ensures multiset(DetectedPins(SetupCalls()))[p] == if p in PINS then 1 else 0
  {
    DetectedPinsAppend([SetMode(Board)], Registrations(PINS));
    assert DetectedPins([SetMode(Board)]) == [];
    DetectedPinsOfRegistrations(PINS);
  }

  /** Every pin `setup` registers is one whose press issues a command. */
  lemma SetupPinsAreHandled(k: nat)
    requires k < |SetupCalls()| && SetupCalls()[k].AddEventDetect?
    ensures OnPressed(SetupCalls()[k].pin).Ok?
  {
    SetupCallsAt(0);
    var i := (k - 1) / 2;
    SetupCallsAt(i);
    assert SetupCalls()[k].pin == PINS[i];
  }

  /**
   * When a GPIO call raises part-way, the pins already given edge
   * detection are a prefix of PINS: the first few switches work and the
   * rest are not registered.
   */
  lemma SetupFailureRegistersPrefix(k: nat)
    requires k <= |SetupCalls()|
    ensures DetectedPins(SetupCalls()[..k]) <= PINS
  {
    var s := SetupCalls();
    assert s == s[..k] + s[k..];
    DetectedPinsAppend(s[..k], s[k..]);
    SetupRegistersEachPinOnce(0);
  }
}
