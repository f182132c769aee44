/**
 * The edge handler `on_pressed`: the callback run on a falling edge of a
 * monitored pin, which resolves the pin to its switch and changes the
 * monitor's input source accordingly.
 */
module EdgeHandler {
  import opened Wrappers
  import opened Config
  import opened Decimal
  import opened PinRegistry
  import opened SourceChanger

  /**
   * What pressing the switch on `channel` does: the command run for its
   * switch, or, for a pin outside the registry, the `TypeError` raised by
   * `SOURCES[None]` before any command is started.
   */
  function OnPressed(channel: int): (r: Result<seq<string>, IndexFailure>)
    ensures r.Ok? <==> channel in PINS
    ensures channel !in PINS ==> r == Err(TypeError)
  {
    ChangeSource(IndexOf(PINS, channel))
  }

  /** Pressing the switch wired to `PINS[i]` issues exactly the command for switch `i`. */
  lemma OnPressedRegistered(i: nat)
    requires i < |PINS|
    ensures OnPressed(PINS[i]) == ChangeSource(Some(i))
    ensures OnPressed(PINS[i]).Ok?
    ensures ParseDecimal(OnPressed(PINS[i]).value[4]) == Some(SOURCES[i])
  {
    PinToSwitchOfPin(i);
    TablesAligned();
    ChangeSourceCommand(i);
  }

  /** The two end-to-end scenarios: pin 37 selects source 0x0f, pin 99 starts nothing. */
  lemma OnPressedExamples()
    ensures OnPressed(37) == Ok([DDCCI_TOOL, "-r", "0x60", "-w", "15", I2C_DEV_FILE])
    ensures OnPressed(99) == Err(TypeError)
  {
    PinToSwitchExamples();
    ChangeSourceExamples();
  }
}
