# srcsel in Dafny

srcsel is a small Raspberry Pi daemon that turns button presses into
monitor input switches. Each of four buttons is wired to a GPIO pin; a
falling edge on a pin runs the `on_pressed` callback, which resolves the
pin to a zero-based switch identifier (`_pin_to_switch`) and runs
ddcci-tool (`change_source`) to write the switch's input-source value to
VCP code 60h (Input Select) of the VESA Monitor Control Command Set over
the I2C device `/dev/i2c-1`.

This project models the self-contained logic of `srcsel.py`:

- `Config`: the constant tables `PINS = [33, 31, 37, 35]` and
  `SOURCES = [0x11, 0x12, 0x0f, 0x13]`, aligned index for index, and the
  paths `DDCCI_TOOL` and `I2C_DEV_FILE`.
- `PinRegistry`: `_pin_to_switch` as the method `PinToSwitch`, a `while`
  loop with an early return that mirrors the `for` loop over `PINS`. It is
  proved equal to the reference search `IndexOf`, a first-match search
  returning `Option<nat>` (`None` for Python's `None`).
- `Decimal`: Python's `str` on a non-negative integer as `NatToDecimal`,
  and `ParseDecimal`, which reads a digit string back. Parsing always
  inverts rendering; rendering inverts parsing on canonical digit strings
  (no leading zero), since `ParseDecimal` also accepts "007".
- `SourceChanger`: the argument vector of `change_source` as the pure
  function `ChangeSource`. `Ok(argv)` means "ddcci-tool is started with
  exactly `argv`". `Err(e)` means that evaluating `SOURCES[switch]` raised
  `e`, so no process is started. Python list indexing is modelled exactly:
  `None` raises `TypeError`, indices `-4 .. -1` count from the back, and
  any other out-of-range index raises `IndexError`.
- `EdgeHandler`: `on_pressed` as the composition `ChangeSource(IndexOf(PINS, channel))`.
- `GpioSetup`: `setup` as the method `Setup`. It returns the calls it
  makes into the GPIO library, as values and in order: `setmode(BOARD)`,
  then for each pin `setup(pin, IN, pull_up_down=PUD_UP)` and
  `add_event_detect(pin, FALLING, callback=on_pressed, bouncetime=200)`.
  A parameter names the first call that raises (the library may raise,
  for example `RuntimeError` from `add_event_detect`); the exception ends
  `setup`, so the calls made are then a prefix of the full sequence.

The source value is passed to ddcci-tool as a decimal string (`str(0x11)`
is `"17"`), not a hexadecimal one; the model follows the code.

## Model

| member | source | states |
|---|---|---|
| `Config.TablesAligned` | srcsel.py:15-23 | `PINS` and `SOURCES` both have four entries, so each switch index names one (pin, source) pair |
| `Config.PinsDistinct` | srcsel.py:17 | no pin is assigned to two switches |
| `Config.SourcesDistinct` | srcsel.py:23 | no two switches select the same input source |
| `PinRegistry.IndexOf` | srcsel.py:40-42 | first-match search: `None` exactly when the pin is absent; otherwise an in-range index holding the pin, with no earlier index holding it |
| `PinRegistry.PinToSwitch` | srcsel.py:26-42 | the loop with early return computes exactly the first-match search over `PINS` |
| `PinRegistry.IndexOfDistinct` | srcsel.py:40-42 | in a table without duplicates, looking up the entry at position `i` yields `i` |
| `PinRegistry.PinToSwitchOfPin` | srcsel.py:40-42 | `_pin_to_switch(PINS[i]) == i` for every switch `i` |
| `PinRegistry.PinToSwitchExamples` | srcsel.py:17 | pin 33 is switch 0, pin 37 is switch 2, pin 99 is no switch |
| `Decimal.NatToDecimal` | srcsel.py:78 | `str(n)` is a non-empty digit string with no leading zero, and is `"0"` exactly for 0 |
| `Decimal.ParseDecimal` | srcsel.py:78 | a parse succeeds exactly on non-empty strings of decimal digits |
| `Decimal.ParseNatToDecimal` | srcsel.py:78 | parsing `str(n)` back as a decimal yields `n` |
| `Decimal.NatToDecimalOfParse` | srcsel.py:78 | every canonical digit string is `str` of the number it denotes |
| `Decimal.NatToDecimalInjective` | srcsel.py:78 | different numbers render to different strings |
| `Decimal.NatToDecimalExamples` | srcsel.py:23 | `str(0x11)` is `"17"` and `str(0x0f)` is `"15"` |
| `SourceChanger.CommandFor` | srcsel.py:72-80 | the command for a source value has six arguments and its fifth parses back to that value |
| `SourceChanger.ChangeSource` | srcsel.py:72-80 | a command is built exactly for indices in `-4 .. 3`; `None` raises `TypeError` and any other index `IndexError`, before any process starts |
| `SourceChanger.ChangeSourceCommand` | srcsel.py:72-80 | for switch `s` the command is `[DDCCI_TOOL, "-r", "0x60", "-w", str(SOURCES[s]), I2C_DEV_FILE]`, and its source argument is canonical decimal parsing back to `SOURCES[s]` |
| `SourceChanger.ChangeSourceOnlySourceVaries` | srcsel.py:72-80 | commands for two switches agree in all six positions except the source argument |
| `SourceChanger.ChangeSourceInjective` | srcsel.py:78 | different switches put different source arguments on the command line |
| `SourceChanger.ChangeSourceNegative` | srcsel.py:78 | a negative switch `-4 .. -1` selects the entry counted from the back of `SOURCES` |
| `SourceChanger.ChangeSourceExamples` | srcsel.py:72-80 | switch 0 writes `"17"` and switch 2 writes `"15"` |
| `EdgeHandler.OnPressed` | srcsel.py:45-55 | a press issues a command if and only if the pin is in `PINS`; an unregistered pin raises `TypeError` and issues nothing |
| `EdgeHandler.OnPressedRegistered` | srcsel.py:55 | pressing `PINS[i]` issues exactly the command for switch `i`, whose source argument parses to `SOURCES[i]` |
| `EdgeHandler.OnPressedExamples` | srcsel.py:45-55 | pin 37 writes source `"15"` (0x0f) to the device; pin 99 starts no command |
| `GpioSetup.Setup` | srcsel.py:86-96 | when no GPIO call raises, the loop issues `setmode(BOARD)` and then the registration of each pin of `PINS`, in list order; when a call raises, `setup` raises and the calls made are the prefix of that sequence ending with the raising call |
| `GpioSetup.RegistrationsAt` | srcsel.py:89-96 | the registrations of a pin list hold two calls per pin, at positions `2i` and `2i + 1` |
| `GpioSetup.SetupCallsAt` | srcsel.py:87-96 | after `setmode(BOARD)` the pin of switch `i` is set up as input with pull-up and then given falling-edge detection with callback `on_pressed` and bouncetime 200 |
| `GpioSetup.DetectedPinsOfRegistrations` | srcsel.py:89-96 | the registrations of a pin list give edge detection to exactly that list, in order |
| `GpioSetup.SetupRegistersEachPinOnce` | srcsel.py:89-96 | `setup` gives edge detection to the pins of `PINS` in list order, each exactly once and no other pin |
| `GpioSetup.SetupFailureRegistersPrefix` | srcsel.py:89-96 | if `setup` stops part-way, the pins given edge detection so far are a prefix of `PINS` |
| `GpioSetup.SetupPinsAreHandled` | srcsel.py:89-96 | every pin that `setup` registers is one whose press issues a command |

## Left out

- Running ddcci-tool (`subprocess.run`, srcsel.py:72-83), capturing its output and its exit status. The model stops at the argument vector.
- The effects of the RPi.GPIO calls (`setmode`, `setup`, `add_event_detect`, srcsel.py:87-96). They belong to a foreign library and are only recorded as call values.
- `GpioSetup.Setup`: which GPIO call raises, if any, is a parameter; why the library raises is not modelled. When `setup` raises, the exception leaves srcsel.py:112 before `run` is entered, so `GPIO.cleanup` is never called; the model shows the partial call sequence but not the process exit.
- `GPIO.cleanup` and the `run` idle loop with `time.sleep(0.01)` and `KeyboardInterrupt` handling (srcsel.py:99-108). These are process lifecycle, signals and the clock.
- Debouncing. RPi.GPIO does it because of `bouncetime=200`. The model records only the requested window.
- Asynchronous delivery of callbacks and overlapping callbacks. This concurrency belongs to the GPIO library.
- The `--bus … --mccs … setvcp` backend. It is not part of `srcsel.py`.
- Python's `str` on negative integers. `SOURCES` holds only non-negative values, so `NatToDecimal` covers every value `change_source` renders.
- `Decimal.NatToDecimal`: it has no length limit. CPython 3.11 and later raise `ValueError` when `str` would produce more than 4300 digits by default. The `SOURCES` values have two digits, so this never applies here.
