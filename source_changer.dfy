/**
 * The source changer: the argument vector that `change_source` hands to
 * ddcci-tool to write the input-source value of VCP code 60h (Input Select)
 * over the I2C device. Starting the process is not modelled; a result
 * `Ok(argv)` stands for "ddcci-tool is run with exactly `argv`", and `Err`
 * for the exception Python raises while indexing SOURCES, before any
 * process is started.
 */
module SourceChanger {
  import opened Wrappers
  import opened Config
  import opened Decimal

  /** The VCP code for "Input Select", as passed on the command line. */
  const VCP_INPUT_SELECT: string := "0x60"

  /** The exceptions that evaluating `SOURCES[switch]` can raise. */
  datatype IndexFailure =
    | TypeError   // the index is `None`
    | IndexError  // the index lies outside `-len(SOURCES) .. len(SOURCES) - 1`

  /**
   * Python's `xs[k]` on a list: non-negative indices count from the
   * front, negative ones from the back, and `None` is not an index.
   */
  function ListIndex<T>(xs: seq<T>, k: Option<int>): Result<T, IndexFailure>
  {
    match k
    case None => Err(TypeError)
    case Some(i) =>
      if 0 <= i < |xs| then Ok(xs[i])
      else if -|xs| <= i < 0 then Ok(xs[|xs| + i])
      else Err(IndexError)
  }

  /** The ddcci-tool command line that writes input-source value `code`. */
  function CommandFor(code: nat): (argv: seq<string>)
    ensures |argv| == 6 && ParseDecimal(argv[4]) == Some(code)
  {
    ParseNatToDecimal(code);
    [DDCCI_TOOL, "-r", VCP_INPUT_SELECT, "-w", NatToDecimal(code), I2C_DEV_FILE]
  }

  /** The command `change_source(switch)` runs, or the exception it raises first. */
  function ChangeSource(switch: Option<int>): (r: Result<seq<string>, IndexFailure>)
    ensures r.Ok? <==> switch.Some? && -|SOURCES| <= switch.value < |SOURCES|
    ensures switch.None? ==> r == Err(TypeError)
    ensures switch.Some? && !(-|SOURCES| <= switch.value < |SOURCES|) ==> r == Err(IndexError)
  {
    match ListIndex(SOURCES, switch)
    case Ok(code) => Ok(CommandFor(code))
    case Err(e) => Err(e)
  }

  /**
   * For a valid switch the command is ddcci-tool with `-r 0x60 -w`, the
   * decimal rendering of the switch's source value, and the device file;
   * its source argument parses back to that value.
   */
  lemma ChangeSourceCommand(s: nat)
    requires s < |SOURCES|
    ensures ChangeSource(Some(s)).Ok?
    ensures var argv := ChangeSource(Some(s)).value;
      && |argv| == 6
      && argv[0] == DDCCI_TOOL && argv[1] == "-r" && argv[2] == "0x60"
      && argv[3] == "-w" && argv[5] == I2C_DEV_FILE
      && argv[4] == NatToDecimal(SOURCES[s])
      && IsCanonicalDecimal(argv[4])
      && ParseDecimal(argv[4]) == Some(SOURCES[s])
  {
  }

  /** Two valid switches give commands that agree everywhere except in the source argument. */
  lemma ChangeSourceOnlySourceVaries(s: nat, t: nat)
    requires s < |SOURCES| && t < |SOURCES|
    ensures var a, b := ChangeSource(Some(s)).value, ChangeSource(Some(t)).value;
      |a| == |b| == 6 && forall k :: 0 <= k < 6 && k != 4 ==> a[k] == b[k]
  {
  }

  /** Different switches select different sources, so they never issue the same command. */
  lemma ChangeSourceInjective(s: nat, t: nat)
    requires s < |SOURCES| && t < |SOURCES| && s != t
    ensures ChangeSource(Some(s)).value[4] != ChangeSource(Some(t)).value[4]
  {
    SourcesDistinct();
    assert SOURCES[s] != SOURCES[t];
    NatToDecimalInjective(SOURCES[s], SOURCES[t]);
  }

  /** A negative switch is taken from the back of the table, as Python indexing does. */
  lemma ChangeSourceNegative(k: int)
    requires -|SOURCES| <= k < 0
    ensures ChangeSource(Some(k)) == ChangeSource(Some(|SOURCES| + k))
  {
  }

  /** The concrete commands for switches 0 and 2. */
  lemma ChangeSourceExamples()
    ensures ChangeSource(Some(0)) == Ok([DDCCI_TOOL, "-r", "0x60", "-w", "17", I2C_DEV_FILE])
    ensures ChangeSource(Some(2)) == Ok([DDCCI_TOOL, "-r", "0x60", "-w", "15", I2C_DEV_FILE])
  {
    NatToDecimalExamples();
  }
}
