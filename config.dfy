/**
 * The fixed configuration tables of srcsel: the GPIO pins wired to the
 * switches, the input-source codes they select, and the device parameters
 * handed to ddcci-tool. A switch is identified by its zero-based position
 * in PINS, and the same position in SOURCES gives its source code.
 */
module Config {

  /** The file path of the ddcci-tool executable. */
  const DDCCI_TOOL: string := "/usr/local/bin/ddcci-tool"

  /** The I2C device file used for DDC/CI. */
  const I2C_DEV_FILE: string := "/dev/i2c-1"

  /** GPIO pin identifiers (board numbering), one per switch. */
  const PINS: seq<int> := [33, 31, 37, 35]

  /**
   * Input-source values of VCP code 60h (Input Select) of the VESA Monitor
   * Control Command Set, one per switch.
   */
  const SOURCES: seq<nat> := [0x11, 0x12, 0x0f, 0x13]

  /** No value occurs twice in `s`. */
  predicate Distinct(s: seq<int>) {
    forall i, j :: 0 <= i < j < |s| ==> s[i] != s[j]
  }

  /** The two tables are aligned: every switch index names one (pin, source) pair. */
  lemma TablesAligned()
    ensures |PINS| == |SOURCES| == 4
  {
  }

  /** No pin is assigned to two switches. */
  lemma PinsDistinct()
    ensures Distinct(PINS)
  {
  }

  /** No two switches select the same input source. */
  lemma SourcesDistinct()
    ensures Distinct(SOURCES)
  {
  }
}
