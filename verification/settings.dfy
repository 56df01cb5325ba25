/** The AT settings that the modelled code reads (struct Atcmd in src/m2k_private.h). */
module Settings {
  import opened Wire

  /** Argument of %B and %L: 0 better off, 1 better on, 2 must be off, 3 must be on (%L: off and on swapped). */
  type Level = x: int | 0 <= x < 4

  datatype Atcmd = Atcmd(
    s0: Byte,          // rings before auto-answer, 0 = never
    s1: Byte,          // ring counter
    s2: Byte,          // escape character
    s3: Byte,          // carriage return
    s4: Byte,          // line feed
    s5: Byte,          // backspace
    s7: Byte,          // seconds to wait for carrier
    s12: Byte,         // escape guard time, in units of 20 ms
    pb0: Level,        // %B0
    pb1: Level,        // %B1
    pl: Level,         // %L
    pr: bool,          // %R1: raw mode
    termWont: bool,    // %T0: refuse the terminal-type option
    term: seq<Byte>,   // terminal type
    portGiven: bool,   // the last dial string named a port
    rest: seq<Byte>    // everything the modelled code only prints
  )

  /** How the bytes from the DTE go to the peer: unchanged, telnet-encoded, or line by line. */
  datatype Mode = Raw | Char | Line

  /** The state the INITSTR of src/atcmd.c sets up, with an empty $TERM. */
  const DEFAULTS := Atcmd(0, 0, 43, 13, 10, 8, 20, 50, 0, 0, 0, false, false, [], false, [])
}
