/** Bytes, telnet command codes (RFC 854, "TELNET COMMAND STRUCTURE") and buffer sizes. */
module Wire {
  type Byte = x: int | 0 <= x < 256

  const SE: Byte := 240
  const SB: Byte := 250
  const WILL: Byte := 251
  const WONT: Byte := 252
  const DO: Byte := 253
  const DONT: Byte := 254
  const IAC: Byte := 255

  // Telnet option codes the modem negotiates, and the size of the C library's option table.
  const TELOPT_BINARY: Byte := 0
  const TELOPT_ECHO: Byte := 1
  const TELOPT_SGA: Byte := 3
  const TELOPT_TTYPE: Byte := 24
  const NTELOPTS := 40

  const TELQUAL_IS: Byte := 0
  const TELQUAL_SEND: Byte := 1

  // Read buffers hold one chunk; write buffers have a soft limit and one chunk of headroom.
  const CHUNK := 1024
  const SOFT := 2 * CHUNK
  const HARD := SOFT + CHUNK
  const LINEBUF_SIZE := 256
  const CMDBUF_MAX := 255

  predicate IsVerb(c: Byte) {
    c == WILL || c == WONT || c == DO || c == DONT
  }
}
