/** The online data path on values: ttyReadLoop, sockReadLoop, onlineIter and onlinePollfds of src/m2k_step.c. */
module Relay {
  import opened Wire
  import opened Time
  import opened Settings
  import opened Fifo
  import opened TelOpt
  import opened Iac
  import opened Escape

  /** One recv or read delivers at most a buffer full. */
  type Chunk = s: seq<Byte> | |s| <= CHUNK

  /** st_sock: fd > 0 is an open descriptor. `open` counts the descriptors the operating system has given out for
      the call and not had back. */
  datatype Sock = Sock(fd: int, alive: bool, open: int)

  const NO_SOCK := Sock(0, false, 0)

  /** sockClose, and with it sockShutdown. */
  function Close(s: Sock): Sock {
    if s.fd <= 0 then s else Sock(0, false, s.open - 1)
  }

  /** Everything a connection uses, and what happened since the line went online: the DTE bytes handled and the
      bytes received from the peer. */
  datatype Link = Link(
    unread: seq<Byte>, newT: Timeval, prevT: Timeval,   // ttyBufR
    line: seq<Byte>,                                    // lineBuf
    esc: Esc, srl: Srl, tel: Tel,
    out: Queue,                                         // sock.bufW
    tty: Queue,                                         // tty.bufW
    sock: Sock,
    handled: seq<Key>, received: seq<Byte>)
  {
    ghost predicate Valid() {
      && |unread| <= CHUNK && |line| <= LINEBUF_SIZE
      && out.Valid() && tty.Valid()
    }
  }

  // ---------------------------------------------------------------- DTE to socket

  /** Raw with %R1, character at a time once the peer has agreed to SGA, else line by line. */
  function ModeOf(l: Link, cfg: Atcmd): Mode {
    if cfg.pr then Raw else if l.tel.sgasend then Char else Line
  }

  /** putLine1 */
  function PutLine(line: seq<Byte>, c: Byte): seq<Byte> {
    if |line| < LINEBUF_SIZE then line + [c] else line
  }

  /** lineBufBS */
  function Backspace(line: seq<Byte>): seq<Byte> {
    if line == [] then line else line[..|line| - 1]
  }

  function RawByte(l: Link, c: Byte): Link { l.(out := l.out.Put(c)) }

  function CharByte(l: Link, c: Byte): Link {
    l.(out := if c == IAC then l.out.Put(IAC).Put(c) else l.out.Put(c))
  }

  const CR: Byte := 13
  const LF: Byte := 10

  /** What a byte other than carriage return does to the line buffer. */
  function LineKey(line: seq<Byte>, cfg: Atcmd, c: Byte): seq<Byte> {
    if c == cfg.s4 then line
    else if c == cfg.s5 then Backspace(line)
    else if c == IAC then PutLine(PutLine(line, IAC), c)
    else PutLine(line, c)
  }

  function LineByte(l: Link, cfg: Atcmd, c: Byte): Link {
    var echoed := l.tty.Put(c);
    if c == cfg.s3 then
      l.(tty := echoed.Put(cfg.s4), out := l.out.PutN(l.line).Put(CR).Put(LF), line := [])
    else l.(tty := echoed, line := LineKey(l.line, cfg, c))
  }

  function ModeByte(l: Link, cfg: Atcmd, c: Byte): Link {
    match ModeOf(l, cfg)
    case Raw => RawByte(l, c)
    case Char => CharByte(l, c)
    case Line => LineByte(l, cfg, c)
  }

  /** One byte from the DTE through the loop body. */
  function TtyByte(l: Link, cfg: Atcmd): (l': Link)
    requires l.unread != []
    ensures |l'.unread| == |l.unread| - 1
  {
    var c := l.unread[0];
    var key := Key(c, l.newT, l.prevT, ModeOf(l, cfg));
    var l1 := ModeByte(l.(unread := l.unread[1..]), cfg, c);
    l1.(esc := EscByte(l1.esc, cfg.s2, cfg.s12, key), handled := l1.handled + [key])
  }

  /** The loop body, taken apart. */
  lemma TtyByteIs(l: Link, cfg: Atcmd)
    requires l.unread != []
    ensures var c, l0 := l.unread[0], l.(unread := l.unread[1..]);
      var l1, key := ModeByte(l0, cfg, c), Key(c, l.newT, l.prevT, ModeOf(l, cfg));
      && l1 == l0.(line := l1.line, out := l1.out, tty := l1.tty)
      && TtyByte(l, cfg) == l1.(esc := EscByte(l.esc, cfg.s2, cfg.s12, key), handled := l.handled + [key])
  {
  }

  /** ttyReadLoop: while flow control allows. */
  function TtyLoop(l: Link, cfg: Atcmd): Link
    decreases |l.unread|
  {
    if l.out.stop || l.unread == [] then l else TtyLoop(TtyByte(l, cfg), cfg)
  }

  // ---------------------------------------------------------------- socket to DTE

  function TokenStep(l: Link, cfg: Atcmd, t: Token): Link {
    match t
    case Data(c) => l.(tty := l.tty.Put(c))
    case Negotiate(m) =>
      var h := Handle(l.tel, m);
      l.(tel := h.tel, out := PutMsgs(l.out, h.msgs), sock := if h.fatal then l.sock.(alive := false) else l.sock)
    case Command(_) => l
    case SendSub(opt) => if opt == TELOPT_TTYPE then l.(out := PutTerm(l.out, cfg.term)) else l
  }

  function SockByte(l: Link, cfg: Atcmd, c: Byte): Link {
    var l1 := l.(received := l.received + [c]);
    if cfg.pr then l1.(tty := l1.tty.Put(c))
    else
      var p := ParseByte(l.srl, c);
      var l2 := l1.(srl := p.srl);
      if p.tokens == [] then l2 else TokenStep(l2, cfg, p.tokens[0])
  }

  /** sockReadLoop over what one recv delivered. */
  function SockLoop(l: Link, cfg: Atcmd, bytes: seq<Byte>): Link
    decreases |bytes|
  {
    if bytes == [] then l else SockLoop(SockByte(l, cfg, bytes[0]), cfg, bytes[1..])
  }

  // ---------------------------------------------------------------- one step online

  /** Which poll events are there: asked for by onlinePollfds, or reported to onlineIter. */
  datatype Events = Events(sockIn: bool, sockOut: bool, ttyIn: bool, ttyOut: bool) {
    predicate Within(asked: Events) {
      && (sockIn ==> asked.sockIn) && (sockOut ==> asked.sockOut)
      && (ttyIn ==> asked.ttyIn) && (ttyOut ==> asked.ttyOut)
    }
  }

  /** onlinePollfds; in app-I/O mode the TTY has no descriptors. */
  function PollSet(l: Link, appIo: bool): Events {
    Events(!l.tty.stop, l.out.HasData(),
           !appIo && !l.out.stop && l.unread == [], !appIo && l.tty.HasData())
  }

  /** What the outside world does during one step: reported events, the clock, what send and write return, and
      what recv and read deliver (nothing: closed or failed). */
  datatype World = World(escapeReq: bool, now: Timeval, ev: Events,
                         sent: int, wrote: int, recv: Chunk, read: Chunk, readAt: Timeval)

  datatype Verdict = Continue | Escaped | Lost

  datatype Iter = Iter(link: Link, verdict: Verdict)

  /** sockBufWrite, then let the DTE catch up if that made room. */
  function OnSockWritable(l: Link, cfg: Atcmd, sent: int): Link {
    var ok := l.out.pending == [] || sent > 0;
    var l1 := l.(out := l.out.Write(sent), sock := if ok then l.sock else l.sock.(alive := false));
    if l1.sock.alive && l1.unread != [] && !l1.out.stop then TtyLoop(l1, cfg) else l1
  }

  function OnSockReadable(l: Link, cfg: Atcmd, bytes: Chunk): Link {
    if bytes == [] then l.(sock := l.sock.(alive := false)) else SockLoop(l, cfg, bytes)
  }

  function OnTtyReadable(l: Link, cfg: Atcmd, bytes: Chunk, at: Timeval): Link {
    TtyLoop(l.(unread := bytes, prevT := l.newT, newT := at), cfg)
  }

  function SilenceOver(e: Esc, now: Timeval): bool {
    e.checkSilence && Cmp(now, e.expireT) >= 0
  }

  /** The part of onlineIter before the socket is read. */
  function IterOut(l: Link, cfg: Atcmd, appIo: bool, w: World): Iter {
    IterTty(if w.ev.sockOut then OnSockWritable(l, cfg, w.sent) else l, cfg, appIo, w)
  }

  /** What the host wrote is handled, or the TTY is written. */
  function IterTty(l: Link, cfg: Atcmd, appIo: bool, w: World): Iter {
    if appIo then Iter(if l.unread != [] then TtyLoop(l, cfg) else l, Continue)
    else if w.ev.ttyOut && l.tty.pending != [] && w.wrote <= 0 then Iter(l.(sock := Close(l.sock)), Lost)
    else Iter(if w.ev.ttyOut then l.(tty := l.tty.Write(w.wrote)) else l, Continue)
  }

  /** The part of onlineIter from there on. */
  function IterIn(l: Link, cfg: Atcmd, appIo: bool, w: World): Iter {
    var l1 := if w.ev.sockIn then OnSockReadable(l, cfg, w.recv) else l;
    if !appIo && w.ev.ttyIn && w.read == [] then Iter(l1.(sock := Close(l1.sock)), Lost)
    else
      var l2 := if !appIo && w.ev.ttyIn then OnTtyReadable(l1, cfg, w.read, w.readAt) else l1;
      Iter(l2, if l2.sock.alive then Continue else Lost)
  }

  /** onlineIter */
  function OnlineIter(l: Link, cfg: Atcmd, appIo: bool, w: World): Iter {
    if w.escapeReq || SilenceOver(l.esc, w.now) then Iter(l.(esc := l.esc.(checkSilence := false)), Escaped)
    else
      var i := IterOut(l, cfg, appIo, w);
      if i.verdict.Lost? then i else IterIn(i.link, cfg, appIo, w)
  }

  // ---------------------------------------------------------------- entering online, app-I/O

  /** stepEnterOnline up to the CONNECT message. */
  function GoOnline(l: Link, cfg: Atcmd): Link {
    var l1 := l.(out := EMPTY, unread := [], prevT := EPOCH, line := [],
                 esc := l.esc.(state := Idle), srl := l.srl.(state := Norm), handled := [], received := []);
    if l.tel.sentReqs || cfg.pr then l1
    else var s := SendReqs(l1.tel, cfg); l1.(tel := s.tel, out := PutMsgs(l1.out, s.msgs))
  }

  /** m2k_write_from_app */
  function FromApp(l: Link, bytes: seq<Byte>, now: Timeval): Link {
    var w := WriteFromApp(l.unread, bytes);
    if w.consumed == 0 then l else l.(unread := w.unread, prevT := l.newT, newT := now)
  }

  /** m2k_read_to_app */
  function ToApp(l: Link, max: nat): Link { l.(tty := l.tty.Read(max)) }

  /** The link of a new context. */
  const NEW_LINK := Link([], EPOCH, EPOCH, [], QUIET, Srl(Norm, 0, 0), FRESH, EMPTY, EMPTY, NO_SOCK, [], [])
}
