/** The step machine CMD/DIAL/ANSWER/ONLINE/DONE on values (m2k_step in src/m2k_step.c and what it calls). */
module Machine {
  import opened Wire
  import opened Time
  import opened Settings
  import opened Fifo
  import opened TelOpt
  import opened Relay
  import opened Dial

  datatype State = CMD | DIAL | ANSWER | ONLINE | DONE

  // ---------------------------------------------------------------- result codes and history

  datatype Code = OK | ERROR | CONNECT | NOCARRIER | RING

  /** What a run did, in order: result codes shown, RINGs with their time and the S1 value before, states entered,
      and the moments the ring count was cleared. */
  datatype Note =
    | Shown(code: Code)
    | Rang(at: Timeval, s1: Byte)
    | Entered(state: State)
    | Quieted

  // ---------------------------------------------------------------- command lines

  datatype Stat = StOk | StError | StNoAt | StAtd | StAto | StAta | StPtyClosed

  /** What one command line does: its status, the settings it leaves, whether it hangs up (ATH, ATZ) or quits (%Q),
      and whether options must be negotiated again. */
  datatype LexOut = LexOut(stat: Stat, cfg: Atcmd, nv: Atcmd, hangup: bool, quit: bool, renegotiate: bool)

  /** cmdLex, as a function of the settings, the stored settings and the line. */
  type Lexer = (Atcmd, Atcmd, seq<Byte>) -> LexOut

  /** What a command line prints, which may depend on all settings and on the option table (ATI). */
  type Printer = (Atcmd, Atcmd, seq<OptEntry>, seq<Byte>) -> seq<Byte>

  /** What the step machine takes as given: the command lexer, what command lines print, and the wording of result
      codes. */
  datatype Rom = Rom(lex: Lexer, shows: Printer, text: (Atcmd, Code) -> seq<Byte>)

  // ---------------------------------------------------------------- the context

  /** ctx->dial and sock->rp. */
  datatype DialRec = DialRec(count: int, rp: nat, deadline: Timeval, tried: seq<nat>)

  /** ctx->answer; listener tells whether a listening socket is bound. */
  datatype Answer = Answer(listener: bool, deadline: Timeval, ringNext: Timeval, rings: nat)

  datatype Modem = Modem(
    state: State, cfg: Atcmd, nv: Atcmd, link: Link, dial: DialRec, answer: Answer,
    cmd: seq<Byte>, eol: bool, escapeReq: bool, quitReq: bool, intrArmed: bool, appIo: bool,
    hist: seq<Note>, lines: seq<seq<Byte>>)
  {
    function Call(): Call { Dial.Call(link.sock, dial.count, dial.rp, dial.deadline, dial.tried) }

    function WithCall(c: Call): Modem {
      this.(link := link.(sock := c.sock), dial := DialRec(c.count, c.rp, c.deadline, c.tried))
    }
  }

  /** What reading the TTY during a dial gave. */
  datatype Peek = Typed(bytes: seq<Byte>) | TryAgain | Gone

  /** The outside world during one step. `line` also serves command mode, which reads and writes the TTY. */
  datatype StepWorld = StepWorld(
    line: World, dial: DialWorld, found: int,
    ringing: bool, ringNow: Timeval, ringAccept: int,    // cmdRingCheck
    waiting: bool, answerNow: Timeval, accept: int,      // ATA and answerIter
    answerIn: bool, ttyPeek: bool, peek: Peek)

  // ---------------------------------------------------------------- shared steps

  function Note1(m: Modem, n: Note): Modem { m.(hist := m.hist + [n]) }

  /** putTtyCmdstat */
  function Show(rom: Rom, m: Modem, code: Code): Modem {
    Note1(m.(link := m.link.(tty := m.link.tty.PutN(rom.text(m.cfg, code)))), Shown(code))
  }

  function EnterState(m: Modem, s: State): Modem { Note1(m.(state := s), Entered(s)) }

  function ForgetInput(l: Link): Link { l.(unread := [], prevT := EPOCH) }

  function ResetCmd(m: Modem): Modem { m.(cmd := [], eol := false) }

  function QuietRings(m: Modem): Modem { Note1(m.(answer := m.answer.(rings := 0)), Quieted) }

  /** stepEnterCmd */
  function EnterCmd(m: Modem): Modem {
    EnterState(ResetCmd(m.(link := ForgetInput(m.link).(out := EMPTY))), CMD)
  }

  /** stepEnterOnline */
  function EnterOnline(rom: Rom, m: Modem): Modem {
    EnterState(Show(rom, QuietRings(m.(link := GoOnline(m.link, m.cfg))), CONNECT), ONLINE)
  }

  /** stepEnterDial */
  function EnterDial(m: Modem): Modem {
    EnterState(ResetCmd(QuietRings(m.(link := ForgetInput(m.link)))), DIAL)
  }

  /** stepEnterAnswer */
  function EnterAnswer(m: Modem, now: Timeval): Modem {
    var deadline := Timeval(now.sec + m.cfg.s7, now.usec);
    EnterState(ResetCmd(m.(link := ForgetInput(m.link), answer := m.answer.(deadline := deadline))), ANSWER)
  }

  /** answerAccept once accept gave a descriptor. */
  function Adopt(m: Modem, fd: Fd): Modem {
    m.(link := m.link.(tel := Reset(m.link.tel), sock := Sock(fd, true, m.link.sock.open + 1)),
       cfg := m.cfg.(s1 := 0))
  }

  // ---------------------------------------------------------------- command mode

  datatype Dispatched = Dispatched(m: Modem, stat: Stat)

  function ApplyLex(m: Modem, o: LexOut, text: seq<Byte>): Modem {
    var sock := if o.quit || (o.hangup && m.link.sock.alive) then Close(m.link.sock) else m.link.sock;
    var tel := if o.renegotiate then m.link.tel.(sentReqs := false) else m.link.tel;
    m.(cfg := o.cfg, nv := o.nv, quitReq := m.quitReq || o.quit,
       link := m.link.(sock := sock, tel := tel, tty := m.link.tty.PutN(text)))
  }

  /** cmdDispatchIfReady: only ATD, ATO and ATA are passed on. */
  function DispatchIfReady(rom: Rom, m: Modem): Dispatched {
    if !m.eol then Dispatched(m, StOk)
    else
      var o := rom.lex(m.cfg, m.nv, m.cmd);
      var text := rom.shows(m.cfg, m.nv, m.link.tel.table, m.cmd);
      var m1 := ResetCmd(ApplyLex(m.(lines := m.lines + [m.cmd]), o, text));
      match o.stat
      case StAtd | StAto | StAta => Dispatched(m1, o.stat)
      case StOk => Dispatched(Show(rom, m1, OK), StOk)
      case StError => Dispatched(Show(rom, m1, ERROR), StOk)
      case _ => Dispatched(m1, StOk)
  }

  const ETX: Byte := 3
  const DEL: Byte := 127
  const SPACE: Byte := 32

  /** putCmd1 */
  function PutCmd(cmd: seq<Byte>, c: Byte): seq<Byte> {
    if |cmd| < CMDBUF_MAX then cmd + [c] else cmd
  }

  /** What a byte that is neither Ctrl-C nor a carriage return does to the command line. */
  function EditCmd(cmd: seq<Byte>, cfg: Atcmd, c: Byte): seq<Byte> {
    if c == cfg.s5 then Backspace(cmd) else if c < SPACE || c == DEL then cmd else PutCmd(cmd, c)
  }

  /** One byte through cmdReadLoop, and whether it ends the loop. */
  function CmdReadByte(m: Modem, c: Byte): (Modem, bool) {
    if c == ETX then
      if m.intrArmed then (m.(quitReq := true, intrArmed := false), true)
      else (ResetCmd(m.(intrArmed := true)), false)
    else
      var m1 := m.(intrArmed := false, link := m.link.(tty := m.link.tty.Put(c)));
      if c == m.cfg.s3 then (m1.(eol := true), true) else (m1.(cmd := EditCmd(m.cmd, m.cfg, c)), false)
  }

  /** cmdReadLoop: up to the end of a line, a second Ctrl-C, or the end of input. */
  function CmdReadLoop(m: Modem): (m': Modem)
    ensures |m'.link.unread| <= |m.link.unread|
    ensures m.link.unread != [] ==> |m'.link.unread| < |m.link.unread|
    decreases |m.link.unread|
  {
    if m.link.unread == [] then m
    else
      var (m1, stop) := CmdReadByte(m.(link := m.link.(unread := m.link.unread[1..])), m.link.unread[0]);
      if stop then m1 else CmdReadLoop(m1)
  }

  /** One turn of the app-I/O loop of cmdIter after the dispatch, and whether it ends the loop. */
  function CmdTurn(d: Dispatched): (Dispatched, bool) {
    if d.stat != StOk then (d, true)
    else if d.m.quitReq && !d.m.link.tty.HasData() then (Dispatched(d.m, StPtyClosed), true)
    else if d.m.link.unread == [] then (d, true)
    else var m := CmdReadLoop(d.m); (Dispatched(m, StOk), !m.eol)
  }

  lemma DispatchKeepsUnread(rom: Rom, m: Modem)
    ensures DispatchIfReady(rom, m).m.link.unread == m.link.unread
    ensures DispatchIfReady(rom, m).m.state == m.state
  {
  }

  /** The app-I/O half of cmdIter. */
  function CmdLoop(rom: Rom, m: Modem): Dispatched
    decreases |m.link.unread|
  {
    var (d, over) := CmdTurn(DispatchIfReady(rom, m));
    DispatchKeepsUnread(rom, m);
    if over then d else CmdLoop(rom, d.m)
  }

  function CloseSock(m: Modem): Modem { m.(link := m.link.(sock := Close(m.link.sock))) }

  /** The PTY half of cmdIter: the TTY became writable. */
  function CmdWritable(rom: Rom, m: Modem, w: World): Dispatched {
    if m.link.tty.pending != [] && w.wrote <= 0 then Dispatched(CloseSock(m), StPtyClosed)
    else DispatchIfReady(rom, m.(link := m.link.(tty := m.link.tty.Write(w.wrote))))
  }

  function CmdReadable(m: Modem, w: World): Dispatched {
    if w.read == [] then Dispatched(CloseSock(m), StPtyClosed)
    else
      Dispatched(CmdReadLoop(m.(link := m.link.(unread := w.read, prevT := m.link.newT, newT := w.readAt))), StOk)
  }

  /** The end of cmdIter: a requested quit waits until the TTY has been written. */
  function QuitIfDrained(d: Dispatched): Dispatched {
    if d.stat == StOk && d.m.quitReq && !d.m.link.tty.HasData() then Dispatched(d.m, StPtyClosed) else d
  }

  /** The PTY half of cmdIter. */
  function CmdIterPty(rom: Rom, m: Modem, w: World): Dispatched {
    var d := if w.ev.ttyOut then CmdWritable(rom, m, w) else Dispatched(m, StOk);
    if d.stat != StOk then d
    else QuitIfDrained(if w.ev.ttyIn then CmdReadable(d.m, w) else d)
  }

  /** cmdIter */
  function CmdIter(rom: Rom, m: Modem, w: World): Dispatched {
    if m.appIo then CmdLoop(rom, m) else CmdIterPty(rom, m, w)
  }

  // ---------------------------------------------------------------- ringing

  const RING_INTERVAL_SEC := 6

  function CountS1(cfg: Atcmd): Atcmd { cfg.(s1 := if cfg.s1 < 255 then cfg.s1 + 1 else cfg.s1) }

  /** One more ring for the host to see, and the time before which the next is not due. */
  function CountRing(a: Answer, now: Timeval): Answer {
    a.(rings := if a.rings < 255 then a.rings + 1 else a.rings,
       ringNext := Timeval(now.sec + RING_INTERVAL_SEC, now.usec))
  }

  function Rung(rom: Rom, m: Modem, now: Timeval): Modem {
    var m1 := m.(link := m.link.(tty := m.link.tty.PutN(rom.text(m.cfg, RING))));
    Note1(m1.(cfg := CountS1(m.cfg), answer := CountRing(m.answer, now)), Rang(now, m.cfg.s1))
  }

  /** Whether this check shows RING. */
  predicate RingDue(m: Modem, w: StepWorld) {
    && m.answer.listener && !m.link.sock.alive && w.ringing
    && (m.cfg.s1 == 0 || Cmp(w.ringNow, m.answer.ringNext) >= 0)
  }

  /** Whether this RING is one S0 answers. */
  predicate AutoAnswers(m: Modem) {
    m.cfg.s0 > 0 && m.cfg.s1 >= m.cfg.s0
  }

  /** cmdRingCheck */
  function RingCheck(rom: Rom, m: Modem, w: StepWorld): (Modem, bool) {
    if !m.answer.listener || m.link.sock.alive then (m, false)
    else if !w.ringing then (QuietRings(m.(cfg := m.cfg.(s1 := 0))), false)
    else if !RingDue(m, w) then (m, false)
    else
      var m1 := Rung(rom, m, w.ringNow);
      if AutoAnswers(m1) && w.ringAccept > 0 then (Adopt(m1, w.ringAccept), true) else (m1, false)
  }

  // ---------------------------------------------------------------- one step

  /** telOptReset for a new call; a dialled port means no opening requests. */
  function FreshCall(m: Modem): Modem {
    var tel := Reset(m.link.tel);
    m.(link := m.link.(tel := if m.cfg.portGiven then tel.(sentReqs := true) else tel))
  }

  function AfterStart(rom: Rom, m: Modem, o: Outcome): Modem {
    var m1 := m.WithCall(o.call);
    if o.r == 1 then EnterOnline(rom, m1) else if o.r == 0 then EnterDial(m1) else Show(rom, m1, NOCARRIER)
  }

  function OnAtd(rom: Rom, m: Modem, w: StepWorld): Modem {
    if m.link.sock.alive then Show(rom, m, ERROR)
    else
      var m1 := FreshCall(m);
      AfterStart(rom, m1, Start(m1.Call(), w.found, m1.cfg.s7, w.dial))
  }

  function OnAto(rom: Rom, m: Modem): Modem {
    if m.link.sock.alive then EnterOnline(rom, m) else Show(rom, m, NOCARRIER)
  }

  function OnAta(rom: Rom, m: Modem, w: StepWorld): Modem {
    if m.link.sock.alive || !m.answer.listener then Show(rom, m, ERROR)
    else if w.waiting then
      if w.accept > 0 then EnterOnline(rom, Adopt(m, w.accept)) else Show(rom, m, NOCARRIER)
    else if m.cfg.s7 == 0 then Show(rom, m, NOCARRIER)
    else EnterAnswer(m, w.answerNow)
  }

  /** What m2k_step does with the outcome of cmdIter. */
  function CmdAct(rom: Rom, d: Dispatched, w: StepWorld): Modem {
    match d.stat
    case StAtd => OnAtd(rom, d.m, w)
    case StAto => OnAto(rom, d.m)
    case StAta => OnAta(rom, d.m, w)
    case StPtyClosed => EnterState(d.m, DONE)
    case _ => d.m
  }

  function CmdStep(rom: Rom, m: Modem, w: StepWorld): Modem {
    var (m1, answered) := RingCheck(rom, m, w);
    if answered then EnterOnline(rom, m1) else CmdAct(rom, CmdIter(rom, m1, w.line), w)
  }

  /** A dial survives line terminators that trail the command; anything else typed, or a lost TTY, cancels it. */
  predicate Cancels(p: Peek) {
    match p
    case Typed(bytes) => exists c <- bytes :: c != CR && c != LF && c != 0
    case TryAgain => false
    case Gone => true
  }

  function DialStep(rom: Rom, m: Modem, w: StepWorld): Modem {
    if !m.appIo && w.ttyPeek && Cancels(w.peek) then EnterCmd(Show(rom, m.WithCall(Abort(m.Call())), NOCARRIER))
    else
      var o := Progress(m.Call(), m.cfg.s7, w.dial);
      EndDial(rom, m.WithCall(o.call), o.r)
  }

  /** What becomes of the modem when dialIter has spoken. */
  function EndDial(rom: Rom, m: Modem, r: int): Modem {
    if r == 1 then EnterOnline(rom, m) else if r == -1 then EnterCmd(Show(rom, m, NOCARRIER)) else m
  }

  function AnswerStep(rom: Rom, m: Modem, w: StepWorld): Modem {
    if !m.appIo && w.ttyPeek then EnterCmd(Show(rom, m, NOCARRIER))
    else if w.answerIn then
      if w.accept > 0 then EnterOnline(rom, Adopt(m, w.accept)) else EnterCmd(Show(rom, m, NOCARRIER))
    else if Cmp(w.answerNow, m.answer.deadline) >= 0 then EnterCmd(Show(rom, m, NOCARRIER))
    else m
  }

  function OnlineStep(rom: Rom, m: Modem, w: StepWorld): Modem {
    var i := OnlineIter(m.link, m.cfg, m.appIo, w.line.(escapeReq := m.escapeReq));
    EndOnline(rom, m.(link := i.link, escapeReq := false), i.verdict)
  }

  /** What becomes of the modem when onlineIter has spoken. */
  function EndOnline(rom: Rom, m: Modem, verdict: Verdict): Modem {
    match verdict
    case Continue => m
    case Escaped => EnterCmd(Show(rom, m, OK))
    case Lost => EnterCmd(Show(rom, CloseSock(m), NOCARRIER))
  }

  /** m2k_step */
  function Step(rom: Rom, m: Modem, w: StepWorld): Modem {
    match m.state
    case CMD => CmdStep(rom, m, w)
    case DIAL => DialStep(rom, m, w)
    case ANSWER => AnswerStep(rom, m, w)
    case ONLINE => OnlineStep(rom, m, w)
    case DONE => m
  }

  /** m2k_hangup */
  function Hangup(rom: Rom, m: Modem): Modem {
    match m.state
    case DIAL => EnterCmd(Show(rom, m.WithCall(Abort(m.Call())), NOCARRIER))
    case ANSWER => EnterCmd(Show(rom, m, NOCARRIER))
    case _ => CloseSock(m)
  }

  /** m2k_escape */
  function RequestEscape(m: Modem): Modem {
    if m.state == ONLINE then m.(escapeReq := true) else m
  }

  /** m2k_setup_answer with a port that could be bound. */
  function Listen(m: Modem): Modem { m.(answer := m.answer.(listener := true)) }

  // ---------------------------------------------------------------- runs of the step API

  datatype Api =
    | CallStep(w: StepWorld)
    | CallHangup
    | CallEscape
    | CallListen
    | CallWrite(bytes: seq<Byte>, now: Timeval)
    | CallRead(max: nat)

  function Do(rom: Rom, m: Modem, a: Api): Modem {
    match a
    case CallStep(w) => Step(rom, m, w)
    case CallHangup => Hangup(rom, m)
    case CallEscape => RequestEscape(m)
    case CallListen => Listen(m)
    case CallWrite(bytes, now) => if m.appIo then m.(link := FromApp(m.link, bytes, now)) else m
    case CallRead(max) => if m.appIo then m.(link := ToApp(m.link, max)) else m
  }

  function Run(rom: Rom, m: Modem, calls: seq<Api>): Modem
    decreases |calls|
  {
    if calls == [] then m else Run(rom, Do(rom, m, calls[0]), calls[1..])
  }

  /** m2k_new, with or without m2k_setup_app_io, and with whatever settings the initialization commands, MODEMU2k and
      the command line left. */
  function New(appIo: bool, cfg: Atcmd, nv: Atcmd): Modem {
    Modem(CMD, cfg, nv, NEW_LINK, DialRec(-1, 0, EPOCH, []), Answer(false, EPOCH, EPOCH, 0),
          [], false, false, false, false, appIo, [Entered(CMD)], [])
  }
}
