/** m2k_t: the step machine of src/m2k_step.c as it updates its context in place. */
module Context {
  import opened Wire
  import opened Time
  import opened Settings
  import opened Fifo
  import opened LineBuffer
  import opened Relay
  import opened RelayCtx
  import opened Dial
  import opened Dialer
  import opened Machine
  import MachineRuns

  class M2k {
    const rom: Rom
    const link: LinkCtx
    const dial: DialCtx
    const cmdBuf: LineBuf
    const appIo: bool
    var state: State
    var cfg: Atcmd
    var nv: Atcmd
    var answer: Answer
    var eol: bool
    var escapeReq: bool
    var quitReq: bool
    var intrArmed: bool
    ghost var hist: seq<Note>
    ghost var lines: seq<seq<Byte>>

    ghost function Repr(): set<object> {
      {this, dial, cmdBuf, cmdBuf.data} + link.Repr()
    }

    ghost predicate Separate() {
      && dial.conn == link.conn
      && cmdBuf.data.Length == CMDBUF_MAX
      && {this, dial, cmdBuf, cmdBuf.data} !! link.Repr()
    }

    ghost predicate Valid()
      reads Repr()
    {
      Separate() && link.Valid() && link.Parsing() && link.Rx() == [] && cmdBuf.Valid()
    }

    ghost function View(): Modem
      requires Valid()
      reads Repr()
    {
      Modem(state, cfg, nv, link.View(), DialRec(dial.count, dial.rp, dial.deadline, dial.tried), answer,
            cmdBuf.Contents(), eol, escapeReq, quitReq, intrArmed, appIo, hist, lines)
    }

    constructor (rom: Rom, appIo: bool, cfg: Atcmd, nv: Atcmd, link: LinkCtx, dial: DialCtx, cmdBuf: LineBuf)
      requires link.Valid() && link.Parsing() && link.Rx() == [] && cmdBuf.Valid()
      requires dial.conn == link.conn && cmdBuf.data.Length == CMDBUF_MAX && {dial, cmdBuf, cmdBuf.data} !! link.Repr()
      ensures this.rom == rom && this.appIo == appIo && this.link == link && this.dial == dial && this.cmdBuf == cmdBuf
      ensures Valid()
      ensures this.cfg == cfg && this.nv == nv && state == CMD && answer == Answer(false, EPOCH, EPOCH, 0)
      ensures !eol && !escapeReq && !quitReq && !intrArmed && hist == [Entered(CMD)] && lines == []
    {
      this.rom, this.appIo := rom, appIo;
      this.link, this.dial, this.cmdBuf := link, dial, cmdBuf;
      this.cfg, this.nv, state := cfg, nv, CMD;
      answer := Answer(false, EPOCH, EPOCH, 0);
      eol, escapeReq, quitReq, intrArmed := false, false, false, false;
      hist, lines := [Entered(CMD)], [];
    }

    /** m2k_new, with or without m2k_setup_app_io. */
    static method NewContext(rom: Rom, appIo: bool, cfg: Atcmd, nv: Atcmd) returns (m: M2k)
      ensures m.Valid() && m.rom == rom && m.View() == New(appIo, cfg, nv)
    {
      var link := new LinkCtx();
      var dial := new DialCtx(link.conn);
      var cmdBuf := new LineBuf(CMDBUF_MAX);
      m := new M2k(rom, appIo, cfg, nv, link, dial, cmdBuf);
    }

    // -------------------------------------------------------------- result codes

    /** putTtyCmdstat */
    method PutTtyCmdstat(code: Code)
      requires Valid()
      modifies Repr()
      ensures Valid() && View() == Show(rom, old(View()), code)
    {
      PutTtyN(rom.text(cfg, code));
      hist := hist + [Shown(code)];
    }

    method Enter(s: State)
      requires Valid()
      modifies this`state, this`hist
      ensures Valid() && View() == EnterState(old(View()), s)
    {
      state := s;
      hist := hist + [Entered(s)];
    }

    /** cmdBufReset */
    method CmdBufReset()
      requires Valid()
      modifies Repr()
      ensures Valid() && View() == ResetCmd(old(View()))
    {
      cmdBuf.Reset();
      eol := false;
    }

    /** ttyBufRReset */
    method ForgetInput()
      requires Valid()
      modifies link.Repr()
      ensures Valid() && View() == old(View()).(link := Machine.ForgetInput(old(View()).link))
    {
      link.ForgetInput();
    }

    /** answer.rings = 0 */
    method QuietRings()
      requires Valid()
      modifies this`answer, this`hist
      ensures Valid() && View() == Machine.QuietRings(old(View()))
    {
      answer := answer.(rings := 0);
      hist := hist + [Quieted];
    }

    method CloseSock()
      requires Valid()
      modifies link.Repr()
      ensures Valid() && View() == Machine.CloseSock(old(View()))
    {
      link.CloseSock();
    }

    // -------------------------------------------------------------- entering states

    /** stepEnterCmd */
    method StepEnterCmd()
      requires Valid()
      modifies Repr()
      ensures Valid() && View() == EnterCmd(old(View()))
    {
      CmdBufReset();
      ForgetInput();
      SockBufWReset();
      Enter(CMD);
    }

    method SockBufWReset()
      requires Valid()
      modifies link.Repr()
      ensures Valid() && View() == old(View()).(link := old(View()).link.(out := EMPTY))
    {
      link.SockBufWReset();
    }

    /** stepEnterOnline */
    method StepEnterOnline()
      requires Valid()
      modifies Repr()
      ensures Valid() && View() == EnterOnline(rom, old(View()))
    {
      GoOnline();
      QuietRings();
      PutTtyCmdstat(CONNECT);
      Enter(ONLINE);
    }

    method GoOnline()
      requires Valid()
      modifies link.Repr()
      ensures Valid() && View() == old(View()).(link := Relay.GoOnline(old(View()).link, old(View()).cfg))
    {
      link.GoOnline(cfg);
    }

    /** stepEnterDial */
    method StepEnterDial()
      requires Valid()
      modifies Repr()
      ensures Valid() && View() == EnterDial(old(View()))
    {
      ForgetInput();
      QuietRings();
      CmdBufReset();
      Enter(DIAL);
    }

    /** stepEnterAnswer */
    method StepEnterAnswer(now: Timeval)
      requires Valid()
      modifies Repr()
      ensures Valid() && View() == EnterAnswer(old(View()), now)
    {
      StartWaiting(now);
      CmdBufReset();
      Enter(ANSWER);
    }

    /** Drop what was typed, and wait up to S7 seconds. */
    method StartWaiting(now: Timeval)
      requires Valid()
      modifies link.Repr(), this`answer
      ensures Valid()
      ensures var m := old(View());
        View() == m.(link := Machine.ForgetInput(m.link),
                     answer := m.answer.(deadline := Timeval(now.sec + m.cfg.s7, now.usec)))
    {
      ForgetInput();
      SetAnswerDeadline(Timeval(now.sec + cfg.s7, now.usec));
    }

    method SetAnswerDeadline(deadline: Timeval)
      requires Valid()
      modifies this`answer
      ensures Valid()
      ensures View() == old(View()).(answer := old(View()).answer.(deadline := deadline))
    {
      answer := answer.(deadline := deadline);
    }

    /** m2k_hangup */
    method Hangup()
      requires Valid()
      modifies Repr()
      ensures Valid() && View() == Machine.Hangup(rom, old(View()))
    {
      match state {
        case DIAL =>
          DialAbort();
          PutTtyCmdstat(NOCARRIER);
          StepEnterCmd();
        case ANSWER =>
          PutTtyCmdstat(NOCARRIER);
          StepEnterCmd();
        case _ =>
          CloseSock();
      }
    }

    // -------------------------------------------------------------- dialling

    method DialAbort()
      requires Valid()
      modifies Repr()
      ensures Valid() && View() == old(View()).WithCall(Abort(old(View()).Call()))
    {
      dial.Abort();
    }

    method DialStart(found: int, w: DialWorld) returns (r: int)
      requires Valid()
      modifies Repr()
      ensures Valid()
      ensures var o := Start(old(View()).Call(), found, old(View()).cfg.s7, w);
        r == o.r && View() == old(View()).WithCall(o.call)
    {
      r := dial.Start(found, cfg.s7, w);
    }

    method DialProgress(w: DialWorld) returns (r: int)
      requires Valid()
      modifies Repr()
      ensures Valid()
      ensures var o := Progress(old(View()).Call(), old(View()).cfg.s7, w);
        r == o.r && View() == old(View()).WithCall(o.call)
    {
      r := dial.Progress(cfg.s7, w);
    }

    // -------------------------------------------------------------- command mode

    method GetTty1() returns (c: int)
      requires Valid()
      modifies link.Repr()
      ensures Valid()
      ensures old(View()).link.unread == [] ==> c == -1 && View() == old(View())
      ensures var l := old(View()).link;
        l.unread != [] ==>
          c == l.unread[0] && View() == old(View()).(link := l.(unread := l.unread[1..]))
    {
      c := link.GetTty1();
    }

    method PutTty1(c: Byte)
      requires Valid()
      modifies link.Repr()
      ensures Valid()
      ensures View() == old(View()).(link := old(View()).link.(tty := old(View()).link.tty.Put(c)))
    {
      link.PutTty1(c);
    }

    method PutCmd1(c: Byte)
      requires Valid()
      modifies Repr()
      ensures Valid() && View() == old(View()).(cmd := PutCmd(old(View()).cmd, c))
    {
      cmdBuf.Put1(c);
    }

    method CmdBufBS()
      requires Valid()
      modifies Repr()
      ensures Valid() && View() == old(View()).(cmd := Backspace(old(View()).cmd))
    {
      cmdBuf.Backspace();
    }

    /** What a byte of a command line does to it. */
    method EditLine(c: Byte)
      requires Valid()
      modifies Repr()
      ensures Valid()
      ensures View() == old(View()).(cmd := EditCmd(old(View()).cmd, old(View()).cfg, c))
    {
      if c == cfg.s5 {
        CmdBufBS();
      } else if c < SPACE || c == DEL {
        // ignored
      } else {
        PutCmd1(c);
      }
    }

    /** Ctrl-C: the first one arms and empties the line, the second quits. */
    method Interrupt() returns (quit: bool)
      requires Valid()
      modifies Repr()
      ensures Valid() && quit == old(View()).intrArmed
      ensures View() == if quit then old(View()).(quitReq := true, intrArmed := false)
                        else ResetCmd(old(View()).(intrArmed := true))
    {
      quit := intrArmed;
      if quit {
        RequestQuit();
        SetArmed(false);
      } else {
        SetArmed(true);
        CmdBufReset();
      }
    }

    method SetArmed(armed: bool)
      requires Valid()
      modifies Repr()
      ensures Valid() && View() == old(View()).(intrArmed := armed)
    {
      intrArmed := armed;
    }

    method SetEol()
      requires Valid()
      modifies Repr()
      ensures Valid() && View() == old(View()).(eol := true)
    {
      eol := true;
    }

    method RequestQuit()
      requires Valid()
      modifies Repr()
      ensures Valid() && View() == old(View()).(quitReq := true)
    {
      quitReq := true;
    }

    /** Any other byte disarms Ctrl-C and is echoed. */
    method Echo(c: Byte)
      requires Valid()
      modifies Repr()
      ensures Valid()
      ensures View() == old(View()).(intrArmed := false,
                                     link := old(View()).link.(tty := old(View()).link.tty.Put(c)))
    {
      SetArmed(false);
      PutTty1(c);
    }

    /** cmdReadLoop */
    method CmdReadLoop()
      requires Valid()
      modifies Repr()
      ensures Valid() && View() == Machine.CmdReadLoop(old(View()))
    {
      ghost var goal := Machine.CmdReadLoop(View());
      while true
        invariant Valid() && Machine.CmdReadLoop(View()) == goal
        decreases |View().link.unread|
      {
        ghost var m0 := View();
        var c := GetTty1();
        if c < 0 {
          return;
        }
        ghost var m1 := View();
        var stop := CmdReadByte(c);
        CmdReadLoopTakes(m0, m1, View(), c, stop);
        if stop {
          return;
        }
      }
    }

    lemma CmdReadLoopTakes(m0: Modem, m1: Modem, m2: Modem, c: Byte, stop: bool)
      requires m0.link.unread != [] && c == m0.link.unread[0]
      requires m1 == m0.(link := m0.link.(unread := m0.link.unread[1..]))
      requires (m2, stop) == Machine.CmdReadByte(m1, c)
      ensures Machine.CmdReadLoop(m0) == if stop then m2 else Machine.CmdReadLoop(m2)
      ensures |m2.link.unread| < |m0.link.unread|
    {
      CmdReadByteUnread(m1, c);
      var (m, s) := Machine.CmdReadByte(m1, m0.link.unread[0]);
      assert m == m2 && s == stop;
    }

    lemma CmdReadByteUnread(m: Modem, c: Byte)
      ensures Machine.CmdReadByte(m, c).0.link.unread == m.link.unread
    {
    }

    /** The loop body of cmdReadLoop. */
    method CmdReadByte(c: Byte) returns (stop: bool)
      requires Valid()
      modifies Repr()
      ensures Valid() && (View(), stop) == Machine.CmdReadByte(old(View()), c)
    {
      if c == ETX {
        stop := Interrupt();
        return;
      }
      Echo(c);
      if c == cfg.s3 {
        SetEol();
        return true;
      }
      EditLine(c);
      stop := false;
    }

    /** What a command line changed besides the command buffer. */
    method ApplyLex(o: LexOut, text: seq<Byte>)
      requires Valid()
      modifies Repr()
      ensures Valid() && View() == Machine.ApplyLex(old(View()), o, text)
    {
      PutTtyN(text);
      ApplyCall(o);
      SetAtcmd(o);
    }

    /** What it did to the call. */
    method ApplyCall(o: LexOut)
      requires Valid()
      modifies link.Repr()
      ensures Valid()
      ensures var l := old(View()).link;
        View() == old(View()).(link := l.(
          sock := if o.quit || (o.hangup && l.sock.alive) then Close(l.sock) else l.sock,
          tel := if o.renegotiate then l.tel.(sentReqs := false) else l.tel))
    {
      if o.renegotiate {
        link.SetSentReqs(false);
      }
      if o.quit || (o.hangup && link.conn.alive) {
        link.CloseSock();
      }
    }

    method SetAtcmd(o: LexOut)
      requires Valid()
      modifies this`cfg, this`nv, this`quitReq
      ensures Valid()
      ensures View() == old(View()).(cfg := o.cfg, nv := o.nv, quitReq := old(View()).quitReq || o.quit)
    {
      cfg, nv := o.cfg, o.nv;
      quitReq := quitReq || o.quit;
    }

    ghost method NoteLine()
      requires Valid()
      modifies this`lines
      ensures Valid() && View() == old(View()).(lines := old(View()).lines + [old(View()).cmd])
    {
      lines := lines + [cmdBuf.Contents()];
    }

    /** cmdLex of the finished line, and what it changes. */
    method LexLine() returns (stat: Stat)
      requires Valid()
      modifies Repr()
      ensures Valid()
      ensures var m := old(View()); var o := rom.lex(m.cfg, m.nv, m.cmd);
        && stat == o.stat
        && View() == ResetCmd(Machine.ApplyLex(m.(lines := m.lines + [m.cmd]), o,
                                               rom.shows(m.cfg, m.nv, m.link.tel.table, m.cmd)))
    {
      var line := cmdBuf.data[..cmdBuf.ptr];
      var o := rom.lex(cfg, nv, line);
      var text := rom.shows(cfg, nv, link.tel.master, line);
      NoteLine();
      ApplyLex(o, text);
      CmdBufReset();
      stat := o.stat;
    }

    /** cmdDispatchIfReady */
    method CmdDispatchIfReady() returns (stat: Stat)
      requires Valid()
      modifies Repr()
      ensures Valid() && Dispatched(View(), stat) == DispatchIfReady(rom, old(View()))
    {
      if !eol {
        return StOk;
      }
      stat := LexLine();
      match stat {
        case StAtd | StAto | StAta =>
          return;
        case StOk =>
          PutTtyCmdstat(OK);
        case StError =>
          PutTtyCmdstat(ERROR);
        case _ =>
      }
      stat := StOk;
    }

    method TtyBufWHasData() returns (r: bool)
      requires Valid()
      ensures r == View().link.tty.HasData()
    {
      r := link.ttyW.HasData();
    }

    method TtyBufRHasData() returns (r: bool)
      requires Valid()
      ensures r == (View().link.unread != [])
    {
      r := link.ttyR.HasData();
    }

    /** One turn of the app-I/O loop of cmdIter after the dispatch. */
    method CmdTurn(stat: Stat) returns (over: bool, stat': Stat)
      requires Valid()
      modifies Repr()
      ensures Valid() && (Dispatched(View(), stat'), over) == Machine.CmdTurn(Dispatched(old(View()), stat))
    {
      if stat != StOk {
        return true, stat;
      }
      var pending := TtyBufWHasData();
      if quitReq && !pending {
        return true, StPtyClosed;
      }
      var hasData := TtyBufRHasData();
      if !hasData {
        return true, StOk;
      }
      CmdReadLoop();
      over, stat' := !eol, StOk;
    }

    /** The app-I/O half of cmdIter. */
    method CmdIterApp() returns (stat: Stat)
      requires Valid()
      modifies Repr()
      ensures Valid() && Dispatched(View(), stat) == CmdLoop(rom, old(View()))
    {
      ghost var goal := CmdLoop(rom, View());
      while true
        invariant Valid() && CmdLoop(rom, View()) == goal
        decreases |View().link.unread|
      {
        ghost var m0 := View();
        stat := CmdDispatchIfReady();
        ghost var d := Dispatched(View(), stat);
        var over;
        over, stat := CmdTurn(stat);
        CmdLoopTakes(m0, d, Dispatched(View(), stat), over);
        if over {
          return;
        }
      }
    }

    lemma CmdLoopTakes(m: Modem, d: Dispatched, t: Dispatched, over: bool)
      requires d == DispatchIfReady(rom, m) && (t, over) == Machine.CmdTurn(d)
      ensures CmdLoop(rom, m) == if over then t else CmdLoop(rom, t.m)
      ensures !over ==> |t.m.link.unread| < |m.link.unread|
    {
      DispatchKeepsUnread(rom, m);
    }

    /** The PTY became writable. */
    method CmdWritable(w: World) returns (stat: Stat)
      requires Valid()
      modifies Repr()
      ensures Valid() && Dispatched(View(), stat) == Machine.CmdWritable(rom, old(View()), w)
    {
      var ok := TtyBufWrite(w.wrote);
      if !ok {
        return StPtyClosed;
      }
      stat := CmdDispatchIfReady();
    }

    method TtyBufWrite(wrote: int) returns (ok: bool)
      requires Valid()
      modifies link.Repr()
      ensures Valid() && ok == (old(View()).link.tty.pending == [] || wrote > 0)
      ensures var m := old(View());
        View() == if ok then m.(link := m.link.(tty := m.link.tty.Write(wrote))) else Machine.CloseSock(m)
    {
      ok := link.TtyBufWrite(wrote);
    }

    method TtyBufRead(bytes: Chunk, at: Timeval) returns (ok: bool)
      requires Valid()
      modifies link.Repr()
      ensures Valid() && ok == (bytes != [])
      ensures var m := old(View());
        View() == if ok then m.(link := m.link.(unread := bytes, prevT := m.link.newT, newT := at))
                  else Machine.CloseSock(m)
    {
      ok := link.TtyBufRead(bytes, at);
    }

    /** The PTY became readable. */
    method CmdReadable(w: World) returns (stat: Stat)
      requires Valid()
      modifies Repr()
      ensures Valid() && Dispatched(View(), stat) == Machine.CmdReadable(old(View()), w)
    {
      var ok := TtyBufRead(w.read, w.readAt);
      if !ok {
        return StPtyClosed;
      }
      CmdReadLoop();
      stat := StOk;
    }

    /** The PTY half of cmdIter. */
    method CmdIterPty(w: World) returns (stat: Stat)
      requires Valid()
      modifies Repr()
      ensures Valid() && Dispatched(View(), stat) == Machine.CmdIterPty(rom, old(View()), w)
    {
      stat := StOk;
      if w.ev.ttyOut {
        stat := CmdWritable(w);
      }
      if stat == StOk {
        stat := CmdTail(w);
      }
    }

    /** The rest of it, once the TTY has been written. */
    method CmdTail(w: World) returns (stat: Stat)
      requires Valid()
      modifies Repr()
      ensures Valid()
      ensures Dispatched(View(), stat) ==
              QuitIfDrained(if w.ev.ttyIn then Machine.CmdReadable(old(View()), w) else Dispatched(old(View()), StOk))
    {
      stat := StOk;
      if w.ev.ttyIn {
        stat := CmdReadable(w);
      }
      stat := CmdQuit(stat);
    }

    method CmdQuit(stat: Stat) returns (stat': Stat)
      requires Valid()
      ensures Dispatched(View(), stat') == QuitIfDrained(Dispatched(View(), stat))
    {
      var pending := TtyBufWHasData();
      stat' := if stat == StOk && quitReq && !pending then StPtyClosed else stat;
    }

    /** cmdIter */
    method CmdIter(w: World) returns (stat: Stat)
      requires Valid()
      modifies Repr()
      ensures Valid() && Dispatched(View(), stat) == Machine.CmdIter(rom, old(View()), w)
    {
      if appIo {
        stat := CmdIterApp();
      } else {
        stat := CmdIterPty(w);
      }
    }

    // -------------------------------------------------------------- answering

    /** answerAccept once accept gave a descriptor. */
    method AnswerAccept(fd: Fd)
      requires Valid()
      modifies Repr()
      ensures Valid() && View() == Adopt(old(View()), fd)
    {
      TelOptReset();
      AdoptSock(fd);
      ClearS1();
    }

    method TelOptReset()
      requires Valid()
      modifies link.Repr()
      ensures Valid()
      ensures View() == old(View()).(link := old(View()).link.(tel := TelOpt.Reset(old(View()).link.tel)))
    {
      link.TelOptReset();
    }

    method AdoptSock(fd: Fd)
      requires Valid()
      modifies Repr()
      ensures Valid()
      ensures var m := old(View()); View() == m.(link := m.link.(sock := Sock(fd, true, m.link.sock.open + 1)))
    {
      link.conn.Init();
      link.conn.Hold(fd);
      link.conn.alive := true;
    }

    /** The RING itself. */
    method Ring(now: Timeval)
      requires Valid()
      modifies Repr()
      ensures Valid() && View() == Rung(rom, old(View()), now)
    {
      PutTtyN(rom.text(cfg, RING));
      CountRing(now);
    }

    method PutTtyN(s: seq<Byte>)
      requires Valid()
      modifies link.Repr()
      ensures Valid()
      ensures var m := old(View()); View() == m.(link := m.link.(tty := m.link.tty.PutN(s)))
    {
      link.PutTtyN(s);
    }

    method CountRing(now: Timeval)
      requires Valid()
      modifies this`hist, this`cfg, this`answer
      ensures Valid()
      ensures var m := old(View());
        View() == Note1(m.(cfg := Machine.CountS1(m.cfg), answer := Machine.CountRing(m.answer, now)),
                        Rang(now, m.cfg.s1))
    {
      hist := hist + [Rang(now, cfg.s1)];
      CountS1();
      ArmRing(now);
    }

    method CountS1()
      modifies this`cfg
      ensures cfg == Machine.CountS1(old(cfg))
    {
      if cfg.s1 < 255 {
        cfg := cfg.(s1 := cfg.s1 + 1);
      }
    }

    /** The host's ring count, and the time of the next RING. */
    method ArmRing(now: Timeval)
      modifies this`answer
      ensures answer == Machine.CountRing(old(answer), now)
    {
      if answer.rings < 255 {
        answer := answer.(rings := answer.rings + 1);
      }
      answer := answer.(ringNext := Timeval(now.sec + RING_INTERVAL_SEC, now.usec));
    }

    method ClearS1()
      requires Valid()
      modifies this`cfg
      ensures Valid() && View() == old(View()).(cfg := old(View()).cfg.(s1 := 0))
    {
      cfg := cfg.(s1 := 0);
    }

    /** cmdRingCheck */
    method CmdRingCheck(w: StepWorld) returns (answered: bool)
      requires Valid()
      modifies Repr()
      ensures Valid() && (View(), answered) == RingCheck(rom, old(View()), w)
    {
      if !answer.listener || link.conn.alive {
        return false;
      }
      if !w.ringing {
        NoCaller();
        return false;
      }
      if cfg.s1 != 0 && Cmp(w.ringNow, answer.ringNext) < 0 {
        return false;
      }
      Ring(w.ringNow);
      answered := AutoAnswer(w.ringAccept);
    }

    /** The caller is gone, or there is none. */
    method NoCaller()
      requires Valid()
      modifies this`cfg, this`answer, this`hist
      ensures Valid()
      ensures View() == Machine.QuietRings(old(View()).(cfg := old(View()).cfg.(s1 := 0)))
    {
      ClearS1();
      QuietRings();
    }

    /** S0: answer the call whose RING was just shown, if it is the one to answer. */
    method AutoAnswer(accept: int) returns (answered: bool)
      requires Valid()
      modifies Repr()
      ensures Valid()
      ensures answered == (AutoAnswers(old(View())) && accept > 0)
      ensures View() == if answered then Adopt(old(View()), accept) else old(View())
    {
      answered := cfg.s0 > 0 && cfg.s1 >= cfg.s0 && accept > 0;
      if answered {
        AnswerAccept(accept);
      }
    }

    // -------------------------------------------------------------- m2k_step, state by state

    /** telOptReset for a new call; a dialled port means no opening requests. */
    method FreshCall()
      requires Valid()
      modifies Repr()
      ensures Valid() && View() == Machine.FreshCall(old(View()))
    {
      link.TelOptReset();
      if cfg.portGiven {
        link.SetSentReqs(true);
      }
    }

    method AfterStart(r: int)
      requires Valid()
      modifies Repr()
      ensures Valid()
      ensures View() == if r == 1 then EnterOnline(rom, old(View())) else if r == 0 then EnterDial(old(View()))
                        else Show(rom, old(View()), NOCARRIER)
    {
      if r == 1 {
        StepEnterOnline();
      } else if r == 0 {
        StepEnterDial();
      } else {
        PutTtyCmdstat(NOCARRIER);
      }
    }

    method OnAtd(w: StepWorld)
      requires Valid()
      modifies Repr()
      ensures Valid() && View() == Machine.OnAtd(rom, old(View()), w)
    {
      if link.conn.alive {
        PutTtyCmdstat(ERROR);
      } else {
        FreshCall();
        var r := DialStart(w.found, w.dial);
        AfterStart(r);
      }
    }

    method OnAto()
      requires Valid()
      modifies Repr()
      ensures Valid() && View() == Machine.OnAto(rom, old(View()))
    {
      if link.conn.alive {
        StepEnterOnline();
      } else {
        PutTtyCmdstat(NOCARRIER);
      }
    }

    method OnAta(w: StepWorld)
      requires Valid()
      modifies Repr()
      ensures Valid() && View() == Machine.OnAta(rom, old(View()), w)
    {
      if link.conn.alive || !answer.listener {
        PutTtyCmdstat(ERROR);
      } else if w.waiting {
        if w.accept > 0 {
          AnswerAccept(w.accept);
          StepEnterOnline();
        } else {
          PutTtyCmdstat(NOCARRIER);
        }
      } else if cfg.s7 == 0 {
        PutTtyCmdstat(NOCARRIER);
      } else {
        StepEnterAnswer(w.answerNow);
      }
    }

    method CmdAct(stat: Stat, w: StepWorld)
      requires Valid()
      modifies Repr()
      ensures Valid() && View() == Machine.CmdAct(rom, Dispatched(old(View()), stat), w)
    {
      match stat {
        case StAtd => OnAtd(w);
        case StAto => OnAto();
        case StAta => OnAta(w);
        case StPtyClosed => Enter(DONE);
        case _ =>
      }
    }

    method CmdStep(w: StepWorld)
      requires Valid()
      modifies Repr()
      ensures Valid() && View() == Machine.CmdStep(rom, old(View()), w)
    {
      var answered := CmdRingCheck(w);
      if answered {
        StepEnterOnline();
        return;
      }
      var stat := CmdIter(w.line);
      CmdAct(stat, w);
    }

    /** dialIter, and what m2k_step does with its verdict. */
    method DialStep(w: StepWorld)
      requires Valid()
      modifies Repr()
      ensures Valid() && View() == Machine.DialStep(rom, old(View()), w)
    {
      if !appIo && w.ttyPeek && Cancels(w.peek) {
        DialAbort();
        PutTtyCmdstat(NOCARRIER);
        StepEnterCmd();
        return;
      }
      var r := DialProgress(w.dial);
      if r == 1 {
        StepEnterOnline();
      } else if r == -1 {
        PutTtyCmdstat(NOCARRIER);
        StepEnterCmd();
      }
    }

    /** answerIter, and what m2k_step does with its verdict. */
    method AnswerStep(w: StepWorld)
      requires Valid()
      modifies Repr()
      ensures Valid() && View() == Machine.AnswerStep(rom, old(View()), w)
    {
      var r := AnswerIter(w);
      if r == 1 {
        StepEnterOnline();
      } else if r == -1 {
        PutTtyCmdstat(NOCARRIER);
        StepEnterCmd();
      }
    }

    /** answerIter: 1 accepted, 0 go on waiting, -1 given up. */
    method AnswerIter(w: StepWorld) returns (r: int)
      requires Valid()
      modifies Repr()
      ensures Valid()
      ensures r == if !appIo && w.ttyPeek then -1
                   else if w.answerIn then (if w.accept > 0 then 1 else -1)
                   else if Cmp(w.answerNow, old(View()).answer.deadline) >= 0 then -1 else 0
      ensures View() == if r == 1 then Adopt(old(View()), w.accept) else old(View())
    {
      if !appIo && w.ttyPeek {
        return -1;
      }
      if w.answerIn {
        if w.accept > 0 {
          AnswerAccept(w.accept);
          return 1;
        }
        return -1;
      }
      if Cmp(w.answerNow, answer.deadline) >= 0 {
        return -1;
      }
      r := 0;
    }

    /** onlineIter, with the escape request taken. */
    method OnlineIter(w: World) returns (verdict: Verdict)
      requires Valid()
      modifies Repr()
      ensures Valid()
      ensures var m := old(View());
        var i := Relay.OnlineIter(m.link, m.cfg, m.appIo, w.(escapeReq := m.escapeReq));
        verdict == i.verdict && View() == m.(link := i.link, escapeReq := false)
    {
      verdict := link.OnlineIter(cfg, appIo, w.(escapeReq := escapeReq));
      escapeReq := false;
    }

    method OnlineStep(w: StepWorld)
      requires Valid()
      modifies Repr()
      ensures Valid() && View() == Machine.OnlineStep(rom, old(View()), w)
    {
      var verdict := OnlineIter(w.line);
      match verdict {
        case Continue =>
        case Escaped =>
          PutTtyCmdstat(OK);
          StepEnterCmd();
        case Lost =>
          CloseSock();
          PutTtyCmdstat(NOCARRIER);
          StepEnterCmd();
      }
    }

    /** m2k_step: the state machine and the context it updates agree on every step. */
    method Step(w: StepWorld)
      requires Valid()
      modifies Repr()
      ensures Valid() && View() == Machine.Step(rom, old(View()), w)
    {
      match state {
        case CMD => CmdStep(w);
        case DIAL => DialStep(w);
        case ANSWER => AnswerStep(w);
        case ONLINE => OnlineStep(w);
        case DONE =>
      }
    }

    // -------------------------------------------------------------- the rest of the step API

    /** m2k_escape */
    method RequestEscape()
      requires Valid()
      modifies Repr()
      ensures Valid() && View() == Machine.RequestEscape(old(View()))
    {
      if state == ONLINE {
        escapeReq := true;
      }
    }

    /** m2k_setup_answer with a port that could be bound. */
    method SetupAnswer()
      requires Valid()
      modifies Repr()
      ensures Valid() && View() == Listen(old(View()))
    {
      answer := answer.(listener := true);
    }

    /** m2k_write_from_app; outside app-I/O mode an error. */
    method WriteFromApp(bytes: seq<Byte>, now: Timeval) returns (ok: bool, consumed: nat, wouldBlock: bool)
      requires Valid()
      modifies Repr()
      ensures Valid() && ok == appIo
      ensures View() == Machine.Do(rom, old(View()), CallWrite(bytes, now))
      ensures ok ==> var free := CHUNK - |old(View()).link.unread|;
                consumed == (if |bytes| < free then |bytes| else free) && (wouldBlock <==> bytes != [] && consumed == 0)
    {
      if !appIo {
        return false, 0, false;
      }
      ok := true;
      consumed, wouldBlock := link.WriteFromApp(bytes, now);
    }

    /** m2k_read_to_app; outside app-I/O mode an error. */
    method ReadToApp(max: nat) returns (ok: bool, bytes: seq<Byte>)
      requires Valid()
      modifies Repr()
      ensures Valid() && ok == appIo
      ensures View() == Machine.Do(rom, old(View()), CallRead(max))
      ensures ok ==> bytes <= old(View()).link.tty.pending
    {
      if !appIo {
        return false, [];
      }
      ok := true;
      bytes := link.ReadToApp(max);
    }

    /** onlinePollfds */
    method OnlinePollfds() returns (asked: Events)
      requires Valid()
      ensures asked == PollSet(View().link, appIo)
      ensures asked.sockIn <==> View().link.tty.Ptr() <= SOFT
      ensures asked.sockOut <==> View().link.out.pending != []
      ensures asked.ttyIn <==> !appIo && View().link.out.Ptr() <= SOFT && View().link.unread == []
      ensures asked.ttyOut <==> !appIo && View().link.tty.pending != []
    {
      var ttyReady := link.ttyW.Ready();
      var sockData := link.sockW.HasData();
      var sockReady := link.sockW.Ready();
      var unread := link.ttyR.HasData();
      var ttyData := link.ttyW.HasData();
      asked := Events(ttyReady, sockData, !appIo && sockReady && !unread, !appIo && ttyData);
    }

    /** Any call of the step API, by name. It keeps the invariant from which the laws of whole runs follow. */
    method Call(a: Api)
      requires Valid()
      modifies Repr()
      ensures Valid() && View() == Machine.Do(rom, old(View()), a)
      ensures MachineRuns.Inv(old(View())) ==> MachineRuns.Inv(View())
    {
      ghost var was := View();
      Dispatch(a);
      if MachineRuns.Inv(was) {
        MachineRuns.DoKeeps(rom, was, a);
      }
    }

    method Dispatch(a: Api)
      requires Valid()
      modifies Repr()
      ensures Valid() && View() == Machine.Do(rom, old(View()), a)
    {
      match a {
        case CallStep(w) => Step(w);
        case CallHangup => Hangup();
        case CallEscape => RequestEscape();
        case CallListen => SetupAnswer();
        case CallWrite(bytes, now) =>
          var ok, consumed, wouldBlock := WriteFromApp(bytes, now);
        case CallRead(max) =>
          var ok, bytes := ReadToApp(max);
      }
    }
  }
}
