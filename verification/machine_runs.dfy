/** What every call of the step API keeps, and what follows for whole runs. */
module MachineRuns {
  import opened Wire
  import opened Time
  import opened Settings
  import opened Fifo
  import opened Relay
  import RelayRuns
  import opened Dial
  import opened Machine
  import opened History

  // ---------------------------------------------------------------- the invariant

  /** Descriptors: none leaks, a connection is alive exactly when it holds one (except that a dial holds one before it
      is alive), and only an online modem has bytes queued for the socket. */
  ghost predicate CarrierOk(m: Modem) {
    var s := m.link.sock;
    && NoLeak(s)
    && (s.alive ==> s.fd > 0)
    && (m.state != DIAL && s.fd > 0 ==> s.alive)
    && (m.state == DIAL ==> Dialling(m.Call()) && InOrder(m.dial.tried))
    && (m.state == ANSWER ==> !s.alive)
    && (m.state != ONLINE ==> m.link.out.pending == [])
  }

  ghost predicate RingsOk(m: Modem) {
    && m.answer.rings == (if RingsSince(m.hist) < 255 then RingsSince(m.hist) else 255)
    && Spaced(m.hist)
    && (LastRingOf(m.hist).At? ==> m.answer.ringNext == RingGap(LastRingOf(m.hist).t))
  }

  ghost predicate Inv(m: Modem) {
    && m.link.Valid()
    && CarrierOk(m)
    && Replay(m.hist) == PhaseOf(m.state)
    && RingsOk(m)
  }

  /** The parts of the invariant that do not depend on the state: for the middle of a step. */
  ghost predicate Base(m: Modem) {
    && m.link.Valid()
    && NoLeak(m.link.sock)
    && (m.link.sock.alive ==> m.link.sock.fd > 0)
    && RingsOk(m)
  }

  // ---------------------------------------------------------------- building blocks

  lemma ShowKeeps(rom: Rom, m: Modem, code: Code)
    requires Base(m)
    ensures Base(Show(rom, m, code))
    ensures Replay(Show(rom, m, code).hist) == Advance(Replay(m.hist), Shown(code))
    ensures RingsSince(Show(rom, m, code).hist) == RingsSince(m.hist)
    ensures Show(rom, m, code).link == m.link.(tty := Show(rom, m, code).link.tty)
  {
    PutNValid(m.link.tty, rom.text(m.cfg, code));
    ReplayAppend(m.hist, Shown(code));
    RingAppend(m.hist, Shown(code));
  }

  lemma EnterKeeps(m: Modem, s: State)
    requires Base(m)
    ensures Base(EnterState(m, s))
    ensures Replay(EnterState(m, s).hist) == Advance(Replay(m.hist), Entered(s))
  {
    ReplayAppend(m.hist, Entered(s));
    RingAppend(m.hist, Entered(s));
  }

  lemma QuietKeeps(m: Modem)
    requires Base(m)
    ensures Base(QuietRings(m))
    ensures Replay(QuietRings(m).hist) == Replay(m.hist)
  {
    ReplayAppend(m.hist, Quieted);
    RingAppend(m.hist, Quieted);
  }

  lemma CloseKeeps(s: Sock)
    requires NoLeak(s) && (s.alive ==> s.fd > 0)
    ensures NoLeak(Close(s)) && Close(s).fd <= 0 && !Close(s).alive && Close(s).open == 0
  {
  }

  /** Showing a final code and going back to command mode. */
  lemma ToCmdKeeps(rom: Rom, m: Modem, code: Code)
    requires Base(m) && (m.link.sock.fd > 0 ==> m.link.sock.alive)
    requires Advance(Replay(m.hist), Shown(code)) == Leaving
    ensures Inv(EnterCmd(Show(rom, m, code)))
  {
    ShowKeeps(rom, m, code);
    var m1 := Show(rom, m, code);
    var m2 := ResetCmd(m1.(link := ForgetInput(m1.link).(out := EMPTY)));
    EnterKeeps(m2, CMD);
  }

  /** CONNECT and going online. */
  lemma ToOnlineKeeps(rom: Rom, m: Modem)
    requires Base(m) && m.link.sock.alive
    requires Replay(m.hist) == AtCmd || Replay(m.hist) == AtDial || Replay(m.hist) == AtAnswer
    ensures Inv(EnterOnline(rom, m)) && EnterOnline(rom, m).link.sock.alive
  {
    var m1 := m.(link := GoOnline(m.link, m.cfg));
    GoOnlineKeeps(m);
    QuietKeeps(m1);
    ConnectKeeps(rom, QuietRings(m1));
  }

  lemma ConnectKeeps(rom: Rom, m: Modem)
    requires Base(m) && m.link.sock.alive
    requires Replay(m.hist) == AtCmd || Replay(m.hist) == AtDial || Replay(m.hist) == AtAnswer
    ensures var m' := EnterState(Show(rom, m, CONNECT), ONLINE); Inv(m') && m'.link.sock.alive
  {
    ShowKeeps(rom, m, CONNECT);
    EnterKeeps(Show(rom, m, CONNECT), ONLINE);
  }

  lemma GoOnlineKeeps(m: Modem)
    requires Base(m)
    ensures Base(m.(link := GoOnline(m.link, m.cfg))) && GoOnline(m.link, m.cfg).sock == m.link.sock
  {
    RelayRuns.GoOnlineValid(m.link, m.cfg);
  }

  lemma AdoptKeeps(m: Modem, fd: Fd)
    requires Base(m) && m.link.sock.fd <= 0
    ensures Base(Adopt(m, fd)) && Adopt(m, fd).link.sock.alive && Adopt(m, fd).hist == m.hist
  {
  }

  // ---------------------------------------------------------------- command mode

  /** What command mode may change: text, settings, the command line, the TTY side, codes shown; it may close the
      connection, and touches neither rings nor the socket's buffer. */
  ghost predicate Steady(m: Modem, m': Modem) {
    && Base(m')
    && Replay(m'.hist) == AtCmd
    && (m'.link.sock == m.link.sock || m'.link.sock == Close(m.link.sock))
    && m'.link.out == m.link.out
    && m'.state == m.state
    && RingsSince(m'.hist) == RingsSince(m.hist)
  }

  lemma CloseClose(s: Sock)
    ensures Close(Close(s)) == Close(s)
  {
  }

  lemma SteadyTrans(a: Modem, b: Modem, c: Modem)
    requires Steady(a, b) && Steady(b, c)
    ensures Steady(a, c)
  {
    CloseClose(a.link.sock);
  }

  lemma ApplyLexSteady(m: Modem, o: LexOut, text: seq<Byte>)
    requires Base(m) && Replay(m.hist) == AtCmd
    ensures Steady(m, ApplyLex(m, o, text))
  {
    PutNValid(m.link.tty, text);
    CloseKeeps(m.link.sock);
  }

  lemma ShowSteady(rom: Rom, m: Modem, code: Code)
    requires Base(m) && Replay(m.hist) == AtCmd && (code == OK || code == ERROR)
    ensures Steady(m, Show(rom, m, code))
  {
    ShowKeeps(rom, m, code);
  }

  lemma DispatchSteady(rom: Rom, m: Modem)
    requires Base(m) && Replay(m.hist) == AtCmd
    ensures Steady(m, DispatchIfReady(rom, m).m)
    ensures !DispatchIfReady(rom, m).m.eol
  {
    if m.eol {
      var o := rom.lex(m.cfg, m.nv, m.cmd);
      var m0 := m.(lines := m.lines + [m.cmd]);
      var text := rom.shows(m.cfg, m.nv, m.link.tel.table, m.cmd);
      var m1 := ResetCmd(ApplyLex(m0, o, text));
      ApplyLexSteady(m0, o, text);
      assert Steady(m, m1);
      if o.stat == StOk {
        ShowSteady(rom, m1, OK);
        SteadyTrans(m, m1, Show(rom, m1, OK));
      } else if o.stat == StError {
        ShowSteady(rom, m1, ERROR);
        SteadyTrans(m, m1, Show(rom, m1, ERROR));
      }
    }
  }

  lemma ReadByteSteady(m: Modem, c: Byte)
    requires Base(m) && Replay(m.hist) == AtCmd
    ensures Steady(m, CmdReadByte(m, c).0)
  {
    ReadByteFrame(m, c);
  }

  lemma ReadByteFrame(m: Modem, c: Byte)
    requires m.link.tty.Valid()
    ensures var m' := CmdReadByte(m, c).0;
      && m' == m.(cmd := m'.cmd, eol := m'.eol, quitReq := m'.quitReq, intrArmed := m'.intrArmed, link := m'.link)
      && m'.link == m.link.(tty := m'.link.tty) && m'.link.tty.Valid()
  {
    assert m.link.tty.Put(c).Valid();
  }

  lemma {:induction false} ReadLoopSteady(m: Modem)
    requires Base(m) && Replay(m.hist) == AtCmd
    ensures Steady(m, CmdReadLoop(m))
    decreases |m.link.unread|
  {
    if m.link.unread == [] {
    } else {
      var m0 := m.(link := m.link.(unread := m.link.unread[1..]));
      var (m1, stop) := CmdReadByte(m0, m.link.unread[0]);
      ReadByteSteady(m0, m.link.unread[0]);
      assert Steady(m, m1);
      if !stop {
        ReadLoopSteady(m1);
        SteadyTrans(m, m1, CmdReadLoop(m1));
      }
    }
  }

  /** cmdIter in app-I/O mode ends with no line left undispatched. */
  lemma {:induction false} CmdLoopSteady(rom: Rom, m: Modem)
    requires Base(m) && Replay(m.hist) == AtCmd
    ensures Steady(m, CmdLoop(rom, m).m)
    ensures !CmdLoop(rom, m).m.eol
    decreases |m.link.unread|
  {
    var d := DispatchIfReady(rom, m);
    var (t, over) := CmdTurn(d);
    DispatchSteady(rom, m);
    DispatchKeepsUnread(rom, m);
    TurnSteady(d);
    SteadyTrans(m, d.m, t.m);
    if !over {
      CmdLoopSteady(rom, t.m);
      SteadyTrans(m, t.m, CmdLoop(rom, t.m).m);
    }
  }

  lemma TurnSteady(d: Dispatched)
    requires Base(d.m) && Replay(d.m.hist) == AtCmd && !d.m.eol
    ensures Steady(d.m, CmdTurn(d).0.m)
    ensures CmdTurn(d).1 ==> !CmdTurn(d).0.m.eol
  {
    if d.stat == StOk && !(d.m.quitReq && !d.m.link.tty.HasData()) && d.m.link.unread != [] {
      ReadLoopSteady(d.m);
    }
  }

  lemma CloseSockSteady(m: Modem)
    requires Base(m) && Replay(m.hist) == AtCmd
    ensures Steady(m, CloseSock(m))
  {
    CloseKeeps(m.link.sock);
  }

  lemma CmdWritableSteady(rom: Rom, m: Modem, w: World)
    requires Base(m) && Replay(m.hist) == AtCmd
    ensures Steady(m, CmdWritable(rom, m, w).m)
  {
    CloseSockSteady(m);
    DispatchSteady(rom, m.(link := m.link.(tty := m.link.tty.Write(w.wrote))));
  }

  lemma CmdReadableSteady(m: Modem, w: World)
    requires Base(m) && Replay(m.hist) == AtCmd
    ensures Steady(m, CmdReadable(m, w).m)
  {
    CloseSockSteady(m);
    ReadLoopSteady(m.(link := m.link.(unread := w.read, prevT := m.link.newT, newT := w.readAt)));
  }

  lemma CmdIterSteady(rom: Rom, m: Modem, w: World)
    requires Base(m) && Replay(m.hist) == AtCmd
    ensures Steady(m, CmdIter(rom, m, w).m)
  {
    if m.appIo {
      CmdLoopSteady(rom, m);
    } else {
      var d := if w.ev.ttyOut then CmdWritable(rom, m, w) else Dispatched(m, StOk);
      CmdWritableSteady(rom, m, w);
      assert Steady(m, d.m);
      CmdReadableSteady(d.m, w);
      SteadyTrans(m, d.m, CmdReadable(d.m, w).m);
    }
  }

  lemma RungKeeps(rom: Rom, m: Modem, w: StepWorld)
    requires Base(m) && RingDue(m, w)
    ensures Base(Rung(rom, m, w.ringNow))
    ensures Replay(Rung(rom, m, w.ringNow).hist) == Advance(Replay(m.hist), Rang(w.ringNow, m.cfg.s1))
  {
    PutNValid(m.link.tty, rom.text(m.cfg, RING));
    ReplayAppend(m.hist, Rang(w.ringNow, m.cfg.s1));
    RingAppend(m.hist, Rang(w.ringNow, m.cfg.s1));
  }

  lemma RingCheckKeeps(rom: Rom, m: Modem, w: StepWorld)
    requires Inv(m) && m.state == CMD
    ensures var (m1, answered) := RingCheck(rom, m, w);
      && Base(m1) && Replay(m1.hist) == AtCmd && m1.link.out == m.link.out && m1.state == CMD
      && (if answered then m1.link.sock.alive else m1.link.sock == m.link.sock)
  {
    if RingDue(m, w) {
      RungKeeps(rom, m, w);
      var m1 := Rung(rom, m, w.ringNow);
      assert m1.link == m.link.(tty := m1.link.tty);
      if AutoAnswers(m1) && w.ringAccept > 0 {
        AdoptKeeps(m1, w.ringAccept);
      }
    } else {
      QuietKeeps(m.(cfg := m.cfg.(s1 := 0)));
    }
  }

  // ---------------------------------------------------------------- ATD, ATO, ATA

  /** A modem in command mode, in the middle of a step. */
  ghost predicate InCmd(m: Modem) {
    && Base(m) && Replay(m.hist) == AtCmd && m.state == CMD
    && (m.link.sock.fd > 0 ==> m.link.sock.alive)
    && m.link.out.pending == []
  }

  lemma ShowInCmd(rom: Rom, m: Modem, code: Code)
    requires InCmd(m) && (code == OK || code == ERROR || code == NOCARRIER)
    ensures Inv(Show(rom, m, code))
  {
    ShowKeeps(rom, m, code);
  }

  lemma ToDialKeeps(m: Modem)
    requires Base(m) && Replay(m.hist) == AtCmd && m.link.out.pending == []
    requires Dialling(m.Call()) && InOrder(m.dial.tried)
    ensures Inv(EnterDial(m))
  {
    var m1 := m.(link := ForgetInput(m.link));
    QuietKeeps(m1);
    EnterKeeps(ResetCmd(QuietRings(m1)), DIAL);
  }

  lemma WithCallKeeps(m: Modem, c: Call)
    requires Base(m) && NoLeak(c.sock) && (c.sock.alive ==> c.sock.fd > 0)
    ensures Base(m.WithCall(c)) && m.WithCall(c).Call() == c
    ensures m.WithCall(c).hist == m.hist && m.WithCall(c).state == m.state
    ensures m.WithCall(c).link == m.link.(sock := c.sock)
  {
  }

  /** What becomes of a dial just started. */
  lemma StartedKeeps(rom: Rom, m: Modem, o: Outcome)
    requires InCmd(m) && !m.link.sock.alive
    requires Launched(o)
    ensures Inv(AfterStart(rom, m, o))
    ensures AfterStart(rom, m, o).state == ONLINE ==> AfterStart(rom, m, o).link.sock.alive
  {
    var m2 := m.WithCall(o.call);
    WithCallKeeps(m, o.call);
    if o.r == 1 {
      ToOnlineKeeps(rom, m2);
    } else if o.r == 0 {
      ToDialKeeps(m2);
    } else {
      ShowInCmd(rom, m2, NOCARRIER);
    }
  }

  lemma OnAtdKeeps(rom: Rom, m: Modem, w: StepWorld)
    requires InCmd(m)
    ensures Inv(OnAtd(rom, m, w))
    ensures OnAtd(rom, m, w).state == ONLINE ==> OnAtd(rom, m, w).link.sock.alive
  {
    if m.link.sock.alive {
      ShowInCmd(rom, m, ERROR);
    } else {
      var m1 := FreshCall(m);
      FreshCallKeeps(m);
      StartLaunches(m1.Call(), w.found, m1.cfg.s7, w.dial);
      StartedKeeps(rom, m1, Start(m1.Call(), w.found, m1.cfg.s7, w.dial));
    }
  }

  lemma FreshCallKeeps(m: Modem)
    requires InCmd(m)
    ensures InCmd(FreshCall(m)) && FreshCall(m).link.sock == m.link.sock
  {
  }

  lemma OnAtoKeeps(rom: Rom, m: Modem)
    requires InCmd(m)
    ensures Inv(OnAto(rom, m))
    ensures OnAto(rom, m).state == ONLINE ==> OnAto(rom, m).link.sock.alive
  {
    if m.link.sock.alive {
      ToOnlineKeeps(rom, m);
    } else {
      ShowInCmd(rom, m, NOCARRIER);
    }
  }

  lemma ToAnswerKeeps(m: Modem, now: Timeval)
    requires InCmd(m) && !m.link.sock.alive
    ensures Inv(EnterAnswer(m, now))
  {
    var deadline := Timeval(now.sec + m.cfg.s7, now.usec);
    EnterKeeps(ResetCmd(m.(link := ForgetInput(m.link), answer := m.answer.(deadline := deadline))), ANSWER);
  }

  lemma OnAtaKeeps(rom: Rom, m: Modem, w: StepWorld)
    requires InCmd(m)
    ensures Inv(OnAta(rom, m, w))
    ensures OnAta(rom, m, w).state == ONLINE ==> OnAta(rom, m, w).link.sock.alive
  {
    if m.link.sock.alive || !m.answer.listener {
      ShowInCmd(rom, m, ERROR);
    } else if w.waiting && w.accept > 0 {
      AdoptKeeps(m, w.accept);
      ToOnlineKeeps(rom, Adopt(m, w.accept));
    } else if w.waiting || m.cfg.s7 == 0 {
      ShowInCmd(rom, m, NOCARRIER);
    } else {
      ToAnswerKeeps(m, w.answerNow);
    }
  }

  // ---------------------------------------------------------------- one step

  lemma SteadyInCmd(m: Modem, m1: Modem, m2: Modem)
    requires Inv(m) && m.state == CMD && Steady(m1, m2)
    requires m1.link.out == m.link.out && m1.link.sock == m.link.sock && m1.state == CMD
    ensures InCmd(m2)
  {
    CloseKeeps(m.link.sock);
  }

  lemma CmdActKeeps(rom: Rom, d: Dispatched, w: StepWorld)
    requires InCmd(d.m)
    ensures Inv(CmdAct(rom, d, w))
    ensures CmdAct(rom, d, w).state == ONLINE ==> CmdAct(rom, d, w).link.sock.alive
  {
    match d.stat
    case StAtd => OnAtdKeeps(rom, d.m, w);
    case StAto => OnAtoKeeps(rom, d.m);
    case StAta => OnAtaKeeps(rom, d.m, w);
    case StPtyClosed => ToDoneKeeps(d.m);
    case _ => CmdInv(d.m);
  }

  lemma ToDoneKeeps(m: Modem)
    requires InCmd(m)
    ensures Inv(EnterState(m, DONE))
  {
    EnterKeeps(m, DONE);
  }

  lemma CmdInv(m: Modem)
    requires InCmd(m)
    ensures Inv(m)
  {
  }

  lemma CmdStepKeeps(rom: Rom, m: Modem, w: StepWorld)
    requires Inv(m) && m.state == CMD
    ensures Inv(CmdStep(rom, m, w))
    ensures CmdStep(rom, m, w).state == ONLINE ==> CmdStep(rom, m, w).link.sock.alive
  {
    var (m1, answered) := RingCheck(rom, m, w);
    RingCheckKeeps(rom, m, w);
    if answered {
      ToOnlineKeeps(rom, m1);
    } else {
      var d := CmdIter(rom, m1, w.line);
      CmdIterSteady(rom, m1, w.line);
      SteadyInCmd(m, m1, d.m);
      CmdActKeeps(rom, d, w);
    }
  }

  lemma AbortKeeps(rom: Rom, m: Modem)
    requires Inv(m) && m.state == DIAL
    ensures Inv(EnterCmd(Show(rom, m.WithCall(Abort(m.Call())), NOCARRIER)))
  {
    CloseKeeps(m.link.sock);
    ToCmdKeeps(rom, m.WithCall(Abort(m.Call())), NOCARRIER);
  }

  /** What becomes of a dial that was going on. */
  lemma EndDialKeeps(rom: Rom, m: Modem, r: int)
    requires Base(m) && Replay(m.hist) == AtDial && m.state == DIAL && m.link.out.pending == []
    requires r == 1 ==> m.link.sock.alive
    requires r == -1 ==> !m.link.sock.alive && m.link.sock.open == 0
    requires r != 1 && r != -1 ==> Dialling(m.Call()) && InOrder(m.dial.tried)
    ensures Inv(EndDial(rom, m, r))
    ensures EndDial(rom, m, r).state == ONLINE ==> EndDial(rom, m, r).link.sock.alive
  {
    if r == 1 {
      ToOnlineKeeps(rom, m);
    } else if r == -1 {
      ToCmdKeeps(rom, m, NOCARRIER);
    }
  }

  lemma DialStepKeeps(rom: Rom, m: Modem, w: StepWorld)
    requires Inv(m) && m.state == DIAL
    ensures Inv(DialStep(rom, m, w))
    ensures DialStep(rom, m, w).state == ONLINE ==> DialStep(rom, m, w).link.sock.alive
  {
    if !m.appIo && w.ttyPeek && Cancels(w.peek) {
      AbortKeeps(rom, m);
    } else {
      var o := Progress(m.Call(), m.cfg.s7, w.dial);
      ProgressLaunches(m.Call(), m.cfg.s7, w.dial);
      WithCallKeeps(m, o.call);
      EndDialKeeps(rom, m.WithCall(o.call), o.r);
    }
  }

  lemma AnswerStepKeeps(rom: Rom, m: Modem, w: StepWorld)
    requires Inv(m) && m.state == ANSWER
    ensures Inv(AnswerStep(rom, m, w))
    ensures AnswerStep(rom, m, w).state == ONLINE ==> AnswerStep(rom, m, w).link.sock.alive
  {
    ToCmdKeeps(rom, m, NOCARRIER);
    if w.accept > 0 {
      AdoptKeeps(m, w.accept);
      ToOnlineKeeps(rom, Adopt(m, w.accept));
    }
  }

  /** What a relay step leaves of the connection. */
  lemma OnlineIterSock(l: Link, cfg: Atcmd, appIo: bool, w: World)
    requires l.Valid() && NoLeak(l.sock) && (l.sock.alive ==> l.sock.fd > 0)
    ensures var i := OnlineIter(l, cfg, appIo, w);
      && i.link.Valid() && NoLeak(i.link.sock)
      && (i.link.sock.alive ==> i.link.sock.fd > 0 && l.sock.alive)
      && (i.verdict.Continue? ==> i.link.sock == l.sock && l.sock.alive)
      && (i.verdict.Escaped? ==> i.link.sock == l.sock)
  {
    if !w.escapeReq && !SilenceOver(l.esc, w.now) {
      RelayRuns.IterOutFrame(l, cfg, appIo, w);
      IterOutSock(l, cfg, appIo, w);
      var i := IterOut(l, cfg, appIo, w);
      if !i.verdict.Lost? {
        IterInSock(i.link, cfg, appIo, w);
      }
    }
  }

  lemma IterOutSock(l: Link, cfg: Atcmd, appIo: bool, w: World)
    requires l.Valid() && NoLeak(l.sock)
    ensures NoLeak(IterOut(l, cfg, appIo, w).link.sock)
    ensures IterOut(l, cfg, appIo, w).link.sock.alive ==> IterOut(l, cfg, appIo, w).link.sock == l.sock
  {
    var l1 := if w.ev.sockOut then OnSockWritable(l, cfg, w.sent) else l;
    if w.ev.sockOut {
      RelayRuns.OnSockWritableFrame(l, cfg, w.sent);
    }
    RelayRuns.TtyLoopFrame(l1, cfg);
  }

  lemma IterInSock(l: Link, cfg: Atcmd, appIo: bool, w: World)
    requires l.Valid() && NoLeak(l.sock)
    ensures var i := IterIn(l, cfg, appIo, w);
      && i.link.Valid() && NoLeak(i.link.sock)
      && (i.link.sock.alive ==> i.link.sock == l.sock)
      && (i.verdict.Continue? ==> i.link.sock.alive)
      && !i.verdict.Escaped?
  {
    var l1 := if w.ev.sockIn then OnSockReadable(l, cfg, w.recv) else l;
    if w.ev.sockIn {
      RelayRuns.OnSockReadableFrame(l, cfg, w.recv);
    }
    if !appIo && w.ev.ttyIn {
      RelayRuns.TtyLoopFrame(l1.(unread := w.read, prevT := l1.newT, newT := w.readAt), cfg);
    }
  }

  lemma EndOnlineKeeps(rom: Rom, m: Modem, verdict: Verdict)
    requires Base(m) && Replay(m.hist) == AtOnline && m.state == ONLINE
    requires !verdict.Lost? ==> (m.link.sock.fd > 0 ==> m.link.sock.alive)
    requires verdict.Continue? ==> m.link.sock.alive
    ensures Inv(EndOnline(rom, m, verdict))
    ensures EndOnline(rom, m, verdict).state == ONLINE ==> EndOnline(rom, m, verdict).link.sock.alive
  {
    match verdict
    case Continue =>
    case Escaped => ToCmdKeeps(rom, m, OK);
    case Lost =>
      CloseKeeps(m.link.sock);
      ToCmdKeeps(rom, CloseSock(m), NOCARRIER);
  }

  lemma OnlineStepKeeps(rom: Rom, m: Modem, w: StepWorld)
    requires Inv(m) && m.state == ONLINE
    ensures Inv(OnlineStep(rom, m, w))
    ensures OnlineStep(rom, m, w).state == ONLINE ==> OnlineStep(rom, m, w).link.sock.alive
  {
    var w1 := w.line.(escapeReq := m.escapeReq);
    OnlineIterSock(m.link, m.cfg, m.appIo, w1);
    var i := OnlineIter(m.link, m.cfg, m.appIo, w1);
    EndOnlineKeeps(rom, m.(link := i.link, escapeReq := false), i.verdict);
  }

  lemma StepKeeps(rom: Rom, m: Modem, w: StepWorld)
    requires Inv(m)
    ensures Inv(Step(rom, m, w))
    ensures Step(rom, m, w).state == ONLINE ==> Step(rom, m, w).link.sock.alive
  {
    match m.state
    case CMD => CmdStepKeeps(rom, m, w);
    case DIAL => DialStepKeeps(rom, m, w);
    case ANSWER => AnswerStepKeeps(rom, m, w);
    case ONLINE => OnlineStepKeeps(rom, m, w);
    case DONE =>
  }

  lemma HangupKeeps(rom: Rom, m: Modem)
    requires Inv(m)
    ensures Inv(Hangup(rom, m))
  {
    match m.state
    case DIAL => AbortKeeps(rom, m);
    case ANSWER => ToCmdKeeps(rom, m, NOCARRIER);
    case _ => CloseKeeps(m.link.sock);
  }

  lemma DoKeeps(rom: Rom, m: Modem, a: Api)
    requires Inv(m)
    ensures Inv(Do(rom, m, a))
  {
    match a
    case CallStep(w) => StepKeeps(rom, m, w);
    case CallHangup => HangupKeeps(rom, m);
    case _ =>
  }

  lemma {:induction false} RunKeeps(rom: Rom, m: Modem, calls: seq<Api>)
    requires Inv(m)
    ensures Inv(Run(rom, m, calls))
    decreases |calls|
  {
    if calls == [] {
    } else {
      DoKeeps(rom, m, calls[0]);
      RunKeeps(rom, Do(rom, m, calls[0]), calls[1..]);
    }
  }

  lemma NewInv(appIo: bool, cfg: Atcmd, nv: Atcmd)
    ensures Inv(New(appIo, cfg, nv))
  {
    assert New(appIo, cfg, nv).hist == [] + [Entered(CMD)];
    ReplayAppend([], Entered(CMD));
    RingAppend([], Entered(CMD));
  }

  // ---------------------------------------------------------------- main results

  /** Result codes bracket. In every run of the step API, whatever the command lexer and the outside world do, codes
      follow the protocol of History; so the CONNECTs shown are the online endings shown plus one exactly while
      online, and every dial or answer wait that is over ended with exactly one CONNECT or NO CARRIER. */
  lemma CodesBracket(rom: Rom, appIo: bool, cfg: Atcmd, nv: Atcmd, calls: seq<Api>)
    ensures var m := Run(rom, New(appIo, cfg, nv), calls);
      && Replay(m.hist) == PhaseOf(m.state)
      && Connects(m.hist) == OnlineEndings(m.hist) + (if m.state == ONLINE then 1 else 0)
      && Waits(m.hist) == WaitEndings(m.hist) + (if m.state == DIAL || m.state == ANSWER then 1 else 0)
  {
    NewInv(appIo, cfg, nv);
    RunKeeps(rom, New(appIo, cfg, nv), calls);
    BracketsBalance(Run(rom, New(appIo, cfg, nv), calls).hist);
  }

  /** Carrier and descriptors. After every call of every run no descriptor has leaked or been closed twice, outside
      DIAL the connection is alive exactly when it holds a descriptor, DIAL and ANSWER are never alive, a dial holds
      exactly the socket of the address tried last, and outside ONLINE nothing is queued for the socket. */
  lemma CarrierKept(rom: Rom, appIo: bool, cfg: Atcmd, nv: Atcmd, calls: seq<Api>)
    ensures var m := Run(rom, New(appIo, cfg, nv), calls); var s := m.link.sock;
      && s.open == (if s.fd > 0 then 1 else 0)
      && (m.state != DIAL ==> (s.alive <==> s.fd > 0))
      && (m.state == DIAL || m.state == ANSWER ==> !s.alive)
      && (m.state == DIAL ==> InOrder(m.dial.tried) && |m.dial.tried| == m.dial.rp + 1 <= m.dial.count)
      && (m.state != ONLINE ==> m.link.out.pending == [])
  {
    NewInv(appIo, cfg, nv);
    RunKeeps(rom, New(appIo, cfg, nv), calls);
  }

  /** Whatever came before, a step leaves the modem ONLINE only with a live connection. */
  lemma OnlineIsAlive(rom: Rom, appIo: bool, cfg: Atcmd, nv: Atcmd, calls: seq<Api>, w: StepWorld)
    ensures var m := Step(rom, Run(rom, New(appIo, cfg, nv), calls), w);
      m.state == ONLINE ==> m.link.sock.alive && m.link.sock.fd > 0
  {
    NewInv(appIo, cfg, nv);
    RunKeeps(rom, New(appIo, cfg, nv), calls);
    StepKeeps(rom, Run(rom, New(appIo, cfg, nv), calls), w);
  }

  lemma DoneStays(rom: Rom, m: Modem, a: Api)
    requires m.state == DONE
    ensures Do(rom, m, a).state == DONE && Do(rom, m, a).hist == m.hist
  {
  }

  /** The end is final. */
  lemma {:induction false} DoneIsFinal(rom: Rom, m: Modem, calls: seq<Api>)
    requires m.state == DONE
    ensures Run(rom, m, calls).state == DONE && Run(rom, m, calls).hist == m.hist
    decreases |calls|
  {
    if calls == [] {
    } else {
      DoneStays(rom, m, calls[0]);
      DoneIsFinal(rom, Do(rom, m, calls[0]), calls[1..]);
    }
  }

  /** Rings. In every run the ring count is the number of RINGs since it was last cleared, up to 255, and two
      successive RINGs, the later one shown with S1 nonzero, are at least six seconds apart, whatever happened in
      between, a failed dial included. */
  lemma RingsKept(rom: Rom, appIo: bool, cfg: Atcmd, nv: Atcmd, calls: seq<Api>, i: nat, j: nat)
    ensures var m := Run(rom, New(appIo, cfg, nv), calls);
      m.answer.rings == if RingsSince(m.hist) < 255 then RingsSince(m.hist) else 255
    ensures var h := Run(rom, New(appIo, cfg, nv), calls).hist;
      i < j < |h| && h[i].Rang? && h[j].Rang? && h[i].at.Normal() && h[j].at.Normal() && h[j].s1 != 0
      && (forall k :: i < k < j ==> !h[k].Rang?)
      ==> h[j].at.Micros() >= h[i].at.Micros() + 6 * MICROS
  {
    NewInv(appIo, cfg, nv);
    RunKeeps(rom, New(appIo, cfg, nv), calls);
    var h := Run(rom, New(appIo, cfg, nv), calls).hist;
    if i < j < |h| && h[i].Rang? && h[j].Rang? && h[i].at.Normal() && h[j].at.Normal() && h[j].s1 != 0
       && (forall k :: i < k < j ==> !h[k].Rang?) {
      SpacedMeans(h, i, j);
    }
  }
}
