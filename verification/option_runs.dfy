/** What option negotiation guarantees in every run of the modem. */
module OptionRuns {
  import opened Wire
  import opened Time
  import opened Settings
  import opened TelOpt
  import opened TelOptSessions
  import opened Iac
  import opened Relay
  import opened RelayRuns
  import opened Dial
  import opened Machine
  import MachineRuns

  // ---------------------------------------------------------------- online

  lemma TelOkLess(t: Tel, sent: bool, alive: bool, alive': bool)
    requires TelOk(t, alive) && (alive' ==> alive)
    ensures TelOk(t.(sentReqs := sent), alive')
  {
  }

  ghost predicate LinkOk(l: Link) { TelOk(l.tel, l.sock.alive) }

  lemma TokenStepTel(l: Link, cfg: Atcmd, t: Token)
    requires LinkOk(l)
    ensures LinkOk(TokenStep(l, cfg, t))
  {
    if t.Negotiate? {
      ReceiveKeeps(l.tel, t.m, l.sock.alive);
    }
  }

  lemma SockByteTel(l: Link, cfg: Atcmd, c: Byte)
    requires LinkOk(l)
    ensures LinkOk(SockByte(l, cfg, c))
  {
    if !cfg.pr {
      var p := ParseByte(l.srl, c);
      if p.tokens != [] {
        TokenStepTel(l.(received := l.received + [c], srl := p.srl), cfg, p.tokens[0]);
      }
    }
  }

  lemma {:induction false} SockLoopTel(l: Link, cfg: Atcmd, bytes: seq<Byte>)
    requires LinkOk(l)
    ensures LinkOk(SockLoop(l, cfg, bytes))
    decreases |bytes|
  {
    if bytes == [] {
    } else {
      SockByteTel(l, cfg, bytes[0]);
      SockLoopTel(SockByte(l, cfg, bytes[0]), cfg, bytes[1..]);
    }
  }

  lemma IterInTel(l: Link, cfg: Atcmd, appIo: bool, w: World)
    requires l.Valid() && LinkOk(l)
    ensures LinkOk(IterIn(l, cfg, appIo, w).link)
  {
    var l1 := if w.ev.sockIn then OnSockReadable(l, cfg, w.recv) else l;
    if w.ev.sockIn {
      SockLoopTel(l, cfg, w.recv);
      OnSockReadableFrame(l, cfg, w.recv);
    }
    assert l1.Valid() && LinkOk(l1);
    if !appIo && w.ev.ttyIn {
      TtyLoopFrame(l1.(unread := w.read, prevT := l1.newT, newT := w.readAt), cfg);
    }
  }

  lemma OnlineIterTel(l: Link, cfg: Atcmd, appIo: bool, w: World)
    requires l.Valid() && LinkOk(l)
    ensures LinkOk(OnlineIter(l, cfg, appIo, w).link)
  {
    if !w.escapeReq && !SilenceOver(l.esc, w.now) {
      IterOutFrame(l, cfg, appIo, w);
      var i := IterOut(l, cfg, appIo, w);
      if !i.verdict.Lost? {
        IterInTel(i.link, cfg, appIo, w);
      }
    }
  }

  // ---------------------------------------------------------------- command mode

  /** Command mode touches only the note that requests went out, and can only lose the connection. */
  ghost predicate Quiet(m: Modem, m': Modem) {
    && m'.link.tel == m.link.tel.(sentReqs := m'.link.tel.sentReqs)
    && (m'.link.sock.alive ==> m.link.sock.alive)
    && m'.state == m.state
  }

  lemma QuietTrans(a: Modem, b: Modem, c: Modem)
    requires Quiet(a, b) && Quiet(b, c)
    ensures Quiet(a, c)
  {
  }

  lemma ShowQuiet(rom: Rom, m: Modem, code: Code)
    ensures Quiet(m, Show(rom, m, code))
  {
  }

  lemma LexedQuiet(m: Modem, o: LexOut, text: seq<Byte>)
    ensures Quiet(m, ResetCmd(ApplyLex(m.(lines := m.lines + [m.cmd]), o, text)))
  {
  }

  lemma DispatchQuiet(rom: Rom, m: Modem)
    ensures Quiet(m, DispatchIfReady(rom, m).m)
  {
    if m.eol {
      var o, text := rom.lex(m.cfg, m.nv, m.cmd), rom.shows(m.cfg, m.nv, m.link.tel.table, m.cmd);
      var m1 := ResetCmd(ApplyLex(m.(lines := m.lines + [m.cmd]), o, text));
      LexedQuiet(m, o, text);
      if o.stat == StOk {
        ShowQuiet(rom, m1, OK);
        QuietTrans(m, m1, Show(rom, m1, OK));
      } else if o.stat == StError {
        ShowQuiet(rom, m1, ERROR);
        QuietTrans(m, m1, Show(rom, m1, ERROR));
      }
    }
  }

  lemma ReadByteQuiet(m: Modem, c: Byte)
    ensures Quiet(m, CmdReadByte(m, c).0)
  {
  }

  lemma {:induction false} ReadLoopQuiet(m: Modem)
    ensures Quiet(m, CmdReadLoop(m))
    decreases |m.link.unread|
  {
    if m.link.unread == [] {
    } else {
      var m0 := m.(link := m.link.(unread := m.link.unread[1..]));
      var (m1, stop) := CmdReadByte(m0, m.link.unread[0]);
      ReadByteQuiet(m0, m.link.unread[0]);
      QuietTrans(m, m0, m1);
      if !stop {
        ReadLoopQuiet(m1);
        QuietTrans(m, m1, CmdReadLoop(m1));
      }
    }
  }

  lemma {:induction false} CmdLoopQuiet(rom: Rom, m: Modem)
    ensures Quiet(m, CmdLoop(rom, m).m)
    decreases |m.link.unread|
  {
    var d := DispatchIfReady(rom, m);
    var (t, over) := CmdTurn(d);
    DispatchQuiet(rom, m);
    DispatchKeepsUnread(rom, m);
    ReadLoopQuiet(d.m);
    assert Quiet(d.m, t.m);
    if !over {
      CmdLoopQuiet(rom, t.m);
    }
  }

  lemma CmdWritableQuiet(rom: Rom, m: Modem, w: World)
    ensures Quiet(m, CmdWritable(rom, m, w).m)
  {
    var m1 := m.(link := m.link.(tty := m.link.tty.Write(w.wrote)));
    DispatchQuiet(rom, m1);
    QuietTrans(m, m1, DispatchIfReady(rom, m1).m);
  }

  lemma CmdReadableQuiet(m: Modem, w: World)
    ensures Quiet(m, CmdReadable(m, w).m)
  {
    var m1 := m.(link := m.link.(unread := w.read, prevT := m.link.newT, newT := w.readAt));
    ReadLoopQuiet(m1);
    QuietTrans(m, m1, CmdReadLoop(m1));
  }

  lemma CmdIterQuiet(rom: Rom, m: Modem, w: World)
    ensures Quiet(m, CmdIter(rom, m, w).m)
  {
    if m.appIo {
      CmdLoopQuiet(rom, m);
    } else {
      var d := if w.ev.ttyOut then CmdWritable(rom, m, w) else Dispatched(m, StOk);
      CmdWritableQuiet(rom, m, w);
      assert Quiet(m, d.m);
      CmdReadableQuiet(d.m, w);
      QuietTrans(m, d.m, CmdReadable(d.m, w).m);
    }
  }

  // ---------------------------------------------------------------- one step

  /** A dial that is going on is counted as up: it will come up on the table as it stands. */
  ghost predicate TelSound(m: Modem) {
    TelOk(m.link.tel, m.link.sock.alive || m.state == DIAL)
  }

  lemma QuietSound(m: Modem, m': Modem)
    requires TelSound(m) && Quiet(m, m')
    ensures TelSound(m')
  {
    TelOkLess(m.link.tel, m'.link.tel.sentReqs, m.link.sock.alive || m.state == DIAL,
              m'.link.sock.alive || m'.state == DIAL);
  }

  lemma ShowSound(rom: Rom, m: Modem, code: Code)
    ensures Show(rom, m, code).link == m.link.(tty := Show(rom, m, code).link.tty)
    ensures Show(rom, m, code).state == m.state
  {
  }

  lemma EnterCmdSound(rom: Rom, m: Modem, code: Code)
    requires TelOk(m.link.tel, m.link.sock.alive)
    ensures TelSound(EnterCmd(Show(rom, m, code)))
  {
    ShowSound(rom, m, code);
  }

  lemma GoOnlineTel(l: Link, cfg: Atcmd)
    ensures GoOnline(l, cfg).tel == if l.tel.sentReqs || cfg.pr then l.tel else SendReqs(l.tel, cfg).tel
    ensures GoOnline(l, cfg).sock == l.sock
  {
  }

  lemma EnterOnlineSound(rom: Rom, m: Modem)
    requires TelOk(m.link.tel, true)
    ensures TelSound(EnterOnline(rom, m))
  {
    var m1 := QuietRings(m.(link := GoOnline(m.link, m.cfg)));
    GoOnlineTel(m.link, m.cfg);
    if !m.link.tel.sentReqs && !m.cfg.pr {
      SendKeeps(m.link.tel, m.cfg, true);
    }
    ShowSound(rom, m1, CONNECT);
    TelOkLess(m1.link.tel, m1.link.tel.sentReqs, true, m1.link.sock.alive);
  }

  lemma AdoptSound(rom: Rom, m: Modem, fd: Fd)
    requires TelSound(m)
    ensures TelSound(EnterOnline(rom, Adopt(m, fd)))
  {
    ResetKeeps(m.link.tel, m.link.sock.alive || m.state == DIAL);
    EnterOnlineSound(rom, Adopt(m, fd));
  }

  lemma EnterDialTel(m: Modem)
    ensures EnterDial(m).link.tel == m.link.tel && EnterDial(m).state == DIAL
  {
  }

  lemma AfterStartSound(rom: Rom, m: Modem, o: Outcome)
    requires TelOk(m.link.tel, true)
    ensures TelSound(AfterStart(rom, m, o))
  {
    var m1 := m.WithCall(o.call);
    EnterOnlineSound(rom, m1);
    EnterDialTel(m1);
    ShowSound(rom, m1, NOCARRIER);
    TelOkLess(m.link.tel, m.link.tel.sentReqs, true, m1.link.sock.alive || m1.state == DIAL);
  }

  lemma OnAtdSound(rom: Rom, m: Modem, w: StepWorld)
    requires TelSound(m)
    ensures TelSound(OnAtd(rom, m, w))
  {
    ShowSound(rom, m, ERROR);
    if !m.link.sock.alive {
      var m1 := FreshCall(m);
      ResetKeeps(m.link.tel, m.link.sock.alive || m.state == DIAL);
      TelOkLess(Reset(m.link.tel), m1.link.tel.sentReqs, true, true);
      AfterStartSound(rom, m1, Start(m1.Call(), w.found, m1.cfg.s7, w.dial));
    }
  }

  lemma OnAtoSound(rom: Rom, m: Modem)
    requires TelSound(m)
    ensures TelSound(OnAto(rom, m))
  {
    ShowSound(rom, m, NOCARRIER);
    if m.link.sock.alive {
      EnterOnlineSound(rom, m);
    }
  }

  lemma EnterAnswerTel(m: Modem, now: Timeval)
    ensures EnterAnswer(m, now).link.tel == m.link.tel && EnterAnswer(m, now).link.sock == m.link.sock
    ensures EnterAnswer(m, now).state == ANSWER
  {
  }

  lemma OnAtaSound(rom: Rom, m: Modem, w: StepWorld)
    requires TelSound(m)
    ensures TelSound(OnAta(rom, m, w))
  {
    ShowSound(rom, m, ERROR);
    ShowSound(rom, m, NOCARRIER);
    EnterAnswerTel(m, w.answerNow);
    if w.accept > 0 {
      AdoptSound(rom, m, w.accept);
    }
  }

  lemma CmdActSound(rom: Rom, d: Dispatched, w: StepWorld)
    requires TelSound(d.m)
    ensures TelSound(CmdAct(rom, d, w))
  {
    match d.stat
    case StAtd => OnAtdSound(rom, d.m, w);
    case StAto => OnAtoSound(rom, d.m);
    case StAta => OnAtaSound(rom, d.m, w);
    case _ =>
  }

  lemma RingCheckSound(rom: Rom, m: Modem, w: StepWorld)
    requires TelSound(m) && m.state == CMD
    ensures var (m1, answered) := RingCheck(rom, m, w);
      m1.state == CMD && (if answered then TelOk(m1.link.tel, true) else TelSound(m1))
  {
    ResetKeeps(m.link.tel, m.link.sock.alive);
    assert Rung(rom, m, w.ringNow).link == m.link.(tty := Rung(rom, m, w.ringNow).link.tty);
  }

  lemma CmdStepSound(rom: Rom, m: Modem, w: StepWorld)
    requires TelSound(m) && m.state == CMD
    ensures TelSound(CmdStep(rom, m, w))
  {
    var (m1, answered) := RingCheck(rom, m, w);
    RingCheckSound(rom, m, w);
    if answered {
      EnterOnlineSound(rom, m1);
    } else {
      var d := CmdIter(rom, m1, w.line);
      CmdIterQuiet(rom, m1, w.line);
      QuietSound(m1, d.m);
      CmdActSound(rom, d, w);
    }
  }

  lemma DialStepIs(rom: Rom, m: Modem, w: StepWorld)
    ensures var m0, m1 := m.WithCall(Abort(m.Call())), m.WithCall(Progress(m.Call(), m.cfg.s7, w.dial).call);
      || DialStep(rom, m, w) == EnterCmd(Show(rom, m0, NOCARRIER))
      || DialStep(rom, m, w) == EnterCmd(Show(rom, m1, NOCARRIER))
      || DialStep(rom, m, w) == EnterOnline(rom, m1)
      || DialStep(rom, m, w) == m1
  {
  }

  lemma DialStepSound(rom: Rom, m: Modem, w: StepWorld)
    requires TelSound(m) && m.state == DIAL
    ensures TelSound(DialStep(rom, m, w))
  {
    var m0 := m.WithCall(Abort(m.Call()));
    var m1 := m.WithCall(Progress(m.Call(), m.cfg.s7, w.dial).call);
    DialStepIs(rom, m, w);
    TelOkLess(m.link.tel, m.link.tel.sentReqs, true, m0.link.sock.alive);
    TelOkLess(m.link.tel, m.link.tel.sentReqs, true, m1.link.sock.alive);
    EnterCmdSound(rom, m0, NOCARRIER);
    EnterCmdSound(rom, m1, NOCARRIER);
    EnterOnlineSound(rom, m1);
  }

  lemma AnswerStepSound(rom: Rom, m: Modem, w: StepWorld)
    requires TelSound(m) && m.state == ANSWER
    ensures TelSound(AnswerStep(rom, m, w))
  {
    EnterCmdSound(rom, m, NOCARRIER);
    if w.accept > 0 {
      AdoptSound(rom, m, w.accept);
    }
  }

  lemma OnlineStepSound(rom: Rom, m: Modem, w: StepWorld)
    requires m.link.Valid() && TelSound(m) && m.state == ONLINE
    ensures TelSound(OnlineStep(rom, m, w))
  {
    var w1 := w.line.(escapeReq := m.escapeReq);
    var m1 := m.(link := OnlineIter(m.link, m.cfg, m.appIo, w1).link, escapeReq := false);
    OnlineIterTel(m.link, m.cfg, m.appIo, w1);
    EnterCmdSound(rom, m1, OK);
    EnterCmdSound(rom, CloseSock(m1), NOCARRIER);
  }

  lemma DoSound(rom: Rom, m: Modem, a: Api)
    requires m.link.Valid() && TelSound(m)
    ensures TelSound(Machine.Do(rom, m, a))
  {
    match a
    case CallStep(w) =>
      match m.state {
        case CMD => CmdStepSound(rom, m, w);
        case DIAL => DialStepSound(rom, m, w);
        case ANSWER => AnswerStepSound(rom, m, w);
        case ONLINE => OnlineStepSound(rom, m, w);
        case DONE =>
      }
    case CallHangup => HangupSound(rom, m);
    case _ =>
  }

  lemma HangupSound(rom: Rom, m: Modem)
    requires TelSound(m)
    ensures TelSound(Machine.Hangup(rom, m))
  {
    var m0 := m.WithCall(Abort(m.Call()));
    if m.state == DIAL {
      TelOkLess(m.link.tel, m.link.tel.sentReqs, true, m0.link.sock.alive);
      EnterCmdSound(rom, m0, NOCARRIER);
    } else if m.state == ANSWER {
      EnterCmdSound(rom, m, NOCARRIER);
    }
  }

  lemma {:induction false} RunSound(rom: Rom, m: Modem, calls: seq<Api>)
    requires MachineRuns.Inv(m) && TelSound(m)
    ensures TelSound(Machine.Run(rom, m, calls))
    decreases |calls|
  {
    if calls == [] {
    } else {
      MachineRuns.DoKeeps(rom, m, calls[0]);
      DoSound(rom, m, calls[0]);
      RunSound(rom, Machine.Do(rom, m, calls[0]), calls[1..]);
    }
  }

  // ---------------------------------------------------------------- main results

  /** Requirement enforcement in the running modem. After any calls of the step API, whatever the command lexer, the
      peers and the outside world did, through any number of calls, refused ones included: the entry for unknown
      options refuses and the flags are the entries they cache; and while a connection is up and requests have gone
      out in it every MUST option is on or pending, every MUST NOT option is off or pending, and what the settings
      insisted on when they went out holds or is still being asked for. */
  lemma ModemEnforces(rom: Rom, appIo: bool, cfg: Atcmd, nv: Atcmd, calls: seq<Api>)
    ensures var m := Machine.Run(rom, New(appIo, cfg, nv), calls); var t := m.link.tel;
      && DefaultRefuses(t.table) && Cached(t)
      && (m.link.sock.alive && t.asked.Asked? ==> Enforced(t.table) && Promised(t.table, t.asked.cfg))
  {
    MachineRuns.NewInv(appIo, cfg, nv);
    RunSound(rom, New(appIo, cfg, nv), calls);
    var t := Machine.Run(rom, New(appIo, cfg, nv), calls).link.tel;
    if t.asked.Asked? && Enforced(t.table) {
      EnforcedPromises(t.table, t.asked.cfg);
    }
  }

  /** Requests go out on going online exactly when they are not marked as sent and the mode is not raw, and under the
      settings of that moment. */
  lemma RequestsOnGoingOnline(rom: Rom, m: Modem)
    ensures var t := EnterOnline(rom, m).link.tel;
      if m.link.tel.sentReqs || m.cfg.pr then t == m.link.tel else t.sentReqs && t.asked == Asked(m.cfg)
  {
    GoOnlineTel(m.link, m.cfg);
    ShowSound(rom, QuietRings(m.(link := GoOnline(m.link, m.cfg))), CONNECT);
  }
}
