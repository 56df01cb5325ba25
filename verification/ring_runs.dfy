/** Auto-answer: which RING is answered. */
module RingRuns {
  import opened Wire
  import opened Dial
  import opened Machine

  // ---------------------------------------------------------------- counting RINGs

  /** All the RINGs ever shown. */
  function Rings(h: seq<Note>): nat
    decreases |h|
  {
    if h == [] then 0 else Rings(h[..|h| - 1]) + if h[|h| - 1].Rang? then 1 else 0
  }

  lemma RingsAppend(h: seq<Note>, n: Note)
    ensures Rings(h + [n]) == Rings(h) + if n.Rang? then 1 else 0
  {
    assert (h + [n])[..|h|] == h;
  }

  /** No RING is shown on the way from m to m'. */
  ghost predicate Silent(m: Modem, m': Modem) { Rings(m'.hist) == Rings(m.hist) }

  lemma ShowSilent(rom: Rom, m: Modem, code: Code)
    ensures Silent(m, Show(rom, m, code))
  {
    RingsAppend(m.hist, Shown(code));
  }

  lemma EnterSilent(m: Modem, s: State)
    ensures Silent(m, EnterState(m, s))
  {
    RingsAppend(m.hist, Entered(s));
  }

  lemma QuietSilent(m: Modem)
    ensures Silent(m, QuietRings(m))
  {
    RingsAppend(m.hist, Quieted);
  }

  lemma EnterCmdSilent(rom: Rom, m: Modem, code: Code)
    ensures Silent(m, EnterCmd(Show(rom, m, code)))
  {
    var m1 := Show(rom, m, code);
    ShowSilent(rom, m, code);
    EnterSilent(ResetCmd(m1.(link := ForgetInput(m1.link).(out := Fifo.EMPTY))), CMD);
  }

  lemma EnterOnlineSilent(rom: Rom, m: Modem)
    ensures Silent(m, EnterOnline(rom, m))
  {
    var m1 := m.(link := Relay.GoOnline(m.link, m.cfg));
    QuietSilent(m1);
    ShowSilent(rom, QuietRings(m1), CONNECT);
    EnterSilent(Show(rom, QuietRings(m1), CONNECT), ONLINE);
  }

  lemma EnterDialSilent(m: Modem)
    ensures Silent(m, EnterDial(m))
  {
    var m1 := m.(link := ForgetInput(m.link));
    QuietSilent(m1);
    EnterSilent(ResetCmd(QuietRings(m1)), DIAL);
  }

  lemma EnterAnswerSilent(m: Modem, now: Time.Timeval)
    ensures Silent(m, EnterAnswer(m, now))
  {
    RingsAppend(m.hist, Entered(ANSWER));
    assert EnterAnswer(m, now).hist == m.hist + [Entered(ANSWER)];
  }

  // ---------------------------------------------------------------- command mode shows no RING of itself

  lemma DispatchSilent(rom: Rom, m: Modem)
    ensures Silent(m, DispatchIfReady(rom, m).m)
  {
    if m.eol {
      var o, text := rom.lex(m.cfg, m.nv, m.cmd), rom.shows(m.cfg, m.nv, m.link.tel.table, m.cmd);
      var m1 := ResetCmd(ApplyLex(m.(lines := m.lines + [m.cmd]), o, text));
      assert m1.hist == m.hist;
      ShowSilent(rom, m1, OK);
      ShowSilent(rom, m1, ERROR);
    }
  }

  lemma ReadByteHist(m: Modem, c: Byte)
    ensures CmdReadByte(m, c).0.hist == m.hist
  {
  }

  lemma {:induction false} ReadLoopHist(m: Modem)
    ensures CmdReadLoop(m).hist == m.hist
    decreases |m.link.unread|
  {
    if m.link.unread == [] {
    } else {
      var m0 := m.(link := m.link.(unread := m.link.unread[1..]));
      ReadByteHist(m0, m.link.unread[0]);
      ReadLoopHist(CmdReadByte(m0, m.link.unread[0]).0);
    }
  }

  lemma {:induction false} CmdLoopSilent(rom: Rom, m: Modem)
    ensures Silent(m, CmdLoop(rom, m).m)
    decreases |m.link.unread|
  {
    var d := DispatchIfReady(rom, m);
    var (t, over) := CmdTurn(d);
    DispatchSilent(rom, m);
    DispatchKeepsUnread(rom, m);
    ReadLoopHist(d.m);
    if !over {
      CmdLoopSilent(rom, t.m);
    }
  }

  lemma CmdWritableSilent(rom: Rom, m: Modem, w: Relay.World)
    ensures Silent(m, CmdWritable(rom, m, w).m)
  {
    DispatchSilent(rom, m.(link := m.link.(tty := m.link.tty.Write(w.wrote))));
  }

  lemma CmdReadableSilent(m: Modem, w: Relay.World)
    ensures Silent(m, CmdReadable(m, w).m)
  {
    ReadLoopHist(m.(link := m.link.(unread := w.read, prevT := m.link.newT, newT := w.readAt)));
  }

  lemma CmdIterSilent(rom: Rom, m: Modem, w: Relay.World)
    ensures Silent(m, CmdIter(rom, m, w).m)
  {
    if m.appIo {
      CmdLoopSilent(rom, m);
    } else {
      var d := if w.ev.ttyOut then CmdWritable(rom, m, w) else Dispatched(m, StOk);
      CmdWritableSilent(rom, m, w);
      assert Silent(m, d.m);
      CmdReadableSilent(d.m, w);
    }
  }

  lemma AfterStartSilent(rom: Rom, m: Modem, o: Outcome)
    ensures Silent(m, AfterStart(rom, m, o))
  {
    var m1 := m.WithCall(o.call);
    EnterOnlineSilent(rom, m1);
    EnterDialSilent(m1);
    ShowSilent(rom, m1, NOCARRIER);
  }

  lemma OnAtdSilent(rom: Rom, m: Modem, w: StepWorld)
    ensures Silent(m, OnAtd(rom, m, w))
  {
    var m1 := FreshCall(m);
    ShowSilent(rom, m, ERROR);
    AfterStartSilent(rom, m1, Start(m1.Call(), w.found, m1.cfg.s7, w.dial));
  }

  lemma OnAtaSilent(rom: Rom, m: Modem, w: StepWorld)
    ensures Silent(m, OnAta(rom, m, w))
  {
    ShowSilent(rom, m, ERROR);
    ShowSilent(rom, m, NOCARRIER);
    EnterAnswerSilent(m, w.answerNow);
    if w.accept > 0 {
      EnterOnlineSilent(rom, Adopt(m, w.accept));
    }
  }

  lemma CmdActSilent(rom: Rom, d: Dispatched, w: StepWorld)
    ensures Silent(d.m, CmdAct(rom, d, w))
  {
    match d.stat
    case StAtd => OnAtdSilent(rom, d.m, w);
    case StAto =>
      ShowSilent(rom, d.m, NOCARRIER);
      EnterOnlineSilent(rom, d.m);
    case StAta => OnAtaSilent(rom, d.m, w);
    case StPtyClosed => EnterSilent(d.m, DONE);
    case _ =>
  }

  // ---------------------------------------------------------------- the other states

  lemma EndDialSilent(rom: Rom, m: Modem, r: int)
    ensures Silent(m, EndDial(rom, m, r))
  {
    EnterOnlineSilent(rom, m);
    EnterCmdSilent(rom, m, NOCARRIER);
  }

  lemma DialStepSilent(rom: Rom, m: Modem, w: StepWorld)
    ensures Silent(m, DialStep(rom, m, w))
  {
    var o := Progress(m.Call(), m.cfg.s7, w.dial);
    EnterCmdSilent(rom, m.WithCall(Abort(m.Call())), NOCARRIER);
    EndDialSilent(rom, m.WithCall(o.call), o.r);
  }

  lemma AnswerStepSilent(rom: Rom, m: Modem, w: StepWorld)
    ensures Silent(m, AnswerStep(rom, m, w))
  {
    EnterCmdSilent(rom, m, NOCARRIER);
    if w.accept > 0 {
      EnterOnlineSilent(rom, Adopt(m, w.accept));
    }
  }

  lemma EndOnlineSilent(rom: Rom, m: Modem, verdict: Relay.Verdict)
    ensures Silent(m, EndOnline(rom, m, verdict))
  {
    EnterCmdSilent(rom, m, OK);
    EnterCmdSilent(rom, CloseSock(m), NOCARRIER);
  }

  lemma OnlineStepSilent(rom: Rom, m: Modem, w: StepWorld)
    ensures Silent(m, OnlineStep(rom, m, w))
  {
    var i := Relay.OnlineIter(m.link, m.cfg, m.appIo, w.line.(escapeReq := m.escapeReq));
    EndOnlineSilent(rom, m.(link := i.link, escapeReq := false), i.verdict);
  }

  // ---------------------------------------------------------------- a caller who keeps ringing

  /** Whether a check made now tries to accept the caller because S0 says so. */
  predicate TriesAccept(rom: Rom, m: Modem, w: StepWorld) {
    RingDue(m, w) && AutoAnswers(Rung(rom, m, w.ringNow))
  }

  /** The modem checks for a caller: in command mode, with a listener and no connection. */
  predicate Checks(m: Modem) {
    m.state == CMD && m.answer.listener && !m.link.sock.alive
  }

  /** What the check for a caller leaves of the modem, where there is one. */
  function Checked(rom: Rom, m: Modem, w: StepWorld): Modem {
    if m.state == CMD then RingCheck(rom, m, w).0 else m
  }

  /** A caller rings on through this call: a check finds it ringing and does not try to accept it, and beyond the check
      S0 and S1 stay as they were, so nobody writes them and no caller is adopted. */
  predicate RingsOn(rom: Rom, m: Modem, a: Api) {
    match a
    case CallStep(w) =>
      && (Checks(m) ==> w.ringing && !TriesAccept(rom, m, w))
      && Step(rom, m, w).cfg.s0 == Checked(rom, m, w).cfg.s0
      && Step(rom, m, w).cfg.s1 == Checked(rom, m, w).cfg.s1
    case _ => true
  }

  /** A caller keeps ringing through these calls, whatever states they take the modem through: command mode, a dial, an
      answer wait or another connection. */
  predicate Ringing(rom: Rom, m: Modem, calls: seq<Api>)
    decreases |calls|
  {
    calls != [] ==> RingsOn(rom, m, calls[0]) && Ringing(rom, Do(rom, m, calls[0]), calls[1..])
  }

  /** Whether this step shows a RING. */
  predicate ShowsRing(m: Modem, w: StepWorld) { Checks(m) && RingDue(m, w) }

  lemma CheckRings(rom: Rom, m: Modem, w: StepWorld)
    requires m.state == CMD && (Checks(m) ==> w.ringing && !TriesAccept(rom, m, w))
    ensures var (m1, answered) := RingCheck(rom, m, w);
      && !answered
      && Rings(m1.hist) == Rings(m.hist) + (if ShowsRing(m, w) then 1 else 0)
      && m1.cfg.s0 == m.cfg.s0
      && m1.cfg.s1 == if ShowsRing(m, w) && m.cfg.s1 < 255 then m.cfg.s1 + 1 else m.cfg.s1
  {
    RingsAppend(m.hist, Rang(w.ringNow, m.cfg.s1));
  }

  /** A step in any state adds one to the RINGs shown if a RING is due, and nothing else does. */
  lemma RingingStep(rom: Rom, m: Modem, w: StepWorld)
    requires RingsOn(rom, m, CallStep(w))
    ensures Rings(Step(rom, m, w).hist) == Rings(m.hist) + if ShowsRing(m, w) then 1 else 0
    ensures Step(rom, m, w).cfg.s0 == m.cfg.s0
    ensures Step(rom, m, w).cfg.s1 == if ShowsRing(m, w) && m.cfg.s1 < 255 then m.cfg.s1 + 1 else m.cfg.s1
  {
    match m.state
    case CMD =>
      var m1 := RingCheck(rom, m, w).0;
      CheckRings(rom, m, w);
      CmdIterSilent(rom, m1, w.line);
      CmdActSilent(rom, CmdIter(rom, m1, w.line), w);
    case DIAL => DialStepSilent(rom, m, w);
    case ANSWER => AnswerStepSilent(rom, m, w);
    case ONLINE => OnlineStepSilent(rom, m, w);
    case DONE =>
  }

  lemma HangupSilent(rom: Rom, m: Modem)
    ensures Silent(m, Hangup(rom, m)) && Hangup(rom, m).cfg == m.cfg
  {
    EnterCmdSilent(rom, m.WithCall(Abort(m.Call())), NOCARRIER);
    EnterCmdSilent(rom, m, NOCARRIER);
  }

  /** Nor do the host's own calls. */
  lemma RingingHost(rom: Rom, m: Modem, a: Api)
    requires !a.CallStep?
    ensures Silent(m, Do(rom, m, a)) && Do(rom, m, a).cfg == m.cfg
  {
    if a.CallHangup? {
      HangupSilent(rom, m);
    }
  }

  lemma TriesExactly(rom: Rom, m: Modem, w: StepWorld)
    requires m.cfg.s0 > 0 && m.cfg.s1 < m.cfg.s0
    ensures TriesAccept(rom, m, w) <==> RingDue(m, w) && m.cfg.s1 + 1 == m.cfg.s0
  {
  }

  /** The n-th RING. Let a caller ring with S0 = n and S1 below n, 0 when it begins. Until the modem tries to accept
      the caller, S1 goes up by exactly the RINGs shown, through any states and any calls of the host, a dial of one's
      own and its failure included; it stays below n; and a check tries to accept exactly on the RING that makes S1
      equal n. */
  lemma {:induction false} AnswersOnNthRing(rom: Rom, m: Modem, calls: seq<Api>, w: StepWorld)
    requires m.cfg.s0 > 0 && m.cfg.s1 < m.cfg.s0 && Ringing(rom, m, calls)
    ensures var m' := Run(rom, m, calls);
      && m'.cfg.s0 == m.cfg.s0
      && Rings(m'.hist) >= Rings(m.hist)
      && m'.cfg.s1 == m.cfg.s1 + (Rings(m'.hist) - Rings(m.hist))
      && m'.cfg.s1 < m.cfg.s0
      && (TriesAccept(rom, m', w) <==>
            RingDue(m', w) && m.cfg.s1 + (Rings(m'.hist) - Rings(m.hist)) + 1 == m.cfg.s0)
    decreases |calls|
  {
    if calls == [] {
      TriesExactly(rom, m, w);
    } else {
      var a := calls[0];
      if a.CallStep? {
        TriesExactly(rom, m, a.w);
        RingingStep(rom, m, a.w);
      } else {
        RingingHost(rom, m, a);
      }
      AnswersOnNthRing(rom, Do(rom, m, a), calls[1..], w);
    }
  }
}
