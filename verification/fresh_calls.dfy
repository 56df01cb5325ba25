/** Every connection starts negotiating from scratch, whatever calls came before it. */
module FreshCalls {
  import opened Settings
  import opened TelOpt
  import Negotiation
  import opened Relay
  import opened Dial
  import opened Machine
  import opened MachineRuns

  /** Every known option is off with nothing asked for, and the summary flags say so. */
  ghost predicate Clean(t: Tel) {
    && (forall slot :: 0 <= slot < DEFAULT_SLOT ==>
          && !t.table[slot].local.on && !t.table[slot].local.pending
          && !t.table[slot].remote.on && !t.table[slot].remote.pending)
    && !t.binsend && !t.binrecv && !t.sgasend && t.asked.NotAsked?
  }

  /** A dial keeps the options reset until it connects. */
  ghost predicate DialClean(m: Modem) {
    m.state == DIAL ==> Clean(m.link.tel)
  }

  /** The line has just gone online from a clean table: opening requests aside, nothing is on, and all the peer will
      hear first are those requests. */
  ghost predicate StartsClean(l: Link, cfg: Atcmd) {
    exists l0: Link :: Clean(l0.tel) && l.tel == GoOnline(l0, cfg).tel && l.out == GoOnline(l0, cfg).out
  }

  lemma ResetClean(t: Tel)
    ensures Clean(Reset(t)) && Clean(Reset(t).(sentReqs := true))
  {
  }

  lemma OnlineStartsClean(rom: Rom, m: Modem)
    requires Clean(m.link.tel)
    ensures StartsClean(EnterOnline(rom, m).link, EnterOnline(rom, m).cfg)
  {
    var m' := EnterOnline(rom, m);
    assert m'.link.tel == GoOnline(m.link, m.cfg).tel && m'.link.out == GoOnline(m.link, m.cfg).out;
  }

  lemma EnterDialTel(m: Modem)
    ensures EnterDial(m).state == DIAL && EnterDial(m).link.tel == m.link.tel
  {
  }

  lemma AfterStartClean(rom: Rom, m: Modem, o: Outcome)
    requires m.state == CMD && Clean(m.link.tel)
    ensures KeepsClean(AfterStart(rom, m, o), false)
  {
    var m1 := m.WithCall(o.call);
    if o.r == 1 {
      OnlineStartsClean(rom, m1);
    } else if o.r == 0 {
      EnterDialTel(m1);
    } else {
      NotOnlineClean(Show(rom, m1, NOCARRIER));
    }
  }

  lemma AdoptClean(rom: Rom, m: Modem, fd: Fd)
    ensures var m' := EnterOnline(rom, Adopt(m, fd)); StartsClean(m'.link, m'.cfg)
  {
    ResetClean(m.link.tel);
    OnlineStartsClean(rom, Adopt(m, fd));
  }

  /** ATO on a live connection: the one way to go online that keeps the connection there is. */
  predicate ByAto(rom: Rom, m: Modem, w: StepWorld) {
    m.state == CMD &&
    var (m1, answered) := RingCheck(rom, m, w);
    !answered && var d := CmdIter(rom, m1, w.line); d.stat == StAto && d.m.link.sock.alive
  }

  /** What a step of the modem owes: a dial stays clean, and unless the connection is the old one it starts clean. */
  ghost predicate KeepsClean(m': Modem, same: bool) {
    DialClean(m') && (m'.state == ONLINE && !same ==> StartsClean(m'.link, m'.cfg))
  }

  lemma OnAtdClean(rom: Rom, m: Modem, w: StepWorld)
    requires m.state == CMD
    ensures KeepsClean(OnAtd(rom, m, w), false)
  {
    if m.link.sock.alive {
      NotOnlineClean(OnAtd(rom, m, w));
    } else {
      var m1 := FreshCall(m);
      ResetClean(m.link.tel);
      AfterStartClean(rom, m1, Start(m1.Call(), w.found, m1.cfg.s7, w.dial));
    }
  }

  /** Going nowhere owes nothing. */
  lemma NotOnlineClean(m': Modem)
    requires m'.state == CMD || m'.state == ANSWER
    ensures KeepsClean(m', false)
  {
  }

  lemma OnAtaState(rom: Rom, m: Modem, w: StepWorld)
    requires m.state == CMD
    ensures if m.link.sock.alive || !m.answer.listener || !w.waiting || w.accept <= 0
            then OnAta(rom, m, w).state == CMD || OnAta(rom, m, w).state == ANSWER
            else OnAta(rom, m, w) == EnterOnline(rom, Adopt(m, w.accept))
  {
  }

  lemma OnAtaClean(rom: Rom, m: Modem, w: StepWorld)
    requires m.state == CMD
    ensures KeepsClean(OnAta(rom, m, w), false)
  {
    OnAtaState(rom, m, w);
    if m.link.sock.alive || !m.answer.listener || !w.waiting || w.accept <= 0 {
      NotOnlineClean(OnAta(rom, m, w));
    } else {
      AdoptClean(rom, m, w.accept);
    }
  }

  lemma OnAtoClean(rom: Rom, m: Modem)
    requires m.state == CMD
    ensures KeepsClean(OnAto(rom, m), m.link.sock.alive)
  {
    if !m.link.sock.alive {
      NotOnlineClean(OnAto(rom, m));
    }
  }

  lemma CmdActClean(rom: Rom, d: Dispatched, w: StepWorld)
    requires d.m.state == CMD
    ensures KeepsClean(CmdAct(rom, d, w), d.stat == StAto && d.m.link.sock.alive)
  {
    match d.stat
    case StAtd => OnAtdClean(rom, d.m, w);
    case StAta => OnAtaClean(rom, d.m, w);
    case StAto => OnAtoClean(rom, d.m);
    case _ =>
  }

  lemma CmdStepClean(rom: Rom, m: Modem, w: StepWorld)
    requires Inv(m) && m.state == CMD
    ensures KeepsClean(CmdStep(rom, m, w), ByAto(rom, m, w))
  {
    var (m1, answered) := RingCheck(rom, m, w);
    RingCheckKeeps(rom, m, w);
    if answered {
      AdoptClean(rom, Rung(rom, m, w.ringNow), w.ringAccept);
    } else {
      CmdIterSteady(rom, m1, w.line);
      CloseKeeps(m.link.sock);
      CmdActClean(rom, CmdIter(rom, m1, w.line), w);
    }
  }

  lemma DialStepState(rom: Rom, m: Modem, w: StepWorld)
    requires m.state == DIAL
    ensures var m1 := m.WithCall(Progress(m.Call(), m.cfg.s7, w.dial).call); var m' := DialStep(rom, m, w);
      m1.link.tel == m.link.tel && (m'.state == CMD || m' == EnterOnline(rom, m1) || m' == m1)
  {
  }

  lemma DialStepClean(rom: Rom, m: Modem, w: StepWorld)
    requires m.state == DIAL && DialClean(m)
    ensures KeepsClean(DialStep(rom, m, w), false)
  {
    var m1 := m.WithCall(Progress(m.Call(), m.cfg.s7, w.dial).call);
    DialStepState(rom, m, w);
    if DialStep(rom, m, w).state == CMD {
      NotOnlineClean(DialStep(rom, m, w));
    } else if DialStep(rom, m, w) == EnterOnline(rom, m1) {
      OnlineStartsClean(rom, m1);
    }
  }

  lemma AnswerStepState(rom: Rom, m: Modem, w: StepWorld)
    requires m.state == ANSWER
    ensures var m' := AnswerStep(rom, m, w);
      || m'.state == CMD || m'.state == ANSWER
      || (w.accept > 0 && m' == EnterOnline(rom, Adopt(m, w.accept)))
  {
  }

  lemma AnswerStepClean(rom: Rom, m: Modem, w: StepWorld)
    requires m.state == ANSWER
    ensures KeepsClean(AnswerStep(rom, m, w), false)
  {
    var m' := AnswerStep(rom, m, w);
    AnswerStepState(rom, m, w);
    if m'.state == CMD || m'.state == ANSWER {
      NotOnlineClean(m');
    } else {
      AdoptClean(rom, m, w.accept);
    }
  }

  lemma OnlineStepState(rom: Rom, m: Modem, w: StepWorld)
    requires m.state == ONLINE
    ensures var i := OnlineIter(m.link, m.cfg, m.appIo, w.line.(escapeReq := m.escapeReq));
      OnlineStep(rom, m, w).state == if i.verdict.Continue? then ONLINE else CMD
  {
  }

  lemma OnlineStepClean(rom: Rom, m: Modem, w: StepWorld)
    requires m.state == ONLINE
    ensures KeepsClean(OnlineStep(rom, m, w), true)
  {
    OnlineStepState(rom, m, w);
  }

  lemma StepClean(rom: Rom, m: Modem, w: StepWorld)
    requires Inv(m) && DialClean(m)
    ensures KeepsClean(Step(rom, m, w), m.state == ONLINE || ByAto(rom, m, w))
  {
    match m.state
    case CMD => CmdStepClean(rom, m, w);
    case DIAL => DialStepClean(rom, m, w);
    case ANSWER => AnswerStepClean(rom, m, w);
    case ONLINE => OnlineStepClean(rom, m, w);
    case DONE =>
  }

  lemma EnterCmdState(m: Modem)
    ensures EnterCmd(m).state == CMD
  {
  }

  lemma HangupClean(rom: Rom, m: Modem)
    ensures Hangup(rom, m).state != DIAL
  {
    EnterCmdState(Show(rom, m.WithCall(Abort(m.Call())), NOCARRIER));
    EnterCmdState(Show(rom, m, NOCARRIER));
    assert m.state != DIAL && m.state != ANSWER ==> Hangup(rom, m) == CloseSock(m);
  }

  lemma DoClean(rom: Rom, m: Modem, a: Api)
    requires Inv(m) && DialClean(m)
    ensures DialClean(Do(rom, m, a))
  {
    match a
    case CallStep(w) => StepClean(rom, m, w);
    case CallHangup => HangupClean(rom, m);
    case _ => assert Do(rom, m, a).link.tel == m.link.tel && Do(rom, m, a).state == m.state;
  }

  lemma {:induction false} RunClean(rom: Rom, m: Modem, calls: seq<Api>)
    requires Inv(m) && DialClean(m)
    ensures Inv(Run(rom, m, calls)) && DialClean(Run(rom, m, calls))
    decreases |calls|
  {
    if calls == [] {
    } else {
      DoKeeps(rom, m, calls[0]);
      DoClean(rom, m, calls[0]);
      RunClean(rom, Do(rom, m, calls[0]), calls[1..]);
    }
  }

  /** Whatever a run did before, every step that goes online, other than by ATO on a live connection, has every option
      off and has queued nothing but its opening requests: nothing of an earlier call leaks into the new one, not even
      when one step hangs the old one up and dials again. */
  lemma NewCallsStartClean(rom: Rom, appIo: bool, cfg: Atcmd, nv: Atcmd, calls: seq<Api>, w: StepWorld)
    ensures var m := Run(rom, New(appIo, cfg, nv), calls); var m' := Step(rom, m, w);
      m.state != ONLINE && m'.state == ONLINE && !ByAto(rom, m, w) ==> StartsClean(m'.link, m'.cfg)
  {
    NewInv(appIo, cfg, nv);
    RunClean(rom, New(appIo, cfg, nv), calls);
    StepClean(rom, Run(rom, New(appIo, cfg, nv), calls), w);
  }

  /** So two modems whose connection is new satisfy the premise of Negotiation, whatever their settings. */
  lemma CleanEndsAgree(a: Tel, b: Tel)
    requires Clean(a) && Clean(b)
    ensures Negotiation.Start(Negotiation.Net(a, b, [], [], false, false, false))
  {
    var n := Negotiation.Net(a, b, [], [], false, false, false);
    forall slot: nat, isLocal | slot < DEFAULT_SLOT
      ensures Negotiation.AgreedOn(n, slot, isLocal)
    {
    }
  }
}
