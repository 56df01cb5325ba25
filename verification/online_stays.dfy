/** The step machine while online is the relay: what holds of stays holds of runs of the whole modem. */
module OnlineStays {
  import opened Wire
  import opened Settings
  import opened Fifo
  import opened Iac
  import opened Relay
  import opened RelayRuns
  import opened LineEditing
  import opened Transparency
  import opened FlowControl
  import opened DteSide
  import opened ReplyRoom
  import opened EscapeStays
  import opened EscapeTimes
  import opened Machine

  /** What a call does to the link while online. */
  function ActOf(m: Modem, a: Api): Act {
    match a
    case CallStep(w) => RelayRuns.Step(w.line.(escapeReq := m.escapeReq))
    case CallHangup => RelayRuns.Hangup
    case CallWrite(bytes, now) => AppWrite(bytes, now)
    case CallRead(max) => AppRead(max)
    case _ => AppRead(0)
  }

  function ActsOf(rom: Rom, m: Modem, calls: seq<Api>): seq<Act>
    decreases |calls|
  {
    if calls == [] then [] else [ActOf(m, calls[0])] + ActsOf(rom, Machine.Do(rom, m, calls[0]), calls[1..])
  }

  /** A run that stays online, in which no read of the TTY overwrites unread bytes. */
  predicate StaysOnline(rom: Rom, m: Modem, calls: seq<Api>)
    decreases |calls|
  {
    && m.state == ONLINE
    && (calls != [] ==>
          && ReadsOk(m.link, m.cfg, m.appIo, ActOf(m, calls[0]))
          && StaysOnline(rom, Machine.Do(rom, m, calls[0]), calls[1..]))
  }

  lemma ReadNothing(l: Link)
    ensures ToApp(l, 0) == l
  {
  }

  /** A step that stays online is a step of the relay. */
  lemma StepIsAct(rom: Rom, m: Modem, w: StepWorld)
    requires OnlineStep(rom, m, w).state == ONLINE
    ensures var i := OnlineIter(m.link, m.cfg, m.appIo, w.line.(escapeReq := m.escapeReq));
      i.verdict.Continue? && OnlineStep(rom, m, w) == m.(link := i.link, escapeReq := false)
  {
  }

  lemma HangupIsAct(rom: Rom, m: Modem)
    requires m.state == ONLINE
    ensures Machine.Hangup(rom, m) == m.(link := m.link.(sock := Close(m.link.sock)))
  {
  }

  /** What the host's calls do to a modem online. */
  lemma HostIsAct(rom: Rom, m: Modem, a: Api)
    requires m.state == ONLINE && !a.CallStep? && !a.CallHangup?
    ensures var i := RelayRuns.Do(m.link, m.cfg, m.appIo, ActOf(m, a)); var m' := Machine.Do(rom, m, a);
      i.verdict.Continue? && m'.link == i.link && m'.cfg == m.cfg && m'.appIo == m.appIo
  {
    ReadNothing(m.link);
  }

  lemma CallIsAct(rom: Rom, m: Modem, a: Api)
    requires m.state == ONLINE && Machine.Do(rom, m, a).state == ONLINE
    ensures var i := RelayRuns.Do(m.link, m.cfg, m.appIo, ActOf(m, a)); var m' := Machine.Do(rom, m, a);
      i.verdict.Continue? && m'.link == i.link && m'.cfg == m.cfg && m'.appIo == m.appIo
  {
    match a
    case CallStep(w) => StepIsAct(rom, m, w);
    case CallHangup => HangupIsAct(rom, m);
    case _ => HostIsAct(rom, m, a);
  }

  /** While online the link of the modem goes through a stay, with unchanged settings. */
  lemma {:induction false} RunIsStay(rom: Rom, m: Modem, calls: seq<Api>)
    requires StaysOnline(rom, m, calls)
    ensures var acts := ActsOf(rom, m, calls); var m' := Run(rom, m, calls);
      && IsStay(m.link, m.cfg, m.appIo, acts) && EndsOnline(m.link, m.cfg, m.appIo, acts)
      && m'.link == Stay(m.link, m.cfg, m.appIo, acts)
      && m'.cfg == m.cfg
    decreases |calls|
  {
    if calls == [] {
    } else {
      var m1 := Machine.Do(rom, m, calls[0]);
      CallIsAct(rom, m, calls[0]);
      RunIsStay(rom, m1, calls[1..]);
      assert ActsOf(rom, m, calls)[1..] == ActsOf(rom, m1, calls[1..]);
    }
  }

  /** The DTE bytes the modem took during these calls. */
  function TakenOnline(rom: Rom, m: Modem, calls: seq<Api>): seq<Byte> {
    Taken(m.link, m.cfg, m.appIo, ActsOf(rom, m, calls))
  }

  /** Raw-mode transparency of the whole modem: take any modem with %R1 that goes online, by dial, answer or ATO, and
      any calls during which it stays online; what was sent, then what is queued, then what is unread are the
      bytes it took from the DTE since going online. */
  lemma ModemRawTransparent(rom: Rom, m0: Modem, calls: seq<Api>)
    requires m0.link.Valid() && m0.cfg.pr
    requires StaysOnline(rom, EnterOnline(rom, m0), calls)
    ensures var m := EnterOnline(rom, m0); var l := Run(rom, m, calls).link;
      l.out.delivered + l.out.pending + l.unread == TakenOnline(rom, m, calls)
  {
    var m := EnterOnline(rom, m0);
    var tty := m.link.tty;
    RunIsStay(rom, m, calls);
    PutNValid(m0.link.tty, rom.text(m0.cfg, CONNECT));
    var l0 := m0.link.(tty := tty);
    assert GoOnline(l0, m0.cfg) == m.link;
    RawTransparent(l0, m0.cfg, m.appIo, ActsOf(rom, m, calls));
  }

  /** Transparency of the whole modem outside raw mode, from going online on, through any changes between line and
      character mode: what was sent and what is queued say to the peer what the keys handled tell. */
  lemma ModemTransparent(rom: Rom, m0: Modem, calls: seq<Api>)
    requires m0.link.Valid() && !m0.cfg.pr && IAC !in m0.cfg.term
    requires StaysOnline(rom, EnterOnline(rom, m0), calls)
    requires var l := Run(rom, EnterOnline(rom, m0), calls).link;
      l.out.lost == 0 && WholeKeys(Told([], []), m0.cfg, l.handled)
    ensures var m := EnterOnline(rom, m0); var l := Run(rom, m, calls).link;
      var t := TellAll(Told([], []), m0.cfg, l.handled);
      && Carries(l.out.delivered + l.out.pending, t.data)
      && l.line == Doubled(t.text)
      && Bytes(l.handled) + l.unread == TakenOnline(rom, m, calls)
  {
    var m := EnterOnline(rom, m0);
    RunIsStay(rom, m, calls);
    var l0 := OnlineLink(rom, m0);
    GoOnlineCarries(l0, m0.cfg);
    var l := Run(rom, m, calls).link;
    assert m.link.handled == [] && l.handled[0..] == l.handled;
    Transparent(m.link, Told([], []), m0.cfg, m.appIo, ActsOf(rom, m, calls));
    assert [] + TakenOnline(rom, m, calls) == TakenOnline(rom, m, calls);
  }

  /** The same with a bound that can be checked before each step in place of the outcome: room for its replies. */
  lemma ModemRoomyTransparent(rom: Rom, m0: Modem, calls: seq<Api>)
    requires m0.link.Valid() && !m0.cfg.pr && IAC !in m0.cfg.term
    requires var m := EnterOnline(rom, m0);
      && StaysOnline(rom, m, calls)
      && Roomy(m.link, m.cfg, m.appIo, ActsOf(rom, m, calls))
      && WholeKeys(Told([], []), m0.cfg, Run(rom, m, calls).link.handled)
    ensures var m := EnterOnline(rom, m0); var l := Run(rom, m, calls).link;
      var t := TellAll(Told([], []), m0.cfg, l.handled);
      && Carries(l.out.delivered + l.out.pending, t.data)
      && l.line == Doubled(t.text)
      && Bytes(l.handled) + l.unread == TakenOnline(rom, m, calls)
  {
    var m := EnterOnline(rom, m0);
    RunIsStay(rom, m, calls);
    RoomyTransparent(OnlineLink(rom, m0), m0.cfg, m.appIo, ActsOf(rom, m, calls));
  }

  /** The link before going online, with the CONNECT message already queued for the DTE. */
  ghost function OnlineLink(rom: Rom, m0: Modem): (l0: Link)
    requires m0.link.Valid()
    ensures l0.Valid() && l0 == m0.link.(tty := l0.tty)
    ensures GoOnline(l0, m0.cfg) == EnterOnline(rom, m0).link && EnterOnline(rom, m0).cfg == m0.cfg
  {
    PutNValid(m0.link.tty, rom.text(m0.cfg, CONNECT));
    m0.link.(tty := EnterOnline(rom, m0).link.tty)
  }

  /** The bytes the modem received from the peer during these calls. */
  function ReceivedOnline(rom: Rom, m: Modem, calls: seq<Api>): seq<Byte> {
    Received(m.link, m.cfg, m.appIo, ActsOf(rom, m, calls))
  }

  /** The DTE of the whole modem is given exactly what the peer says, outside line mode. */
  lemma ModemShowsPeer(rom: Rom, m: Modem, calls: seq<Api>)
    requires m.link.Valid() && StaysOnline(rom, m, calls)
    requires NeverLine(m.link, m.cfg, m.appIo, ActsOf(rom, m, calls))
    requires AllAsked(m.link, m.cfg, m.appIo, ActsOf(rom, m, calls))
    ensures var l := Run(rom, m, calls).link;
      l.tty.delivered + l.tty.pending ==
      m.link.tty.delivered + m.link.tty.pending + DteSide.Shown(m.link.srl, m.cfg, ReceivedOnline(rom, m, calls))
  {
    RunIsStay(rom, m, calls);
    DteSeesPeer(m.link, m.cfg, m.appIo, ActsOf(rom, m, calls));
  }

  /** In any mixture of modes the DTE of the whole modem is given exactly the echo of what it typed and what the peer
      says, as each step shows them, if and only if each step finds room for them. */
  lemma ModemShowsAll(rom: Rom, m: Modem, calls: seq<Api>)
    requires m.link.Valid() && StaysOnline(rom, m, calls)
    ensures var l, acts := Run(rom, m, calls).link, ActsOf(rom, m, calls);
      && (l.tty.lost == m.link.tty.lost <==> AllFit(m.link, m.cfg, m.appIo, acts))
      && (AllFit(m.link, m.cfg, m.appIo, acts) ==>
            l.tty.delivered + l.tty.pending ==
            m.link.tty.delivered + m.link.tty.pending + ShownTo(m.link, m.cfg, m.appIo, acts))
  {
    RunIsStay(rom, m, calls);
    DteSeesAll(m.link, m.cfg, m.appIo, ActsOf(rom, m, calls));
  }

  // ---------------------------------------------------------------- leaving by +++

  /** A step that answers OK while online has seen an escape. */
  lemma OkMeansEscaped(rom: Rom, m: Modem, w: StepWorld)
    requires m.state == ONLINE && Machine.Step(rom, m, w).hist == m.hist + [Machine.Shown(OK), Entered(CMD)]
    ensures OnlineIter(m.link, m.cfg, m.appIo, w.line.(escapeReq := m.escapeReq)).verdict.Escaped?
  {
    var i := OnlineIter(m.link, m.cfg, m.appIo, w.line.(escapeReq := m.escapeReq));
    var m1 := m.(link := i.link, escapeReq := false);
    EndHist(rom, CloseSock(m1), NOCARRIER);
    var ok := m.hist + [Machine.Shown(OK), Entered(CMD)];
    var lost := m.hist + [Machine.Shown(NOCARRIER)] + [Entered(CMD)];
    assert lost[|m.hist|] != ok[|m.hist|];
  }

  lemma EndHist(rom: Rom, m: Modem, code: Code)
    ensures EnterCmd(Show(rom, m, code)).hist == m.hist + [Machine.Shown(code)] + [Entered(CMD)]
  {
  }

  lemma {:induction false} StaysGoesOn(l: Link, cfg: Atcmd, appIo: bool, acts: seq<Act>)
    requires IsStay(l, cfg, appIo, acts) && EndsOnline(l, cfg, appIo, acts) && forall a <- acts :: ClockOk(a)
    ensures GoesOn(l, cfg, appIo, acts)
    decreases |acts|
  {
    if acts == [] {
    } else {
      assert acts[0] in acts;
      StaysGoesOn(RelayRuns.Do(l, cfg, appIo, acts[0]).link, cfg, appIo, acts[1..]);
    }
  }

  /** Escape soundness of the whole modem. Going online with checkSilence clear, and with new input coming only when
      none is unread, a step shows OK and goes to command mode without m2k_escape only after a quick +++ that followed a
      pause and that was followed by silence, by the times at which the bytes arrived. */
  lemma ModemEscapes(rom: Rom, m0: Modem, calls: seq<Api>, w: StepWorld)
    requires m0.link.Valid() && !m0.link.esc.checkSilence && m0.link.newT.Normal() && w.line.now.Normal()
    requires var m := EnterOnline(rom, m0); var acts := ActsOf(rom, m, calls);
      && StaysOnline(rom, m, calls) && (forall a <- acts :: ClockOk(a))
      && AllFindNothing(m.link, m.cfg, m.appIo, acts)
    requires var m' := Run(rom, EnterOnline(rom, m0), calls);
      !m'.escapeReq && Machine.Step(rom, m', w).hist == m'.hist + [Machine.Shown(OK), Entered(CMD)]
    ensures var m := EnterOnline(rom, m0);
      PausedPluses(m0.cfg, m0.link.newT, TakenOnline(rom, m, calls),
                   Arrivals(m.link, m.cfg, m.appIo, ActsOf(rom, m, calls)),
                   |Run(rom, m, calls).link.handled|, w.line.now)
  {
    var m := EnterOnline(rom, m0);
    var m', acts := Run(rom, m, calls), ActsOf(rom, m, calls);
    RunIsStay(rom, m, calls);
    RunStaysOnline(rom, m, calls);
    SameMode(rom, m, calls);
    StaysGoesOn(m.link, m.cfg, m.appIo, acts);
    OkMeansEscaped(rom, m', w);
    var l0 := OnlineLink(rom, m0);
    EscapeAfterPausedPluses(l0, m0.cfg, m.appIo, acts, w.line.(escapeReq := m'.escapeReq));
  }

  lemma {:induction false} RunStaysOnline(rom: Rom, m: Modem, calls: seq<Api>)
    requires StaysOnline(rom, m, calls)
    ensures Run(rom, m, calls).state == ONLINE
    decreases |calls|
  {
    if calls == [] {
    } else {
      RunStaysOnline(rom, Machine.Do(rom, m, calls[0]), calls[1..]);
    }
  }

  // ---------------------------------------------------------------- draining

  function Lines(ws: seq<StepWorld>): seq<World> {
    seq(|ws|, i requires 0 <= i < |ws| => ws[i].line.(escapeReq := false))
  }

  function Steps(ws: seq<StepWorld>): seq<Api> {
    seq(|ws|, i requires 0 <= i < |ws| => CallStep(ws[i]))
  }

  lemma {:induction false} StepsDrain(rom: Rom, m: Modem, ws: seq<StepWorld>)
    requires m.state == ONLINE && !m.escapeReq && m.link.Valid() && m.link.sock.alive
    requires AllDraining(m.link, m.cfg, m.appIo, Lines(ws))
    ensures var m' := Run(rom, m, Steps(ws));
      m'.state == ONLINE && m'.link == Drained(m.link, m.cfg, m.appIo, Lines(ws))
    decreases |ws|
  {
    if ws == [] {
    } else {
      var m1 := Machine.Step(rom, m, ws[0]);
      assert Lines(ws)[1..] == Lines(ws[1..]) && Steps(ws)[1..] == Steps(ws[1..]);
      DrainStep(m.link, m.cfg, m.appIo, Lines(ws)[0]);
      assert m1 == m.(link := OnlineIter(m.link, m.cfg, m.appIo, Lines(ws)[0]).link);
      StepsDrain(rom, m1, ws[1..]);
    }
  }

  /** Drain termination of the whole modem: with no new input and each send making some progress, after as many steps as
      the weight says the modem is online with nothing unread and nothing queued. */
  lemma ModemDrains(rom: Rom, m: Modem, ws: seq<StepWorld>)
    requires m.state == ONLINE && !m.escapeReq && m.link.Valid() && m.link.sock.alive && Awake(m.link, m.appIo)
    requires AllDraining(m.link, m.cfg, m.appIo, Lines(ws)) && |ws| >= Weight(m.link)
    ensures var m' := Run(rom, m, Steps(ws));
      m'.state == ONLINE && m'.link.unread == [] && m'.link.out.pending == []
  {
    StepsDrain(rom, m, ws);
    Drains(m.link, m.cfg, m.appIo, Lines(ws));
  }

  /** No lost wakeup of the whole modem: after every step that leaves it online, unread bytes imply pending bytes and
      a poll set that asks for POLLOUT on the socket. */
  lemma ModemNeverSleeps(rom: Rom, m0: Modem, calls: seq<Api>)
    requires m0.link.Valid() && calls != [] && calls[|calls| - 1].CallStep?
    requires StaysOnline(rom, EnterOnline(rom, m0), calls)
    ensures var m := Run(rom, EnterOnline(rom, m0), calls);
      m.link.unread != [] ==> m.link.out.stop && m.link.out.pending != [] && PollSet(m.link, m.appIo).sockOut
  {
    var m := EnterOnline(rom, m0);
    var acts := ActsOf(rom, m, calls);
    RunIsStay(rom, m, calls);
    PutNValid(m0.link.tty, rom.text(m0.cfg, CONNECT));
    GoOnlineValid(m0.link, m0.cfg);
    assert m.link.Valid();
    StopHasPending(m.link, m.appIo);
    LastAct(rom, m, calls);
    NoLostWakeup(m.link, m.cfg, m.appIo, acts);
    SameMode(rom, m, calls);
  }

  lemma {:induction false} LastAct(rom: Rom, m: Modem, calls: seq<Api>)
    requires calls != [] && calls[|calls| - 1].CallStep?
    ensures var acts := ActsOf(rom, m, calls); acts != [] && acts[|acts| - 1].Step?
    decreases |calls|
  {
    if |calls| > 1 {
      LastAct(rom, Machine.Do(rom, m, calls[0]), calls[1..]);
    } else {
      assert calls[1..] == [];
    }
  }

  lemma {:induction false} SameMode(rom: Rom, m: Modem, calls: seq<Api>)
    requires StaysOnline(rom, m, calls)
    ensures Run(rom, m, calls).appIo == m.appIo
    decreases |calls|
  {
    if calls == [] {
    } else {
      CallIsAct(rom, m, calls[0]);
      SameMode(rom, Machine.Do(rom, m, calls[0]), calls[1..]);
    }
  }
}
