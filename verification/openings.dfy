/** Which calls open with requests, and with which: the first bytes of a connection. */
module Openings {
  import opened Wire
  import opened Settings
  import opened Fifo
  import opened TelOpt
  import opened TelOptSessions
  import opened Relay
  import opened Dial
  import opened Machine
  import opened MachineRuns
  import opened Transparency
  import opened OptionRuns
  import opened FreshCalls

  // ---------------------------------------------------------------- the requests of a fresh call

  /** The opening requests by the settings, byte by byte (RFC 854, 856, 857, 858): WILL BINARY with %B1=1 or 3, DO
      BINARY with %B0=1 or 3, DO ECHO and DO SGA with %L0 or %L2, and WILL SGA always. */
  function OpeningBytes(cfg: Atcmd): seq<Byte> {
    (if cfg.pb1 == 1 || cfg.pb1 == 3 then [255, 251, 0] else [])
    + (if cfg.pb0 == 1 || cfg.pb0 == 3 then [255, 253, 0] else [])
    + (if cfg.pl == 0 || cfg.pl == 2 then [255, 253, 1] else [])
    + [255, 251, 3]
    + (if cfg.pl == 0 || cfg.pl == 2 then [255, 253, 3] else [])
  }

  lemma SideBytes(isLocal: bool, opt: Byte, c: OptState)
    requires !c.on
    ensures MsgsBytes(ToMsgs(isLocal, opt, Request(c))) ==
            if c.req == Better || c.req == Must then [255, if isLocal then 251 else 253, opt] else []
  {
    var msgs := ToMsgs(isLocal, opt, Request(c));
    if msgs != [] {
      assert msgs[1..] == [] && MsgsBytes(msgs) == MsgBytes(msgs[0]) + [];
    }
  }

  lemma {:induction false} MsgsBytesConcat(a: seq<Msg>, b: seq<Msg>)
    ensures MsgsBytes(a + b) == MsgsBytes(a) + MsgsBytes(b)
    decreases |a|
  {
    if a == [] {
      assert a + b == b;
    } else {
      MsgsBytesConcat(a[1..], b);
      assert (a + b)[0] == a[0] && (a + b)[1..] == a[1..] + b;
      assert MsgBytes(a[0]) + (MsgsBytes(a[1..]) + MsgsBytes(b)) == MsgsBytes(a) + MsgsBytes(b);
    }
  }

  /** What an entry with nothing on asks for. */
  function EntryBytes(e: OptEntry): seq<Byte> {
    if 0 <= e.opt < 256 then
      (if e.local.req == Better || e.local.req == Must then [255, 251, e.opt] else [])
      + (if e.remote.req == Better || e.remote.req == Must then [255, 253, e.opt] else [])
    else []
  }

  lemma EntryBytesSent(e: OptEntry)
    requires !e.local.on && !e.remote.on
    ensures MsgsBytes(RequestsOf(e)) == EntryBytes(e)
  {
    if 0 <= e.opt < 256 {
      SideBytes(true, e.opt, e.local);
      SideBytes(false, e.opt, e.remote);
      MsgsBytesConcat(ToMsgs(true, e.opt, Request(e.local)), ToMsgs(false, e.opt, Request(e.remote)));
    }
  }

  function TableBytes(t: seq<OptEntry>): seq<Byte>
    decreases |t|
  {
    if t == [] then [] else EntryBytes(t[0]) + TableBytes(t[1..])
  }

  lemma {:induction false} TableBytesSent(t: seq<OptEntry>)
    requires forall e <- t :: !e.local.on && !e.remote.on
    ensures MsgsBytes(AllRequests(t)) == TableBytes(t)
    decreases |t|
  {
    if t == [] {
    } else {
      assert t[0] in t && forall e <- t[1..] :: e in t;
      EntryBytesSent(t[0]);
      TableBytesSent(t[1..]);
      MsgsBytesConcat(RequestsOf(t[0]), AllRequests(t[1..]));
    }
  }

  lemma FiveEntries(t: Table)
    ensures TableBytes(t) ==
            EntryBytes(t[0]) + EntryBytes(t[1]) + EntryBytes(t[2]) + EntryBytes(t[3]) + EntryBytes(t[4])
  {
    assert t[1..][1..] == t[2..] && t[2..][1..] == t[3..] && t[3..][1..] == t[4..] && t[4..][1..] == [];
    assert TableBytes(t[4..]) == EntryBytes(t[4]) + [];
    assert TableBytes(t[3..]) == EntryBytes(t[3]) + TableBytes(t[4..]);
    assert TableBytes(t[2..]) == EntryBytes(t[2]) + TableBytes(t[3..]);
    assert TableBytes(t[1..]) == EntryBytes(t[1]) + TableBytes(t[2..]);
  }

  /** What the settings make of the requirements. */
  lemma LevelsAsk(t: Table, cfg: Atcmd)
    requires Fixed(t) && DefaultRefuses(t)
    ensures var t' := SetReqs(t, cfg);
      && EntryBytes(t'[0]) == (if cfg.pb1 == 1 || cfg.pb1 == 3 then [255, 251, 0] else [])
                              + (if cfg.pb0 == 1 || cfg.pb0 == 3 then [255, 253, 0] else [])
      && EntryBytes(t'[1]) == (if cfg.pl == 0 || cfg.pl == 2 then [255, 253, 1] else [])
      && EntryBytes(t'[2]) == [255, 251, 3] + (if cfg.pl == 0 || cfg.pl == 2 then [255, 253, 3] else [])
      && EntryBytes(t'[3]) == [] && EntryBytes(t'[4]) == []
  {
    SetReqsGoverns(t, cfg);
    assert [] + (if cfg.pl == 0 || cfg.pl == 2 then [255, 253, 1] else []) ==
           if cfg.pl == 0 || cfg.pl == 2 then [255, 253, 1] else [];
  }

  lemma Joins(a: seq<Byte>, b: seq<Byte>, c: seq<Byte>, d: seq<Byte>, e: seq<Byte>)
    ensures (a + b) + c + (d + e) + [] + [] == a + b + c + d + e
  {
  }

  /** The bytes of the five entries are the opening bytes. */
  lemma LevelsOpen(t: Table, cfg: Atcmd)
    requires Fixed(t) && DefaultRefuses(t)
    ensures TableBytes(SetReqs(t, cfg)) == OpeningBytes(cfg)
  {
    FiveEntries(SetReqs(t, cfg));
    LevelsAsk(t, cfg);
    Joins(if cfg.pb1 == 1 || cfg.pb1 == 3 then [255, 251, 0] else [],
          if cfg.pb0 == 1 || cfg.pb0 == 3 then [255, 253, 0] else [],
          if cfg.pl == 0 || cfg.pl == 2 then [255, 253, 1] else [],
          [255, 251, 3],
          if cfg.pl == 0 || cfg.pl == 2 then [255, 253, 3] else []);
  }

  /** Nothing is on in a clean table, whatever is then required. */
  lemma CleanOff(t: Tel, cfg: Atcmd)
    requires Clean(t) && DefaultRefuses(t.table)
    ensures forall e <- SetReqs(t.table, cfg) :: !e.local.on && !e.remote.on
  {
    var t1 := SetReqs(t.table, cfg);
    SetReqsKeepsStates(t.table, cfg);
    forall e | e in t1
      ensures !e.local.on && !e.remote.on
    {
      var i :| 0 <= i < ENTRIES && t1[i] == e;
      assert i < DEFAULT_SLOT || i == DEFAULT_SLOT;
    }
  }

  /** From a clean table the requests are exactly those bytes. */
  lemma CleanOpens(t: Tel, cfg: Atcmd)
    requires Clean(t) && Fixed(t.table) && DefaultRefuses(t.table)
    ensures MsgsBytes(SendReqs(t, cfg).msgs) == OpeningBytes(cfg)
  {
    CleanOff(t, cfg);
    TableBytesSent(SetReqs(t.table, cfg));
    LevelsOpen(t.table, cfg);
  }

  // ---------------------------------------------------------------- going online

  /** The connection is new, and has opened with requests, or has not. */
  ghost predicate Opened(m: Modem, negotiates: bool) {
    if negotiates then m.link.tel.asked == Asked(m.cfg) && m.link.out.pending == OpeningBytes(m.cfg)
    else m.link.tel.asked.NotAsked? && m.link.out.pending == []
  }

  lemma EnterOnlineOpens(rom: Rom, m: Modem)
    requires Clean(m.link.tel) && Fixed(m.link.tel.table) && DefaultRefuses(m.link.tel.table)
    ensures Opened(EnterOnline(rom, m), !m.link.tel.sentReqs && !m.cfg.pr) && EnterOnline(rom, m).cfg == m.cfg
  {
    var l, m1 := GoOnline(m.link, m.cfg), QuietRings(m.(link := GoOnline(m.link, m.cfg)));
    ShowSound(rom, m1, CONNECT);
    assert EnterOnline(rom, m).link.out == l.out && EnterOnline(rom, m).link.tel == l.tel;
    if !m.link.tel.sentReqs && !m.cfg.pr {
      var msgs := SendReqs(m.link.tel, m.cfg).msgs;
      CleanOpens(m.link.tel, m.cfg);
      RequestVerbs(SetReqs(m.link.tel.table, m.cfg));
      PutMsgsRoom(EMPTY, msgs);
      PutMsgsPending(msgs);
    }
  }

  lemma PutMsgsPending(msgs: seq<Msg>)
    requires PutMsgs(EMPTY, msgs).lost == 0
    ensures PutMsgs(EMPTY, msgs).pending == MsgsBytes(msgs)
  {
    PutMsgsStream(EMPTY, msgs);
    PutMsgsDelivered(EMPTY, msgs);
    assert EMPTY.Stream() == [] && [] + MsgsBytes(msgs) == MsgsBytes(msgs);
    assert [] + PutMsgs(EMPTY, msgs).pending == PutMsgs(EMPTY, msgs).pending;
  }

  lemma {:induction false} PutMsgsDelivered(q: Queue, msgs: seq<Msg>)
    ensures PutMsgs(q, msgs).delivered == q.delivered
    decreases |msgs|
  {
    if msgs == [] {
    } else {
      PutMsgsDelivered(PutMsg(q, msgs[0]), msgs[1..]);
    }
  }

  // ---------------------------------------------------------------- dialled and answered calls

  /** A dial that goes on will open with requests unless it named a port. */
  ghost predicate DialOpens(m: Modem) {
    m.state == DIAL ==> Clean(m.link.tel) && m.link.tel.sentReqs == m.cfg.portGiven
  }

  /** What a step owes: a dial remembers how it will open, and a new connection opens so. */
  ghost predicate KeepsOpening(m': Modem, negotiates: bool) {
    DialOpens(m') && (m'.state == ONLINE ==> Opened(m', negotiates))
  }

  lemma NotOnlineOpens(m': Modem, negotiates: bool)
    requires m'.state == CMD || m'.state == ANSWER || m'.state == DONE
    ensures KeepsOpening(m', negotiates)
  {
  }

  lemma AfterStartIs(rom: Rom, m: Modem, o: Outcome)
    ensures var m1, m' := m.WithCall(o.call), AfterStart(rom, m, o);
      && m1.link.tel == m.link.tel && m1.cfg == m.cfg && m1.state == m.state
      && m' == if o.r == 1 then EnterOnline(rom, m1) else if o.r == 0 then EnterDial(m1) else Show(rom, m1, NOCARRIER)
  {
  }

  lemma AfterStartOpens(rom: Rom, m: Modem, o: Outcome)
    requires m.state == CMD && Clean(m.link.tel) && m.link.tel.sentReqs == m.cfg.portGiven
    requires Fixed(m.link.tel.table) && DefaultRefuses(m.link.tel.table)
    ensures KeepsOpening(AfterStart(rom, m, o), !m.cfg.portGiven && !m.cfg.pr)
    ensures AfterStart(rom, m, o).cfg == m.cfg
  {
    var m1 := m.WithCall(o.call);
    AfterStartIs(rom, m, o);
    if o.r == 1 {
      EnterOnlineOpens(rom, m1);
      OnlineState(rom, m1);
    } else if o.r == 0 {
      EnterDialKeeps(m1);
    } else {
      ShowSound(rom, m1, NOCARRIER);
      NotOnlineOpens(Show(rom, m1, NOCARRIER), !m.cfg.portGiven && !m.cfg.pr);
    }
  }

  lemma OnlineState(rom: Rom, m: Modem)
    ensures EnterOnline(rom, m).state == ONLINE
  {
  }

  lemma EnterDialKeeps(m: Modem)
    ensures EnterDial(m).state == DIAL && EnterDial(m).link.tel == m.link.tel && EnterDial(m).cfg == m.cfg
  {
  }

  lemma ResetTable(t: Tel)
    requires Fixed(t.table) && DefaultRefuses(t.table)
    ensures Fixed(Reset(t).table) && DefaultRefuses(Reset(t).table) && !Reset(t).sentReqs
  {
  }

  lemma OnAtdOpens(rom: Rom, m: Modem, w: StepWorld)
    requires m.state == CMD && TelSound(m)
    ensures KeepsOpening(OnAtd(rom, m, w), !m.cfg.portGiven && !m.cfg.pr) && OnAtd(rom, m, w).cfg == m.cfg
  {
    if m.link.sock.alive {
      NotOnlineOpens(OnAtd(rom, m, w), !m.cfg.portGiven && !m.cfg.pr);
    } else {
      var m1 := FreshCall(m);
      ResetClean(m.link.tel);
      ResetTable(m.link.tel);
      AfterStartOpens(rom, m1, Start(m1.Call(), w.found, m1.cfg.s7, w.dial));
    }
  }

  /** An answered call opens with requests unless the mode is raw. */
  lemma AdoptOpens(rom: Rom, m: Modem, fd: Fd)
    requires TelSound(m)
    ensures var m' := EnterOnline(rom, Adopt(m, fd));
      m'.state == ONLINE && Opened(m', !m'.cfg.pr) && m'.cfg == m.cfg.(s1 := 0)
  {
    ResetClean(m.link.tel);
    ResetTable(m.link.tel);
    EnterOnlineOpens(rom, Adopt(m, fd));
  }

  lemma OnAtaOpens(rom: Rom, m: Modem, w: StepWorld)
    requires m.state == CMD && TelSound(m)
    ensures var m' := OnAta(rom, m, w); KeepsOpening(m', !m'.cfg.pr)
  {
    OnAtaState(rom, m, w);
    if m.link.sock.alive || !m.answer.listener || !w.waiting || w.accept <= 0 {
      NotOnlineOpens(OnAta(rom, m, w), !OnAta(rom, m, w).cfg.pr);
    } else {
      AdoptOpens(rom, m, w.accept);
    }
  }

  /** Whether a step that goes online does so on a dial: one going on, or ATD. */
  predicate Dialled(rom: Rom, m: Modem, w: StepWorld) {
    || m.state == DIAL
    || (m.state == CMD && !RingCheck(rom, m, w).1 && CmdIter(rom, RingCheck(rom, m, w).0, w.line).stat == StAtd)
  }

  /** Whether a new connection negotiates: a dialled one unless it named a port, an answered one always; never in raw
      mode. */
  predicate Negotiates(rom: Rom, m: Modem, w: StepWorld, cfg: Atcmd) {
    !cfg.pr && (Dialled(rom, m, w) ==> !cfg.portGiven)
  }

  lemma CmdActOpens(rom: Rom, d: Dispatched, w: StepWorld)
    requires d.m.state == CMD && TelSound(d.m)
    ensures var m' := CmdAct(rom, d, w);
      && DialOpens(m')
      && (m'.state == ONLINE && !(d.stat == StAto && d.m.link.sock.alive) ==>
            Opened(m', !m'.cfg.pr && (d.stat == StAtd ==> !m'.cfg.portGiven)))
  {
    match d.stat
    case StAtd => OnAtdOpens(rom, d.m, w);
    case StAta => OnAtaOpens(rom, d.m, w);
    case StAto => OnAtoOpens(rom, d.m);
    case StPtyClosed => NotOnlineOpens(EnterState(d.m, DONE), false);
    case _ =>
  }

  lemma OnAtoOpens(rom: Rom, m: Modem)
    requires m.state == CMD
    ensures OnAto(rom, m).state == if m.link.sock.alive then ONLINE else CMD
  {
  }

  lemma CmdStepOpens(rom: Rom, m: Modem, w: StepWorld)
    requires m.state == CMD && TelSound(m)
    ensures var m' := CmdStep(rom, m, w);
      && DialOpens(m')
      && (m'.state == ONLINE && !ByAto(rom, m, w) ==> Opened(m', Negotiates(rom, m, w, m'.cfg)))
  {
    var (m1, answered) := RingCheck(rom, m, w);
    RingCheckSound(rom, m, w);
    if answered {
      RungSound(rom, m, w);
      AdoptOpens(rom, Rung(rom, m, w.ringNow), w.ringAccept);
    } else {
      var d := CmdIter(rom, m1, w.line);
      CmdIterQuiet(rom, m1, w.line);
      QuietSound(m1, d.m);
      CmdActOpens(rom, d, w);
    }
  }

  lemma RungSound(rom: Rom, m: Modem, w: StepWorld)
    requires m.state == CMD && TelSound(m)
    ensures TelSound(Rung(rom, m, w.ringNow))
  {
    assert Rung(rom, m, w.ringNow).link == m.link.(tty := Rung(rom, m, w.ringNow).link.tty);
  }

  lemma EndDialOpens(rom: Rom, m: Modem, r: int)
    requires m.state == DIAL && DialOpens(m) && Fixed(m.link.tel.table) && DefaultRefuses(m.link.tel.table)
    ensures KeepsOpening(EndDial(rom, m, r), !m.cfg.portGiven && !m.cfg.pr) && EndDial(rom, m, r).cfg == m.cfg
  {
    EnterOnlineOpens(rom, m);
    EnterCmdState(Show(rom, m, NOCARRIER));
    if r == -1 {
      NotOnlineOpens(EndDial(rom, m, r), !m.cfg.portGiven && !m.cfg.pr);
    }
  }

  /** What a dial owes when its step is over. */
  ghost predicate DialKept(m': Modem) { KeepsOpening(m', !m'.cfg.portGiven && !m'.cfg.pr) }

  lemma DialEndedOpens(rom: Rom, m: Modem, o: Outcome)
    requires m.state == DIAL && TelSound(m) && DialOpens(m)
    ensures DialKept(EndDial(rom, m.WithCall(o.call), o.r))
  {
    EndDialOpens(rom, m.WithCall(o.call), o.r);
  }

  lemma DialCancelledOpens(rom: Rom, m: Modem, c: Call)
    ensures DialKept(EnterCmd(Show(rom, m.WithCall(c), NOCARRIER)))
  {
    var m' := EnterCmd(Show(rom, m.WithCall(c), NOCARRIER));
    EnterCmdState(Show(rom, m.WithCall(c), NOCARRIER));
    NotOnlineOpens(m', !m'.cfg.portGiven && !m'.cfg.pr);
  }

  lemma DialStepOpens(rom: Rom, m: Modem, w: StepWorld)
    requires m.state == DIAL && TelSound(m) && DialOpens(m)
    ensures DialKept(DialStep(rom, m, w))
  {
    if !m.appIo && w.ttyPeek && Cancels(w.peek) {
      DialCancelledOpens(rom, m, Abort(m.Call()));
    } else {
      DialEndedOpens(rom, m, Progress(m.Call(), m.cfg.s7, w.dial));
    }
  }

  lemma AnswerStepOpens(rom: Rom, m: Modem, w: StepWorld)
    requires m.state == ANSWER && TelSound(m)
    ensures var m' := AnswerStep(rom, m, w); KeepsOpening(m', !m'.cfg.pr)
  {
    var m' := AnswerStep(rom, m, w);
    AnswerStepState(rom, m, w);
    if m'.state == CMD || m'.state == ANSWER {
      NotOnlineOpens(m', !m'.cfg.pr);
    } else {
      AdoptOpens(rom, m, w.accept);
    }
  }

  /** One step: a dial remembers how it will open, and a step that goes online with a new connection has opened it with
      exactly the requests its settings call for, or with none. */
  lemma StepOpens(rom: Rom, m: Modem, w: StepWorld)
    requires TelSound(m) && DialOpens(m)
    ensures var m' := Machine.Step(rom, m, w);
      && DialOpens(m')
      && (m.state != ONLINE && m'.state == ONLINE && !ByAto(rom, m, w) ==>
            Opened(m', Negotiates(rom, m, w, m'.cfg)))
  {
    match m.state
    case CMD => CmdStepOpens(rom, m, w);
    case DIAL => DialStepOpens(rom, m, w);
    case ANSWER => AnswerStepOpens(rom, m, w);
    case ONLINE => OnlineStepState(rom, m, w);
    case DONE =>
  }

  lemma DoOpens(rom: Rom, m: Modem, a: Api)
    requires TelSound(m) && DialOpens(m)
    ensures DialOpens(Do(rom, m, a))
  {
    match a
    case CallStep(w) => StepOpens(rom, m, w);
    case CallHangup => HangupClean(rom, m);
    case _ =>
      var m' := Do(rom, m, a);
      assert m'.link.tel == m.link.tel && m'.state == m.state && m'.cfg == m.cfg;
  }

  lemma {:induction false} RunOpens(rom: Rom, m: Modem, calls: seq<Api>)
    requires Inv(m) && TelSound(m) && DialOpens(m)
    ensures TelSound(Machine.Run(rom, m, calls)) && DialOpens(Machine.Run(rom, m, calls))
    decreases |calls|
  {
    if calls == [] {
    } else {
      DoKeeps(rom, m, calls[0]);
      DoSound(rom, m, calls[0]);
      DoOpens(rom, m, calls[0]);
      RunOpens(rom, Do(rom, m, calls[0]), calls[1..]);
    }
  }

  /** The opening of every call, over all runs. A step that goes online with a new connection has queued exactly the
      opening requests its settings call for, and noted them, if the call negotiates: a dial that named no port, at
      once or after waiting in DIAL, or an answered call, and not in raw mode. Otherwise it has queued nothing. */
  lemma NewCallsOpen(rom: Rom, appIo: bool, cfg: Atcmd, nv: Atcmd, calls: seq<Api>, w: StepWorld)
    ensures var m := Machine.Run(rom, New(appIo, cfg, nv), calls); var m' := Machine.Step(rom, m, w);
      m.state != ONLINE && m'.state == ONLINE && !ByAto(rom, m, w) ==> Opened(m', Negotiates(rom, m, w, m'.cfg))
  {
    NewInv(appIo, cfg, nv);
    RunOpens(rom, New(appIo, cfg, nv), calls);
    StepOpens(rom, Machine.Run(rom, New(appIo, cfg, nv), calls), w);
  }
}
