/** What a caller sees of each call: states, result codes, connection, settings and timing. */
module Effects {
  import opened Wire
  import opened Time
  import opened Settings
  import opened Fifo
  import opened TelOpt
  import opened Iac
  import opened Relay
  import RelayRuns
  import opened TokenLoop
  import opened DteSide
  import opened Dial
  import opened Machine
  import opened History
  import opened MachineRuns

  // ---------------------------------------------------------------- entering states

  /** The modem has shown a code and gone to a state. */
  ghost predicate ShowsAndEnters(m: Modem, m': Modem, code: Code, s: State) {
    m'.state == s && m'.hist == m.hist + [Shown(code), Entered(s)]
  }

  lemma ToCmd(rom: Rom, m: Modem, code: Code)
    ensures var m' := EnterCmd(Show(rom, m, code));
      && ShowsAndEnters(m, m', code, CMD)
      && m'.link.sock == m.link.sock && m'.link.tel == m.link.tel && m'.cfg == m.cfg
      && m'.cmd == [] && !m'.eol && m'.link.unread == [] && m'.link.out.pending == []
      && m'.link.tty == m.link.tty.PutN(rom.text(m.cfg, code))
  {
    assert m.hist + [Shown(code)] + [Entered(CMD)] == m.hist + [Shown(code), Entered(CMD)];
  }

  lemma ToOnline(rom: Rom, m: Modem)
    ensures var m' := EnterOnline(rom, m);
      && m'.state == ONLINE && m'.hist == m.hist + [Quieted, Shown(CONNECT), Entered(ONLINE)]
      && m'.link.sock == m.link.sock && m'.cfg == m.cfg && m'.answer.rings == 0
      && m'.link.unread == [] && m'.link.line == [] && m'.link.esc.state.Idle? && m'.link.srl.state.Norm?
      && m'.link.tty == m.link.tty.PutN(rom.text(m.cfg, CONNECT))
  {
    assert m.hist + [Quieted] + [Shown(CONNECT)] + [Entered(ONLINE)] ==
           m.hist + [Quieted, Shown(CONNECT), Entered(ONLINE)];
  }

  lemma ToAnswer(m: Modem, now: Timeval)
    ensures var m' := EnterAnswer(m, now);
      && m'.state == ANSWER && m'.hist == m.hist + [Entered(ANSWER)] && m'.link.sock == m.link.sock
      && m'.cfg == m.cfg && m'.appIo == m.appIo
      && m'.answer.deadline.Micros() == now.Micros() + m.cfg.s7 * 1_000_000
      && (now.Normal() ==> m'.answer.deadline.Normal())
  {
  }

  lemma ToDial(m: Modem)
    ensures var m' := EnterDial(m);
      && m'.state == DIAL && m'.hist == m.hist + [Quieted, Entered(DIAL)]
      && m'.Call() == m.Call() && m'.link.tel == m.link.tel && m'.cfg == m.cfg
      && m'.answer.rings == 0 && m'.link.unread == [] && m'.cmd == [] && !m'.eol
  {
    assert m.hist + [Quieted] + [Entered(DIAL)] == m.hist + [Quieted, Entered(DIAL)];
  }

  // ---------------------------------------------------------------- online

  /** +++ and m2k_escape keep the connection: the modem shows OK and goes to command mode with the same connection and
      the same options. */
  lemma EscapeKeepsConnection(rom: Rom, m: Modem, w: StepWorld)
    requires m.state == ONLINE
    requires m.escapeReq || (m.link.esc.checkSilence && m.link.esc.expireT.Normal() && w.line.now.Normal()
                             && w.line.now.Micros() >= m.link.esc.expireT.Micros())
    ensures var m' := Step(rom, m, w);
      ShowsAndEnters(m, m', OK, CMD) && m'.link.sock == m.link.sock && m'.link.tel == m.link.tel && !m'.escapeReq
  {
    var w1 := w.line.(escapeReq := m.escapeReq);
    assert OnlineIter(m.link, m.cfg, m.appIo, w1) ==
           Iter(m.link.(esc := m.link.esc.(checkSilence := false)), Escaped);
    ToCmd(rom, m.(link := m.link.(esc := m.link.esc.(checkSilence := false)), escapeReq := false), OK);
  }

  /** So does asking for it by m2k_escape, which a modem that is not online ignores. */
  lemma RequestedEscape(rom: Rom, m: Modem, w: StepWorld)
    ensures m.state != ONLINE ==> Do(rom, m, CallEscape) == m
    ensures m.state == ONLINE ==>
              var m' := Step(rom, Do(rom, m, CallEscape), w);
              ShowsAndEnters(m, m', OK, CMD) && m'.link.sock == m.link.sock
  {
    if m.state == ONLINE {
      EscapeKeepsConnection(rom, Do(rom, m, CallEscape), w);
    }
  }

  /** Whether negotiation must drop the connection over these tokens. */
  function Dooms(t: Tel, ts: seq<Token>): bool
    decreases |ts|
  {
    if ts == [] then false
    else if ts[0].Negotiate? then
      var h := Handle(t, ts[0].m);
      h.fatal || Dooms(h.tel, ts[1..])
    else Dooms(t, ts[1..])
  }

  lemma {:induction false} TokensAlive(l: Link, cfg: Atcmd, ts: seq<Token>)
    ensures Tokens(l, cfg, ts).sock.alive == (l.sock.alive && !Dooms(l.tel, ts))
    decreases |ts|
  {
    if ts == [] {
    } else {
      TokensAlive(TokenStep(l, cfg, ts[0]), cfg, ts[1..]);
    }
  }

  /** Whether a step must end the stay: the connection is gone, what is pending cannot be sent, the TTY cannot be
      written though there is something for it, the peer has closed, a command cannot be agreed to, or the TTY is
      gone. */
  predicate Fails(l: Link, cfg: Atcmd, appIo: bool, w: World) {
    || !l.sock.alive
    || (w.ev.sockOut && l.out.pending != [] && w.sent <= 0)
    || (!appIo && w.ev.ttyOut && w.wrote <= 0 && (l.tty.pending != [] || EchoOut(l, cfg, appIo, w) != []))
    || (w.ev.sockIn && w.recv == [])
    || (w.ev.sockIn && !cfg.pr && Dooms(l.tel, Parse(l.srl, w.recv).tokens))
    || (!appIo && w.ev.ttyIn && w.read == [])
  }

  lemma {:induction false} PutNPending(q: Queue, s: seq<Byte>)
    requires q.Valid()
    ensures q.PutN(s).pending == [] <==> q.pending == [] && s == []
    decreases |s|
  {
    if s == [] {
    } else {
      PutNPending(q.Put(s[0]), s[1..]);
    }
  }

  lemma WritableSock(l: Link, cfg: Atcmd, sent: int)
    requires l.Valid()
    ensures OnSockWritable(l, cfg, sent).Valid()
    ensures OnSockWritable(l, cfg, sent).sock ==
            l.sock.(alive := l.sock.alive && !(l.out.pending != [] && sent <= 0))
  {
    var ok := l.out.pending == [] || sent > 0;
    RelayRuns.TtyLoopFrame(l.(out := l.out.Write(sent), sock := if ok then l.sock else l.sock.(alive := false)), cfg);
  }

  lemma OutFails(l: Link, cfg: Atcmd, appIo: bool, w: World)
    requires l.Valid()
    ensures var i := IterOut(l, cfg, appIo, w);
      && (i.verdict.Lost? <==> !appIo && w.ev.ttyOut && w.wrote <= 0
                               && (l.tty.pending != [] || EchoOut(l, cfg, appIo, w) != []))
      && (i.verdict.Continue? ==>
            i.link.sock == l.sock.(alive := l.sock.alive && !(w.ev.sockOut && l.out.pending != [] && w.sent <= 0)))
  {
    var l1 := if w.ev.sockOut then OnSockWritable(l, cfg, w.sent) else l;
    WritableSock(l, cfg, w.sent);
    RelayRuns.IterTtyFrame(l1, cfg, appIo, w);
    OnSockWritableShows(l, cfg, w.sent);
    assert NewKeys(l, l) == [];
    assert !appIo ==> l1.tty == l.tty.PutN(EchoOut(l, cfg, appIo, w));
    PutNPending(l.tty, EchoOut(l, cfg, appIo, w));
  }

  lemma InFails(l: Link, cfg: Atcmd, appIo: bool, w: World)
    requires l.Valid()
    ensures IterIn(l, cfg, appIo, w).verdict.Continue? <==>
            && l.sock.alive
            && !(w.ev.sockIn && w.recv == [])
            && !(w.ev.sockIn && !cfg.pr && Dooms(l.tel, Parse(l.srl, w.recv).tokens))
            && !(!appIo && w.ev.ttyIn && w.read == [])
  {
    var l1 := if w.ev.sockIn then OnSockReadable(l, cfg, w.recv) else l;
    if w.ev.sockIn {
      SocketRead(l, cfg, w.recv);
    }
    if !appIo && w.ev.ttyIn {
      RelayRuns.TtyLoopFrame(l1.(unread := w.read, prevT := l1.newT, newT := w.readAt), cfg);
    }
  }

  lemma SocketRead(l: Link, cfg: Atcmd, bytes: Chunk)
    requires l.Valid()
    ensures OnSockReadable(l, cfg, bytes).Valid()
    ensures OnSockReadable(l, cfg, bytes).sock.alive ==
            (l.sock.alive && bytes != [] && (cfg.pr || !Dooms(l.tel, Parse(l.srl, bytes).tokens)))
  {
    RelayRuns.OnSockReadableFrame(l, cfg, bytes);
    if cfg.pr {
      RawSocketRead(l, cfg, bytes);
    } else {
      LoopFollowsTokens(l, cfg, bytes);
      TokensAlive(l, cfg, Parse(l.srl, bytes).tokens);
    }
  }

  lemma {:induction false} RawSocketRead(l: Link, cfg: Atcmd, bytes: seq<Byte>)
    requires cfg.pr
    ensures SockLoop(l, cfg, bytes).sock == l.sock
    decreases |bytes|
  {
    if bytes == [] {
    } else {
      RawSocketRead(SockByte(l, cfg, bytes[0]), cfg, bytes[1..]);
    }
  }

  /** A step online, exactly: without an escape the stay goes on if and only if nothing fails. */
  lemma GoesOnExactly(l: Link, cfg: Atcmd, appIo: bool, w: World)
    requires l.Valid() && !w.escapeReq && !SilenceOver(l.esc, w.now)
    ensures OnlineIter(l, cfg, appIo, w).verdict.Continue? <==> !Fails(l, cfg, appIo, w)
    ensures !OnlineIter(l, cfg, appIo, w).verdict.Escaped?
  {
    var i := IterOut(l, cfg, appIo, w);
    OutFails(l, cfg, appIo, w);
    RelayRuns.IterOutFrame(l, cfg, appIo, w);
    if i.verdict.Continue? {
      InFails(i.link, cfg, appIo, w);
    }
  }

  /** And when something fails, the modem shows NO CARRIER, has given the descriptor back, and is in command mode. */
  lemma FailureHangsUp(rom: Rom, m: Modem, w: StepWorld)
    requires Inv(m) && m.state == ONLINE && !m.escapeReq && !SilenceOver(m.link.esc, w.line.now)
    requires Fails(m.link, m.cfg, m.appIo, w.line.(escapeReq := m.escapeReq))
    ensures var m' := Step(rom, m, w);
      ShowsAndEnters(m, m', NOCARRIER, CMD) && !m'.link.sock.alive && m'.link.sock.open == 0
  {
    var w1 := w.line.(escapeReq := m.escapeReq);
    var i := OnlineIter(m.link, m.cfg, m.appIo, w1);
    GoesOnExactly(m.link, m.cfg, m.appIo, w1);
    OnlineIterSock(m.link, m.cfg, m.appIo, w1);
    CloseKeeps(i.link.sock);
    ToCmd(rom, CloseSock(m.(link := i.link, escapeReq := false)), NOCARRIER);
  }

  // ---------------------------------------------------------------- hanging up

  lemma HangupIs(rom: Rom, m: Modem)
    ensures Hangup(rom, m) ==
            if m.state == DIAL then EnterCmd(Show(rom, m.WithCall(Abort(m.Call())), NOCARRIER))
            else if m.state == ANSWER then EnterCmd(Show(rom, m, NOCARRIER))
            else m.(link := m.link.(sock := Close(m.link.sock)))
  {
  }

  /** m2k_hangup gives the descriptor back in every state, ends a dial or an answer wait with NO CARRIER, and leaves the
      rest to the next step. */
  lemma HangupEffect(rom: Rom, m: Modem)
    requires Inv(m)
    ensures var m' := Hangup(rom, m);
      && m'.link.sock.open == 0 && !m'.link.sock.alive
      && (m.state == DIAL || m.state == ANSWER ==> ShowsAndEnters(m, m', NOCARRIER, CMD))
      && (m.state == CMD || m.state == ONLINE || m.state == DONE ==> m'.state == m.state && m'.hist == m.hist)
  {
    HangupIs(rom, m);
    CloseKeeps(m.link.sock);
    if m.state == DIAL {
      ToCmd(rom, m.WithCall(Abort(m.Call())), NOCARRIER);
    } else if m.state == ANSWER {
      ToCmd(rom, m, NOCARRIER);
    }
  }

  /** While online that next step shows NO CARRIER. */
  lemma HangupOnline(rom: Rom, m: Modem, w: StepWorld)
    requires Inv(m) && m.state == ONLINE && !m.escapeReq && !SilenceOver(m.link.esc, w.line.now)
    ensures ShowsAndEnters(m, Step(rom, Hangup(rom, m), w), NOCARRIER, CMD)
  {
    HangupEffect(rom, m);
    HangupKeeps(rom, m);
    assert Hangup(rom, m) == CloseSock(m);
    FailureHangsUp(rom, Hangup(rom, m), w);
  }

  // ---------------------------------------------------------------- dialling and answering

  /** In PTY mode a byte typed during a dial cancels it, unless it is CR, LF or NUL; so does a lost TTY. */
  lemma DialCancelled(rom: Rom, m: Modem, w: StepWorld, i: nat)
    requires Inv(m) && m.state == DIAL && !m.appIo && w.ttyPeek
    requires w.peek.Gone? || (w.peek.Typed? && i < |w.peek.bytes| && w.peek.bytes[i] !in {0, 10, 13})
    ensures var m' := Step(rom, m, w); ShowsAndEnters(m, m', NOCARRIER, CMD) && m'.link.sock.open == 0
  {
    assert w.peek.Typed? ==> w.peek.bytes[i] in w.peek.bytes;
    CloseKeeps(m.link.sock);
    ToCmd(rom, m.WithCall(Abort(m.Call())), NOCARRIER);
  }

  /** Line terminators do not: the dial goes on as if nothing had been typed. */
  lemma DialSurvives(rom: Rom, m: Modem, w: StepWorld)
    requires m.state == DIAL
    requires m.appIo || !w.ttyPeek || w.peek.TryAgain? ||
             (w.peek.Typed? && forall c <- w.peek.bytes :: c == 13 || c == 10 || c == 0)
    ensures Step(rom, m, w) == Step(rom, m, w.(ttyPeek := false))
  {
  }

  /** An answer wait, by the clock: with no caller and no key it goes on until S7 seconds after it began, and from
      then on ends with NO CARRIER. */
  lemma AnswerWaits(rom: Rom, m0: Modem, now: Timeval, w: StepWorld)
    requires now.Normal() && w.answerNow.Normal() && !w.answerIn && (m0.appIo || !w.ttyPeek)
    ensures var m := EnterAnswer(m0, now); var m' := Step(rom, m, w);
      if w.answerNow.Micros() < now.Micros() + m0.cfg.s7 * 1_000_000 then m' == m
      else ShowsAndEnters(m, m', NOCARRIER, CMD)
  {
    ToAnswer(m0, now);
    ToCmd(rom, EnterAnswer(m0, now), NOCARRIER);
  }

  /** A caller ends it with CONNECT, a key with NO CARRIER, and so does a caller who is gone by the time of accept. */
  lemma AnswerEnds(rom: Rom, m: Modem, w: StepWorld)
    requires m.state == ANSWER
    ensures var m' := Step(rom, m, w);
      && (!m.appIo && w.ttyPeek ==> ShowsAndEnters(m, m', NOCARRIER, CMD))
      && ((m.appIo || !w.ttyPeek) && w.answerIn && w.accept <= 0 ==> ShowsAndEnters(m, m', NOCARRIER, CMD))
      && ((m.appIo || !w.ttyPeek) && w.answerIn && w.accept > 0 ==>
            m'.state == ONLINE && m'.link.sock.fd == w.accept && m'.link.sock.alive && m'.cfg.s1 == 0)
  {
    ToCmd(rom, m, NOCARRIER);
    if w.accept > 0 {
      ToOnline(rom, Adopt(m, w.accept));
    }
  }

  // ---------------------------------------------------------------- call commands

  /** The modem has shown a code and stayed in command mode. */
  ghost predicate ShowsOnly(m: Modem, m': Modem, code: Code) {
    m'.hist == m.hist + [Shown(code)] && m'.state == m.state && m'.link.sock == m.link.sock && m'.link.tel == m.link.tel
  }

  /** ATD is an error on a live connection. */
  lemma AtdBusy(rom: Rom, m: Modem, w: StepWorld)
    requires m.link.sock.alive
    ensures ShowsOnly(m, CmdAct(rom, Dispatched(m, StAtd), w), ERROR)
  {
  }

  /** A call has begun with the connection it was given. */
  ghost predicate Connects(m: Modem, o: Outcome, m': Modem) {
    && m'.state == ONLINE && m'.link.sock == o.call.sock
    && m'.hist == m.hist + [Quieted, Shown(CONNECT), Entered(ONLINE)]
  }

  /** What comes of a dial that was started: CONNECT, a wait in DIAL with no rings left, or NO CARRIER. */
  ghost predicate Started(m: Modem, o: Outcome, m': Modem) {
    if o.r == 1 then Connects(m, o, m')
    else if o.r == 0 then
      && m'.state == DIAL && m'.Call() == o.call && m'.hist == m.hist + [Quieted, Entered(DIAL)]
      && m'.answer.rings == 0 && m'.link.unread == []
    else m'.state == CMD && m'.link.sock == o.call.sock && m'.hist == m.hist + [Shown(NOCARRIER)]
  }

  lemma StartedEffect(rom: Rom, m: Modem, o: Outcome)
    requires m.state == CMD
    ensures Started(m, o, AfterStart(rom, m, o))
  {
    var m1 := m.WithCall(o.call);
    assert m1.hist == m.hist && m1.Call() == o.call && m1.link.sock == o.call.sock && m1.state == m.state;
    if o.r == 1 {
      ToOnline(rom, m1);
    } else if o.r == 0 {
      ToDial(m1);
    }
  }

  /** ATD without a connection. */
  lemma AtdEffect(rom: Rom, m: Modem, w: StepWorld)
    requires m.state == CMD && !m.link.sock.alive
    ensures Started(m, Start(m.Call(), w.found, m.cfg.s7, w.dial), CmdAct(rom, Dispatched(m, StAtd), w))
  {
    StartedEffect(rom, FreshCall(m), Start(m.Call(), w.found, m.cfg.s7, w.dial));
  }

  lemma EndDialEffect(rom: Rom, m: Modem, o: Outcome)
    requires -1 <= o.r <= 1
    ensures var m1 := m.WithCall(o.call); var m' := EndDial(rom, m1, o.r);
      if o.r == 1 then Connects(m, o, m')
      else if o.r == 0 then m' == m1
      else ShowsAndEnters(m, m', NOCARRIER, CMD) && m'.link.sock == o.call.sock
  {
    var m1 := m.WithCall(o.call);
    assert m1.hist == m.hist && m1.link.sock == o.call.sock;
    if o.r == 1 {
      ToOnline(rom, m1);
    } else if o.r == -1 {
      ToCmd(rom, m1, NOCARRIER);
    }
  }

  /** A dial going on, with no key to cancel it: it connects, goes on as it is or with another address, or fails. */
  lemma DialEffect(rom: Rom, m: Modem, w: StepWorld)
    requires Inv(m) && m.state == DIAL && (m.appIo || !w.ttyPeek)
    ensures var o := Progress(m.Call(), m.cfg.s7, w.dial); var m' := Step(rom, m, w);
      && -1 <= o.r <= 1
      && if o.r == 1 then Connects(m, o, m')
         else if o.r == 0 then m' == m.WithCall(o.call)
         else ShowsAndEnters(m, m', NOCARRIER, CMD) && m'.link.sock == o.call.sock
  {
    ProgressPromises(m.Call(), m.cfg.s7, w.dial);
    EndDialEffect(rom, m, Progress(m.Call(), m.cfg.s7, w.dial));
  }

  /** ATO goes back online on a live connection and is NO CARRIER without one. */
  lemma AtoEffect(rom: Rom, m: Modem, w: StepWorld)
    requires m.state == CMD
    ensures var m' := CmdAct(rom, Dispatched(m, StAto), w);
      if m.link.sock.alive then m'.state == ONLINE && m'.link.sock == m.link.sock
      else ShowsOnly(m, m', NOCARRIER)
  {
    ToOnline(rom, m);
  }

  /** ATA is an error on a live connection and without a listener; with a caller waiting it answers, and otherwise it
      waits if S7 is not zero. */
  lemma AtaEffect(rom: Rom, m: Modem, w: StepWorld)
    requires m.state == CMD
    ensures var m' := CmdAct(rom, Dispatched(m, StAta), w);
      if m.link.sock.alive || !m.answer.listener then ShowsOnly(m, m', ERROR)
      else if w.waiting && w.accept > 0 then
        m'.state == ONLINE && m'.link.sock.fd == w.accept && m'.link.sock.alive && m'.cfg.s1 == 0
      else if w.waiting || m.cfg.s7 == 0 then ShowsOnly(m, m', NOCARRIER)
      else m'.state == ANSWER && m'.answer.deadline.Micros() == w.answerNow.Micros() + m.cfg.s7 * 1_000_000
  {
    ToAnswer(m, w.answerNow);
    if w.accept > 0 {
      ToOnline(rom, Adopt(m, w.accept));
    }
  }

  /** The end of input, or a quit whose text has gone out, ends the run. */
  lemma ClosedEffect(rom: Rom, m: Modem, w: StepWorld)
    ensures CmdAct(rom, Dispatched(m, StPtyClosed), w).state == DONE
  {
  }

  // ---------------------------------------------------------------- command lines

  /** A finished line goes to the lexer once, with the settings of that moment, and its outcome is shown: OK for OK,
      ERROR for an error, and nothing for a call, which is passed on, or for a line that is no command. */
  lemma LineEffect(rom: Rom, m: Modem)
    requires m.eol
    ensures var o := rom.lex(m.cfg, m.nv, m.cmd); var d := DispatchIfReady(rom, m);
      && d.m.lines == m.lines + [m.cmd] && d.m.cmd == [] && !d.m.eol
      && d.m.cfg == o.cfg && d.m.nv == o.nv && d.m.quitReq == (m.quitReq || o.quit)
      && d.m.hist == m.hist + (if o.stat == StOk then [Shown(OK)] else if o.stat == StError then [Shown(ERROR)] else [])
      && d.stat == (if o.stat == StAtd || o.stat == StAto || o.stat == StAta then o.stat else StOk)
  {
    assert m.hist + [] == m.hist;
  }

  /** In PTY mode a finished line is handled as soon as the TTY can be written, before anything more is read. */
  lemma PtyLineEffect(rom: Rom, m: Modem, w: World)
    requires !m.appIo && m.eol && w.ev.ttyOut && (m.link.tty.pending == [] || w.wrote > 0)
    ensures var o := rom.lex(m.cfg, m.nv, m.cmd); var d := CmdIter(rom, m, w);
      && d.m.lines == m.lines + [m.cmd] && d.m.cfg == o.cfg && d.m.nv == o.nv
      && d.m.hist == m.hist + (if o.stat == StOk then [Shown(OK)] else if o.stat == StError then [Shown(ERROR)] else [])
      && (o.stat == StAtd || o.stat == StAto || o.stat == StAta ==> d.stat == o.stat && d.m.cmd == [] && !d.m.eol)
  {
    var m0 := m.(link := m.link.(tty := m.link.tty.Write(w.wrote)));
    LineEffect(rom, m0);
    var d := DispatchIfReady(rom, m0);
    if d.stat == StOk && w.ev.ttyIn && w.read != [] {
      ReadLoopHistory(d.m.(link := d.m.link.(unread := w.read, prevT := d.m.link.newT, newT := w.readAt)));
    }
  }

  /** Reading keys finishes at most one line; it handles none. */
  lemma {:induction false} ReadLoopHistory(m: Modem)
    ensures var m' := CmdReadLoop(m);
      m'.lines == m.lines && m'.hist == m.hist && m'.cfg == m.cfg && m'.nv == m.nv && m'.state == m.state
    decreases |m.link.unread|
  {
    if m.link.unread != [] {
      var (m1, stop) := CmdReadByte(m.(link := m.link.(unread := m.link.unread[1..])), m.link.unread[0]);
      if !stop {
        ReadLoopHistory(m1);
      }
    }
  }

  /** A line that hangs up or quits closes the connection there is; any other keeps it. One that changes what is to be
      negotiated has the requests sent again on the way back online. */
  lemma LineAndCall(rom: Rom, m: Modem)
    requires Inv(m) && m.state == CMD && m.eol
    ensures var o := rom.lex(m.cfg, m.nv, m.cmd); var m' := DispatchIfReady(rom, m).m;
      && (o.hangup || o.quit ==> !m'.link.sock.alive && m'.link.sock.open == 0)
      && (!o.hangup && !o.quit ==> m'.link.sock == m.link.sock)
      && m'.link.tel == m.link.tel.(sentReqs := m.link.tel.sentReqs && !o.renegotiate)
  {
    CloseKeeps(m.link.sock);
    var o, text := rom.lex(m.cfg, m.nv, m.cmd), rom.shows(m.cfg, m.nv, m.link.tel.table, m.cmd);
    var m1 := ResetCmd(ApplyLex(m.(lines := m.lines + [m.cmd]), o, text));
    assert Show(rom, m1, OK).link == m1.link.(tty := Show(rom, m1, OK).link.tty);
    assert Show(rom, m1, ERROR).link == m1.link.(tty := Show(rom, m1, ERROR).link.tty);
  }

  // ---------------------------------------------------------------- keys in command mode

  /** Each key, by its kind. The first Ctrl-C clears the line and is not echoed, a second one right after it quits; a
      carriage return finishes the line; a backspace takes the last byte off; other control characters are only echoed;
      any other byte is added while fewer than 255 are there. */
  lemma KeyEffect(m: Modem, c: Byte)
    ensures var (m', stop) := CmdReadByte(m, c);
      if c == 3 then
        && m'.link.tty == m.link.tty && stop == m.intrArmed && m'.intrArmed == !m.intrArmed
        && m'.quitReq == (m.quitReq || m.intrArmed)
        && (!m.intrArmed ==> m'.cmd == [] && !m'.eol) && (m.intrArmed ==> m'.cmd == m.cmd && m'.eol == m.eol)
      else
        && m'.link.tty == m.link.tty.Put(c) && !m'.intrArmed && m'.quitReq == m.quitReq
        && stop == (c == m.cfg.s3) && m'.eol == (m.eol || c == m.cfg.s3)
        && m'.cmd == (if c == m.cfg.s3 then m.cmd
                      else if c == m.cfg.s5 then (if m.cmd == [] then [] else m.cmd[..|m.cmd| - 1])
                      else if c < 32 || c == 127 || |m.cmd| >= 255 then m.cmd
                      else m.cmd + [c])
  {
  }

  // ---------------------------------------------------------------- ringing

  /** Whether a caller is announced now: S1 is zero, or six seconds have passed since the last RING. */
  ghost predicate RingTime(m: Modem, now: Timeval) {
    m.cfg.s1 == 0 || (LastRingOf(m.hist).At? && now.Micros() >= LastRingOf(m.hist).t.Micros() + 6_000_000)
  }

  /** RING has been shown, and counted. */
  ghost predicate Announces(rom: Rom, m: Modem, m1: Modem, now: Timeval) {
    && m1.hist == m.hist + [Rang(now, m.cfg.s1)]
    && m1.link.tty == m.link.tty.PutN(rom.text(m.cfg, RING))
    && m1.answer.rings == (if m.answer.rings < 255 then m.answer.rings + 1 else m.answer.rings)
  }

  lemma RingDueExactly(m: Modem, w: StepWorld)
    requires Inv(m) && w.ringNow.Normal() && (LastRingOf(m.hist).At? ==> LastRingOf(m.hist).t.Normal())
    requires m.answer.listener && !m.link.sock.alive && w.ringing && (m.cfg.s1 == 0 || LastRingOf(m.hist).At?)
    ensures RingDue(m, w) <==> RingTime(m, w.ringNow)
  {
  }

  /** A check in command mode, exactly. With a listener and no connection, a caller is announced by RING when it is
      time; a caller who is gone clears S1 and the ring count; otherwise nothing happens. */
  lemma CheckEffect(rom: Rom, m: Modem, w: StepWorld)
    requires Inv(m) && m.state == CMD && w.ringNow.Normal()
    requires LastRingOf(m.hist).At? ==> LastRingOf(m.hist).t.Normal()
    ensures var m1 := RingCheck(rom, m, w).0;
      && (!m.answer.listener || m.link.sock.alive ==> m1 == m)
      && (m.answer.listener && !m.link.sock.alive && !w.ringing ==> m1.cfg.s1 == 0 && m1.answer.rings == 0)
      && (m.answer.listener && !m.link.sock.alive && w.ringing && (m.cfg.s1 == 0 || LastRingOf(m.hist).At?) ==>
            if RingTime(m, w.ringNow) then Announces(rom, m, m1, w.ringNow) else m1 == m)
  {
    if m.answer.listener && !m.link.sock.alive && w.ringing && (m.cfg.s1 == 0 || LastRingOf(m.hist).At?) {
      RingDueExactly(m, w);
      CallerEffect(rom, m, w);
    }
  }

  lemma CallerEffect(rom: Rom, m: Modem, w: StepWorld)
    requires m.answer.listener && !m.link.sock.alive && w.ringing
    ensures var m1 := RingCheck(rom, m, w).0;
      if RingDue(m, w) then Announces(rom, m, m1, w.ringNow) else m1 == m
  {
  }

  /** Once the modem listens, the next check announces a caller, and ATA waits for one. */
  lemma ListenEffect(rom: Rom, m: Modem, w: StepWorld)
    requires m.state == CMD && !m.link.sock.alive
    ensures var m0 := Do(rom, m, CallListen);
      && m0.state == CMD && m0.link == m.link && m0.cfg == m.cfg && m0.hist == m.hist
      && (w.ringing && m.cfg.s1 == 0 ==> RingCheck(rom, m0, w).0.hist == m.hist + [Rang(w.ringNow, 0)])
      && (!w.waiting && m.cfg.s7 > 0 ==> CmdAct(rom, Dispatched(m0, StAta), w).state == ANSWER)
  {
    var m0 := Do(rom, m, CallListen);
    if w.ringing && m.cfg.s1 == 0 {
      CallerEffect(rom, m0, w);
    }
  }

  /** The RING that makes S1 reach S0 is answered: the caller is adopted, with S1 back at zero, and the modem is
      online. */
  lemma RingAnswered(rom: Rom, m: Modem, w: StepWorld)
    requires Inv(m) && w.ringNow.Normal() && (LastRingOf(m.hist).At? ==> LastRingOf(m.hist).t.Normal())
    requires m.state == CMD && m.answer.listener && !m.link.sock.alive && w.ringing && w.ringAccept > 0
    requires RingTime(m, w.ringNow) && 0 < m.cfg.s0 <= m.cfg.s1 + 1 && m.cfg.s1 < 255
    ensures var m' := Step(rom, m, w);
      m'.state == ONLINE && m'.link.sock.fd == w.ringAccept && m'.link.sock.alive && m'.cfg.s1 == 0
  {
    RingDueExactly(m, w);
    AnsweredCheck(rom, m, w);
    ToOnline(rom, Adopt(Rung(rom, m, w.ringNow), w.ringAccept));
  }

  lemma AnsweredCheck(rom: Rom, m: Modem, w: StepWorld)
    requires RingDue(m, w) && w.ringAccept > 0 && 0 < m.cfg.s0 <= m.cfg.s1 + 1 && m.cfg.s1 < 255
    ensures RingCheck(rom, m, w) == (Adopt(Rung(rom, m, w.ringNow), w.ringAccept), true)
  {
  }
}
