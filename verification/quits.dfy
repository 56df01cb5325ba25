/** How a run ends: a requested quit waits until all that was shown has gone out, and then ends the run. */
module Quits {
  import opened Relay
  import opened Dial
  import opened Machine
  import opened History
  import opened MachineRuns
  import opened FreshCalls

  /** In PTY mode the TTY fails in this step: something cannot be written, or the end of input is read. */
  predicate TtyFails(m: Modem, w: World) {
    !m.appIo && ((w.ev.ttyOut && m.link.tty.pending != [] && w.wrote <= 0) || (w.ev.ttyIn && w.read == []))
  }

  /** A quit is due: it was asked for, and nothing is left to be shown. */
  ghost predicate QuitDue(m: Modem) { m.quitReq && m.link.tty.pending == [] }

  lemma DispatchGoesOn(rom: Rom, m: Modem)
    ensures !DispatchIfReady(rom, m).stat.StPtyClosed? && !DispatchIfReady(rom, m).stat.StError?
  {
  }

  lemma {:induction false} LoopQuits(rom: Rom, m: Modem)
    requires Base(m) && Replay(m.hist) == AtCmd
    ensures var d := CmdLoop(rom, m); d.stat.StPtyClosed? ==> QuitDue(d.m)
    decreases |m.link.unread|
  {
    var d := DispatchIfReady(rom, m);
    var (t, over) := CmdTurn(d);
    DispatchGoesOn(rom, m);
    DispatchSteady(rom, m);
    DispatchKeepsUnread(rom, m);
    if !over {
      TurnSteady(d);
      LoopQuits(rom, t.m);
    }
  }

  /** The connection is given up. */
  predicate HungUp(m: Modem) { !m.link.sock.alive && m.link.sock.open == 0 }

  /** The PTY half, exactly: unless a call begins, the run ends if and only if the TTY fails, which closes the
      connection, or a quit is due. */
  lemma PtyQuits(rom: Rom, m: Modem, w: World)
    requires Base(m) && Replay(m.hist) == AtCmd && !m.appIo
    ensures var d := CmdIterPty(rom, m, w);
      && (d.stat.StPtyClosed? ==> if TtyFails(m, w) then HungUp(d.m) else QuitDue(d.m))
      && (d.stat.StOk? ==> !TtyFails(m, w) && !QuitDue(d.m))
  {
    var d := if w.ev.ttyOut then CmdWritable(rom, m, w) else Dispatched(m, StOk);
    var m1 := m.(link := m.link.(tty := m.link.tty.Write(w.wrote)));
    DispatchGoesOn(rom, m1);
    CmdWritableSteady(rom, m, w);
    if d.stat == StOk {
      CmdReadableSteady(d.m, w);
    }
  }

  lemma IterQuits(rom: Rom, m: Modem, w: World)
    requires Base(m) && Replay(m.hist) == AtCmd
    ensures var d := CmdIter(rom, m, w); d.stat.StPtyClosed? ==> if TtyFails(m, w) then HungUp(d.m) else QuitDue(d.m)
  {
    if m.appIo {
      LoopQuits(rom, m);
    } else {
      PtyQuits(rom, m, w);
    }
  }

  lemma OtherStatesGoOn(rom: Rom, m: Modem, w: StepWorld)
    requires m.state == DIAL || m.state == ANSWER || m.state == ONLINE
    ensures Step(rom, m, w).state != DONE
  {
    match m.state
    case DIAL => DialStepState(rom, m, w);
    case ANSWER => AnswerStepState(rom, m, w);
    case ONLINE => OnlineStepState(rom, m, w);
  }

  lemma StartedGoesOn(rom: Rom, m: Modem, o: Outcome)
    requires m.state == CMD
    ensures AfterStart(rom, m, o).state != DONE
  {
  }

  lemma AtdGoesOn(rom: Rom, m: Modem, w: StepWorld)
    requires m.state == CMD
    ensures OnAtd(rom, m, w).state != DONE
  {
    if !m.link.sock.alive {
      var m1 := FreshCall(m);
      StartedGoesOn(rom, m1, Start(m1.Call(), w.found, m1.cfg.s7, w.dial));
    }
  }

  lemma AtoGoesOn(rom: Rom, m: Modem)
    requires m.state == CMD
    ensures OnAto(rom, m).state != DONE
  {
  }

  lemma CallGoesOn(rom: Rom, d: Dispatched, w: StepWorld)
    requires d.m.state == CMD
    ensures CmdAct(rom, d, w).state == DONE ==> d.stat.StPtyClosed? && CmdAct(rom, d, w) == EnterState(d.m, DONE)
  {
    match d.stat
    case StAtd => AtdGoesOn(rom, d.m, w);
    case StAto => AtoGoesOn(rom, d.m);
    case StAta => OnAtaState(rom, d.m, w);
    case _ =>
  }

  /** No step ends the run unless a quit was asked for and all that was shown has gone out, or the TTY has failed and
      the connection is closed. */
  lemma EndsOnlyDrained(rom: Rom, m: Modem, w: StepWorld)
    requires Inv(m) && m.state != DONE && Step(rom, m, w).state == DONE
    ensures m.state == CMD
    ensures var m' := Step(rom, m, w);
      if TtyFails(RingCheck(rom, m, w).0, w.line) then HungUp(m') else QuitDue(m')
  {
    if m.state != CMD {
      OtherStatesGoOn(rom, m, w);
    } else {
      var m1 := RingCheck(rom, m, w).0;
      RingCheckKeeps(rom, m, w);
      CmdIterSteady(rom, m1, w.line);
      IterQuits(rom, m1, w.line);
      CallGoesOn(rom, CmdIter(rom, m1, w.line), w);
    }
  }

  /** Between lines, with no caller to announce and nothing typed, a requested quit ends the run at once when nothing is
      left to be shown, and otherwise as soon as the host has read it or the TTY has taken it. */
  lemma QuitWaits(rom: Rom, m: Modem, w: StepWorld)
    requires Inv(m) && m.state == CMD && m.quitReq && !m.eol && m.link.unread == []
    requires !m.answer.listener || m.link.sock.alive
    requires !w.line.ev.ttyIn && w.line.wrote > 0
    ensures var m' := Step(rom, m, w);
      var left := if m.appIo || !w.line.ev.ttyOut then |m.link.tty.pending| else |m.link.tty.pending| - w.line.wrote;
      if left <= 0 then m'.state == DONE && m'.link.tty.pending == []
      else m'.state == CMD && |m'.link.tty.pending| == left && m'.hist == m.hist
  {
  }
}
