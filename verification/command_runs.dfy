/** Command mode in app-I/O: what is typed is all that counts, not how it arrives. */
module CommandRuns {
  import opened Wire
  import opened Settings
  import opened Fifo
  import opened Dial
  import opened Machine

  /** What typing changes: settings, the command line, the Ctrl-C latch and the lines dispatched so far. */
  datatype Typist = Typist(cfg: Atcmd, nv: Atcmd, cmd: seq<Byte>, armed: bool, lines: seq<seq<Byte>>)

  function TypistOf(m: Modem): Typist { Typist(m.cfg, m.nv, m.cmd, m.intrArmed, m.lines) }

  /** One byte typed, with a finished line dispatched at once. */
  function TypeByte(rom: Rom, t: Typist, c: Byte): Typist {
    if c == ETX then (if t.armed then t.(armed := false) else t.(armed := true, cmd := []))
    else if c == t.cfg.s3 then
      var o := rom.lex(t.cfg, t.nv, t.cmd);
      Typist(o.cfg, o.nv, [], false, t.lines + [t.cmd])
    else t.(armed := false, cmd := EditCmd(t.cmd, t.cfg, c))
  }

  function TypeAll(rom: Rom, t: Typist, bytes: seq<Byte>): Typist
    decreases |bytes|
  {
    if bytes == [] then t else TypeAll(rom, TypeByte(rom, t, bytes[0]), bytes[1..])
  }

  lemma {:induction false} TypeConcat(rom: Rom, t: Typist, a: seq<Byte>, b: seq<Byte>)
    ensures TypeAll(rom, t, a + b) == TypeAll(rom, TypeAll(rom, t, a), b)
    decreases |a|
  {
    if a == [] {
      assert a + b == b;
    } else {
      TypeConcat(rom, TypeByte(rom, t, a[0]), a[1..], b);
      assert (a + b)[1..] == a[1..] + b;
    }
  }

  /** Where typing will have got to once the unread bytes are handled. */
  function Ahead(rom: Rom, m: Modem): Typist {
    TypeAll(rom, TypistOf(m), m.link.unread)
  }

  lemma DispatchTypist(rom: Rom, m: Modem)
    ensures var d := DispatchIfReady(rom, m);
      && d.m.link.unread == m.link.unread && !d.m.eol
      && (!m.eol ==> d == Dispatched(m, StOk))
      && (m.eol ==>
            var o := rom.lex(m.cfg, m.nv, m.cmd);
            TypistOf(d.m) == Typist(o.cfg, o.nv, [], m.intrArmed, m.lines + [m.cmd]))
      && (m.quitReq ==> d.m.quitReq) && d.m.state == m.state
  {
    if m.eol {
      var text := rom.shows(m.cfg, m.nv, m.link.tel.table, m.cmd);
      var m1 := ResetCmd(ApplyLex(m.(lines := m.lines + [m.cmd]), rom.lex(m.cfg, m.nv, m.cmd), text));
      assert m1.link.unread == m.link.unread && m1.state == m.state;
    }
  }

  /** One byte of the loop types one byte, or leaves it to the dispatch that follows. */
  lemma ReadByteTypes(rom: Rom, m: Modem, c: Byte)
    requires !m.eol
    ensures var (m1, stop) := CmdReadByte(m, c);
      && m1.link.unread == m.link.unread
      && (m.quitReq ==> m1.quitReq)
      && (!stop ==> !m1.eol && m1.quitReq == m.quitReq && TypistOf(m1) == TypeByte(rom, TypistOf(m), c))
      && (stop && !m1.quitReq ==> m1.eol)
  {
  }

  lemma LastByteTypes(rom: Rom, m: Modem, c: Byte)
    requires !m.eol && CmdReadByte(m, c).1 && !CmdReadByte(m, c).0.quitReq
    ensures TypistOf(DispatchIfReady(rom, CmdReadByte(m, c).0).m) == TypeByte(rom, TypistOf(m), c)
  {
    DispatchTypist(rom, CmdReadByte(m, c).0);
  }

  /** cmdReadLoop, then the dispatch that follows it, handle a prefix of the unread bytes. */
  lemma {:induction false} ReadLoopAhead(rom: Rom, m: Modem)
    requires !m.eol
    ensures var m1 := CmdReadLoop(m);
      && (m.quitReq ==> m1.quitReq)
      && (!m1.quitReq && !m1.eol ==> m1.link.unread == [])
      && (!m1.quitReq ==> Ahead(rom, DispatchIfReady(rom, m1).m) == Ahead(rom, m))
    decreases |m.link.unread|
  {
    if m.link.unread == [] {
    } else {
      var c, m0 := m.link.unread[0], m.(link := m.link.(unread := m.link.unread[1..]));
      var (m1, stop) := CmdReadByte(m0, c);
      ReadByteTypes(rom, m0, c);
      if !stop {
        ReadLoopAhead(rom, m1);
      } else if !m1.quitReq {
        LastByteTypes(rom, m0, c);
        DispatchTypist(rom, m1);
      }
    }
  }

  lemma CmdLoopAhead(rom: Rom, m: Modem)
    requires !m.eol
    ensures var d := CmdLoop(rom, m);
      && (m.quitReq ==> d.m.quitReq) && !d.m.eol
      && (!d.m.quitReq ==> Ahead(rom, d.m) == Ahead(rom, m))
      && (!d.m.quitReq && d.stat == StOk ==> d.m.link.unread == [])
  {
    CmdLoopAheadEol(rom, m);
    assert DispatchIfReady(rom, m) == Dispatched(m, StOk);
  }

  /** The same from the middle of cmdIter, where a line may be waiting. */
  lemma {:induction false} CmdLoopAheadEol(rom: Rom, m: Modem)
    ensures var d := CmdLoop(rom, m);
      && (m.quitReq ==> d.m.quitReq) && !d.m.eol
      && (!d.m.quitReq ==> Ahead(rom, d.m) == Ahead(rom, DispatchIfReady(rom, m).m))
      && (!d.m.quitReq && d.stat == StOk ==> d.m.link.unread == [])
    decreases |m.link.unread|
  {
    var d := DispatchIfReady(rom, m);
    var (t, over) := CmdTurn(d);
    DispatchTypist(rom, m);
    TurnAhead(rom, d);
    if !over {
      CmdLoopAheadEol(rom, t.m);
    }
  }

  lemma TurnAhead(rom: Rom, d: Dispatched)
    requires !d.m.eol
    ensures var (t, over) := CmdTurn(d);
      && (d.m.quitReq ==> t.m.quitReq)
      && (!t.m.quitReq ==> Ahead(rom, DispatchIfReady(rom, t.m).m) == Ahead(rom, d.m))
      && (over ==> !t.m.eol)
      && (over && !t.m.quitReq && t.stat == StOk ==> t.m.link.unread == [])
      && (!over ==> |t.m.link.unread| < |d.m.link.unread| && t.stat == StOk)
  {
    if d.stat == StOk && !(d.m.quitReq && !d.m.link.tty.HasData()) && d.m.link.unread != [] {
      ReadLoopAhead(rom, d.m);
    }
  }

  /** Nothing that typing depends on has changed. */
  ghost predicate SameTyping(m: Modem, m': Modem) {
    && TypistOf(m') == TypistOf(m) && m'.link.unread == m.link.unread
    && m'.eol == m.eol && m'.quitReq == m.quitReq
  }

  lemma AfterStartSame(rom: Rom, m: Modem, o: Outcome)
    requires m.state == CMD && AfterStart(rom, m, o).state == CMD
    ensures SameTyping(m, AfterStart(rom, m, o))
  {
    assert o.r != 1 && o.r != 0;
  }

  lemma OnAtdSame(rom: Rom, m: Modem, w: StepWorld)
    requires m.state == CMD && OnAtd(rom, m, w).state == CMD
    ensures SameTyping(m, OnAtd(rom, m, w))
  {
    if !m.link.sock.alive {
      var m1 := FreshCall(m);
      AfterStartSame(rom, m1, Start(m1.Call(), w.found, m1.cfg.s7, w.dial));
    }
  }

  lemma OnAtaSame(rom: Rom, m: Modem, w: StepWorld)
    requires m.state == CMD && OnAta(rom, m, w).state == CMD
    ensures SameTyping(m, OnAta(rom, m, w))
  {
  }

  /** What m2k_step does with ATD, ATO and ATA leaves typing alone unless it leaves command mode. */
  lemma CmdActSame(rom: Rom, d: Dispatched, w: StepWorld)
    requires d.m.state == CMD && CmdAct(rom, d, w).state == CMD
    ensures SameTyping(d.m, CmdAct(rom, d, w))
  {
    match d.stat
    case StAtd => OnAtdSame(rom, d.m, w);
    case StAto =>
    case StAta => OnAtaSame(rom, d.m, w);
    case _ =>
  }

  // ---------------------------------------------------------------- runs

  /** A run that stays in command mode, in app-I/O, with no listener and no quit. */
  predicate Typing(rom: Rom, m: Modem, calls: seq<Api>)
    decreases |calls|
  {
    && m.state == CMD && m.appIo && !m.answer.listener && !m.quitReq
    && (calls != [] ==> Typing(rom, Do(rom, m, calls[0]), calls[1..]))
  }

  function AcceptedBy(m: Modem, a: Api): seq<Byte> {
    match a
    case CallWrite(bytes, _) => bytes[..WriteFromApp(m.link.unread, bytes).consumed]
    case _ => []
  }

  /** The bytes m2k_write_from_app accepted, in order. */
  function Accepted(rom: Rom, m: Modem, calls: seq<Api>): seq<Byte>
    decreases |calls|
  {
    if calls == [] then [] else AcceptedBy(m, calls[0]) + Accepted(rom, Do(rom, m, calls[0]), calls[1..])
  }

  lemma StepAhead(rom: Rom, m: Modem, w: StepWorld)
    requires m.state == CMD && m.appIo && !m.answer.listener && !m.eol
    requires Step(rom, m, w).state == CMD && !Step(rom, m, w).quitReq
    ensures Ahead(rom, Step(rom, m, w)) == Ahead(rom, m) && !Step(rom, m, w).eol
  {
    var d := CmdLoop(rom, m);
    CmdLoopAhead(rom, m);
    CmdLoopState(rom, m);
    assert RingCheck(rom, m, w) == (m, false);
    assert Step(rom, m, w) == CmdAct(rom, d, w);
    CmdActSame(rom, d, w);
  }

  lemma ReadByteState(m: Modem, c: Byte)
    ensures CmdReadByte(m, c).0.state == m.state
  {
  }

  lemma {:induction false} ReadLoopState(m: Modem)
    ensures CmdReadLoop(m).state == m.state
    decreases |m.link.unread|
  {
    if m.link.unread == [] {
    } else {
      var m0 := m.(link := m.link.(unread := m.link.unread[1..]));
      ReadByteState(m0, m.link.unread[0]);
      ReadLoopState(CmdReadByte(m0, m.link.unread[0]).0);
    }
  }

  lemma {:induction false} CmdLoopState(rom: Rom, m: Modem)
    ensures CmdLoop(rom, m).m.state == m.state
    decreases |m.link.unread|
  {
    var d := DispatchIfReady(rom, m);
    var (t, over) := CmdTurn(d);
    DispatchTypist(rom, m);
    ReadLoopState(d.m);
    if !over {
      CmdLoopState(rom, t.m);
    }
  }

  lemma DoAhead(rom: Rom, m: Modem, a: Api)
    requires Typing(rom, m, [a]) && !m.eol
    ensures Ahead(rom, Do(rom, m, a)) == TypeAll(rom, Ahead(rom, m), AcceptedBy(m, a))
    ensures !Do(rom, m, a).eol
  {
    assert [a][1..] == [];
    match a
    case CallStep(w) => StepAhead(rom, m, w);
    case CallWrite(bytes, now) =>
      var take := bytes[..WriteFromApp(m.link.unread, bytes).consumed];
      TypeConcat(rom, TypistOf(m), m.link.unread, take);
      assert Do(rom, m, a).link.unread == m.link.unread + take;
    case _ =>
  }

  /** Chunk invariance. Typing is a fold over the accepted bytes: at any moment of such a run the lines dispatched, the
      line being typed, the settings and the Ctrl-C latch, once the unread bytes are handled, are what typing the
      accepted bytes one by one gives, however writes and steps cut them. */
  lemma {:induction false} ChunkInvariant(rom: Rom, m: Modem, calls: seq<Api>)
    requires Typing(rom, m, calls) && !m.eol
    ensures var m' := Run(rom, m, calls);
      && !m'.eol
      && Ahead(rom, m') == TypeAll(rom, TypistOf(m), m.link.unread + Accepted(rom, m, calls))
    decreases |calls|
  {
    TypeConcat(rom, TypistOf(m), m.link.unread, Accepted(rom, m, calls));
    if calls != [] {
      var m1 := Do(rom, m, calls[0]);
      TypingFirst(rom, m, calls);
      DoAhead(rom, m, calls[0]);
      ChunkInvariant(rom, m1, calls[1..]);
      TypeConcat(rom, TypistOf(m1), m1.link.unread, Accepted(rom, m1, calls[1..]));
      TypeConcat(rom, Ahead(rom, m), AcceptedBy(m, calls[0]), Accepted(rom, m1, calls[1..]));
    }
  }

  lemma TypingFirst(rom: Rom, m: Modem, calls: seq<Api>)
    requires Typing(rom, m, calls) && calls != []
    ensures Typing(rom, m, [calls[0]])
  {
    assert [calls[0]][1..] == [];
    assert Typing(rom, Do(rom, m, calls[0]), calls[1..]);
  }

  /** So two hosts that type the same bytes end with the same lines dispatched and the same line typed, once each has
      let the modem handle what it accepted. */
  lemma SameBytesSameLines(rom: Rom, m: Modem, calls: seq<Api>, others: seq<Api>)
    requires Typing(rom, m, calls) && Typing(rom, m, others) && !m.eol
    requires Accepted(rom, m, calls) == Accepted(rom, m, others)
    requires Run(rom, m, calls).link.unread == [] && Run(rom, m, others).link.unread == []
    ensures TypistOf(Run(rom, m, calls)) == TypistOf(Run(rom, m, others))
  {
    ChunkInvariant(rom, m, calls);
    ChunkInvariant(rom, m, others);
  }
}
