/** Command mode in PTY mode: when what is typed is all that counts, and the reads that spoil it. */
module PtyCommandRuns {
  import opened Wire
  import opened Settings
  import opened Relay
  import opened Machine
  import opened CommandRuns

  // ---------------------------------------------------------------- what has been typed

  /** Where typing has got to, a finished line that is not dispatched yet included. */
  function Pending(rom: Rom, m: Modem): Typist {
    if m.eol then
      var o := rom.lex(m.cfg, m.nv, m.cmd);
      Typist(o.cfg, o.nv, [], m.intrArmed, m.lines + [m.cmd])
    else TypistOf(m)
  }

  lemma DispatchedPending(rom: Rom, m: Modem)
    ensures TypistOf(DispatchIfReady(rom, m).m) == Pending(rom, m)
    ensures var d := DispatchIfReady(rom, m).m; !d.eol && d.link.unread == m.link.unread
    ensures DispatchIfReady(rom, m).m.state == m.state && DispatchIfReady(rom, m).m.appIo == m.appIo
  {
    DispatchTypist(rom, m);
    if m.eol {
      var o, text := rom.lex(m.cfg, m.nv, m.cmd), rom.shows(m.cfg, m.nv, m.link.tel.table, m.cmd);
      assert ResetCmd(ApplyLex(m.(lines := m.lines + [m.cmd]), o, text)).appIo == m.appIo;
    }
  }

  // ---------------------------------------------------------------- one read

  /** A read that finds no finished line waiting and nothing unread, and has nothing after its first carriage return:
      what can be told when the TTY is read. */
  predicate Neat(m: Modem, bytes: seq<Byte>) {
    && !m.eol && m.link.unread == []
    && (bytes != [] ==> m.cfg.s3 !in bytes[..|bytes| - 1])
  }

  /** The loop over a run of bytes, with nothing unread before them. */
  function Reads(m: Modem, bytes: seq<Byte>): Modem {
    CmdReadLoop(m.(link := m.link.(unread := bytes)))
  }

  lemma ReadsFirst(m: Modem, bytes: seq<Byte>)
    requires bytes != []
    ensures var (m1, stop) := CmdReadByte(m.(link := m.link.(unread := bytes[1..])), bytes[0]);
      && Reads(m, bytes) == (if stop then m1 else CmdReadLoop(m1))
      && m1.link.unread == bytes[1..]
  {
  }

  lemma ByteKeepsSettings(m: Modem, c: Byte)
    ensures var m1 := CmdReadByte(m, c).0;
      m1.cfg == m.cfg && m1.nv == m.nv && m1.lines == m.lines && m1.state == m.state && m1.appIo == m.appIo
      && m1.answer == m.answer
  {
  }

  /** A neat read types its bytes, and leaves nothing unread. */
  lemma {:induction false} NeatReadTypes(rom: Rom, m: Modem, bytes: seq<Byte>)
    requires Neat(m, bytes) && !Reads(m, bytes).quitReq
    ensures var m' := Reads(m, bytes);
      && m'.link.unread == []
      && Pending(rom, m') == TypeAll(rom, TypistOf(m), bytes)
      && m'.state == m.state && m'.appIo == m.appIo && m'.answer == m.answer
    decreases |bytes|
  {
    if bytes == [] {
    } else {
      var c, rest := bytes[0], bytes[1..];
      var m0 := m.(link := m.link.(unread := rest));
      var (m1, stop) := CmdReadByte(m0, c);
      ReadsFirst(m, bytes);
      ByteKeepsSettings(m0, c);
      ReadByteTypes(rom, m0, c);
      if stop {
        LastByte(rom, m, bytes);
      } else {
        var m2 := m1.(link := m1.link.(unread := []));
        assert m1 == m2.(link := m2.link.(unread := rest));
        NeatRest(m, bytes);
        NeatReadTypes(rom, m2, rest);
      }
    }
  }

  lemma NeatRest(m: Modem, bytes: seq<Byte>)
    requires bytes != [] && m.cfg.s3 !in bytes[..|bytes| - 1]
    ensures bytes[1..] != [] ==> m.cfg.s3 !in bytes[1..][..|bytes| - 2]
  {
    if bytes[1..] != [] {
      assert bytes[..|bytes| - 1] == [bytes[0]] + bytes[1..][..|bytes| - 2];
    }
  }

  /** A byte that ends the loop without a second Ctrl-C is a carriage return, and the last of a neat read. */
  lemma LastByte(rom: Rom, m: Modem, bytes: seq<Byte>)
    requires Neat(m, bytes) && bytes != []
    requires var (m1, stop) := CmdReadByte(m.(link := m.link.(unread := bytes[1..])), bytes[0]); stop && !m1.quitReq
    ensures var m1 := CmdReadByte(m.(link := m.link.(unread := bytes[1..])), bytes[0]).0;
      m1.link.unread == [] && Pending(rom, m1) == TypeAll(rom, TypistOf(m), bytes)
  {
    assert bytes[0] == m.cfg.s3;
    FirstIsLast(bytes, m.cfg.s3);
  }

  lemma FirstIsLast(bytes: seq<Byte>, cr: Byte)
    ensures bytes != [] && bytes[0] == cr && cr !in bytes[..|bytes| - 1] ==> bytes[1..] == []
  {
    if |bytes| > 1 {
      assert bytes[..|bytes| - 1][0] == bytes[0];
    }
  }

  // ---------------------------------------------------------------- runs

  /** The read that a step makes of the TTY, if any: the dispatch before it did not end the step, and the TTY is
      readable and gives bytes. */
  function ReadPoint(rom: Rom, m: Modem, w: World): Dispatched {
    if w.ev.ttyOut then CmdWritable(rom, m, w) else Dispatched(m, StOk)
  }

  predicate ReadsNow(rom: Rom, m: Modem, w: World) {
    ReadPoint(rom, m, w).stat == StOk && w.ev.ttyIn && w.read != []
  }

  function ReadBy(rom: Rom, m: Modem, a: Api): seq<Byte> {
    if a.CallStep? && ReadsNow(rom, m, a.w.line) then a.w.line.read else []
  }

  /** A run that stays in command mode, in PTY mode, with no listener and no quit, every read of which is neat. */
  predicate NeatTyping(rom: Rom, m: Modem, calls: seq<Api>)
    decreases |calls|
  {
    && m.state == CMD && !m.appIo && !m.answer.listener && !m.quitReq
    && (calls != [] ==>
          && (calls[0].CallStep? && ReadsNow(rom, m, calls[0].w.line) ==>
                Neat(ReadPoint(rom, m, calls[0].w.line).m, calls[0].w.line.read))
          && NeatTyping(rom, Do(rom, m, calls[0]), calls[1..]))
  }

  /** The bytes read from the TTY, in order. */
  function ReadAll(rom: Rom, m: Modem, calls: seq<Api>): seq<Byte>
    decreases |calls|
  {
    if calls == [] then [] else ReadBy(rom, m, calls[0]) + ReadAll(rom, Do(rom, m, calls[0]), calls[1..])
  }

  lemma WritablePending(rom: Rom, m: Modem, w: World)
    ensures var d := ReadPoint(rom, m, w).m;
      && Pending(rom, d) == Pending(rom, m) && d.link.unread == m.link.unread
      && d.state == m.state && d.appIo == m.appIo
  {
    var m1 := m.(link := m.link.(tty := m.link.tty.Write(w.wrote)));
    DispatchedPending(rom, m1);
  }

  lemma ReadablePending(rom: Rom, m: Modem, w: World)
    requires w.read != [] && Neat(m, w.read) && !CmdReadable(m, w).m.quitReq
    ensures var m' := CmdReadable(m, w).m;
      && Pending(rom, m') == TypeAll(rom, TypistOf(m), w.read) && m'.link.unread == []
      && m'.state == m.state && m'.appIo == m.appIo
  {
    var m1 := m.(link := m.link.(prevT := m.link.newT, newT := w.readAt));
    assert CmdReadable(m, w).m == Reads(m1, w.read);
    NeatReadTypes(rom, m1, w.read);
  }

  /** cmdIter in PTY mode types what a neat read gives it. */
  lemma IterPending(rom: Rom, m: Modem, w: World)
    requires m.link.unread == [] && !CmdIterPty(rom, m, w).m.quitReq
    requires CmdIterPty(rom, m, w).stat != StPtyClosed
    requires ReadsNow(rom, m, w) ==> Neat(ReadPoint(rom, m, w).m, w.read)
    ensures var m', read := CmdIterPty(rom, m, w).m, if ReadsNow(rom, m, w) then w.read else [];
      && Pending(rom, m') == TypeAll(rom, Pending(rom, m), read) && m'.link.unread == []
      && m'.state == m.state && m'.appIo == m.appIo
  {
    var d := ReadPoint(rom, m, w);
    WritablePending(rom, m, w);
    if ReadsNow(rom, m, w) {
      ReadablePending(rom, d.m, w);
      assert Pending(rom, d.m) == TypistOf(d.m);
    }
  }

  lemma CmdActPending(rom: Rom, d: Dispatched, w: StepWorld)
    requires d.m.state == CMD && CmdAct(rom, d, w).state == CMD
    ensures var m' := CmdAct(rom, d, w);
      Pending(rom, m') == Pending(rom, d.m) && m'.link.unread == d.m.link.unread && m'.quitReq == d.m.quitReq
  {
    CmdActSame(rom, d, w);
  }

  lemma StepPending(rom: Rom, m: Modem, w: StepWorld)
    requires NeatTyping(rom, m, [CallStep(w)]) && m.link.unread == []
    ensures var m' := Step(rom, m, w);
      && Pending(rom, m') == TypeAll(rom, Pending(rom, m), ReadBy(rom, m, CallStep(w)))
      && m'.link.unread == []
  {
    var d := CmdIterPty(rom, m, w.line);
    assert [CallStep(w)][0] == CallStep(w) && [CallStep(w)][1..] == [];
    assert Step(rom, m, w).state == CMD && !Step(rom, m, w).quitReq;
    assert RingCheck(rom, m, w) == (m, false);
    assert Step(rom, m, w) == CmdAct(rom, d, w);
    IterState(rom, m, w.line);
    CmdActPending(rom, d, w);
    IterPending(rom, m, w.line);
  }

  lemma IterState(rom: Rom, m: Modem, w: World)
    ensures CmdIterPty(rom, m, w).m.state == m.state
  {
    var d := ReadPoint(rom, m, w);
    WritablePending(rom, m, w);
    ReadLoopState(d.m.(link := d.m.link.(unread := w.read, prevT := d.m.link.newT, newT := w.readAt)));
  }

  lemma NeatTypingFirst(rom: Rom, m: Modem, calls: seq<Api>)
    requires NeatTyping(rom, m, calls) && calls != []
    ensures NeatTyping(rom, m, [calls[0]])
  {
    assert [calls[0]][1..] == [];
    assert NeatTyping(rom, Do(rom, m, calls[0]), calls[1..]);
  }

  lemma CallPending(rom: Rom, m: Modem, a: Api)
    requires NeatTyping(rom, m, [a]) && m.link.unread == []
    ensures var m' := Do(rom, m, a);
      && Pending(rom, m') == TypeAll(rom, Pending(rom, m), ReadBy(rom, m, a)) && m'.link.unread == []
  {
    match a
    case CallStep(w) => StepPending(rom, m, w);
    case _ =>
  }

  /** Chunk invariance in PTY mode. If every read finds no line waiting for its dispatch and nothing unread, and has
      nothing after its first carriage return, typing is a fold over the bytes read: the lines dispatched and the one
      that waits, the line being typed, the settings and the Ctrl-C latch, however reads and writes fall. */
  lemma {:induction false} PtyChunkInvariant(rom: Rom, m: Modem, calls: seq<Api>)
    requires NeatTyping(rom, m, calls) && m.link.unread == []
    ensures var m' := Run(rom, m, calls);
      && Pending(rom, m') == TypeAll(rom, Pending(rom, m), ReadAll(rom, m, calls))
      && m'.link.unread == []
    decreases |calls|
  {
    if calls == [] {
    } else {
      var m1 := Do(rom, m, calls[0]);
      NeatTypingFirst(rom, m, calls);
      CallPending(rom, m, calls[0]);
      PtyChunkInvariant(rom, m1, calls[1..]);
      TypeConcat(rom, Pending(rom, m), ReadBy(rom, m, calls[0]), ReadAll(rom, m1, calls[1..]));
    }
  }

  // ---------------------------------------------------------------- reads that are not neat

  /** Nothing after the first carriage return, exactly: what follows it stays unread, so a read leaves nothing unread if
      and only if nothing follows (no Ctrl-C ending the loop). */
  lemma {:induction false} LeavesRest(m: Modem, bytes: seq<Byte>)
    requires ETX !in bytes && m.cfg.s3 != ETX && bytes != []
    ensures Reads(m, bytes).link.unread == [] <==> m.cfg.s3 !in bytes[..|bytes| - 1]
    decreases |bytes|
  {
    var c, rest := bytes[0], bytes[1..];
    var m0 := m.(link := m.link.(unread := rest));
    var (m1, stop) := CmdReadByte(m0, c);
    ReadsFirst(m, bytes);
    ByteKeepsSettings(m0, c);
    if c == m.cfg.s3 {
      if rest != [] {
        assert bytes[..|bytes| - 1][0] == c;
      }
    } else if rest != [] {
      var m2 := m1.(link := m1.link.(unread := []));
      assert m1 == m2.(link := m2.link.(unread := rest));
      LeavesRest(m2, rest);
      SplitFirst(bytes, m.cfg.s3);
    }
  }

  lemma SplitFirst(bytes: seq<Byte>, cr: Byte)
    requires |bytes| > 1 && bytes[0] != cr
    ensures cr in bytes[..|bytes| - 1] <==> cr in bytes[1..][..|bytes| - 2]
  {
    assert bytes[..|bytes| - 1] == [bytes[0]] + bytes[1..][..|bytes| - 2];
  }

  /** Nothing unread, exactly: a read overwrites what is unread, whatever it was. */
  lemma ReadOverwrites(m: Modem, w: World)
    requires w.read != []
    ensures CmdReadable(m, w) == CmdReadable(m.(link := m.link.(unread := [])), w)
  {
  }

  /** The editing of a line by bytes that neither end it nor are Ctrl-C. */
  function EditAll(cmd: seq<Byte>, cfg: Atcmd, bytes: seq<Byte>): seq<Byte>
    decreases |bytes|
  {
    if bytes == [] then cmd else EditAll(EditCmd(cmd, cfg, bytes[0]), cfg, bytes[1..])
  }

  /** No line waiting, exactly: with a finished line waiting for its dispatch, which waits until the TTY can be written,
      a read edits that very line, so that it is dispatched as edited instead of as it was finished. */
  lemma {:induction false} WaitingLineEdited(rom: Rom, m: Modem, bytes: seq<Byte>)
    requires m.eol && ETX !in bytes && m.cfg.s3 !in bytes && m.cfg.s3 != ETX
    ensures var m' := Reads(m, bytes);
      && m'.eol && m'.cmd == EditAll(m.cmd, m.cfg, bytes)
      && m'.lines == m.lines && m'.cfg == m.cfg && m'.nv == m.nv
      && Pending(rom, m').lines == m.lines + [EditAll(m.cmd, m.cfg, bytes)]
    decreases |bytes|
  {
    if bytes == [] {
    } else {
      var c, rest := bytes[0], bytes[1..];
      var m0 := m.(link := m.link.(unread := rest));
      var m1 := CmdReadByte(m0, c).0;
      ReadsFirst(m, bytes);
      ByteKeepsSettings(m0, c);
      var m2 := m1.(link := m1.link.(unread := []));
      assert m1 == m2.(link := m2.link.(unread := rest));
      WaitingLineEdited(rom, m2, rest);
    }
  }

  lemma {:induction false} EditTypes(rom: Rom, t: Typist, bytes: seq<Byte>)
    requires ETX !in bytes && t.cfg.s3 !in bytes && t.cfg.s3 != ETX
    ensures TypeAll(rom, t, bytes).lines == t.lines
    decreases |bytes|
  {
    if bytes == [] {
    } else {
      EditTypes(rom, TypeByte(rom, t, bytes[0]), bytes[1..]);
    }
  }

  /** So, if its dispatch leaves the carriage return key alone, the lines come out as the fold has them if and only if
      the bytes leave the waiting line as it was. */
  lemma WaitingLineExact(rom: Rom, m: Modem, bytes: seq<Byte>)
    requires m.eol && ETX !in bytes && m.cfg.s3 !in bytes && m.cfg.s3 != ETX
    requires rom.lex(m.cfg, m.nv, m.cmd).cfg.s3 == m.cfg.s3
    ensures Pending(rom, Reads(m, bytes)).lines == TypeAll(rom, Pending(rom, m), bytes).lines <==>
            EditAll(m.cmd, m.cfg, bytes) == m.cmd
  {
    WaitingLineEdited(rom, m, bytes);
    EditTypes(rom, Pending(rom, m), bytes);
    var edited := EditAll(m.cmd, m.cfg, bytes);
    assert (m.lines + [edited])[|m.lines|] == edited && (m.lines + [m.cmd])[|m.lines|] == m.cmd;
  }

  /** The smallest case: a line waits, and the next read brings a printable byte and a carriage return before the TTY
      can be written. Nothing follows a carriage return in either read, and yet the two lines become one. */
  lemma LinesMerge(rom: Rom, m: Modem, w: World, c: Byte)
    requires m.eol && !m.quitReq && |m.cmd| < CMDBUF_MAX
    requires c != ETX && c != m.cfg.s3 && c != m.cfg.s5 && SPACE <= c && c != DEL && m.cfg.s3 != ETX
    requires !w.ev.ttyOut && w.ev.ttyIn && w.read == [c, m.cfg.s3]
    ensures var m' := CmdIterPty(rom, m, w).m; m'.cmd == m.cmd + [c] && m'.eol && m'.lines == m.lines
  {
    var m1 := m.(link := m.link.(prevT := m.link.newT, newT := w.readAt));
    var m2 := CmdReadByte(m1.(link := m1.link.(unread := [m.cfg.s3])), c).0;
    ReadsFirst(m1, w.read);
    assert w.read[1..] == [m.cfg.s3];
    var m3 := m2.(link := m2.link.(unread := []));
    ReadsFirst(m3, [m.cfg.s3]);
    assert m2 == m3.(link := m3.link.(unread := [m.cfg.s3]));
    assert CmdReadable(m, w).m == Reads(m1, w.read) == Reads(m3, [m.cfg.s3]);
  }
}
