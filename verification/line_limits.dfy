/** Where line mode falls short: half a byte 255 on the wire, and echo that overruns the TTY buffer. */
module LineLimits {
  import opened Wire
  import opened Settings
  import opened Iac
  import opened Escape
  import opened Relay
  import opened RelayRuns
  import opened LineEditing
  import opened Transparency
  import opened DteSide

  /** A carriage return over a line that ends in half a doubled 255: the peer hears no carriage return. */
  lemma HalfLineCommitted(l: Link, text: seq<Byte>, said: seq<Byte>, cfg: Atcmd)
    requires l.Valid() && !l.out.stop && ModeOf(l, cfg).Line? && Carries(l.out.Stream(), said)
    requires l.line == Doubled(text) + [IAC] && l.unread != [] && l.unread[0] == cfg.s3
    ensures Carries(TtyByte(l, cfg).out.Stream(), said + (text + [LF]))
  {
    TtyByteIs(l, cfg);
    LineCommitStream(l.out, l.line);
    HalfIacEatsCr(text);
    CarriesConcat(l.out.Stream(), said, l.line + [CR, LF], text + [LF]);
  }

  /** What the reference says of a key that leaves `text` and a carriage return after it. */
  lemma TwoKeysTold(t: Told, text: seq<Byte>, cfg: Atcmd, keys: seq<Key>)
    requires |keys| == 2 && keys[0].mode.Line? && keys[1].mode.Line?
    requires keys[0].c != cfg.s3 && EditKey(t.text, cfg, keys[0].c) == text && keys[1].c == cfg.s3
    ensures TellAll(t, cfg, keys).data == t.data + (text + [CR, LF])
  {
    assert keys[..1] == [] + [keys[0]] && keys == keys[..1] + [keys[1]];
    TellAppend(t, cfg, [], keys[0]);
    TellAppend(t, cfg, keys[..1], keys[1]);
  }

  lemma TwoBytes(l: Link, cfg: Atcmd)
    requires l.Valid() && |l.unread| == 2 && ModeOf(l, cfg).Line? && l.unread[0] != cfg.s3
    ensures var l1 := TtyByte(l, cfg); var l2 := TtyByte(l1, cfg);
      && l1.Valid() && l1.out == l.out && ModeOf(l1, cfg).Line? && l1.unread == [l.unread[1]]
      && l1.line == LineKey(l.line, cfg, l.unread[0])
      && |l2.handled| == |l.handled| + 2
      && var keys := l2.handled[|l.handled|..];
      && |keys| == 2 && keys[0].mode.Line? && keys[1].mode.Line?
      && keys[0].c == l.unread[0] && keys[1].c == l.unread[1]
  {
    TtyByteFrame(l, cfg);
    TtyByteIs(l, cfg);
    TtyByteIs(TtyByte(l, cfg), cfg);
  }

  /** Backspace over 255, then carriage return: the reference says text, CR, LF; the peer hears text and LF. */
  lemma BackspaceCutsIac(l: Link, text: seq<Byte>, said: seq<Byte>, cfg: Atcmd)
    requires l.Valid() && !l.out.stop && ModeOf(l, cfg).Line? && Carries(l.out.Stream(), said)
    requires l.line == Doubled(text + [IAC]) && l.unread == [cfg.s5, cfg.s3]
    requires cfg.s5 != cfg.s3 && cfg.s5 != cfg.s4
    ensures var l2 := TtyByte(TtyByte(l, cfg), cfg);
      && Carries(l2.out.Stream(), said + (text + [LF]))
      && |l.handled| <= |l2.handled|
      && TellAll(Told(said, text + [IAC]), cfg, l2.handled[|l.handled|..]).data == said + (text + [CR, LF])
  {
    var l1 := TtyByte(l, cfg);
    TwoBytes(l, cfg);
    DoubledAppend(text, IAC);
    assert (Doubled(text) + [IAC, IAC])[..|Doubled(text)| + 1] == Doubled(text) + [IAC];
    assert l1.line == Doubled(text) + [IAC];
    HalfLineCommitted(l1, text, said, cfg);
    assert (text + [IAC])[..|text|] == text;
    TwoKeysTold(Told(said, text + [IAC]), text, cfg, TtyByte(l1, cfg).handled[|l.handled|..]);
  }

  /** 255 with one byte of the line left, then carriage return: the same. */
  lemma ClipCutsIac(l: Link, text: seq<Byte>, said: seq<Byte>, cfg: Atcmd)
    requires l.Valid() && !l.out.stop && ModeOf(l, cfg).Line? && Carries(l.out.Stream(), said)
    requires l.line == Doubled(text) && |l.line| == LINEBUF_SIZE - 1 && l.unread == [IAC, cfg.s3]
    requires IAC != cfg.s3 && IAC != cfg.s4 && IAC != cfg.s5
    ensures var l2 := TtyByte(TtyByte(l, cfg), cfg);
      && Carries(l2.out.Stream(), said + (text + [LF]))
      && |l.handled| <= |l2.handled|
      && TellAll(Told(said, text), cfg, l2.handled[|l.handled|..]).data == said + (text + [CR, LF])
  {
    var l1 := TtyByte(l, cfg);
    TwoBytes(l, cfg);
    assert l1.line == Doubled(text) + [IAC];
    HalfLineCommitted(l1, text, said, cfg);
    TwoKeysTold(Told(said, text), text, cfg, TtyByte(l1, cfg).handled[|l.handled|..]);
  }

  // ---------------------------------------------------------------- echo

  /** Line mode echoes every byte, whether or not the TTY side is ready. */
  lemma {:induction false} EchoAll(l: Link, cfg: Atcmd)
    requires l.Valid() && !l.out.stop && ModeOf(l, cfg).Line? && cfg.s3 !in l.unread
    ensures TtyLoop(l, cfg).tty == l.tty.PutN(l.unread) && TtyLoop(l, cfg).unread == []
    decreases |l.unread|
  {
    if l.unread == [] {
    } else {
      TtyByteFrame(l, cfg);
      TtyByteIs(l, cfg);
      EchoAll(TtyByte(l, cfg), cfg);
    }
  }

  /** So line mode loses exactly the echo for which there is no room, whatever is typed. */
  lemma EchoOverruns(l: Link, cfg: Atcmd)
    requires l.Valid()
    ensures var l' := TtyLoop(l, cfg); var n := l.tty.Ptr() + |Echo(NewKeys(l, l'), cfg)| - HARD;
      l'.tty.lost == l.tty.lost + if n > 0 then n else 0
  {
    TtyLoopEchoes(l, cfg);
    PutNExact(l.tty, Echo(NewKeys(l, TtyLoop(l, cfg)), cfg));
  }

  lemma OneByteShown(s: Srl, cfg: Atcmd, x: Byte)
    requires s.state.Norm? && x != IAC
    ensures Shown(s, cfg, [x]) == [x]
  {
    var ts := Parse(s, [x]).tokens;
    ParsePrintOne(s, Data(x));
    assert Print(Data(x)) == [x] && ts == [Data(x)];
    assert ts[1..] == [] && DataOf(ts[1..]) == [];
    assert DataOf(ts) == [x] + DataOf(ts[1..]);
  }

  /** And what the peer says may be lost behind it: in app-I/O mode a full buffer of typing, with the TTY side just at
      the soft limit so that poll still asks for the socket, leaves no room for the one byte the peer sends. */
  lemma PeerByteLost(l: Link, cfg: Atcmd, w: World, x: Byte)
    requires l.Valid() && ModeOf(l, cfg).Line? && !l.out.stop && cfg.s3 !in l.unread
    requires |l.unread| == CHUNK && l.tty.Ptr() == SOFT
    requires l.srl.state.Norm? && x != IAC && Relays(l, w)
    requires w.ev == Events(true, false, false, false) && w.recv == [x]
    ensures w.ev.Within(PollSet(l, true))
    ensures OnlineIter(l, cfg, true, w).link.tty.lost == l.tty.lost + 1
  {
    var l1 := TtyLoop(l, cfg);
    EchoAll(l, cfg);
    PutNExact(l.tty, l.unread);
    TtyLoopFrame(l, cfg);
    SockLoopShows(l1, cfg, [x]);
    OneByteShown(l1.srl, cfg, x);
    PutNExact(l1.tty, [x]);
  }
}
