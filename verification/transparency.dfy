/** What reaches the peer, in any mixture of modes. */
module Transparency {
  import opened Wire
  import opened Settings
  import opened Fifo
  import opened TelOpt
  import opened Iac
  import opened Escape
  import opened Relay
  import opened RelayRuns
  import opened LineEditing

  /** The mode is m between all acts of a stay. */
  predicate StaysIn(m: Mode, l: Link, cfg: Atcmd, appIo: bool, acts: seq<Act>)
    decreases |acts|
  {
    ModeOf(l, cfg) == m &&
    (acts != [] ==> StaysIn(m, Do(l, cfg, appIo, acts[0]).link, cfg, appIo, acts[1..]))
  }

  // ---------------------------------------------------------------- the socket stream

  /** Where an account of the stream starts: what had been told by then (in raw mode the data is the stream itself),
      and how many bytes had been handled. */
  datatype Base = Base(told: Told, count: nat)

  function KeysSince(l: Link, b: Base): seq<Key> {
    if b.count <= |l.handled| then l.handled[b.count..] else []
  }

  function ToldSince(l: Link, b: Base, cfg: Atcmd): Told { TellAll(b.told, cfg, KeysSince(l, b)) }

  /** The socket stream carries the meaning of the bytes handled: literally in raw mode, and otherwise as the data of a
      telnet stream in which commands may stand anywhere between data items. */
  ghost predicate StreamOk(b: Base, l: Link, cfg: Atcmd) {
    && b.count <= |l.handled|
    && (cfg.pr ==> l.out.Stream() == b.told.data + Bytes(KeysSince(l, b)))
    && (!cfg.pr && WholeKeys(b.told, cfg, KeysSince(l, b)) ==>
          && l.line == Doubled(ToldSince(l, b, cfg).text)
          && (l.out.lost == 0 ==> Carries(l.out.Stream(), ToldSince(l, b, cfg).data)))
  }

  function KeyOf(l: Link, cfg: Atcmd): Key
    requires l.unread != []
  {
    Key(l.unread[0], l.newT, l.prevT, ModeOf(l, cfg))
  }

  lemma SinceAppend(l: Link, cfg: Atcmd, b: Base)
    requires l.unread != [] && b.count <= |l.handled|
    ensures KeysSince(TtyByte(l, cfg), b) == KeysSince(l, b) + [KeyOf(l, cfg)]
  {
    TtyByteIs(l, cfg);
  }

  /** Flow control: a byte is handled only below the soft limit, and adds at most 258 bytes, so the loop never
      reaches the hard limit in any mode. */
  lemma TtyByteHeadroom(l: Link, cfg: Atcmd)
    requires l.Valid() && l.unread != [] && !l.out.stop
    ensures TtyByte(l, cfg).out.lost == l.out.lost
    ensures l.out.Ptr() <= TtyByte(l, cfg).out.Ptr() <= l.out.Ptr() + LINEBUF_SIZE + 2 < HARD
    ensures TtyByte(l, cfg).out.delivered == l.out.delivered
  {
    PutNAppends(l.out, l.line);
  }

  lemma CharByteStream(l: Link, cfg: Atcmd)
    requires l.Valid() && l.unread != [] && !l.out.stop && ModeOf(l, cfg).Char?
    ensures TtyByte(l, cfg).out.Stream() == l.out.Stream() + Print(Data(l.unread[0]))
  {
    var c := l.unread[0];
    if c == IAC {
      PutPairStream(l.out, IAC, IAC);
    } else {
      assert l.out.delivered + (l.out.pending + [c]) == l.out.Stream() + [c];
    }
  }

  lemma LineCommitStream(q: Queue, line: seq<Byte>)
    requires q.Valid() && !q.stop && |line| <= LINEBUF_SIZE
    ensures q.PutN(line).Put(CR).Put(LF).Stream() == q.Stream() + (line + [CR, LF])
  {
    var q1 := q.PutN(line);
    PutNRoom(q, line);
    PutPairStream(q1, CR, LF);
    Assoc(q.Stream(), line, [CR, LF]);
  }

  lemma PutNRoom(q: Queue, s: seq<Byte>)
    requires q.Valid() && q.Ptr() + |s| <= HARD
    ensures q.PutN(s).Valid() && q.PutN(s).lost == q.lost && q.PutN(s).Ptr() == q.Ptr() + |s|
    ensures q.PutN(s).Stream() == q.Stream() + s
  {
    PutNAppends(q, s);
    PutNStream(q, s);
  }

  lemma RawByteOk(b: Base, l: Link, cfg: Atcmd)
    requires l.Valid() && l.unread != [] && !l.out.stop && cfg.pr && StreamOk(b, l, cfg)
    ensures StreamOk(b, TtyByte(l, cfg), cfg)
  {
    var c := l.unread[0];
    SinceAppend(l, cfg, b);
    BytesAppend(KeysSince(l, b), KeyOf(l, cfg));
    Assoc(l.out.delivered, l.out.pending, [c]);
    Assoc(b.told.data, Bytes(KeysSince(l, b)), [c]);
  }

  lemma CharByteOk(b: Base, l: Link, cfg: Atcmd)
    requires l.Valid() && l.unread != [] && !l.out.stop && ModeOf(l, cfg).Char? && StreamOk(b, l, cfg)
    ensures StreamOk(b, TtyByte(l, cfg), cfg)
  {
    var c, t := l.unread[0], ToldSince(l, b, cfg);
    SinceAppend(l, cfg, b);
    TellAppend(b.told, cfg, KeysSince(l, b), KeyOf(l, cfg));
    TtyByteHeadroom(l, cfg);
    TtyByteIs(l, cfg);
    if l.out.lost == 0 && WholeKeys(b.told, cfg, KeysSince(l, b)) {
      CharByteStream(l, cfg);
      DataCarries(c);
      CarriesConcat(l.out.Stream(), t.data, Print(Data(c)), [c]);
    }
  }

  lemma LineByteOk(b: Base, l: Link, cfg: Atcmd)
    requires l.Valid() && l.unread != [] && !l.out.stop && ModeOf(l, cfg).Line? && StreamOk(b, l, cfg)
    ensures StreamOk(b, TtyByte(l, cfg), cfg)
  {
    var c, t := l.unread[0], ToldSince(l, b, cfg);
    SinceAppend(l, cfg, b);
    TellAppend(b.told, cfg, KeysSince(l, b), KeyOf(l, cfg));
    TtyByteHeadroom(l, cfg);
    TtyByteIs(l, cfg);
    if WholeKeys(b.told, cfg, KeysSince(l, b)) {
      if c == cfg.s3 {
        if l.out.lost == 0 {
          LineCommitCarries(l.out, t);
        }
      } else {
        WholeKeyExact(t.text, cfg, c);
      }
    }
  }

  lemma LineCommitCarries(q: Queue, t: Told)
    requires q.Valid() && !q.stop && |Doubled(t.text)| <= LINEBUF_SIZE && Carries(q.Stream(), t.data)
    ensures Carries(q.PutN(Doubled(t.text)).Put(CR).Put(LF).Stream(), t.data + (t.text + [CR, LF]))
  {
    var eol: seq<Byte> := [CR, LF];
    LineCommitStream(q, Doubled(t.text));
    DoubledCarries(t.text);
    Hear2(Plain, CR, LF);
    CarriesConcat(Doubled(t.text), t.text, eol, eol);
    CarriesConcat(q.Stream(), t.data, Doubled(t.text) + eol, t.text + eol);
  }

  lemma {:induction false} TtyLoopOk(b: Base, l: Link, cfg: Atcmd)
    requires l.Valid() && StreamOk(b, l, cfg)
    ensures StreamOk(b, TtyLoop(l, cfg), cfg)
    decreases |l.unread|
  {
    if l.out.stop || l.unread == [] {
    } else {
      TtyByteFrame(l, cfg);
      match ModeOf(l, cfg) {
        case Raw => RawByteOk(b, l, cfg);
        case Char => CharByteOk(b, l, cfg);
        case Line => LineByteOk(b, l, cfg);
      }
      TtyLoopOk(b, TtyByte(l, cfg), cfg);
    }
  }

  lemma ReplyVerbs(t: Tel, m: Msg)
    ensures forall r <- Handle(t, m).msgs :: IsVerb(r.verb)
  {
  }

  lemma CarryNothingMore(stream: seq<Byte>, data: seq<Byte>, more: seq<Byte>)
    requires Carries(more, [])
    ensures Carries(stream, data) ==> Carries(stream + more, data)
  {
    if Carries(stream, data) {
      CarriesConcat(stream, data, more, []);
      assert data + [] == data;
    }
  }

  /** A reply goes between data items, never into one. */
  lemma TokenStepOk(b: Base, l: Link, cfg: Atcmd, t: Token)
    requires !cfg.pr && l.Valid() && IAC !in cfg.term && StreamOk(b, l, cfg)
    ensures StreamOk(b, TokenStep(l, cfg, t), cfg)
  {
    var data := ToldSince(l, b, cfg).data;
    match t
    case Negotiate(msg) =>
      var msgs := Handle(l.tel, msg).msgs;
      PutMsgsStream(l.out, msgs);
      ReplyVerbs(l.tel, msg);
      MsgsCarryNothing(msgs);
      CarryNothingMore(l.out.Stream(), data, MsgsBytes(msgs));
    case SendSub(opt) =>
      PutTermStream(l.out, cfg.term);
      TermCarriesNothing(cfg.term);
      CarryNothingMore(l.out.Stream(), data, TermBytes(cfg.term));
    case _ =>
  }

  lemma SockByteOk(b: Base, l: Link, cfg: Atcmd, c: Byte)
    requires l.Valid() && (cfg.pr || IAC !in cfg.term) && StreamOk(b, l, cfg)
    ensures StreamOk(b, SockByte(l, cfg, c), cfg)
  {
    if !cfg.pr {
      var p := ParseByte(l.srl, c);
      var l2 := l.(received := l.received + [c], srl := p.srl);
      assert StreamOk(b, l2, cfg);
      if p.tokens != [] {
        TokenStepOk(b, l2, cfg, p.tokens[0]);
      }
    }
  }

  lemma {:induction false} SockLoopOk(b: Base, l: Link, cfg: Atcmd, bytes: seq<Byte>)
    requires l.Valid() && (cfg.pr || IAC !in cfg.term) && StreamOk(b, l, cfg)
    ensures StreamOk(b, SockLoop(l, cfg, bytes), cfg)
    decreases |bytes|
  {
    if bytes == [] {
    } else {
      SockByteFrame(l, cfg, bytes[0]);
      SockByteOk(b, l, cfg, bytes[0]);
      SockLoopOk(b, SockByte(l, cfg, bytes[0]), cfg, bytes[1..]);
    }
  }

  lemma OnSockWritableOk(b: Base, l: Link, cfg: Atcmd, sent: int)
    requires l.Valid() && StreamOk(b, l, cfg)
    ensures StreamOk(b, OnSockWritable(l, cfg, sent), cfg)
  {
    var ok := l.out.pending == [] || sent > 0;
    var l1 := l.(out := l.out.Write(sent), sock := if ok then l.sock else l.sock.(alive := false));
    WriteConserves(l.out, sent);
    assert StreamOk(b, l1, cfg);
    TtyLoopOk(b, l1, cfg);
  }

  lemma IterOutOk(b: Base, l: Link, cfg: Atcmd, appIo: bool, w: World)
    requires l.Valid() && StreamOk(b, l, cfg)
    ensures StreamOk(b, IterOut(l, cfg, appIo, w).link, cfg)
  {
    var l1 := if w.ev.sockOut then OnSockWritable(l, cfg, w.sent) else l;
    if w.ev.sockOut {
      OnSockWritableOk(b, l, cfg, w.sent);
      OnSockWritableFrame(l, cfg, w.sent);
    }
    assert l1.Valid() && StreamOk(b, l1, cfg);
    if appIo {
      TtyLoopOk(b, l1, cfg);
    }
  }

  lemma IterInOk(b: Base, l: Link, cfg: Atcmd, appIo: bool, w: World)
    requires l.Valid() && (cfg.pr || IAC !in cfg.term) && StreamOk(b, l, cfg)
    ensures StreamOk(b, IterIn(l, cfg, appIo, w).link, cfg)
  {
    var l1 := if w.ev.sockIn then OnSockReadable(l, cfg, w.recv) else l;
    if w.ev.sockIn {
      SockLoopOk(b, l, cfg, w.recv);
      OnSockReadableFrame(l, cfg, w.recv);
    }
    assert l1.Valid() && StreamOk(b, l1, cfg);
    if !appIo && w.ev.ttyIn && w.read != [] {
      var l2 := l1.(unread := w.read, prevT := l1.newT, newT := w.readAt);
      assert StreamOk(b, l2, cfg);
      TtyLoopOk(b, l2, cfg);
    }
  }

  lemma DoOk(b: Base, l: Link, cfg: Atcmd, appIo: bool, act: Act)
    requires l.Valid() && (cfg.pr || IAC !in cfg.term) && StreamOk(b, l, cfg)
    ensures StreamOk(b, Do(l, cfg, appIo, act).link, cfg)
  {
    if act.Step? && !act.w.escapeReq && !SilenceOver(l.esc, act.w.now) {
      IterOutOk(b, l, cfg, appIo, act.w);
      IterOutFrame(l, cfg, appIo, act.w);
      var i := IterOut(l, cfg, appIo, act.w);
      if !i.verdict.Lost? {
        IterInOk(b, i.link, cfg, appIo, act.w);
      }
    }
  }

  lemma {:induction false} StayOk(b: Base, l: Link, cfg: Atcmd, appIo: bool, acts: seq<Act>)
    requires l.Valid() && (cfg.pr || IAC !in cfg.term) && StreamOk(b, l, cfg) && IsStay(l, cfg, appIo, acts)
    ensures StreamOk(b, Stay(l, cfg, appIo, acts), cfg)
    decreases |acts|
  {
    if acts == [] {
    } else {
      DoConserves(l, cfg, appIo, acts[0]);
      DoOk(b, l, cfg, appIo, acts[0]);
      StayOk(b, Do(l, cfg, appIo, acts[0]).link, cfg, appIo, acts[1..]);
    }
  }

  /** Handled bytes only ever grow, so an account of a stay splits the bytes taken. */
  lemma AccountOf(b: Base, l: Link, cfg: Atcmd, appIo: bool, acts: seq<Act>)
    requires l.Valid() && IsStay(l, cfg, appIo, acts) && b.count == |l.handled|
    requires b.count <= |Stay(l, cfg, appIo, acts).handled|
    ensures var l' := Stay(l, cfg, appIo, acts);
      Bytes(KeysSince(l', b)) + l'.unread == l.unread + Taken(l, cfg, appIo, acts)
  {
    DteConserved(l, cfg, appIo, acts);
    var l' := Stay(l, cfg, appIo, acts);
    Assoc(Bytes(l.handled), l.unread, Taken(l, cfg, appIo, acts));
    SuffixOf(Bytes(l'.handled), l'.unread, Bytes(l.handled), l.unread + Taken(l, cfg, appIo, acts));
    assert Bytes(KeysSince(l', b)) == Bytes(l'.handled)[b.count..];
  }

  lemma SuffixOf(x: seq<Byte>, u: seq<Byte>, y: seq<Byte>, v: seq<Byte>)
    requires x + u == y + v && |y| <= |x|
    ensures x[|y|..] + u == v
  {
    assert (x + u)[|y|..] == x[|y|..] + u && (y + v)[|y|..] == v;
  }

  lemma {:induction false} RequestVerbs(t: seq<OptEntry>)
    ensures forall m <- AllRequests(t) :: IsVerb(m.verb)
    ensures |AllRequests(t)| <= 2 * |t|
    decreases |t|
  {
    if t == [] {
    } else {
      RequestVerbs(t[1..]);
    }
  }

  lemma {:induction false} PutMsgsRoom(q: Queue, msgs: seq<Msg>)
    requires q.Valid() && q.Ptr() + 3 * |msgs| <= HARD
    ensures PutMsgs(q, msgs).lost == q.lost
    decreases |msgs|
  {
    if msgs == [] {
    } else {
      PutMsgStream(q, msgs[0]);
      PutMsgsRoom(PutMsg(q, msgs[0]), msgs[1..]);
    }
  }

  /** The opening requests all fit and carry no data. */
  lemma GoOnlineCarries(l: Link, cfg: Atcmd)
    requires l.Valid()
    ensures var l' := GoOnline(l, cfg);
      && l'.Valid() && l'.out.lost == 0 && l'.line == [] && l'.unread == []
      && Carries(l'.out.Stream(), [])
      && (cfg.pr ==> l'.out.Stream() == [])
  {
    GoOnlineValid(l, cfg);
    assert EMPTY.Stream() == [];
    if !l.tel.sentReqs && !cfg.pr {
      var msgs := SendReqs(l.tel, cfg).msgs;
      RequestVerbs(SetReqs(l.tel.table, cfg));
      PutMsgsRoom(EMPTY, msgs);
      PutMsgsStream(EMPTY, msgs);
      MsgsCarryNothing(msgs);
      assert [] + MsgsBytes(msgs) == MsgsBytes(msgs);
    }
  }

  // ---------------------------------------------------------------- which mode the keys fell in

  /** Every byte handled between l and l' was handled in mode m. */
  ghost predicate HandledIn(m: Mode, l: Link, l': Link) {
    l.handled <= l'.handled && AllIn(m, l'.handled[|l.handled|..])
  }

  lemma HandledTrans(m: Mode, a: Link, b: Link, c: Link)
    requires HandledIn(m, a, b) && HandledIn(m, b, c)
    ensures HandledIn(m, a, c)
  {
    assert c.handled[|a.handled|..] == b.handled[|a.handled|..] + c.handled[|b.handled|..];
  }

  lemma {:induction false} TtyLoopIn(l: Link, cfg: Atcmd)
    requires l.Valid()
    ensures HandledIn(ModeOf(l, cfg), l, TtyLoop(l, cfg))
    decreases |l.unread|
  {
    if l.out.stop || l.unread == [] {
    } else {
      TtyByteIs(l, cfg);
      TtyByteFrame(l, cfg);
      TtyLoopIn(TtyByte(l, cfg), cfg);
      HandledTrans(ModeOf(l, cfg), l, TtyByte(l, cfg), TtyLoop(l, cfg));
    }
  }

  lemma OnSockWritableIn(l: Link, cfg: Atcmd, sent: int)
    requires l.Valid()
    ensures HandledIn(ModeOf(l, cfg), l, OnSockWritable(l, cfg, sent))
  {
    var ok := l.out.pending == [] || sent > 0;
    TtyLoopIn(l.(out := l.out.Write(sent), sock := if ok then l.sock else l.sock.(alive := false)), cfg);
  }

  lemma IterOutIn(l: Link, cfg: Atcmd, appIo: bool, w: World)
    requires l.Valid()
    ensures HandledIn(ModeOf(l, cfg), l, IterOut(l, cfg, appIo, w).link)
  {
    var l1 := if w.ev.sockOut then OnSockWritable(l, cfg, w.sent) else l;
    if w.ev.sockOut {
      OnSockWritableIn(l, cfg, w.sent);
      OnSockWritableFrame(l, cfg, w.sent);
    }
    if appIo {
      TtyLoopIn(l1, cfg);
      HandledTrans(ModeOf(l, cfg), l, l1, TtyLoop(l1, cfg));
    }
  }

  lemma IterInIn(l: Link, cfg: Atcmd, appIo: bool, w: World)
    requires l.Valid()
    ensures var l' := IterIn(l, cfg, appIo, w).link; HandledIn(ModeOf(l', cfg), l, l')
  {
    var l1 := if w.ev.sockIn then OnSockReadable(l, cfg, w.recv) else l;
    if w.ev.sockIn {
      SockLoopFrame(l, cfg, w.recv);
    }
    if !appIo && w.ev.ttyIn {
      var l2 := l1.(unread := w.read, prevT := l1.newT, newT := w.readAt);
      TtyLoopIn(l2, cfg);
      TtyLoopFrame(l2, cfg);
    }
  }

  lemma DoIn(m: Mode, l: Link, cfg: Atcmd, appIo: bool, act: Act)
    requires l.Valid() && ModeOf(l, cfg) == m && ModeOf(Do(l, cfg, appIo, act).link, cfg) == m
    ensures HandledIn(m, l, Do(l, cfg, appIo, act).link)
  {
    if act.Step? && !act.w.escapeReq && !SilenceOver(l.esc, act.w.now) {
      var i := IterOut(l, cfg, appIo, act.w);
      IterOutIn(l, cfg, appIo, act.w);
      IterOutFrame(l, cfg, appIo, act.w);
      if !i.verdict.Lost? {
        IterInIn(i.link, cfg, appIo, act.w);
        HandledTrans(m, l, i.link, IterIn(i.link, cfg, appIo, act.w).link);
      }
    }
  }

  lemma {:induction false} StayIn(m: Mode, l: Link, cfg: Atcmd, appIo: bool, acts: seq<Act>)
    requires l.Valid() && IsStay(l, cfg, appIo, acts) && StaysIn(m, l, cfg, appIo, acts)
    ensures HandledIn(m, l, Stay(l, cfg, appIo, acts))
    decreases |acts|
  {
    if acts == [] {
    } else {
      var l1 := Do(l, cfg, appIo, acts[0]).link;
      DoConserves(l, cfg, appIo, acts[0]);
      DoIn(m, l, cfg, appIo, acts[0]);
      StayIn(m, l1, cfg, appIo, acts[1..]);
      HandledTrans(m, l, l1, Stay(l, cfg, appIo, acts));
    }
  }

  // ---------------------------------------------------------------- main results towards the peer

  /** Raw-mode transparency. With %R1, whatever the sizes of partial sends and in either I/O mode, the bytes sent,
      then the bytes pending for the socket, then the bytes unread are exactly the bytes taken from the DTE since
      the line went online. */
  lemma RawTransparent(l: Link, cfg: Atcmd, appIo: bool, acts: seq<Act>)
    requires l.Valid() && cfg.pr
    requires IsStay(GoOnline(l, cfg), cfg, appIo, acts)
    ensures var l' := Stay(GoOnline(l, cfg), cfg, appIo, acts);
      l'.out.delivered + l'.out.pending + l'.unread == Taken(GoOnline(l, cfg), cfg, appIo, acts)
  {
    var l0, b := GoOnline(l, cfg), Base(Told([], []), 0);
    GoOnlineCarries(l, cfg);
    assert KeysSince(l0, b) == [];
    StayOk(b, l0, cfg, appIo, acts);
    AccountOf(b, l0, cfg, appIo, acts);
    var l' := Stay(l0, cfg, appIo, acts);
    assert [] + Bytes(KeysSince(l', b)) == Bytes(KeysSince(l', b));
    assert [] + Taken(l0, cfg, appIo, acts) == Taken(l0, cfg, appIo, acts);
  }

  /** Transparency through any changes between character and line mode, from any moment on. Let the stream so far be
      whole telnet items carrying t0.data, and the line buffer hold t0.text in telnet form. As long as no key typed in
      line mode cuts a doubled 255 in two and no byte is refused for lack of room, a receiver that follows RFC 854
      decodes (sent, then pending) to whole items again, carrying exactly what the bytes handled tell, each in the mode
      it was handled in; the line buffer holds the text they leave unfinished; and those bytes, followed by the unread
      ones, are the bytes taken from the DTE. Replies and terminal-type answers may fall anywhere in the stream. */
  lemma Transparent(l: Link, t0: Told, cfg: Atcmd, appIo: bool, acts: seq<Act>)
    requires l.Valid() && !cfg.pr && IAC !in cfg.term
    requires Carries(l.out.Stream(), t0.data) && l.line == Doubled(t0.text)
    requires IsStay(l, cfg, appIo, acts) && Stay(l, cfg, appIo, acts).out.lost == 0
    requires var l' := Stay(l, cfg, appIo, acts); |l.handled| <= |l'.handled| ==>
               WholeKeys(t0, cfg, l'.handled[|l.handled|..])
    ensures var l' := Stay(l, cfg, appIo, acts);
      && |l.handled| <= |l'.handled|
      && var keys := l'.handled[|l.handled|..]; var t := TellAll(t0, cfg, keys);
      && Carries(l'.out.delivered + l'.out.pending, t.data)
      && l'.line == Doubled(t.text)
      && Bytes(keys) + l'.unread == l.unread + Taken(l, cfg, appIo, acts)
  {
    var b := Base(t0, |l.handled|);
    assert KeysSince(l, b) == [];
    StayOk(b, l, cfg, appIo, acts);
    AccountOf(b, l, cfg, appIo, acts);
  }

  /** For input without byte 255 the premise on keys always holds. */
  lemma TransparentNoIac(l: Link, t0: Told, cfg: Atcmd, appIo: bool, acts: seq<Act>)
    requires l.Valid() && !cfg.pr && IAC !in cfg.term
    requires Carries(l.out.Stream(), t0.data) && l.line == Doubled(t0.text)
    requires IsStay(l, cfg, appIo, acts) && Stay(l, cfg, appIo, acts).out.lost == 0
    requires IAC !in t0.text && IAC !in l.unread + Taken(l, cfg, appIo, acts)
    ensures var l' := Stay(l, cfg, appIo, acts);
      && |l.handled| <= |l'.handled|
      && var t := TellAll(t0, cfg, l'.handled[|l.handled|..]);
      && Carries(l'.out.delivered + l'.out.pending, t.data)
      && l'.line == Doubled(t.text)
  {
    var b := Base(t0, |l.handled|);
    var l' := Stay(l, cfg, appIo, acts);
    assert KeysSince(l, b) == [];
    StayOk(b, l, cfg, appIo, acts);
    AccountOf(b, l, cfg, appIo, acts);
    var keys := l'.handled[|l.handled|..];
    forall k | k in keys
      ensures k.c != IAC
    {
      var i :| 0 <= i < |keys| && keys[i] == k;
      assert (Bytes(keys) + l'.unread)[i] == k.c;
    }
    NoIacKeys(t0, cfg, keys);
  }

  /** Character mode: while the peer keeps SGA on, what is said grows by exactly the bytes handled, and a line begun
      before stays as it was. */
  lemma CharTransparent(l: Link, t0: Told, cfg: Atcmd, appIo: bool, acts: seq<Act>)
    requires l.Valid() && !cfg.pr && IAC !in cfg.term
    requires Carries(l.out.Stream(), t0.data) && l.line == Doubled(t0.text)
    requires IsStay(l, cfg, appIo, acts) && StaysIn(Char, l, cfg, appIo, acts)
    requires Stay(l, cfg, appIo, acts).out.lost == 0
    ensures var l' := Stay(l, cfg, appIo, acts);
      exists handled ::
        && Carries(l'.out.delivered + l'.out.pending, t0.data + handled)
        && handled + l'.unread == l.unread + Taken(l, cfg, appIo, acts)
        && l'.line == l.line
  {
    var l' := Stay(l, cfg, appIo, acts);
    StayIn(Char, l, cfg, appIo, acts);
    TellChars(t0, cfg, l'.handled[|l.handled|..]);
    Transparent(l, t0, cfg, appIo, acts);
  }

  /** Line mode: while the peer keeps SGA off, what is said grows by exactly the lines that the bytes handled finish,
      each edited and ended by CR LF; the line buffer holds the edited unfinished line in telnet form, whatever pauses
      flow control makes. `typed` is the typing that the line buffer already stands for; it is empty on going online. */
  lemma LineTransparent(l: Link, said: seq<Byte>, typed: seq<Byte>, cfg: Atcmd, appIo: bool, acts: seq<Act>)
    requires l.Valid() && !cfg.pr && IAC !in cfg.term
    requires Carries(l.out.Stream(), said) && l.line == Doubled(Unfinished(typed, cfg))
    requires IsStay(l, cfg, appIo, acts) && StaysIn(Line, l, cfg, appIo, acts)
    requires Stay(l, cfg, appIo, acts).out.lost == 0
    requires Whole(typed + (l.unread + Taken(l, cfg, appIo, acts)), cfg)
    ensures var l' := Stay(l, cfg, appIo, acts);
      exists handled, lines ::
        && Committed(typed + handled, cfg) == Committed(typed, cfg) + lines
        && Carries(l'.out.delivered + l'.out.pending, said + lines)
        && l'.line == Doubled(Unfinished(typed + handled, cfg))
        && handled + l'.unread == l.unread + Taken(l, cfg, appIo, acts)
  {
    var l', t0 := Stay(l, cfg, appIo, acts), Told(said, Unfinished(typed, cfg));
    var b := Base(t0, |l.handled|);
    StayIn(Line, l, cfg, appIo, acts);
    var keys := l'.handled[|l.handled|..];
    AccountOf(b, l, cfg, appIo, acts);
    Assoc(typed, Bytes(keys), l'.unread);
    WholePrefix(typed + Bytes(keys), l'.unread, cfg);
    TellLines(typed, said, cfg, keys);
    Transparent(l, t0, cfg, appIo, acts);
  }
}
