/** Runs of one stay online, and what holds of them in every mode. */
module RelayRuns {
  import opened Wire
  import opened Time
  import opened Settings
  import opened Fifo
  import opened TelOpt
  import opened Iac
  import opened Escape
  import opened Relay

  /** What can happen while the line is online. */
  datatype Act =
    | Step(w: World)                            // m2k_step
    | AppWrite(bytes: seq<Byte>, now: Timeval)  // m2k_write_from_app
    | AppRead(max: nat)                         // m2k_read_to_app
    | Hangup                                    // m2k_hangup

  function Do(l: Link, cfg: Atcmd, appIo: bool, act: Act): Iter {
    match act
    case Step(w) => OnlineIter(l, cfg, appIo, w)
    case AppWrite(bytes, now) => Iter(if appIo then FromApp(l, bytes, now) else l, Continue)
    case AppRead(max) => Iter(if appIo then ToApp(l, max) else l, Continue)
    case Hangup => Iter(l.(sock := Close(l.sock)), Continue)
  }

  /** Poll reports only what was asked for. */
  predicate EventsOk(l: Link, appIo: bool, act: Act) {
    act.Step? ==> act.w.ev.Within(PollSet(l, appIo))
  }

  /** The TTY is read only when nothing is unread: otherwise the read overwrites what is. Poll can break this, because
      it reports a hangup or an error unasked and both count as readable. */
  predicate ReadsOk(l: Link, cfg: Atcmd, appIo: bool, act: Act) {
    act.Step? && TakenBy(l, cfg, appIo, act) != [] ==> IterOut(l, cfg, appIo, act.w).link.unread == []
  }

  /** Only the last step may end the stay. */
  predicate IsStay(l: Link, cfg: Atcmd, appIo: bool, acts: seq<Act>)
    decreases |acts|
  {
    acts == [] ||
    (&& ReadsOk(l, cfg, appIo, acts[0])
     && (acts[1..] != [] ==> Do(l, cfg, appIo, acts[0]).verdict.Continue?)
     && IsStay(Do(l, cfg, appIo, acts[0]).link, cfg, appIo, acts[1..]))
  }

  function Stay(l: Link, cfg: Atcmd, appIo: bool, acts: seq<Act>): Link
    decreases |acts|
  {
    if acts == [] then l else Stay(Do(l, cfg, appIo, acts[0]).link, cfg, appIo, acts[1..])
  }

  /** The bytes an act took from the DTE. */
  function TakenBy(l: Link, cfg: Atcmd, appIo: bool, act: Act): seq<Byte> {
    match act
    case AppWrite(bytes, _) => if appIo then bytes[..WriteFromApp(l.unread, bytes).consumed] else []
    case Step(w) =>
      if appIo || w.escapeReq || SilenceOver(l.esc, w.now) || IterOut(l, cfg, appIo, w).verdict.Lost? || !w.ev.ttyIn
      then [] else w.read
    case _ => []
  }

  function Taken(l: Link, cfg: Atcmd, appIo: bool, acts: seq<Act>): seq<Byte>
    decreases |acts|
  {
    if acts == [] then []
    else TakenBy(l, cfg, appIo, acts[0]) + Taken(Do(l, cfg, appIo, acts[0]).link, cfg, appIo, acts[1..])
  }

  /** The bytes an act received from the peer. */
  function ReceivedBy(l: Link, cfg: Atcmd, appIo: bool, act: Act): seq<Byte> {
    if !act.Step? || act.w.escapeReq || SilenceOver(l.esc, act.w.now)
       || IterOut(l, cfg, appIo, act.w).verdict.Lost? || !act.w.ev.sockIn
    then [] else act.w.recv
  }

  function Received(l: Link, cfg: Atcmd, appIo: bool, acts: seq<Act>): seq<Byte>
    decreases |acts|
  {
    if acts == [] then []
    else ReceivedBy(l, cfg, appIo, acts[0]) + Received(Do(l, cfg, appIo, acts[0]).link, cfg, appIo, acts[1..])
  }

  // ---------------------------------------------------------------- the two loops

  function Bytes(keys: seq<Key>): (bytes: seq<Byte>)
    ensures |bytes| == |keys|
  {
    seq(|keys|, i requires 0 <= i < |keys| => keys[i].c)
  }

  /** Everything taken from the DTE so far, as far as the link remembers it. */
  ghost function Dte(l: Link): seq<Byte> { Bytes(l.handled) + l.unread }

  lemma TtyByteFrame(l: Link, cfg: Atcmd)
    requires l.Valid() && l.unread != []
    ensures var l' := TtyByte(l, cfg);
      && l'.Valid() && Dte(l') == Dte(l)
      && l' == l.(unread := l'.unread, line := l'.line, esc := l'.esc, out := l'.out, tty := l'.tty,
                  handled := l'.handled)
      && (!ModeOf(l, cfg).Line? ==> l'.tty == l.tty && l'.line == l.line)
  {
    var l' := TtyByte(l, cfg);
    var c := l.unread[0];
    assert Bytes(l'.handled) == Bytes(l.handled) + [c];
    ModeByteFrame(l.(unread := l.unread[1..]), cfg, c);
  }

  lemma ModeByteFrame(l: Link, cfg: Atcmd, c: Byte)
    requires l.Valid()
    ensures var l' := ModeByte(l, cfg, c);
      && l'.Valid()
      && l' == l.(line := l'.line, out := l'.out, tty := l'.tty)
      && (!ModeOf(l, cfg).Line? ==> l'.tty == l.tty && l'.line == l.line)
  {
    PutNValid(l.out, l.line);
    PutPairStream(l.out, IAC, c);
    PutPairStream(l.out.PutN(l.line), CR, LF);
    PutPairStream(l.tty, c, cfg.s4);
  }

  lemma {:induction false} TtyLoopFrame(l: Link, cfg: Atcmd)
    requires l.Valid()
    ensures var l' := TtyLoop(l, cfg);
      && l'.Valid() && Dte(l') == Dte(l) && |l'.unread| <= |l.unread|
      && l' == l.(unread := l'.unread, line := l'.line, esc := l'.esc, out := l'.out, tty := l'.tty,
                  handled := l'.handled)
      && (l'.unread == [] || l'.out.stop)
      && (!ModeOf(l, cfg).Line? ==> l'.tty == l.tty && l'.line == l.line)
    decreases |l.unread|
  {
    if l.out.stop || l.unread == [] {
    } else {
      TtyByteFrame(l, cfg);
      TtyLoopFrame(TtyByte(l, cfg), cfg);
    }
  }

  lemma TokenStepFrame(l: Link, cfg: Atcmd, t: Token)
    requires l.Valid()
    ensures var l' := TokenStep(l, cfg, t);
      && l'.Valid()
      && l' == l.(tel := l'.tel, out := l'.out, tty := l'.tty, sock := l'.sock)
      && l'.sock == l.sock.(alive := l'.sock.alive) && (l'.sock.alive ==> l.sock.alive)
  {
    match t
    case Negotiate(m) => PutMsgsStream(l.out, Handle(l.tel, m).msgs);
    case SendSub(_) => PutTermStream(l.out, cfg.term);
    case _ =>
  }

  lemma SockByteFrame(l: Link, cfg: Atcmd, c: Byte)
    requires l.Valid()
    ensures var l' := SockByte(l, cfg, c);
      && l'.Valid()
      && l' == l.(srl := l'.srl, tel := l'.tel, out := l'.out, tty := l'.tty, sock := l'.sock,
                  received := l.received + [c])
      && l'.sock == l.sock.(alive := l'.sock.alive) && (l'.sock.alive ==> l.sock.alive)
      && (cfg.pr ==> l' == l.(tty := l.tty.Put(c), received := l.received + [c]))
  {
    if !cfg.pr {
      var p := ParseByte(l.srl, c);
      var l2 := l.(received := l.received + [c], srl := p.srl);
      if p.tokens != [] {
        TokenStepFrame(l2, cfg, p.tokens[0]);
      }
    }
  }

  lemma {:induction false} SockLoopFrame(l: Link, cfg: Atcmd, bytes: seq<Byte>)
    requires l.Valid()
    ensures var l' := SockLoop(l, cfg, bytes);
      && l'.Valid()
      && l' == l.(srl := l'.srl, tel := l'.tel, out := l'.out, tty := l'.tty, sock := l'.sock,
                  received := l.received + bytes)
      && l'.sock == l.sock.(alive := l'.sock.alive) && (l'.sock.alive ==> l.sock.alive)
      && (cfg.pr ==> l'.out == l.out && l'.tel == l.tel)
    decreases |bytes|
  {
    if bytes == [] {
      assert l.received + bytes == l.received;
    } else {
      SockByteFrame(l, cfg, bytes[0]);
      SockLoopFrame(SockByte(l, cfg, bytes[0]), cfg, bytes[1..]);
      assert l.received + [bytes[0]] + bytes[1..] == l.received + bytes;
    }
  }

  // ---------------------------------------------------------------- one step

  lemma OnSockWritableFrame(l: Link, cfg: Atcmd, sent: int)
    requires l.Valid()
    ensures var l' := OnSockWritable(l, cfg, sent);
      && l'.Valid() && Dte(l') == Dte(l) && |l'.unread| <= |l.unread|
      && l'.tel == l.tel && l'.received == l.received && l'.srl == l.srl
      && l'.sock == l.sock.(alive := l'.sock.alive) && (l'.sock.alive ==> l.sock.alive)
      && (!ModeOf(l, cfg).Line? ==> l'.tty == l.tty)
  {
    var ok := l.out.pending == [] || sent > 0;
    var l1 := l.(out := l.out.Write(sent), sock := if ok then l.sock else l.sock.(alive := false));
    TtyLoopFrame(l1, cfg);
  }

  lemma IterTtyFrame(l: Link, cfg: Atcmd, appIo: bool, w: World)
    requires l.Valid()
    ensures var i := IterTty(l, cfg, appIo, w); var l' := i.link;
      && l'.Valid() && Dte(l') == Dte(l) && |l'.unread| <= |l.unread|
      && l'.tel == l.tel && l'.received == l.received && l'.srl == l.srl
      && (l'.sock.alive ==> l.sock.alive)
      && (i.verdict.Continue? ==> l'.sock == l.sock)
      && !i.verdict.Escaped?
  {
    if appIo {
      TtyLoopFrame(l, cfg);
    }
  }

  lemma IterOutFrame(l: Link, cfg: Atcmd, appIo: bool, w: World)
    requires l.Valid()
    ensures var i := IterOut(l, cfg, appIo, w); var l' := i.link;
      && l'.Valid() && Dte(l') == Dte(l) && |l'.unread| <= |l.unread|
      && l'.tel == l.tel && l'.received == l.received && l'.srl == l.srl
      && (l'.sock.alive ==> l.sock.alive)
      && (i.verdict.Continue? ==> l'.sock == l.sock.(alive := l'.sock.alive))
      && !i.verdict.Escaped?
  {
    if w.ev.sockOut {
      OnSockWritableFrame(l, cfg, w.sent);
    }
    IterTtyFrame(if w.ev.sockOut then OnSockWritable(l, cfg, w.sent) else l, cfg, appIo, w);
  }

  lemma OnSockReadableFrame(l: Link, cfg: Atcmd, bytes: Chunk)
    requires l.Valid()
    ensures var l' := OnSockReadable(l, cfg, bytes);
      && l'.Valid() && Dte(l') == Dte(l) && l'.unread == l.unread
      && l'.received == l.received + bytes
      && l'.sock == l.sock.(alive := l'.sock.alive) && (l'.sock.alive ==> l.sock.alive)
  {
    SockLoopFrame(l, cfg, bytes);
    assert l.received + [] == l.received;
  }

  /** The bytes the TTY gives IterIn. */
  function ReadIn(appIo: bool, w: World): seq<Byte> {
    if !appIo && w.ev.ttyIn then w.read else []
  }

  lemma IterInFrame(l: Link, cfg: Atcmd, appIo: bool, w: World)
    requires l.Valid()
    ensures var l' := IterIn(l, cfg, appIo, w).link;
      && l'.Valid()
      && (ReadIn(appIo, w) != [] ==> |Dte(l')| == |l.handled| + |ReadIn(appIo, w)|)
      && (ReadIn(appIo, w) == [] || l.unread == [] ==> Dte(l') == Dte(l) + ReadIn(appIo, w))
      && l'.received == l.received + (if w.ev.sockIn then w.recv else [])
  {
    var l1 := if w.ev.sockIn then OnSockReadable(l, cfg, w.recv) else l;
    if w.ev.sockIn {
      OnSockReadableFrame(l, cfg, w.recv);
      SockLoopFrame(l, cfg, w.recv);
    } else {
      assert l.received + [] == l.received;
    }
    assert l1.handled == l.handled;
    assert Dte(l1) + [] == Dte(l1);
    OnTtyReadableFrame(l1, cfg, w.read, w.readAt);
  }

  lemma OnTtyReadableFrame(l: Link, cfg: Atcmd, bytes: Chunk, at: Timeval)
    requires l.Valid()
    ensures var l' := OnTtyReadable(l, cfg, bytes, at);
      && l'.Valid() && l'.received == l.received && |Dte(l')| == |l.handled| + |bytes|
      && (l.unread == [] ==> Dte(l') == Dte(l) + bytes)
  {
    TtyLoopFrame(l.(unread := bytes, prevT := l.newT, newT := at), cfg);
  }

  lemma StepTakes(l: Link, cfg: Atcmd, appIo: bool, w: World)
    requires l.Valid()
    ensures var l', taken := OnlineIter(l, cfg, appIo, w).link, TakenBy(l, cfg, appIo, Step(w));
      && l'.Valid()
      && l'.received == l.received + ReceivedBy(l, cfg, appIo, Step(w))
      && (Dte(l') == Dte(l) + taken <==> ReadsOk(l, cfg, appIo, Step(w)))
  {
    assert Dte(l) + [] == Dte(l) && l.received + [] == l.received;
    if !w.escapeReq && !SilenceOver(l.esc, w.now) {
      var i := IterOut(l, cfg, appIo, w);
      IterOutFrame(l, cfg, appIo, w);
      if !i.verdict.Lost? {
        IterInFrame(i.link, cfg, appIo, w);
        assert |Dte(i.link)| == |i.link.handled| + |i.link.unread|;
      }
    }
  }

  /** One act, exactly: the DTE bytes handled and unread grow by the bytes taken if and only if no unread byte was
      overwritten. */
  lemma DoExact(l: Link, cfg: Atcmd, appIo: bool, act: Act)
    requires l.Valid()
    ensures var l' := Do(l, cfg, appIo, act).link;
      && l'.Valid()
      && l'.received == l.received + ReceivedBy(l, cfg, appIo, act)
      && (Dte(l') == Dte(l) + TakenBy(l, cfg, appIo, act) <==> ReadsOk(l, cfg, appIo, act))
  {
    assert Dte(l) + [] == Dte(l) && l.received + [] == l.received;
    match act
    case Step(w) => StepTakes(l, cfg, appIo, w);
    case AppWrite(bytes, now) =>
      var take := WriteFromApp(l.unread, bytes).consumed;
      if appIo && take > 0 {
        assert Dte(FromApp(l, bytes, now)) == Dte(l) + bytes[..take];
      }
    case _ =>
  }

  lemma DoConserves(l: Link, cfg: Atcmd, appIo: bool, act: Act)
    requires l.Valid() && ReadsOk(l, cfg, appIo, act)
    ensures var l' := Do(l, cfg, appIo, act).link;
      && l'.Valid()
      && Dte(l') == Dte(l) + TakenBy(l, cfg, appIo, act)
      && l'.received == l.received + ReceivedBy(l, cfg, appIo, act)
  {
    DoExact(l, cfg, appIo, act);
  }

  /** When poll reports only what was asked for, no unread byte is overwritten. */
  lemma AskedReadsOk(l: Link, cfg: Atcmd, appIo: bool, act: Act)
    requires l.Valid() && EventsOk(l, appIo, act)
    ensures ReadsOk(l, cfg, appIo, act)
  {
    if act.Step? {
      IterOutFrame(l, cfg, appIo, act.w);
    }
  }

  /** A hung-up TTY: flow control has left bytes unread, so the read was not asked for, but the hangup makes it happen,
      and the bytes are gone. */
  lemma HangupOverwrites(l: Link, cfg: Atcmd, w: World)
    requires l.Valid() && l.unread != [] && l.out.stop
    requires !w.escapeReq && !SilenceOver(l.esc, w.now)
    requires w.ev == Events(false, false, true, false) && w.read != []
    ensures !PollSet(l, false).ttyIn
    ensures var l' := OnlineIter(l, cfg, false, w).link; l'.handled == l.handled && l'.unread == w.read
  {
  }

  lemma Assoc(a: seq<Byte>, b: seq<Byte>, c: seq<Byte>)
    ensures a + b + c == a + (b + c)
  {
  }

  /** Conservation of DTE bytes. In every mode, whatever the socket and the clock do, the bytes taken from the DTE
      since the line went online are the bytes handled followed by the bytes still unread: none lost, doubled or
      reordered on the way in, in either I/O mode. */
  lemma {:induction false} DteConserved(l: Link, cfg: Atcmd, appIo: bool, acts: seq<Act>)
    requires l.Valid() && IsStay(l, cfg, appIo, acts)
    ensures var l' := Stay(l, cfg, appIo, acts);
      && l'.Valid()
      && Dte(l') == Dte(l) + Taken(l, cfg, appIo, acts)
      && l'.received == l.received + Received(l, cfg, appIo, acts)
    decreases |acts|
  {
    if acts == [] {
      assert Dte(l) + [] == Dte(l) && l.received + [] == l.received;
    } else {
      var l1 := Do(l, cfg, appIo, acts[0]).link;
      DoConserves(l, cfg, appIo, acts[0]);
      DteConserved(l1, cfg, appIo, acts[1..]);
      Assoc(Dte(l), TakenBy(l, cfg, appIo, acts[0]), Taken(l1, cfg, appIo, acts[1..]));
      Assoc(l.received, ReceivedBy(l, cfg, appIo, acts[0]), Received(l1, cfg, appIo, acts[1..]));
    }
  }

  lemma GoOnlineValid(l: Link, cfg: Atcmd)
    requires l.Valid()
    ensures var l' := GoOnline(l, cfg); l'.Valid() && l'.unread == [] && l'.handled == [] && l'.received == []
  {
    PutMsgsStream(EMPTY, SendReqs(l.tel, cfg).msgs);
  }
}
