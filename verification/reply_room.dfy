/** Negotiation replies are not held back by flow control: when they fit, and when they overrun the socket buffer. */
module ReplyRoom {
  import opened Wire
  import opened Settings
  import opened Fifo
  import opened TelOpt
  import opened TelOptSessions
  import opened Iac
  import opened Relay
  import opened RelayRuns
  import opened LineEditing
  import opened Transparency
  import opened FlowControl
  import opened TokenLoop

  // ---------------------------------------------------------------- when they fit

  /** How many bytes of the command in hand the parser has seen. */
  function Seen(s: Srl): nat {
    match s.state case Norm => 0 case Iac => 1 case Cmd => 2 case Sb => 2 case Sbc => 3 case Sbs => 4 case Sbi => 5
  }

  /** The longest answer is the terminal type, to a command of six bytes; other replies are as long as the command. */
  function Longest(cfg: Atcmd): nat { |cfg.term| + 6 }

  /** Six times what the buffer holds, plus what commands begun can still cause. */
  function Load(l: Link, cfg: Atcmd): nat { 6 * l.out.Ptr() + Longest(cfg) * Seen(l.srl) }

  /** A byte causes a reply only when it ends a command, and then all that was seen of it is spent. */
  lemma SeenStep(s: Srl, c: Byte)
    ensures var p := ParseByte(s, c);
      && (p.tokens != [] && p.tokens[0].Negotiate? ==> Seen(s) == 2 && Seen(p.srl) == 0)
      && (p.tokens != [] && p.tokens[0].SendSub? ==> Seen(s) == 5 && Seen(p.srl) == 0)
      && Seen(p.srl) <= Seen(s) + 1
  {
  }

  /** What one byte can add to the buffer. */
  function ReplyBound(s: Srl, cfg: Atcmd, c: Byte): nat {
    var p := ParseByte(s, c);
    if p.tokens == [] then 0
    else if p.tokens[0].Negotiate? then 3
    else if p.tokens[0].SendSub? then |cfg.term| + 6
    else 0
  }

  lemma SockByteAdds(l: Link, cfg: Atcmd, c: Byte)
    requires l.Valid() && !cfg.pr && l.out.Ptr() + ReplyBound(l.srl, cfg, c) <= HARD
    ensures var l' := SockByte(l, cfg, c);
      && l'.out.lost == l.out.lost && l'.out.Ptr() <= l.out.Ptr() + ReplyBound(l.srl, cfg, c)
      && l'.srl == ParseByte(l.srl, c).srl
  {
    var p := ParseByte(l.srl, c);
    if p.tokens != [] {
      match p.tokens[0]
      case Negotiate(m) => ReplyFits(l.out, Handle(l.tel, m).msgs);
      case SendSub(_) => TermFits(l.out, cfg.term);
      case _ =>
    }
  }

  lemma LoadArithmetic(longest: nat, seen: nat, seen': nat, reply: nat)
    requires longest >= 6 && seen' <= seen + 1
    requires reply == 0 || (reply == 3 && seen == 2 && seen' == 0) || (reply == longest && seen == 5 && seen' == 0)
    ensures 6 * reply + longest * seen' <= longest * seen + longest
  {
    assert longest * (seen + 1) == longest * seen + longest;
    assert longest * seen' <= longest * (seen + 1);
  }

  lemma SockByteLoad(l: Link, cfg: Atcmd, c: Byte)
    requires l.Valid() && !cfg.pr && Load(l, cfg) + Longest(cfg) <= 6 * HARD
    ensures var l' := SockByte(l, cfg, c);
      l'.out.lost == l.out.lost && Load(l', cfg) <= Load(l, cfg) + Longest(cfg)
  {
    SeenStep(l.srl, c);
    LoadArithmetic(Longest(cfg), Seen(l.srl), Seen(ParseByte(l.srl, c).srl), ReplyBound(l.srl, cfg, c));
    SockByteAdds(l, cfg, c);
  }

  lemma ReplyFits(q: Queue, msgs: seq<Msg>)
    requires q.Valid() && |msgs| <= 1 && q.Ptr() + 3 <= HARD
    ensures PutMsgs(q, msgs).lost == q.lost && PutMsgs(q, msgs).Ptr() <= q.Ptr() + 3
  {
    if msgs != [] {
      assert msgs[1..] == [];
      assert PutMsgs(q, msgs) == PutMsg(q, msgs[0]);
    }
  }

  lemma TermFits(q: Queue, term: seq<Byte>)
    requires q.Valid() && q.Ptr() + |term| + 6 <= HARD
    ensures PutTerm(q, term).lost == q.lost && PutTerm(q, term).Ptr() == q.Ptr() + |term| + 6
  {
    var q4 := q.Put(IAC).Put(SB).Put(TELOPT_TTYPE).Put(TELQUAL_IS);
    assert q4.Valid() && q4.lost == q.lost && q4.Ptr() == q.Ptr() + 4;
    PutNRoom(q4, term);
  }

  lemma {:induction false} SockLoopLoad(l: Link, cfg: Atcmd, bytes: seq<Byte>)
    requires l.Valid() && !cfg.pr && Load(l, cfg) + Longest(cfg) * |bytes| <= 6 * HARD
    ensures SockLoop(l, cfg, bytes).out.lost == l.out.lost
    decreases |bytes|
  {
    if bytes == [] {
    } else {
      var l1 := SockByte(l, cfg, bytes[0]);
      assert Longest(cfg) * |bytes| == Longest(cfg) + Longest(cfg) * |bytes[1..]|;
      SockByteLoad(l, cfg, bytes[0]);
      SockByteFrame(l, cfg, bytes[0]);
      SockLoopLoad(l1, cfg, bytes[1..]);
    }
  }

  /** The most the DTE side can have filled by the time the socket is read. */
  function FullBy(l: Link): nat {
    if l.out.Ptr() < SOFT + LINEBUF_SIZE + 2 then SOFT + LINEBUF_SIZE + 2 else l.out.Ptr()
  }

  /** Room for the replies that n bytes received in this step can cause: what can be told before the step. With the
      shortest terminal type and an idle parser, 766 bytes always fit unless replies are already piling up. */
  predicate HasRoom(l: Link, cfg: Atcmd, n: nat) {
    cfg.pr || 6 * FullBy(l) + Longest(cfg) * (Seen(l.srl) + n) <= 6 * HARD
  }

  predicate Roomy(l: Link, cfg: Atcmd, appIo: bool, acts: seq<Act>)
    decreases |acts|
  {
    acts != [] ==>
      && (acts[0].Step? && acts[0].w.ev.sockIn ==> HasRoom(l, cfg, |acts[0].w.recv|))
      && Roomy(Do(l, cfg, appIo, acts[0]).link, cfg, appIo, acts[1..])
  }

  lemma OnSockWritableRoom(l: Link, cfg: Atcmd, sent: int)
    requires l.Valid()
    ensures OnSockWritable(l, cfg, sent).out.lost == l.out.lost && OnSockWritable(l, cfg, sent).out.Ptr() <= FullBy(l)
  {
    var ok := l.out.pending == [] || sent > 0;
    var l1 := l.(out := l.out.Write(sent), sock := if ok then l.sock else l.sock.(alive := false));
    TtyLoopHeadroom(l1, cfg);
  }

  lemma IterOutRoom(l: Link, cfg: Atcmd, appIo: bool, w: World)
    requires l.Valid()
    ensures var l' := IterOut(l, cfg, appIo, w).link; l'.out.lost == l.out.lost && l'.out.Ptr() <= FullBy(l)
  {
    var l1 := if w.ev.sockOut then OnSockWritable(l, cfg, w.sent) else l;
    if w.ev.sockOut {
      OnSockWritableRoom(l, cfg, w.sent);
      OnSockWritableFrame(l, cfg, w.sent);
    }
    TtyLoopHeadroom(l1, cfg);
  }

  lemma IterInRoom(l: Link, cfg: Atcmd, appIo: bool, w: World)
    requires l.Valid() && (w.ev.sockIn && !cfg.pr ==> Load(l, cfg) + Longest(cfg) * |w.recv| <= 6 * HARD)
    ensures IterIn(l, cfg, appIo, w).link.out.lost == l.out.lost
  {
    var l1 := if w.ev.sockIn then OnSockReadable(l, cfg, w.recv) else l;
    if w.ev.sockIn {
      OnSockReadableFrame(l, cfg, w.recv);
      SockLoopFrame(l, cfg, w.recv);
      if !cfg.pr {
        SockLoopLoad(l, cfg, w.recv);
      }
    }
    assert l1.Valid() && l1.out.lost == l.out.lost;
    if !appIo && w.ev.ttyIn {
      TtyLoopHeadroom(l1.(unread := w.read, prevT := l1.newT, newT := w.readAt), cfg);
    }
  }

  lemma DoRoom(l: Link, cfg: Atcmd, appIo: bool, act: Act)
    requires l.Valid() && (act.Step? && act.w.ev.sockIn ==> HasRoom(l, cfg, |act.w.recv|))
    ensures Do(l, cfg, appIo, act).link.out.lost == l.out.lost
  {
    if act.Step? && !act.w.escapeReq && !SilenceOver(l.esc, act.w.now) {
      var i := IterOut(l, cfg, appIo, act.w);
      IterOutFrame(l, cfg, appIo, act.w);
      IterOutRoom(l, cfg, appIo, act.w);
      if !i.verdict.Lost? {
        assert Longest(cfg) * (Seen(l.srl) + |act.w.recv|) ==
               Longest(cfg) * Seen(l.srl) + Longest(cfg) * |act.w.recv|;
        IterInRoom(i.link, cfg, appIo, act.w);
      }
    }
  }

  /** A bound that can be checked before every step keeps the stream whole: with room for the replies, no byte is ever
      refused on its way to the socket. */
  lemma {:induction false} RoomyNeverLoses(l: Link, cfg: Atcmd, appIo: bool, acts: seq<Act>)
    requires l.Valid() && IsStay(l, cfg, appIo, acts) && Roomy(l, cfg, appIo, acts)
    ensures Stay(l, cfg, appIo, acts).out.lost == l.out.lost
    decreases |acts|
  {
    if acts == [] {
    } else {
      DoConserves(l, cfg, appIo, acts[0]);
      DoRoom(l, cfg, appIo, acts[0]);
      RoomyNeverLoses(Do(l, cfg, appIo, acts[0]).link, cfg, appIo, acts[1..]);
    }
  }

  /** From going online, then: all that the bytes handled tell reaches the peer, through any changes of mode, as long as
      each step finds room for its replies and no key typed in line mode cuts a doubled 255 in two. */
  lemma RoomyTransparent(l: Link, cfg: Atcmd, appIo: bool, acts: seq<Act>)
    requires l.Valid() && !cfg.pr && IAC !in cfg.term
    requires IsStay(GoOnline(l, cfg), cfg, appIo, acts) && Roomy(GoOnline(l, cfg), cfg, appIo, acts)
    requires WholeKeys(Told([], []), cfg, Stay(GoOnline(l, cfg), cfg, appIo, acts).handled)
    ensures var l' := Stay(GoOnline(l, cfg), cfg, appIo, acts);
      && Carries(l'.out.delivered + l'.out.pending, TellAll(Told([], []), cfg, l'.handled).data)
      && l'.line == Doubled(TellAll(Told([], []), cfg, l'.handled).text)
      && Bytes(l'.handled) + l'.unread == Taken(GoOnline(l, cfg), cfg, appIo, acts)
  {
    var l0 := GoOnline(l, cfg);
    GoOnlineValid(l, cfg);
    GoOnlineCarries(l, cfg);
    RoomyNeverLoses(l0, cfg, appIo, acts);
    var l' := Stay(l0, cfg, appIo, acts);
    assert l0.handled == [] && l'.handled[0..] == l'.handled;
    Transparent(l0, Told([], []), cfg, appIo, acts);
    assert [] + Taken(l0, cfg, appIo, acts) == Taken(l0, cfg, appIo, acts);
  }

  // ---------------------------------------------------------------- when they do not

  lemma {:induction false} PutMsgsLost(q: Queue, msgs: seq<Msg>)
    requires q.Valid()
    ensures var n := q.Ptr() + 3 * |msgs|;
      && PutMsgs(q, msgs).Valid()
      && PutMsgs(q, msgs).Ptr() == (if n <= HARD then n else HARD)
      && PutMsgs(q, msgs).lost == q.lost + if n <= HARD then 0 else n - HARD
    decreases |msgs|
  {
    if msgs == [] {
    } else {
      PutMsgStream(q, msgs[0]);
      PutMsgsLost(PutMsg(q, msgs[0]), msgs[1..]);
    }
  }

  /** A command that asks for an option the modem does not know. */
  predicate AsksUnknown(m: Msg) {
    IsVerb(m.verb) && m.On() && SlotOf(m.opt) == DEFAULT_SLOT
  }

  lemma {:induction false} UnknownRefused(t: Tel, msgs: seq<Msg>)
    requires DefaultRefuses(t.table) && forall m <- msgs :: AsksUnknown(m)
    ensures |HandleAll(t, msgs).replies| == |msgs|
    decreases |msgs|
  {
    if msgs == [] {
    } else {
      var m := msgs[0];
      assert m in msgs;
      HandleTable(t, m);
      ReactKeepsReq(t.table[DEFAULT_SLOT].Side(!m.AboutSender()), m.On());
      assert |Handle(t, m).msgs| == 1;
      UnknownRefused(Handle(t, m).tel, msgs[1..]);
    }
  }

  /** An overrun, exactly: a peer that asks for unknown options and does not read, in whatever chunks its bytes come,
      makes the modem lose every byte of its refusals beyond the hard limit. */
  lemma FloodOverruns(l: Link, cfg: Atcmd, msgs: seq<Msg>, chunks: seq<seq<Byte>>)
    requires l.Valid() && !cfg.pr && l.srl.state.Norm? && DefaultRefuses(l.tel.table)
    requires (forall m <- msgs :: AsksUnknown(m)) && Joined(chunks) == MsgsBytes(msgs)
    ensures var n := l.out.Ptr() + 3 * |msgs|;
      Chunks(l, cfg, chunks).out.lost == l.out.lost + if n <= HARD then 0 else n - HARD
  {
    CommandsOverTheWire(l, cfg, msgs, chunks);
    UnknownRefused(l.tel, msgs);
    PutMsgsLost(l.out, HandleAll(l.tel, msgs).replies);
  }
}
