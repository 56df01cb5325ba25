/** Flow control: headroom, no lost wakeup, draining. */
module FlowControl {
  import opened Wire
  import opened Settings
  import opened Fifo
  import opened TelOpt
  import opened Iac
  import opened Relay
  import opened RelayRuns
  import opened Transparency

  // ---------------------------------------------------------------- headroom

  /** ttyReadLoop never loses a byte on its way to the socket, in any mode and from any state. */
  lemma {:induction false} TtyLoopHeadroom(l: Link, cfg: Atcmd)
    requires l.Valid()
    ensures TtyLoop(l, cfg).out.lost == l.out.lost
    ensures TtyLoop(l, cfg).out.delivered == l.out.delivered
    ensures !l.out.stop ==> TtyLoop(l, cfg).out.Ptr() <= SOFT + LINEBUF_SIZE + 2
    decreases |l.unread|
  {
    if l.out.stop || l.unread == [] {
    } else {
      TtyByteHeadroom(l, cfg);
      TtyByteFrame(l, cfg);
      TtyLoopHeadroom(TtyByte(l, cfg), cfg);
    }
  }

  lemma SockByteHeadroom(l: Link, cfg: Atcmd, c: Byte)
    requires l.Valid() && l.tty.Ptr() < HARD
    ensures SockByte(l, cfg, c).tty.lost == l.tty.lost
    ensures l.tty.Ptr() <= SockByte(l, cfg, c).tty.Ptr() <= l.tty.Ptr() + 1
    ensures SockByte(l, cfg, c).tty.delivered == l.tty.delivered
  {
  }

  /** sockReadLoop emits at most one TTY byte per byte received, so a full chunk received while the TTY side is ready
      never overruns it. */
  lemma {:induction false} SockLoopHeadroom(l: Link, cfg: Atcmd, bytes: seq<Byte>)
    requires l.Valid() && l.tty.Ptr() + |bytes| <= HARD
    ensures SockLoop(l, cfg, bytes).tty.lost == l.tty.lost
    ensures SockLoop(l, cfg, bytes).tty.Ptr() <= l.tty.Ptr() + |bytes|
    ensures SockLoop(l, cfg, bytes).tty.delivered == l.tty.delivered
    decreases |bytes|
  {
    if bytes == [] {
    } else {
      SockByteFrame(l, cfg, bytes[0]);
      SockByteHeadroom(l, cfg, bytes[0]);
      SockLoopHeadroom(SockByte(l, cfg, bytes[0]), cfg, bytes[1..]);
    }
  }

  // ---------------------------------------------------------------- no lost wakeup

  /** Unread bytes wait only for flow control, and flow control waits only for a send that poll will announce. */
  ghost predicate Awake(l: Link, appIo: bool) {
    && (l.unread != [] ==> l.out.stop)
    && (l.out.stop ==> l.out.pending != [] && PollSet(l, appIo).sockOut)
  }

  lemma StopHasPending(l: Link, appIo: bool)
    requires l.Valid()
    ensures l.out.stop ==> l.out.pending != [] && PollSet(l, appIo).sockOut
  {
  }

  lemma {:induction false} SockLoopStops(l: Link, cfg: Atcmd, bytes: seq<Byte>)
    requires l.Valid()
    ensures l.out.stop ==> SockLoop(l, cfg, bytes).out.stop
    decreases |bytes|
  {
    if bytes == [] {
    } else {
      SockByteFrame(l, cfg, bytes[0]);
      if l.out.stop {
        SockByteStops(l, cfg, bytes[0]);
      }
      SockLoopStops(SockByte(l, cfg, bytes[0]), cfg, bytes[1..]);
    }
  }

  lemma SockByteStops(l: Link, cfg: Atcmd, c: Byte)
    requires l.Valid() && l.out.stop
    ensures SockByte(l, cfg, c).out.stop
  {
    if !cfg.pr {
      var p := ParseByte(l.srl, c);
      if p.tokens != [] {
        match p.tokens[0]
        case Negotiate(m) => PutMsgsStop(l.out, Handle(l.tel, m).msgs);
        case SendSub(opt) => PutNStop(l.out.Put(IAC).Put(SB).Put(TELOPT_TTYPE).Put(TELQUAL_IS), cfg.term);
        case _ =>
      }
    }
  }

  lemma {:induction false} PutNStop(q: Queue, s: seq<Byte>)
    requires q.stop
    ensures q.PutN(s).stop
    decreases |s|
  {
    if s == [] {
    } else {
      PutNStop(q.Put(s[0]), s[1..]);
    }
  }

  lemma {:induction false} PutMsgsStop(q: Queue, msgs: seq<Msg>)
    requires q.stop
    ensures PutMsgs(q, msgs).stop
    decreases |msgs|
  {
    if msgs == [] {
    } else {
      PutMsgsStop(PutMsg(q, msgs[0]), msgs[1..]);
    }
  }

  lemma IterOutAwake(l: Link, cfg: Atcmd, appIo: bool, w: World)
    requires l.Valid() && (appIo || Awake(l, appIo))
    requires IterOut(l, cfg, appIo, w).verdict.Continue? && IterOut(l, cfg, appIo, w).link.sock.alive
    ensures var l' := IterOut(l, cfg, appIo, w).link; l'.unread != [] ==> l'.out.stop
  {
    var l1 := if w.ev.sockOut then OnSockWritable(l, cfg, w.sent) else l;
    if w.ev.sockOut {
      var ok := l.out.pending == [] || w.sent > 0;
      var l0 := l.(out := l.out.Write(w.sent), sock := if ok then l.sock else l.sock.(alive := false));
      TtyLoopFrame(l0, cfg);
      OnSockWritableFrame(l, cfg, w.sent);
    }
    TtyLoopFrame(l1, cfg);
  }

  lemma IterInAwake(l: Link, cfg: Atcmd, appIo: bool, w: World)
    requires l.Valid() && (l.unread != [] ==> l.out.stop)
    requires IterIn(l, cfg, appIo, w).verdict.Continue?
    ensures Awake(IterIn(l, cfg, appIo, w).link, appIo)
    ensures l.sock.alive
  {
    var l1 := if w.ev.sockIn then OnSockReadable(l, cfg, w.recv) else l;
    if w.ev.sockIn {
      OnSockReadableFrame(l, cfg, w.recv);
      SockLoopStops(l, cfg, w.recv);
    }
    if !appIo && w.ev.ttyIn {
      TtyLoopFrame(l1.(unread := w.read, prevT := l1.newT, newT := w.readAt), cfg);
    }
    StopHasPending(IterIn(l, cfg, appIo, w).link, appIo);
  }

  /** No lost wakeup, one step: a step that stays online leaves the link awake, in app-I/O mode whatever the host
      wrote since the last one. */
  lemma StepAwake(l: Link, cfg: Atcmd, appIo: bool, w: World)
    requires l.Valid() && (appIo || Awake(l, appIo))
    requires OnlineIter(l, cfg, appIo, w).verdict.Continue?
    ensures Awake(OnlineIter(l, cfg, appIo, w).link, appIo)
  {
    IterOutFrame(l, cfg, appIo, w);
    var i := IterOut(l, cfg, appIo, w);
    IterInAlive(i.link, cfg, appIo, w);
    IterOutAwake(l, cfg, appIo, w);
    IterInAwake(i.link, cfg, appIo, w);
  }

  lemma IterInAlive(l: Link, cfg: Atcmd, appIo: bool, w: World)
    requires l.Valid() && IterIn(l, cfg, appIo, w).verdict.Continue?
    ensures l.sock.alive
  {
    if w.ev.sockIn {
      OnSockReadableFrame(l, cfg, w.recv);
    }
    var l1 := if w.ev.sockIn then OnSockReadable(l, cfg, w.recv) else l;
    if !appIo && w.ev.ttyIn {
      TtyLoopFrame(l1.(unread := w.read, prevT := l1.newT, newT := w.readAt), cfg);
    }
  }

  /** Every act, the last one included, leaves the line online. */
  predicate EndsOnline(l: Link, cfg: Atcmd, appIo: bool, acts: seq<Act>)
    decreases |acts|
  {
    acts != [] ==>
      && Do(l, cfg, appIo, acts[0]).verdict.Continue?
      && EndsOnline(Do(l, cfg, appIo, acts[0]).link, cfg, appIo, acts[1..])
  }

  /** No lost wakeup: after every step of a stay that remains online, whatever poll reported, unread DTE bytes imply
      that flow control has stopped the DTE, and that implies bytes pending for the socket and POLLOUT in the poll
      set. */
  lemma {:induction false} NoLostWakeup(l: Link, cfg: Atcmd, appIo: bool, acts: seq<Act>)
    requires l.Valid() && (appIo || Awake(l, appIo))
    requires EndsOnline(l, cfg, appIo, acts) && acts != [] && acts[|acts| - 1].Step?
    ensures Awake(Stay(l, cfg, appIo, acts), appIo)
    decreases |acts|
  {
    var l1 := Do(l, cfg, appIo, acts[0]).link;
    DoExact(l, cfg, appIo, acts[0]);
    if acts[0].Step? {
      StepAwake(l, cfg, appIo, acts[0].w);
    }
    if acts[1..] != [] {
      assert acts[1..][|acts| - 2] == acts[|acts| - 1];
      NoLostWakeup(l1, cfg, appIo, acts[1..]);
    }
  }

  // ---------------------------------------------------------------- draining

  /** Bytes still to be sent, counting an unread byte twice because it may be doubled. */
  ghost function Weight(l: Link): nat { 2 * |l.unread| + |l.line| + |l.out.pending| }

  lemma TtyByteWeight(l: Link, cfg: Atcmd)
    requires l.Valid() && l.unread != [] && !l.out.stop
    ensures Weight(TtyByte(l, cfg)) <= Weight(l)
  {
    PutNAppends(l.out, l.line);
  }

  lemma {:induction false} TtyLoopWeight(l: Link, cfg: Atcmd)
    requires l.Valid()
    ensures Weight(TtyLoop(l, cfg)) <= Weight(l)
    decreases |l.unread|
  {
    if l.out.stop || l.unread == [] {
    } else {
      TtyByteWeight(l, cfg);
      TtyByteFrame(l, cfg);
      TtyLoopWeight(TtyByte(l, cfg), cfg);
    }
  }

  /** A step in which nothing new arrives and the send makes progress. */
  predicate Draining(l: Link, w: World) {
    && !w.escapeReq && !SilenceOver(l.esc, w.now)
    && w.ev.sockOut && w.sent > 0
    && !w.ev.sockIn && !w.ev.ttyIn
    && (w.ev.ttyOut ==> w.wrote > 0)
  }

  lemma SendWeight(l: Link, cfg: Atcmd, sent: int)
    requires l.Valid() && l.sock.alive && sent > 0
    ensures var l' := OnSockWritable(l, cfg, sent);
      && l'.Valid() && l'.sock == l.sock
      && Weight(l') <= Weight(l)
      && (l.out.pending != [] ==> Weight(l') < Weight(l))
  {
    var l0 := l.(out := l.out.Write(sent));
    TtyLoopWeight(l0, cfg);
    TtyLoopFrame(l0, cfg);
  }

  lemma DrainStep(l: Link, cfg: Atcmd, appIo: bool, w: World)
    requires l.Valid() && l.sock.alive && Draining(l, w)
    ensures var i := OnlineIter(l, cfg, appIo, w);
      && i.verdict.Continue? && i.link.Valid() && i.link.sock.alive
      && Weight(i.link) <= Weight(l)
      && (l.out.pending != [] ==> Weight(i.link) < Weight(l))
  {
    SendWeight(l, cfg, w.sent);
    DrainTty(OnSockWritable(l, cfg, w.sent), cfg, appIo, w);
  }

  lemma DrainTty(l: Link, cfg: Atcmd, appIo: bool, w: World)
    requires l.Valid() && (w.ev.ttyOut ==> w.wrote > 0)
    ensures var i := IterTty(l, cfg, appIo, w);
      i.verdict.Continue? && i.link.Valid() && i.link.sock == l.sock && Weight(i.link) <= Weight(l)
  {
    TtyLoopWeight(l, cfg);
    TtyLoopFrame(l, cfg);
  }

  predicate AllDraining(l: Link, cfg: Atcmd, appIo: bool, ws: seq<World>)
    decreases |ws|
  {
    ws != [] ==>
      && Draining(l, ws[0])
      && AllDraining(OnlineIter(l, cfg, appIo, ws[0]).link, cfg, appIo, ws[1..])
  }

  function Drained(l: Link, cfg: Atcmd, appIo: bool, ws: seq<World>): Link
    decreases |ws|
  {
    if ws == [] then l else Drained(OnlineIter(l, cfg, appIo, ws[0]).link, cfg, appIo, ws[1..])
  }

  /** Drain termination. From an awake link, with no new input, every successful send strictly lowers the weight of
      unread, line-buffered and pending bytes while anything is pending; so in all three modes, after at most that
      many sends of any sizes nothing is unread or pending. */
  lemma {:induction false} Drains(l: Link, cfg: Atcmd, appIo: bool, ws: seq<World>)
    requires l.Valid() && l.sock.alive && Awake(l, appIo)
    requires AllDraining(l, cfg, appIo, ws) && |ws| >= Weight(l)
    ensures var l' := Drained(l, cfg, appIo, ws); l'.unread == [] && l'.out.pending == [] && l'.sock.alive
    decreases |ws|
  {
    if ws == [] {
      assert l.unread == [] && l.out.pending == [];
    } else {
      var l1 := OnlineIter(l, cfg, appIo, ws[0]).link;
      DrainStep(l, cfg, appIo, ws[0]);
      StepAwake(l, cfg, appIo, ws[0]);
      if l.out.pending == [] {
        StayDrained(l, cfg, appIo, ws);
      } else {
        Drains(l1, cfg, appIo, ws[1..]);
      }
    }
  }

  lemma {:induction false} StayDrained(l: Link, cfg: Atcmd, appIo: bool, ws: seq<World>)
    requires l.Valid() && l.sock.alive && l.unread == [] && l.out.pending == []
    requires AllDraining(l, cfg, appIo, ws)
    ensures var l' := Drained(l, cfg, appIo, ws); l'.unread == [] && l'.out.pending == [] && l'.sock.alive
    decreases |ws|
  {
    if ws == [] {
    } else {
      DrainStep(l, cfg, appIo, ws[0]);
      StayDrained(OnlineIter(l, cfg, appIo, ws[0]).link, cfg, appIo, ws[1..]);
    }
  }
}
