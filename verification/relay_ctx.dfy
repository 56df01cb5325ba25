/** The part of m2k_t that a connection uses, updated in place by the loops of src/m2k_step.c. */
module RelayCtx {
  import opened Wire
  import opened Time
  import opened Settings
  import opened Fifo
  import opened TelOpt
  import opened TelOptTable
  import opened LineBuffer
  import opened Iac
  import opened Escape
  import opened Relay
  import opened Dialer

  class LinkCtx {
    const sockR: ReadBuf
    const sockW: WriteBuf
    const ttyR: ReadBuf
    const ttyW: WriteBuf
    const lineBuf: LineBuf
    const tel: Options
    const conn: Connection
    var newT: Timeval
    var prevT: Timeval
    var esc: Esc
    var srl: Srl
    ghost var handled: seq<Key>
    ghost var received: seq<Byte>

    ghost function Repr(): set<object> {
      {this, sockR, sockR.data, sockW, sockW.data, ttyR, ttyR.data, ttyW, ttyW.data, lineBuf, lineBuf.data, tel, conn}
    }

    /** The parts are separate objects. */
    ghost predicate Separate() {
      && sockR != ttyR && sockW != ttyW
      && sockR.data != ttyR.data && sockR.data != sockW.data && sockR.data != ttyW.data && sockR.data != lineBuf.data
      && ttyR.data != sockW.data && ttyR.data != ttyW.data && ttyR.data != lineBuf.data
      && sockW.data != ttyW.data && sockW.data != lineBuf.data && ttyW.data != lineBuf.data
      && lineBuf.data.Length == LINEBUF_SIZE
    }

    ghost predicate Valid()
      reads Repr()
    {
      && Separate()
      && sockR.Valid() && sockW.Valid() && ttyR.Valid() && ttyW.Valid() && lineBuf.Valid() && tel.Valid()
    }

    ghost function View(): Link
      requires Valid()
      reads Repr()
    {
      Link(ttyR.Unread(), newT, prevT, lineBuf.Contents(), esc, srl, tel.View(), sockW.View(), ttyW.View(),
           conn.View(), handled, received)
    }

    constructor ()
      ensures Valid() && fresh(lineBuf)
      ensures View() == NEW_LINK
      ensures sockR.Unread() == []
    {
      sockR := new ReadBuf();
      sockW := new WriteBuf();
      ttyR := new ReadBuf();
      ttyW := new WriteBuf();
      lineBuf := new LineBuf(LINEBUF_SIZE);
      tel := new Options();
      conn := new Connection();
      newT, prevT, esc, srl := EPOCH, EPOCH, QUIET, Srl(Norm, 0, 0);
      handled, received := [], [];
    }

    /** What is left of the last recv. */
    ghost function Rx(): seq<Byte>
      requires Valid()
      reads Repr()
    {
      sockR.Unread()
    }

    // -------------------------------------------------------------- one buffer at a time

    method SockBufWReady() returns (r: bool)
      requires Valid()
      ensures r == !View().out.stop
    {
      r := sockW.Ready();
    }

    method TtyBufRHasData() returns (r: bool)
      requires Valid()
      ensures r == (View().unread != [])
    {
      r := ttyR.HasData();
    }

    method GetTty1() returns (c: int)
      requires Valid()
      modifies ttyR
      ensures Valid() && Rx() == old(Rx())
      ensures old(View()).unread == [] ==> c == -1 && View() == old(View())
      ensures old(View()).unread != [] ==>
                c == old(View()).unread[0] && View() == old(View()).(unread := old(View()).unread[1..])
    {
      c := ttyR.Get1();
    }

    method PutTty1(c: Byte)
      requires Valid()
      modifies ttyW, ttyW.data
      ensures Valid() && Rx() == old(Rx())
      ensures View() == old(View()).(tty := old(View()).tty.Put(c))
    {
      ttyW.Put1(c);
    }

    method PutTtyN(s: seq<Byte>)
      requires Valid()
      modifies ttyW, ttyW.data
      ensures Valid() && Rx() == old(Rx())
      ensures View() == old(View()).(tty := old(View()).tty.PutN(s))
    {
      ttyW.PutN(s);
    }

    method PutSock1(c: Byte)
      requires Valid()
      modifies sockW, sockW.data
      ensures Valid() && Rx() == old(Rx())
      ensures View() == old(View()).(out := old(View()).out.Put(c))
    {
      sockW.Put1(c);
    }

    /** putSockN of the line buffer. */
    method PutSockLine()
      requires Valid()
      modifies sockW, sockW.data
      ensures Valid() && Rx() == old(Rx())
      ensures View() == old(View()).(out := old(View()).out.PutN(old(View()).line))
    {
      sockW.PutN(lineBuf.data[..lineBuf.ptr]);
    }

    method LineBufReset()
      requires Valid()
      modifies lineBuf
      ensures Valid() && Rx() == old(Rx())
      ensures View() == old(View()).(line := [])
    {
      lineBuf.Reset();
    }

    method PutLine1(c: Byte)
      requires Valid()
      modifies lineBuf, lineBuf.data
      ensures Valid() && Rx() == old(Rx())
      ensures View() == old(View()).(line := PutLine(old(View()).line, c))
    {
      lineBuf.Put1(c);
    }

    method LineBufBS()
      requires Valid()
      modifies lineBuf
      ensures Valid() && Rx() == old(Rx())
      ensures View() == old(View()).(line := Backspace(old(View()).line))
    {
      lineBuf.Backspace();
    }

    /** sock->alive = 0 */
    method LoseSock()
      requires Valid()
      modifies conn
      ensures Valid() && Rx() == old(Rx())
      ensures View() == old(View()).(sock := old(View()).sock.(alive := false))
    {
      conn.Lose();
    }

    /** sockClose and sockShutdown */
    method CloseSock()
      requires Valid()
      modifies conn
      ensures Valid() && Rx() == old(Rx())
      ensures View() == old(View()).(sock := Close(old(View()).sock))
    {
      conn.Close();
    }

    // -------------------------------------------------------------- escape detector

    /** s12timePassed */
    method GuardTimePassed(s12: Byte, t1: Timeval, t2: Timeval) returns (r: bool)
      ensures r == GuardPassed(s12, t1, t2)
    {
      var t := new TimevalVar(EPOCH);
      t.Set10ms(s12 * 2);
      t.Add(t2);
      r := Cmp(t1, t.Value()) > 0;
    }

    /** The ESH_NORM case of escSeqHandle. */
    method EscFirst(cfg: Atcmd, c: Byte, ghost mode: Mode)
      requires Valid()
      modifies this`esc
      ensures esc == First(old(esc), cfg.s2, cfg.s12, Key(c, newT, prevT, mode))
    {
      var passed := GuardTimePassed(cfg.s12, newT, prevT);
      if c == cfg.s2 && passed {
        esc := esc.(plus1T := newT, state := P1);
      }
    }

    /** The switch of escSeqHandle. */
    method EscStep(cfg: Atcmd, c: Byte, ghost mode: Mode)
      requires Valid()
      modifies this`esc
      ensures esc == EscByte(old(esc), cfg.s2, cfg.s12, Key(c, newT, prevT, mode))
    {
      match esc.state {
        case P1 =>
          var late := GuardTimePassed(cfg.s12, newT, esc.plus1T);
          esc := esc.(state := if c == cfg.s2 && !late then P2 else Idle);
        case P2 =>
          var late := GuardTimePassed(cfg.s12, newT, esc.plus1T);
          if c == cfg.s2 && !late {
            var t := new TimevalVar(EPOCH);
            t.Set10ms(cfg.s12 * 2);
            t.Add(newT);
            esc := esc.(checkSilence := true, expireT := t.Value(), state := P3);
          } else {
            esc := esc.(state := Idle);
          }
        case P3 =>
          esc := esc.(checkSilence := false, state := Idle);
          EscFirst(cfg, c, mode);
        case Idle =>
          EscFirst(cfg, c, mode);
      }
    }

    /** escSeqHandle */
    method EscSeqHandle(cfg: Atcmd, c: Byte, ghost mode: Mode)
      requires Valid()
      modifies this`esc, this`handled
      ensures Valid() && Rx() == old(Rx())
      ensures var key := Key(c, newT, prevT, mode);
        View() == old(View()).(esc := EscByte(old(View()).esc, cfg.s2, cfg.s12, key),
                               handled := old(View()).handled + [key])
    {
      EscStep(cfg, c, mode);
      handled := handled + [Key(c, newT, prevT, mode)];
    }

    // -------------------------------------------------------------- DTE to socket

    /** One byte of the loop. */
    method RawTurn(cfg: Atcmd, c: Byte, ghost l: Link)
      requires Valid() && l.unread != [] && c == l.unread[0] && View() == l.(unread := l.unread[1..])
      requires ModeOf(l, cfg).Raw?
      modifies Repr()
      ensures Valid() && View() == TtyByte(l, cfg) && Rx() == old(Rx()) && srl == old(srl)
    {
      PutSock1(c);
      EscSeqHandle(cfg, c, Raw);
      TtyByteIs(l, cfg);
    }

    method RawLoop(cfg: Atcmd)
      requires Valid() && ModeOf(View(), cfg).Raw?
      modifies Repr()
      ensures Valid() && View() == TtyLoop(old(View()), cfg) && Rx() == old(Rx()) && srl == old(srl)
    {
      ghost var was := View();
      while true
        invariant Valid() && ModeOf(View(), cfg).Raw? && Rx() == old(Rx()) && srl == old(srl)
        invariant TtyLoop(View(), cfg) == TtyLoop(was, cfg)
        decreases |View().unread|
      {
        ghost var l := View();
        var ready := SockBufWReady();
        if !ready {
          return;
        }
        var c := GetTty1();
        if c < 0 {
          return;
        }
        RawTurn(cfg, c, l);
        TtyByteIs(l, cfg);
      }
    }

    /** One byte of the loop. */
    method CharTurn(cfg: Atcmd, c: Byte, ghost l: Link)
      requires Valid() && l.unread != [] && c == l.unread[0] && View() == l.(unread := l.unread[1..])
      requires ModeOf(l, cfg).Char?
      modifies Repr()
      ensures Valid() && View() == TtyByte(l, cfg) && Rx() == old(Rx()) && srl == old(srl)
    {
      if c == IAC {
        PutSock1(IAC);
      }
      PutSock1(c);
      EscSeqHandle(cfg, c, Char);
      TtyByteIs(l, cfg);
    }

    method CharLoop(cfg: Atcmd)
      requires Valid() && ModeOf(View(), cfg).Char?
      modifies Repr()
      ensures Valid() && View() == TtyLoop(old(View()), cfg) && Rx() == old(Rx()) && srl == old(srl)
    {
      ghost var was := View();
      while true
        invariant Valid() && ModeOf(View(), cfg).Char? && Rx() == old(Rx()) && srl == old(srl)
        invariant TtyLoop(View(), cfg) == TtyLoop(was, cfg)
        decreases |View().unread|
      {
        ghost var l := View();
        var ready := SockBufWReady();
        if !ready {
          return;
        }
        var c := GetTty1();
        if c < 0 {
          return;
        }
        CharTurn(cfg, c, l);
        TtyByteIs(l, cfg);
      }
    }

    /** The body of the line-mode loop for one byte. */
    method LineByte(cfg: Atcmd, c: Byte)
      requires Valid()
      modifies Repr()
      ensures Valid() && Rx() == old(Rx())
      ensures View() == Relay.LineByte(old(View()), cfg, c)
    {
      PutTty1(c);
      if c == cfg.s3 {
        PutTty1(cfg.s4);
        PutSockLine();
        PutSock1(CR);
        PutSock1(LF);
        LineBufReset();
      } else if c == cfg.s4 {
        // line feeds are ignored
      } else if c == cfg.s5 {
        LineBufBS();
      } else {
        if c == IAC {
          PutLine1(IAC);
        }
        PutLine1(c);
      }
    }

    /** One byte of the loop. */
    method LineTurn(cfg: Atcmd, c: Byte, ghost l: Link)
      requires Valid() && l.unread != [] && c == l.unread[0] && View() == l.(unread := l.unread[1..])
      requires ModeOf(l, cfg).Line?
      modifies Repr()
      ensures Valid() && View() == TtyByte(l, cfg) && Rx() == old(Rx()) && srl == old(srl)
    {
      LineByte(cfg, c);
      EscSeqHandle(cfg, c, Line);
      TtyByteIs(l, cfg);
    }

    method LineLoop(cfg: Atcmd)
      requires Valid() && ModeOf(View(), cfg).Line?
      modifies Repr()
      ensures Valid() && View() == TtyLoop(old(View()), cfg) && Rx() == old(Rx()) && srl == old(srl)
    {
      ghost var was := View();
      while true
        invariant Valid() && ModeOf(View(), cfg).Line? && Rx() == old(Rx()) && srl == old(srl)
        invariant TtyLoop(View(), cfg) == TtyLoop(was, cfg)
        decreases |View().unread|
      {
        ghost var l := View();
        var ready := SockBufWReady();
        if !ready {
          return;
        }
        var c := GetTty1();
        if c < 0 {
          return;
        }
        LineTurn(cfg, c, l);
        TtyByteIs(l, cfg);
      }
    }

    /** ttyReadLoop */
    method TtyReadLoop(cfg: Atcmd)
      requires Valid()
      modifies Repr()
      ensures Valid() && View() == TtyLoop(old(View()), cfg) && Rx() == old(Rx()) && srl == old(srl)
    {
      if cfg.pr {
        RawLoop(cfg);
      } else if tel.sgasend {
        CharLoop(cfg);
      } else {
        LineLoop(cfg);
      }
    }

    // -------------------------------------------------------------- socket to DTE

    method GetSock1() returns (c: int)
      requires Valid()
      modifies sockR
      ensures Valid() && View() == old(View())
      ensures old(Rx()) == [] ==> c == -1 && Rx() == []
      ensures old(Rx()) != [] ==> c == old(Rx())[0] && Rx() == old(Rx())[1..]
    {
      c := sockR.Get1();
    }

    /** Record a byte received. */
    ghost method Receive(c: Byte)
      requires Valid()
      modifies this`received
      ensures Valid() && Rx() == old(Rx())
      ensures View() == old(View()).(received := old(View()).received + [c])
    {
      received := received + [c];
    }

    /** The parser state between bytes is one sockReadLoop can have left. */
    ghost predicate Parsing()
      reads this
    {
      srl.state.Cmd? ==> IsVerb(srl.cmd)
    }

    method TelOptHandle(m: Msg)
      requires Valid() && IsVerb(m.verb)
      modifies tel, conn, sockW, sockW.data
      ensures Valid() && Rx() == old(Rx()) && srl == old(srl)
      ensures View() == TokenStep(old(View()), DEFAULTS, Negotiate(m))
    {
      var fatal := tel.Handle(m.verb, m.opt, sockW);
      if fatal {
        conn.Lose();
      }
    }

    method TelOptSBHandle(cfg: Atcmd, opt: Byte)
      requires Valid()
      modifies sockW, sockW.data
      ensures Valid() && Rx() == old(Rx()) && srl == old(srl)
      ensures View() == TokenStep(old(View()), cfg, SendSub(opt))
    {
      var unhandled := tel.SBHandle(opt, cfg.term, sockW);
    }

    method SetSrl(s: Srl)
      requires Valid()
      modifies this`srl
      ensures Valid() && srl == s && Rx() == old(Rx()) && View() == old(View()).(srl := s)
    {
      srl := s;
    }

    /** The SRL_IAC case of sockReadLoop. */
    method SrlIac(cfg: Atcmd, c: Byte)
      requires Valid() && srl.state.Iac?
      modifies Repr()
      ensures Valid() && Parsing() && Rx() == old(Rx())
      ensures var p := ParseByte(old(srl), c); var l := old(View()).(srl := p.srl);
        View() == if p.tokens == [] then l else TokenStep(l, cfg, p.tokens[0])
    {
      if IsVerb(c) {
        SetSrl(srl.(cmd := c, state := Cmd));
      } else if c == IAC {
        SetSrl(srl.(state := Norm));
        PutTty1(c);
      } else if c == SB {
        SetSrl(srl.(state := Sb));
      } else {
        SetSrl(srl.(state := Norm));
      }
    }

    /** One pass of the switch in sockReadLoop. */
    method SrlByte(cfg: Atcmd, c: Byte)
      requires Valid() && !cfg.pr && Parsing()
      modifies Repr()
      ensures Valid() && Parsing() && Rx() == old(Rx())
      ensures var p := ParseByte(old(srl), c); var l := old(View()).(srl := p.srl);
        View() == if p.tokens == [] then l else TokenStep(l, cfg, p.tokens[0])
    {
      match srl.state {
        case Iac =>
          SrlIac(cfg, c);
        case Cmd =>
          SetSrl(srl.(state := Norm));
          TelOptHandle(Msg(srl.cmd, c));
        case Sb =>
          SetSrl(srl.(opt := c, state := Sbc));
        case Sbc =>
          SetSrl(srl.(state := if c == TELQUAL_SEND then Sbs else Norm));
        case Sbs =>
          SetSrl(srl.(state := if c == IAC then Sbi else Norm));
        case Sbi =>
          SetSrl(srl.(state := Norm));
          TelOptSBHandle(cfg, srl.opt);
        case Norm =>
          if c == IAC {
            SetSrl(srl.(state := Iac));
          } else {
            PutTty1(c);
          }
      }
    }

    /** sockReadLoop */
    method SockReadLoop(cfg: Atcmd)
      requires Valid() && Parsing()
      modifies Repr()
      ensures Valid() && Parsing() && Rx() == []
      ensures View() == SockLoop(old(View()), cfg, old(Rx()))
    {
      ghost var goal := SockLoop(View(), cfg, Rx());
      while true
        invariant Valid() && Parsing()
        invariant SockLoop(View(), cfg, Rx()) == goal
        decreases |Rx()|
      {
        var c := GetSock1();
        if c < 0 {
          return;
        }
        Receive(c);
        if cfg.pr {
          PutTty1(c);
        } else {
          SrlByte(cfg, c);
        }
      }
    }

    // -------------------------------------------------------------- one step online

    /** sockBufWrite, then ttyReadLoop if that made room. */
    method OnSockWritable(cfg: Atcmd, sent: int)
      requires Valid()
      modifies Repr()
      ensures Valid() && View() == Relay.OnSockWritable(old(View()), cfg, sent)
      ensures Rx() == old(Rx()) && srl == old(srl)
    {
      SockBufWrite(sent);
      var hasData := TtyBufRHasData();
      var ready := SockBufWReady();
      if conn.alive && hasData && ready {
        TtyReadLoop(cfg);
      }
    }

    method SockBufWrite(sent: int)
      requires Valid()
      modifies Repr()
      ensures Valid() && Rx() == old(Rx())
      ensures var l := old(View());
        View() == l.(out := l.out.Write(sent),
                     sock := if l.out.pending == [] || sent > 0 then l.sock else l.sock.(alive := false))
    {
      var ok := sockW.Write(sent);
      if !ok {
        conn.Lose();
      }
    }

    /** ttyBufWrite: a TTY that cannot be written takes the connection down. */
    method TtyBufWrite(wrote: int) returns (ok: bool)
      requires Valid()
      modifies Repr()
      ensures Valid() && Rx() == old(Rx()) && srl == old(srl)
      ensures ok == (old(View()).tty.pending == [] || wrote > 0)
      ensures var l := old(View());
        View() == if ok then l.(tty := l.tty.Write(wrote)) else l.(sock := Close(l.sock))
    {
      ok := ttyW.Write(wrote);
      if !ok {
        conn.Close();
      }
    }

    /** sockBufRead, then sockReadLoop. */
    method OnSockReadable(cfg: Atcmd, bytes: Chunk)
      requires Valid() && Parsing() && Rx() == []
      modifies Repr()
      ensures Valid() && Parsing() && Rx() == []
      ensures View() == Relay.OnSockReadable(old(View()), cfg, bytes)
    {
      if |bytes| == 0 {
        LoseSock();
        SockReadLoop(cfg);
      } else {
        sockR.Fill(bytes);
        SockReadLoop(cfg);
      }
    }

    /** ttyBufRead: a TTY that cannot be read takes the connection down. */
    method TtyBufRead(bytes: Chunk, at: Timeval) returns (ok: bool)
      requires Valid()
      modifies Repr()
      ensures Valid() && Rx() == old(Rx()) && ok == (bytes != [])
      ensures var l := old(View());
        View() == if ok then l.(unread := bytes, prevT := l.newT, newT := at) else l.(sock := Close(l.sock))
    {
      if |bytes| == 0 {
        conn.Close();
        return false;
      }
      prevT := newT;
      newT := at;
      ttyR.Fill(bytes);
      ok := true;
    }

    /** onlineIter up to the point where the socket is read. */
    method IterOut(cfg: Atcmd, appIo: bool, w: World) returns (lost: bool)
      requires Valid() && Parsing()
      modifies Repr()
      ensures Valid() && Parsing() && Rx() == old(Rx())
      ensures Iter(View(), if lost then Lost else Continue) == Relay.IterOut(old(View()), cfg, appIo, w)
    {
      if w.ev.sockOut {
        OnSockWritable(cfg, w.sent);
      }
      lost := IterTty(cfg, appIo, w);
    }

    /** What the host wrote is handled, or the TTY is written. */
    method IterTty(cfg: Atcmd, appIo: bool, w: World) returns (lost: bool)
      requires Valid()
      modifies Repr()
      ensures Valid() && Rx() == old(Rx()) && srl == old(srl)
      ensures Iter(View(), if lost then Lost else Continue) == Relay.IterTty(old(View()), cfg, appIo, w)
    {
      lost := false;
      if appIo {
        var hasData := TtyBufRHasData();
        if hasData {
          TtyReadLoop(cfg);
        }
      } else if w.ev.ttyOut {
        var ok := TtyBufWrite(w.wrote);
        lost := !ok;
      }
    }

    /** onlineIter from there on. */
    method IterIn(cfg: Atcmd, appIo: bool, w: World) returns (lost: bool)
      requires Valid() && Parsing() && Rx() == []
      modifies Repr()
      ensures Valid() && Parsing() && Rx() == []
      ensures Iter(View(), if lost then Lost else Continue) == Relay.IterIn(old(View()), cfg, appIo, w)
    {
      if w.ev.sockIn {
        OnSockReadable(cfg, w.recv);
      }
      if !appIo && w.ev.ttyIn {
        var ok := TtyBufRead(w.read, w.readAt);
        if !ok {
          return true;
        }
        TtyReadLoop(cfg);
      }
      lost := !conn.alive;
    }

    /** onlineIter */
    method OnlineIter(cfg: Atcmd, appIo: bool, w: World) returns (verdict: Verdict)
      requires Valid() && Parsing() && Rx() == []
      modifies Repr()
      ensures Valid() && Parsing() && Rx() == []
      ensures Iter(View(), verdict) == Relay.OnlineIter(old(View()), cfg, appIo, w)
    {
      if w.escapeReq || (esc.checkSilence && Cmp(w.now, esc.expireT) >= 0) {
        esc := esc.(checkSilence := false);
        return Escaped;
      }
      var lost := IterOut(cfg, appIo, w);
      if lost {
        return Lost;
      }
      lost := IterIn(cfg, appIo, w);
      verdict := if lost then Lost else Continue;
    }

    // -------------------------------------------------------------- entering states

    /** ttyBufRReset */
    method ForgetInput()
      requires Valid()
      modifies Repr()
      ensures Valid() && Rx() == old(Rx()) && srl == old(srl)
      ensures View() == old(View()).(unread := [], prevT := EPOCH)
    {
      ttyR.Reset();
      prevT := EPOCH;
    }

    /** sockBufWReset */
    method SockBufWReset()
      requires Valid()
      modifies Repr()
      ensures Valid() && Rx() == old(Rx()) && srl == old(srl)
      ensures View() == old(View()).(out := EMPTY)
    {
      sockW.Reset();
    }

    method TelOptReset()
      requires Valid()
      modifies Repr()
      ensures Valid() && Rx() == old(Rx()) && srl == old(srl)
      ensures View() == old(View()).(tel := TelOpt.Reset(old(View()).tel))
    {
      tel.Reset();
    }

    method SetSentReqs(sent: bool)
      requires Valid()
      modifies Repr()
      ensures Valid() && Rx() == old(Rx()) && srl == old(srl)
      ensures View() == old(View()).(tel := old(View()).tel.(sentReqs := sent))
    {
      tel.sentReqs := sent;
    }

    method TelOptSendReqs(cfg: Atcmd)
      requires Valid()
      modifies tel, sockW, sockW.data
      ensures Valid() && Rx() == old(Rx()) && srl == old(srl)
      ensures var s := TelOpt.SendReqs(old(View()).tel, cfg);
        View() == old(View()).(tel := s.tel, out := PutMsgs(old(View()).out, s.msgs))
    {
      tel.SendReqs(cfg, sockW);
    }

    /** escSeqReset, the reset of the IAC parser, and the histories of a new stay. */
    method ResetParsers()
      requires Valid()
      modifies this
      ensures Valid() && Rx() == old(Rx()) && srl.state.Norm?
      ensures var l := old(View());
        View() == l.(esc := l.esc.(state := Idle), srl := l.srl.(state := Norm), handled := [], received := [])
    {
      esc := esc.(state := Idle);
      srl := srl.(state := Norm);
      handled, received := [], [];
    }

    /** stepEnterOnline up to the CONNECT message. */
    method GoOnline(cfg: Atcmd)
      requires Valid()
      modifies Repr()
      ensures Valid() && Parsing() && Rx() == []
      ensures View() == Relay.GoOnline(old(View()), cfg)
    {
      SockBufRReset();
      SockBufWReset();
      ForgetInput();
      LineBufReset();
      ResetParsers();
      if !tel.sentReqs && !cfg.pr {
        TelOptSendReqs(cfg);
      }
    }

    method SockBufRReset()
      requires Valid()
      modifies Repr()
      ensures Valid() && Rx() == [] && srl == old(srl)
      ensures View() == old(View())
    {
      sockR.Reset();
    }

    // -------------------------------------------------------------- app-I/O

    /** m2k_write_from_app: the whole contract of the call. */
    method WriteFromApp(bytes: seq<Byte>, now: Timeval) returns (consumed: nat, wouldBlock: bool)
      requires Valid()
      modifies Repr()
      ensures Valid() && Rx() == old(Rx()) && srl == old(srl)
      ensures View() == FromApp(old(View()), bytes, now)
      ensures var free := CHUNK - |old(View()).unread|; consumed == if |bytes| < free then |bytes| else free
      ensures View().unread == old(View()).unread + bytes[..consumed]
      ensures wouldBlock <==> bytes != [] && consumed == 0
    {
      consumed, wouldBlock := ttyR.Append(bytes);
      if consumed > 0 {
        prevT := newT;
        newT := now;
      }
    }

    /** m2k_read_to_app */
    method ReadToApp(max: nat) returns (bytes: seq<Byte>)
      requires Valid()
      modifies Repr()
      ensures Valid() && Rx() == old(Rx()) && srl == old(srl)
      ensures View() == ToApp(old(View()), max)
      ensures bytes <= old(View()).tty.pending
      ensures |bytes| == if max < |old(View()).tty.pending| then max else |old(View()).tty.pending|
    {
      bytes := ttyW.ReadToApp(max);
    }
  }
}
