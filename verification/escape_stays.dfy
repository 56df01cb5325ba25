/** The +++ escape over whole online stays. */
module EscapeStays {
  import opened Settings
  import opened Escape
  import opened Relay
  import opened RelayRuns

  /** Every clock reading is a normalised struct timeval. */
  predicate ClockOk(act: Act) {
    match act
    case Step(w) => w.now.Normal() && w.readAt.Normal()
    case AppWrite(_, now) => now.Normal()
    case _ => true
  }

  ghost predicate TimesOk(l: Link) {
    l.newT.Normal() && l.prevT.Normal() && forall k <- l.handled :: k.Normal()
  }

  /** The detector is what its transition function makes of the bytes handled since the line went online. */
  ghost predicate EscOk(e0: Esc, l: Link, cfg: Atcmd) {
    l.esc == EscRun(e0, cfg.s2, cfg.s12, l.handled) && TimesOk(l)
  }

  lemma TtyByteEsc(e0: Esc, l: Link, cfg: Atcmd)
    requires l.Valid() && l.unread != [] && EscOk(e0, l, cfg)
    ensures EscOk(e0, TtyByte(l, cfg), cfg)
  {
    var key := Key(l.unread[0], l.newT, l.prevT, ModeOf(l, cfg));
    ModeByteFrame(l.(unread := l.unread[1..]), cfg, l.unread[0]);
    assert (l.handled + [key])[..|l.handled|] == l.handled;
  }

  lemma {:induction false} TtyLoopEsc(e0: Esc, l: Link, cfg: Atcmd)
    requires l.Valid() && EscOk(e0, l, cfg)
    ensures EscOk(e0, TtyLoop(l, cfg), cfg)
    decreases |l.unread|
  {
    if l.out.stop || l.unread == [] {
    } else {
      TtyByteFrame(l, cfg);
      TtyByteEsc(e0, l, cfg);
      TtyLoopEsc(e0, TtyByte(l, cfg), cfg);
    }
  }

  lemma IterOutEsc(e0: Esc, l: Link, cfg: Atcmd, appIo: bool, w: World)
    requires l.Valid() && EscOk(e0, l, cfg)
    ensures EscOk(e0, IterOut(l, cfg, appIo, w).link, cfg)
  {
    var l1 := if w.ev.sockOut then OnSockWritable(l, cfg, w.sent) else l;
    if w.ev.sockOut {
      var ok := l.out.pending == [] || w.sent > 0;
      var l0 := l.(out := l.out.Write(w.sent), sock := if ok then l.sock else l.sock.(alive := false));
      TtyLoopEsc(e0, l0, cfg);
      OnSockWritableFrame(l, cfg, w.sent);
    }
    assert EscOk(e0, l1, cfg);
    TtyLoopEsc(e0, l1, cfg);
  }

  lemma IterInEsc(e0: Esc, l: Link, cfg: Atcmd, appIo: bool, w: World)
    requires l.Valid() && EscOk(e0, l, cfg) && w.readAt.Normal()
    ensures EscOk(e0, IterIn(l, cfg, appIo, w).link, cfg)
  {
    var l1 := if w.ev.sockIn then OnSockReadable(l, cfg, w.recv) else l;
    if w.ev.sockIn {
      SockLoopFrame(l, cfg, w.recv);
    }
    assert l1.Valid() && EscOk(e0, l1, cfg);
    if !appIo && w.ev.ttyIn {
      TtyLoopEsc(e0, l1.(unread := w.read, prevT := l1.newT, newT := w.readAt), cfg);
    }
  }

  lemma DoEsc(e0: Esc, l: Link, cfg: Atcmd, appIo: bool, act: Act)
    requires l.Valid() && EscOk(e0, l, cfg) && ClockOk(act)
    requires Do(l, cfg, appIo, act).verdict.Continue?
    ensures EscOk(e0, Do(l, cfg, appIo, act).link, cfg)
  {
    if act.Step? {
      IterOutEsc(e0, l, cfg, appIo, act.w);
      IterOutFrame(l, cfg, appIo, act.w);
      IterInEsc(e0, IterOut(l, cfg, appIo, act.w).link, cfg, appIo, act.w);
    }
  }

  /** The stay goes on after every act. */
  predicate GoesOn(l: Link, cfg: Atcmd, appIo: bool, acts: seq<Act>)
    decreases |acts|
  {
    acts != [] ==>
      && ReadsOk(l, cfg, appIo, acts[0]) && ClockOk(acts[0])
      && Do(l, cfg, appIo, acts[0]).verdict.Continue?
      && GoesOn(Do(l, cfg, appIo, acts[0]).link, cfg, appIo, acts[1..])
  }

  lemma {:induction false} StayEsc(e0: Esc, l: Link, cfg: Atcmd, appIo: bool, acts: seq<Act>)
    requires l.Valid() && EscOk(e0, l, cfg) && GoesOn(l, cfg, appIo, acts)
    ensures EscOk(e0, Stay(l, cfg, appIo, acts), cfg)
    decreases |acts|
  {
    if acts == [] {
    } else {
      DoConserves(l, cfg, appIo, acts[0]);
      DoEsc(e0, l, cfg, appIo, acts[0]);
      StayEsc(e0, Do(l, cfg, appIo, acts[0]).link, cfg, appIo, acts[1..]);
    }
  }

  /** Escape soundness over a stay, in the stamps that were current when each byte was handled. Enter online with
      checkSilence clear and let any number of acts go by. If then a step leaves online without being asked to by the
      host, the last three bytes handled were escape characters, the first stamped later than the guard time after the
      stamp before it and the others within the guard time of it, and since the last of them the guard time has passed
      with no byte handled. EscapeTimes says when stamps are arrival times. */
  lemma EscapeOnlyAfterPluses(l: Link, cfg: Atcmd, appIo: bool, acts: seq<Act>, w: World)
    requires l.Valid() && !l.esc.checkSilence && l.newT.Normal()
    requires GoesOn(GoOnline(l, cfg), cfg, appIo, acts) && w.now.Normal()
    requires !w.escapeReq
    requires OnlineIter(Stay(GoOnline(l, cfg), cfg, appIo, acts), cfg, appIo, w).verdict.Escaped?
    ensures var keys := Stay(GoOnline(l, cfg), cfg, appIo, acts).handled;
      && EndsWithPluses(cfg.s2, cfg.s12, keys, 3)
      && w.now.Micros() >= keys[|keys| - 1].newT.Micros() + Guard(cfg.s12)
  {
    var l0 := GoOnline(l, cfg);
    var e0 := l.esc.(state := Idle);
    GoOnlineValid(l, cfg);
    StayEsc(e0, l0, cfg, appIo, acts);
    var l' := Stay(l0, cfg, appIo, acts);
    EscRunTracks(e0, cfg.s2, cfg.s12, l'.handled);
    EscapedExactly(l', cfg, appIo, w);
  }

  /** The premise on checkSilence is needed, and is exactly what is needed before anything is typed: stepEnterOnline
      resets the detector's state but not checkSilence, so the first step of a new stay leaves online on its own if
      and only if a deadline left over from an earlier stay has passed. */
  lemma FreshStayEscapes(l: Link, cfg: Atcmd, appIo: bool, w: World)
    requires l.esc.expireT.Normal() && w.now.Normal() && !w.escapeReq
    ensures GoOnline(l, cfg).handled == []
    ensures OnlineIter(GoOnline(l, cfg), cfg, appIo, w).verdict.Escaped? <==>
            l.esc.checkSilence && w.now.Micros() >= l.esc.expireT.Micros()
  {
    EscapedExactly(GoOnline(l, cfg), cfg, appIo, w);
    assert GoOnline(l, cfg).esc == l.esc.(state := Idle);
  }

  lemma EscapedExactly(l: Link, cfg: Atcmd, appIo: bool, w: World)
    ensures OnlineIter(l, cfg, appIo, w).verdict.Escaped? <==> w.escapeReq || SilenceOver(l.esc, w.now)
  {
    assert !IterOut(l, cfg, appIo, w).verdict.Escaped?;
  }

  /** Such a leftover is real: after a complete +++ the peer closes the connection before the silence is over, and
      the next connection drops to command mode at once, with OK, though nothing was typed. */
  lemma LeftoverSilence(l: Link, cfg: Atcmd, appIo: bool, closing: World, later: World)
    requires l.esc.checkSilence && l.esc.expireT.Normal()
    requires !closing.escapeReq && closing.now.Normal() && closing.now.Micros() < l.esc.expireT.Micros()
    requires closing.ev == Events(true, false, false, false) && closing.recv == []
    requires !later.escapeReq && later.now.Normal() && later.now.Micros() >= l.esc.expireT.Micros()
    requires l.unread == [] && l.sock.alive
    ensures OnlineIter(l, cfg, appIo, closing).verdict.Lost?
    ensures OnlineIter(GoOnline(OnlineIter(l, cfg, appIo, closing).link, cfg), cfg, appIo, later).verdict.Escaped?
  {
    var l1 := OnlineIter(l, cfg, appIo, closing).link;
    assert l1.esc == l.esc;
    FreshStayEscapes(l1, cfg, appIo, later);
  }
}
