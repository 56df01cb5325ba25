/** Which mode a key falls in: raw with %R1, and otherwise character mode exactly while the peer's SGA is on. */
module Modes {
  import opened Wire
  import opened Settings
  import opened TelOpt
  import opened Iac
  import opened Relay
  import opened RelayRuns
  import opened LineEditing
  import opened Transparency
  import opened OptionRuns
  import opened Machine
  import MachineRuns
  import opened OnlineStays

  // ---------------------------------------------------------------- one key

  /** With %R1 a key goes to the socket as it is, and nowhere else. */
  lemma RawKey(l: Link, cfg: Atcmd)
    requires l.Valid() && l.unread != [] && !l.out.stop && cfg.pr
    ensures var l' := TtyByte(l, cfg);
      l'.out.Stream() == l.out.Stream() + [l.unread[0]] && l'.tty == l.tty && l'.line == l.line
  {
    TtyByteIs(l, cfg);
    Assoc(l.out.delivered, l.out.pending, [l.unread[0]]);
  }

  /** With SGA on a key goes to the socket at once, byte 255 doubled, and is neither echoed nor kept. */
  lemma SgaKey(l: Link, cfg: Atcmd)
    requires l.Valid() && l.unread != [] && !l.out.stop && !cfg.pr && l.tel.sgasend
    ensures var l', c := TtyByte(l, cfg), l.unread[0];
      && l'.out.Stream() == l.out.Stream() + (if c == 255 then [255, 255] else [c])
      && l'.tty == l.tty && l'.line == l.line
  {
    TtyByteIs(l, cfg);
    CharByteStream(l, cfg);
  }

  /** With SGA off a key is echoed, and nothing goes to the socket before the carriage return, which sends the line with
      CR LF and empties it. */
  lemma NoSgaKey(l: Link, cfg: Atcmd)
    requires l.Valid() && l.unread != [] && !l.out.stop && !cfg.pr && !l.tel.sgasend
    ensures var l', c := TtyByte(l, cfg), l.unread[0];
      && l'.tty == (if c == cfg.s3 then l.tty.Put(c).Put(cfg.s4) else l.tty.Put(c))
      && (c != cfg.s3 ==> l'.out == l.out)
      && (c == cfg.s3 ==> l'.out.Stream() == l.out.Stream() + (l.line + [13, 10]) && l'.line == [])
      && (c != cfg.s3 && c != cfg.s4 && c != cfg.s5 && c != 255 && |l.line| < 256 ==> l'.line == l.line + [c])
      && (c != cfg.s3 && c == cfg.s4 ==> l'.line == l.line)
      && (c != cfg.s3 && c != cfg.s4 && c == cfg.s5 && l.line != [] ==> l'.line == l.line[..|l.line| - 1])
  {
    TtyByteIs(l, cfg);
    LineCommitStream(l.out, l.line);
  }

  // ---------------------------------------------------------------- the peer's SGA decides

  /** The peer's SGA, as negotiated. */
  predicate PeerSga(l: Link) { l.tel.table[SlotOf(TELOPT_SGA)].remote.on }

  lemma ModeBySga(l: Link, cfg: Atcmd)
    requires LinkOk(l)
    ensures ModeOf(l, cfg) == if cfg.pr then Raw else if PeerSga(l) then Char else Line
  {
  }

  /** The peer's SGA is `on` between all acts of a stay. */
  predicate SgaStays(on: bool, l: Link, cfg: Atcmd, appIo: bool, acts: seq<Act>)
    decreases |acts|
  {
    PeerSga(l) == on && (acts != [] ==> SgaStays(on, RelayRuns.Do(l, cfg, appIo, acts[0]).link, cfg, appIo, acts[1..]))
  }

  lemma DoLinkOk(l: Link, cfg: Atcmd, appIo: bool, act: Act)
    requires l.Valid() && LinkOk(l)
    ensures LinkOk(RelayRuns.Do(l, cfg, appIo, act).link)
  {
    if act.Step? {
      OnlineIterTel(l, cfg, appIo, act.w);
    }
  }

  lemma {:induction false} StaysInBySga(on: bool, l: Link, cfg: Atcmd, appIo: bool, acts: seq<Act>)
    requires l.Valid() && LinkOk(l) && !cfg.pr && SgaStays(on, l, cfg, appIo, acts)
    ensures StaysIn(if on then Char else Line, l, cfg, appIo, acts)
    decreases |acts|
  {
    ModeBySga(l, cfg);
    if acts == [] {
    } else {
      DoExact(l, cfg, appIo, acts[0]);
      DoLinkOk(l, cfg, appIo, acts[0]);
      StaysInBySga(on, RelayRuns.Do(l, cfg, appIo, acts[0]).link, cfg, appIo, acts[1..]);
    }
  }

  /** Character mode by the option itself: while the peer's SGA is on, what is said grows by exactly the bytes handled,
      and a line begun before stays as it was. */
  lemma SgaTransparent(l: Link, t0: Told, cfg: Atcmd, appIo: bool, acts: seq<Act>)
    requires l.Valid() && LinkOk(l) && !cfg.pr && IAC !in cfg.term
    requires Carries(l.out.Stream(), t0.data) && l.line == Doubled(t0.text)
    requires IsStay(l, cfg, appIo, acts) && SgaStays(true, l, cfg, appIo, acts)
    requires Stay(l, cfg, appIo, acts).out.lost == 0
    ensures var l' := Stay(l, cfg, appIo, acts);
      exists handled ::
        && Carries(l'.out.delivered + l'.out.pending, t0.data + handled)
        && handled + l'.unread == l.unread + Taken(l, cfg, appIo, acts)
        && l'.line == l.line
  {
    StaysInBySga(true, l, cfg, appIo, acts);
    CharTransparent(l, t0, cfg, appIo, acts);
  }

  /** Line mode by the option itself: while the peer's SGA is off, what is said grows by exactly the lines finished. */
  lemma NoSgaTransparent(l: Link, said: seq<Byte>, typed: seq<Byte>, cfg: Atcmd, appIo: bool, acts: seq<Act>)
    requires l.Valid() && LinkOk(l) && !cfg.pr && IAC !in cfg.term
    requires Carries(l.out.Stream(), said) && l.line == Doubled(Unfinished(typed, cfg))
    requires IsStay(l, cfg, appIo, acts) && SgaStays(false, l, cfg, appIo, acts)
    requires Stay(l, cfg, appIo, acts).out.lost == 0
    requires Whole(typed + (l.unread + Taken(l, cfg, appIo, acts)), cfg)
    ensures var l' := Stay(l, cfg, appIo, acts);
      exists handled, lines ::
        && Committed(typed + handled, cfg) == Committed(typed, cfg) + lines
        && Carries(l'.out.delivered + l'.out.pending, said + lines)
        && l'.line == Doubled(Unfinished(typed + handled, cfg))
        && handled + l'.unread == l.unread + Taken(l, cfg, appIo, acts)
  {
    StaysInBySga(false, l, cfg, appIo, acts);
    LineTransparent(l, said, typed, cfg, appIo, acts);
  }

  // ---------------------------------------------------------------- runs of the modem

  lemma ReachedOk(rom: Rom, appIo: bool, cfg: Atcmd, nv: Atcmd, calls: seq<Api>)
    ensures var m := Run(rom, New(appIo, cfg, nv), calls); m.link.Valid() && (m.state == ONLINE ==> LinkOk(m.link))
  {
    var m := New(appIo, cfg, nv);
    MachineRuns.NewInv(appIo, cfg, nv);
    MachineRuns.RunKeeps(rom, m, calls);
    RunSound(rom, m, calls);
  }

  /** In every run, a modem online handles a key raw with %R1, at once while the peer's SGA is on, and line by line
      while it is off. */
  lemma ModeInRuns(rom: Rom, appIo: bool, cfg: Atcmd, nv: Atcmd, calls: seq<Api>)
    ensures var m := Run(rom, New(appIo, cfg, nv), calls);
      m.state == ONLINE ==> ModeOf(m.link, m.cfg) == if m.cfg.pr then Raw else if PeerSga(m.link) then Char else Line
  {
    ReachedOk(rom, appIo, cfg, nv, calls);
    var m := Run(rom, New(appIo, cfg, nv), calls);
    if m.state == ONLINE {
      ModeBySga(m.link, m.cfg);
    }
  }

  /** Character mode of the whole modem: from any moment of any run at which it is online, while the peer's SGA is
      on. */
  lemma ModemSgaTransparent(rom: Rom, appIo: bool, cfg: Atcmd, nv: Atcmd, before: seq<Api>, t0: Told, calls: seq<Api>)
    requires var m := Run(rom, New(appIo, cfg, nv), before);
      && StaysOnline(rom, m, calls) && !m.cfg.pr && IAC !in m.cfg.term
      && Carries(m.link.out.Stream(), t0.data) && m.link.line == Doubled(t0.text)
      && SgaStays(true, m.link, m.cfg, m.appIo, ActsOf(rom, m, calls))
      && Run(rom, m, calls).link.out.lost == 0
    ensures var m := Run(rom, New(appIo, cfg, nv), before); var l := Run(rom, m, calls).link;
      exists handled ::
        && Carries(l.out.delivered + l.out.pending, t0.data + handled)
        && handled + l.unread == m.link.unread + TakenOnline(rom, m, calls)
        && l.line == m.link.line
  {
    var m := Run(rom, New(appIo, cfg, nv), before);
    ReachedOk(rom, appIo, cfg, nv, before);
    RunIsStay(rom, m, calls);
    SgaTransparent(m.link, t0, m.cfg, m.appIo, ActsOf(rom, m, calls));
  }

  /** And line mode, while it is off. */
  lemma ModemNoSgaTransparent(rom: Rom, appIo: bool, cfg: Atcmd, nv: Atcmd, before: seq<Api>,
                              said: seq<Byte>, typed: seq<Byte>, calls: seq<Api>)
    requires var m := Run(rom, New(appIo, cfg, nv), before);
      && StaysOnline(rom, m, calls) && !m.cfg.pr && IAC !in m.cfg.term
      && Carries(m.link.out.Stream(), said) && m.link.line == Doubled(Unfinished(typed, m.cfg))
      && SgaStays(false, m.link, m.cfg, m.appIo, ActsOf(rom, m, calls))
      && Run(rom, m, calls).link.out.lost == 0
      && Whole(typed + (m.link.unread + TakenOnline(rom, m, calls)), m.cfg)
    ensures var m := Run(rom, New(appIo, cfg, nv), before); var l := Run(rom, m, calls).link;
      exists handled, lines ::
        && Committed(typed + handled, m.cfg) == Committed(typed, m.cfg) + lines
        && Carries(l.out.delivered + l.out.pending, said + lines)
        && l.line == Doubled(Unfinished(typed + handled, m.cfg))
        && handled + l.unread == m.link.unread + TakenOnline(rom, m, calls)
  {
    var m := Run(rom, New(appIo, cfg, nv), before);
    ReachedOk(rom, appIo, cfg, nv, before);
    RunIsStay(rom, m, calls);
    NoSgaTransparent(m.link, said, typed, m.cfg, m.appIo, ActsOf(rom, m, calls));
  }
}
