/** What telOptHandle decides, requirement by requirement, and what goes over the wire. */
module Decisions {
  import opened Wire
  import opened Settings
  import opened Fifo
  import opened TelOpt
  import opened TelOptSessions
  import opened Iac
  import opened Relay
  import opened TokenLoop

  // ---------------------------------------------------------------- decisions

  /** The state the table keeps of an option on one side: DO and DONT are about ours, WILL and WONT about the peer's. */
  function Cell(t: Tel, ours: bool, opt: Byte): OptState { t.table[SlotOf(opt)].Side(ours) }

  /** The command by which the peer asks for an option on or off, and those by which the modem answers. */
  function Asking(ours: bool, on: bool): Byte {
    if ours then (if on then DO else DONT) else (if on then WILL else WONT)
  }

  function Answering(ours: bool, on: bool): Byte {
    if ours then (if on then WILL else WONT) else (if on then DO else DONT)
  }

  /** Only that state changes. */
  ghost predicate OnlyCell(t: Tel, t': Tel, ours: bool, opt: Byte) {
    forall slot, side :: 0 <= slot < ENTRIES && (slot != SlotOf(opt) || side != ours) ==>
                           t'.table[slot].Side(side) == t.table[slot].Side(side)
  }

  lemma HandlesCell(t: Tel, ours: bool, on: bool, opt: Byte)
    ensures var h := Handle(t, Msg(Asking(ours, on), opt)); var r := React(Cell(t, ours, opt), on);
      && Cell(h.tel, ours, opt) == r.cell && h.fatal == r.fatal
      && h.msgs == (if r.reply == [] then [] else [Msg(Answering(ours, r.reply[0]), opt)])
      && OnlyCell(t, h.tel, ours, opt)
  {
    HandleTable(t, Msg(Asking(ours, on), opt));
    var r := React(Cell(t, ours, opt), on);
    if r.reply != [] {
      assert ToMsgs(ours, opt, r.reply) == [Msg(Answering(ours, r.reply[0]), opt)];
    }
  }

  /** A request to switch on is granted unless the requirement is against it: the option is on, and the peer is told so
      exactly when it was off. */
  lemma OnGranted(t: Tel, ours: bool, opt: Byte)
    requires !Cell(t, ours, opt).pending && Cell(t, ours, opt).req in {Neutral, Better, Must}
    ensures var c, h := Cell(t, ours, opt), Handle(t, Msg(Asking(ours, true), opt));
      && !h.fatal && Cell(h.tel, ours, opt) == OptState(c.req, true, false)
      && h.msgs == (if c.on then [] else [Msg(Answering(ours, true), opt)])
      && OnlyCell(t, h.tel, ours, opt)
  {
    HandlesCell(t, ours, true, opt);
  }

  /** So is a request to switch off. */
  lemma OffGranted(t: Tel, ours: bool, opt: Byte)
    requires !Cell(t, ours, opt).pending && Cell(t, ours, opt).req in {Neutral, BetterNot, MustNot}
    ensures var c, h := Cell(t, ours, opt), Handle(t, Msg(Asking(ours, false), opt));
      && !h.fatal && Cell(h.tel, ours, opt) == OptState(c.req, false, false)
      && h.msgs == (if c.on then [Msg(Answering(ours, false), opt)] else [])
      && OnlyCell(t, h.tel, ours, opt)
  {
    HandlesCell(t, ours, false, opt);
  }

  /** A request against the requirement is refused and changes nothing. */
  lemma Refused(t: Tel, ours: bool, on: bool, opt: Byte)
    requires !Cell(t, ours, opt).pending
    requires Cell(t, ours, opt).req in if on then {BetterNot, MustNot} else {Better, Must}
    ensures var h := Handle(t, Msg(Asking(ours, on), opt));
      && !h.fatal && h.tel.table == t.table
      && h.msgs == [Msg(Answering(ours, !on), opt)]
  {
    HandlesCell(t, ours, on, opt);
    HandleTable(t, Msg(Asking(ours, on), opt));
  }

  /** The answer to a request of the modem's own is taken in silence when it is what was wanted, or not minded. */
  lemma AnswerTaken(t: Tel, ours: bool, on: bool, opt: Byte)
    requires Cell(t, ours, opt).pending
    requires Cell(t, ours, opt).req in if on then {Neutral, Better, Must} else {Neutral, BetterNot, MustNot}
    ensures var c, h := Cell(t, ours, opt), Handle(t, Msg(Asking(ours, on), opt));
      && !h.fatal && Cell(h.tel, ours, opt) == OptState(c.req, on, false) && h.msgs == []
      && OnlyCell(t, h.tel, ours, opt)
  {
    HandlesCell(t, ours, on, opt);
  }

  /** A refusal of what would only be better is put up with: the option is as the peer says, and the modem
      acknowledges it if that is news. */
  lemma RefusalTaken(t: Tel, ours: bool, on: bool, opt: Byte)
    requires Cell(t, ours, opt).pending && Cell(t, ours, opt).req == if on then BetterNot else Better
    ensures var c, h := Cell(t, ours, opt), Handle(t, Msg(Asking(ours, on), opt));
      && !h.fatal && Cell(h.tel, ours, opt) == OptState(c.req, on, false)
      && h.msgs == (if c.on == on then [] else [Msg(Answering(ours, on), opt)])
      && OnlyCell(t, h.tel, ours, opt)
  {
    HandlesCell(t, ours, on, opt);
  }

  /** The connection is dropped exactly when a request insisted on is refused. */
  lemma FatalExactly(t: Tel, ours: bool, on: bool, opt: Byte)
    ensures Handle(t, Msg(Asking(ours, on), opt)).fatal <==>
            Cell(t, ours, opt).pending && Cell(t, ours, opt).req == if on then MustNot else Must
  {
    HandlesCell(t, ours, on, opt);
  }

  lemma FreshCells(opt: Byte)
    ensures Cell(FRESH, true, opt) ==
            OptState(if opt == 0 || opt == 3 then Better else if opt == 24 then Neutral else MustNot, false, false)
    ensures Cell(FRESH, false, opt) ==
            OptState(if opt == 0 || opt == 1 then Better else if opt == 3 then Must else MustNot, false, false)
  {
  }

  lemma FirstAnswer(ours: bool, on: bool, opt: Byte)
    ensures Handle(FRESH, Msg(Asking(ours, on), opt)).msgs ==
            if Cell(FRESH, ours, opt).req.MustNot? then (if on then [Msg(Answering(ours, false), opt)] else [])
            else if Cell(FRESH, ours, opt).req.Neutral? then (if on then [Msg(Answering(ours, true), opt)] else [])
            else [Msg(Answering(ours, true), opt)]
  {
    FreshCells(opt);
    HandlesCell(FRESH, ours, on, opt);
  }

  /** What a modem that has sent no requests, as when a port was dialled, answers first (RFC 854, 856, 857, 858, 930).
      It is for binary both ways, for SGA both ways, for the peer's echo and against its own; it tells its terminal
      type if asked and does not ask for the peer's; and it is against all that it does not know. */
  lemma FirstAnswers(opt: Byte)
    ensures Handle(FRESH, Msg(253, opt)).msgs == [Msg(if opt == 0 || opt == 3 || opt == 24 then 251 else 252, opt)]
    ensures Handle(FRESH, Msg(254, opt)).msgs == if opt == 0 || opt == 3 then [Msg(251, opt)] else []
    ensures Handle(FRESH, Msg(251, opt)).msgs == [Msg(if opt == 0 || opt == 1 || opt == 3 then 253 else 254, opt)]
    ensures Handle(FRESH, Msg(252, opt)).msgs == if opt == 0 || opt == 1 || opt == 3 then [Msg(253, opt)] else []
  {
    FreshCells(opt);
    FirstAnswer(true, true, opt);
    FirstAnswer(true, false, opt);
    FirstAnswer(false, true, opt);
    FirstAnswer(false, false, opt);
  }

  // ---------------------------------------------------------------- over the wire

  /** One command of three bytes, received between items. */
  lemma CommandReceived(l: Link, cfg: Atcmd, m: Msg)
    requires !cfg.pr && l.srl.state.Norm? && IsVerb(m.verb)
    ensures var l', h := SockLoop(l, cfg, [255, m.verb, m.opt]), Handle(l.tel, m);
      l'.tel == h.tel && l'.out == PutMsgs(l.out, h.msgs) && l'.tty == l.tty && l'.srl.state.Norm?
      && l'.sock.alive == (l.sock.alive && !h.fatal)
  {
    var msgs, chunks := [m], [[255, m.verb, m.opt]];
    assert msgs[1..] == [] && MsgsBytes(msgs) == MsgBytes(m) + [];
    assert chunks[1..] == [] && Joined(chunks) == [255, m.verb, m.opt] + [];
    CommandsOverTheWire(l, cfg, msgs, chunks);
    assert Chunks(l, cfg, chunks) == SockLoop(l, cfg, chunks[0]);
    var a, h := HandleAll(l.tel, msgs), Handle(l.tel, m);
    assert HandleAll(h.tel, []) == Answered(h.tel, [], false);
    assert a.replies == h.msgs + [] == h.msgs && a.tel == h.tel && a.fatal == h.fatal;
  }

  lemma OneMsgPut(q: Queue, m: Msg)
    ensures PutMsgs(q, [m]) == q.Put(255).Put(m.verb).Put(m.opt)
  {
    assert [m][1..] == [];
  }

  /** IAC DO TERMINAL-TYPE: unless %T0 refuses it, the modem agrees, once. The bytes are those of RFC 854 and
      RFC 930. */
  lemma TerminalTypeAgreed(l: Link, cfg: Atcmd)
    requires !cfg.pr && l.srl.state.Norm? && l.tel.table[3].local == OptState(Neutral, false, false)
    ensures var l' := SockLoop(l, cfg, [255, 253, 24]);
      l'.out == l.out.Put(255).Put(251).Put(24) && l'.tel.table[3].local.on && l'.srl.state.Norm?
  {
    OnGranted(l.tel, true, 24);
    CommandReceived(l, cfg, Msg(DO, 24));
    OneMsgPut(l.out, Msg(WILL, 24));
  }

  /** So it is after the opening requests of a fresh call without %T0, and with %T0 it is refused. */
  lemma TerminalTypeOpens(t: Tel, cfg: Atcmd)
    requires t.table[3].local.on == false && t.table[3].local.pending == false
    ensures SendReqs(t, cfg).tel.table[3].local == OptState(if cfg.termWont then MustNot else Neutral, false, false)
  {
    SetReqsKeepsStates(t.table, cfg);
    assert SetReqs(t.table, cfg)[3].local.req == if cfg.termWont then MustNot else Neutral;
  }

  /** IAC SB TERMINAL-TYPE SEND IAC SE is answered with the terminal type (RFC 930). */
  lemma TerminalTypeTold(l: Link, cfg: Atcmd)
    requires !cfg.pr && l.srl.state.Norm?
    ensures var l' := SockLoop(l, cfg, [255, 250, 24, 1, 255, 240]);
      && l'.out == l.out.Put(255).Put(250).Put(24).Put(0).PutN(cfg.term).Put(255).Put(240)
      && l'.tel == l.tel && l'.tty == l.tty && l'.srl.state.Norm?
  {
    var bytes: seq<Byte> := [255, 250, 24, 1, 255, 240];
    assert Print(SendSub(24)) == bytes;
    ParsePrintOne(l.srl, SendSub(24));
    LoopFollowsTokens(l, cfg, bytes);
    assert [SendSub(24)][1..] == [];
    assert Tokens(l, cfg, [SendSub(24)]) == TokenStep(l, cfg, SendSub(24));
  }
}
