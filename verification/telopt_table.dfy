/** struct st_telOpt and the functions of src/telopt.c that update it in place. */
module TelOptTable {
  import opened Wire
  import opened Settings
  import opened Fifo
  import opened TelOpt

  class Options {
    var master: seq<OptEntry>
    var stTab: seq<nat>
    var binsend: bool
    var binrecv: bool
    var sgasend: bool
    var sentReqs: bool
    ghost var asked: Asked

    ghost predicate Valid()
      reads this
    {
      && |master| == ENTRIES
      && (forall i :: 0 <= i < ENTRIES ==> master[i].opt == OptAt(i))
      && |stTab| == NTELOPTS
      && forall opt :: 0 <= opt < NTELOPTS ==> stTab[opt] == SlotOf(opt)
    }

    ghost function View(): Tel
      requires Valid()
      reads this
    {
      Tel(master, binsend, binrecv, sgasend, sentReqs, asked)
    }

    /** telOptInit: copy the template, point every option at the default entry, then the known ones at theirs. */
    constructor ()
      ensures Valid()
      ensures View() == FRESH
    {
      master := TEMPLATE;
      stTab := seq(NTELOPTS, _ => DEFAULT_SLOT);
      binsend, binrecv, sgasend, sentReqs := false, false, false, false;
      asked := NotAsked;
      new;
      var i := DEFAULT_SLOT;
      while i > 0
        invariant 0 <= i <= DEFAULT_SLOT
        invariant master == TEMPLATE && !binsend && !binrecv && !sgasend && !sentReqs && asked.NotAsked?
        invariant |stTab| == NTELOPTS
        invariant forall opt :: 0 <= opt < NTELOPTS ==>
                                  stTab[opt] == if SlotOf(opt) >= i then SlotOf(opt) else DEFAULT_SLOT
      {
        i := i - 1;
        stTab := stTab[master[i].opt := i];
      }
    }

    method Reset()
      requires Valid()
      modifies this
      ensures Valid() && View() == TelOpt.Reset(old(View()))
    {
      ghost var was := master;
      var i := 0;
      while master[i].opt >= 0
        invariant 0 <= i < ENTRIES
        invariant |master| == ENTRIES && stTab == old(stTab)
        invariant forall k :: 0 <= k < ENTRIES ==> master[k] == if k < i then OffEntry(was[k]) else was[k]
        decreases ENTRIES - i
      {
        master := master[i := OffEntry(master[i])];
        i := i + 1;
      }
      assert i == DEFAULT_SLOT;
      binsend, binrecv, sgasend := false, false, false;
      sentReqs := false;
      asked := NotAsked;
    }

    method SetReq(slot: nat, isLocal: bool, req: Req)
      requires Valid() && slot < ENTRIES
      modifies this`master
      ensures Valid() && View() == old(View()).(table := WithReq(old(View()).table, slot, isLocal, req))
    {
      master := master[slot := master[slot].With(isLocal, master[slot].Side(isLocal).(req := req))];
    }

    method SetReqs(cfg: Atcmd)
      requires Valid()
      modifies this`master
      ensures Valid() && View() == old(View()).(table := TelOpt.SetReqs(old(View()).table, cfg))
    {
      SetReq(stTab[TELOPT_BINARY], true, BinaryReq(cfg.pb1));
      SetReq(stTab[TELOPT_BINARY], false, BinaryReq(cfg.pb0));
      SetReq(stTab[TELOPT_SGA], false, CharModeReq(cfg.pl));
      SetReq(stTab[TELOPT_ECHO], false, CharModeReq(cfg.pl));
      SetReq(stTab[TELOPT_TTYPE], true, if cfg.termWont then MustNot else Neutral);
    }

    /** putOptCmd */
    method PutOptCmd(out: WriteBuf, m: Msg)
      requires out.Valid()
      modifies out, out.data
      ensures out.Valid() && out.View() == PutMsg(old(out.View()), m)
    {
      out.Put1(IAC);
      out.Put1(m.verb);
      out.Put1(m.opt);
    }

    /** The switch on the requirement. */
    method Asks(c: OptState) returns (ask: seq<bool>)
      ensures ask == Request(c)
    {
      ask := [];
      match c.req {
        case MustNot | BetterNot =>
          if c.on {
            ask := [false];
          }
        case Better | Must =>
          if !c.on {
            ask := [true];
          }
        case Neutral =>
      }
    }

    /** The request about one side of one entry. */
    method SendReq(i: nat, isLocal: bool, out: WriteBuf)
      requires Valid() && out.Valid() && i < DEFAULT_SLOT
      modifies this`master, out, out.data
      ensures Valid() && out.Valid()
      ensures var e := old(master[i]);
        && master == old(master)[i := e.With(isLocal, AfterRequest(e.Side(isLocal)))]
        && out.View() == PutMsgs(old(out.View()), ToMsgs(isLocal, e.opt, Request(e.Side(isLocal))))
    {
      var e := master[i];
      var c := e.Side(isLocal);
      var ask := Asks(c);
      if ask != [] {
        PutOptCmd(out, Msg(Verb(isLocal, ask[0]), e.opt));
        master := master[i := e.With(isLocal, c.(pending := true))];
      }
    }

    /** Both requests about one entry. */
    method SendEntry(i: nat, out: WriteBuf)
      requires Valid() && out.Valid() && i < DEFAULT_SLOT
      modifies this`master, out, out.data
      ensures Valid() && out.Valid()
      ensures master == old(master)[i := AfterRequests(old(master[i]))]
      ensures out.View() == PutMsgs(old(out.View()), RequestsOf(old(master[i])))
    {
      ghost var q, e := out.View(), master[i];
      ghost var l, r := ToMsgs(true, e.opt, Request(e.local)), ToMsgs(false, e.opt, Request(e.remote));
      SendReq(i, true, out);
      SendReq(i, false, out);
      PutMsgsConcat(q, l, r);
    }

    /** One entry after another. */
    lemma SendFrom(q: Queue, t: seq<OptEntry>, i: nat)
      requires i < |t|
      ensures PutMsgs(PutMsgs(q, RequestsOf(t[i])), AllRequests(t[i + 1..])) == PutMsgs(q, AllRequests(t[i..]))
    {
      assert t[i..][1..] == t[i + 1..];
      PutMsgsConcat(q, RequestsOf(t[i]), AllRequests(t[i + 1..]));
    }

    /** The default entry asks for nothing. */
    lemma SendNoMore(q: Queue, t: seq<OptEntry>)
      requires IsTable(t)
      ensures PutMsgs(q, AllRequests(t[DEFAULT_SLOT..])) == q
    {
      assert t[DEFAULT_SLOT..][1..] == [] && RequestsOf(t[DEFAULT_SLOT]) == [];
    }

    /** The table with the first i entries marked. */
    ghost function AfterFirst(t: seq<OptEntry>, i: nat): seq<OptEntry>
      requires i < |t| == ENTRIES
    {
      seq(ENTRIES, k requires 0 <= k < ENTRIES => if k < i then AfterRequests(t[k]) else t[k])
    }

    lemma AfterOneMore(t: seq<OptEntry>, i: nat)
      requires IsTable(t) && i < DEFAULT_SLOT
      ensures AfterFirst(t, i)[i] == t[i]
      ensures AfterFirst(t, i)[i := AfterRequests(t[i])] == AfterFirst(t, i + 1)
    {
    }

    lemma AfterNone(t: seq<OptEntry>)
      requires IsTable(t)
      ensures AfterFirst(t, 0) == t && AfterFirst(t, DEFAULT_SLOT) == AfterAll(t)
    {
    }

    /** One turn of the loop. */
    method SendNext(i: nat, out: WriteBuf, ghost t: seq<OptEntry>)
      requires Valid() && out.Valid() && IsTable(t) && i < DEFAULT_SLOT && master == AfterFirst(t, i)
      modifies this`master, out, out.data
      ensures Valid() && out.Valid() && master == AfterFirst(t, i + 1)
      ensures PutMsgs(out.View(), AllRequests(t[i + 1..])) == PutMsgs(old(out.View()), AllRequests(t[i..]))
    {
      AfterOneMore(t, i);
      SendFrom(out.View(), t, i);
      SendEntry(i, out);
    }

    /** The loop of telOptSendReqs. */
    method SendAll(out: WriteBuf)
      requires Valid() && out.Valid()
      modifies this`master, out, out.data
      ensures Valid() && out.Valid()
      ensures master == AfterAll(old(master))
      ensures out.View() == PutMsgs(old(out.View()), AllRequests(old(master)))
    {
      ghost var q, t := out.View(), master;
      var i := 0;
      AfterNone(t);
      while master[i].opt >= 0
        invariant 0 <= i < ENTRIES
        invariant Valid() && out.Valid()
        invariant master == AfterFirst(t, i)
        invariant PutMsgs(out.View(), AllRequests(t[i..])) == PutMsgs(q, AllRequests(t))
        decreases ENTRIES - i
      {
        SendNext(i, out, t);
        i := i + 1;
      }
      SendNoMore(out.View(), t);
    }

    method SendReqs(cfg: Atcmd, out: WriteBuf)
      requires Valid() && out.Valid()
      modifies this, out, out.data
      ensures Valid() && out.Valid()
      ensures var s := TelOpt.SendReqs(old(View()), cfg);
        View() == s.tel && out.View() == PutMsgs(old(out.View()), s.msgs)
    {
      SetReqs(cfg);
      SendAll(out);
      MarkAsked(cfg);
    }

    method MarkAsked(cfg: Atcmd)
      requires Valid()
      modifies this`sentReqs, this`asked
      ensures Valid() && View() == old(View()).(sentReqs := true, asked := Asked(cfg))
    {
      sentReqs := true;
      asked := Asked(cfg);
    }

    method Summarize()
      requires Valid()
      modifies this
      ensures Valid() && View() == TelOpt.Summarize(old(View()))
    {
      binsend := master[stTab[TELOPT_BINARY]].local.on;
      binrecv := master[stTab[TELOPT_BINARY]].remote.on;
      sgasend := master[stTab[TELOPT_SGA]].remote.on;
    }

    /** The decision of telOptHandle about one side of one entry. */
    method ReactAt(slot: nat, isLocal: bool, on: bool, opt: Byte, out: WriteBuf) returns (fatal: bool)
      requires Valid() && out.Valid() && slot < ENTRIES
      modifies this`master, out, out.data
      ensures Valid() && out.Valid()
      ensures var r := React(old(master[slot]).Side(isLocal), on);
        && master == old(master)[slot := old(master[slot]).With(isLocal, r.cell)]
        && fatal == r.fatal
        && out.View() == PutMsgs(old(out.View()), ToMsgs(isLocal, opt, r.reply))
    {
      var mustNegate := if on then MustNot else Must;
      var betterNegate := if on then BetterNot else Better;
      var c := master[slot].Side(isLocal);
      var reply := [];
      fatal := false;
      if c.req == mustNegate || c.req == betterNegate {
        if c.pending {
          c := c.(pending := false);
          if c.req == mustNegate {
            fatal := true;
          } else if c.on == !on {
            c := c.(on := on);
            reply := [on];
          }
        } else {
          reply := [!on];
        }
      } else {
        if c.pending {
          c := c.(pending := false);
        } else if c.on == !on {
          reply := [on];
        }
        c := c.(on := on);
      }
      master := master[slot := master[slot].With(isLocal, c)];
      if reply != [] {
        PutOptCmd(out, Msg(Verb(isLocal, reply[0]), opt));
      }
    }

    /** telOptHandle: returns true when a requirement cannot be met and the connection must go. */
    method Handle(verb: Byte, opt: Byte, out: WriteBuf) returns (fatal: bool)
      requires Valid() && out.Valid() && IsVerb(verb)
      modifies this, out, out.data
      ensures Valid() && out.Valid()
      ensures var h := TelOpt.Handle(old(View()), Msg(verb, opt));
        View() == h.tel && fatal == h.fatal && out.View() == PutMsgs(old(out.View()), h.msgs)
    {
      var slot := if opt < NTELOPTS then stTab[opt] else DEFAULT_SLOT;
      fatal := ReactAt(slot, verb == DO || verb == DONT, verb == WILL || verb == DO, opt, out);
      if !fatal {
        Summarize();
      }
    }

    /** telOptSBHandle: only the terminal type is answered. */
    method SBHandle(opt: Byte, term: seq<Byte>, out: WriteBuf) returns (unhandled: bool)
      requires out.Valid()
      modifies out, out.data
      ensures out.Valid() && unhandled == (opt != TELOPT_TTYPE)
      ensures out.View() == if opt == TELOPT_TTYPE then PutTerm(old(out.View()), term) else old(out.View())
    {
      if opt != TELOPT_TTYPE {
        return true;
      }
      out.Put1(IAC);
      out.Put1(SB);
      out.Put1(TELOPT_TTYPE);
      out.Put1(TELQUAL_IS);
      out.PutN(term);
      out.Put1(IAC);
      out.Put1(SE);
      return false;
    }
  }
}
