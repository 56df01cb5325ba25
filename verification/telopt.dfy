/** Telnet option negotiation (src/telopt.c). */
module TelOpt {
  import opened Wire
  import opened Settings
  import opened Fifo

  /** How much the modem cares about an option. */
  datatype Req = MustNot | BetterNot | Neutral | Better | Must

  /** One option in one direction. */
  datatype OptState = OptState(req: Req, on: bool, pending: bool)

  datatype OptEntry = OptEntry(opt: int, local: OptState, remote: OptState) {
    function Side(isLocal: bool): OptState { if isLocal then local else remote }

    function With(isLocal: bool, c: OptState): OptEntry {
      if isLocal then this.(local := c) else this.(remote := c)
    }
  }

  /** A negotiation command. WILL and WONT speak about the sender's side, DO and DONT about the receiver's. */
  datatype Msg = Msg(verb: Byte, opt: Byte) {
    predicate On() { verb == WILL || verb == DO }

    predicate AboutSender() { verb == WILL || verb == WONT }
  }

  // ---------------------------------------------------------------- one option, one direction

  predicate Wants(req: Req, on: bool) {
    if on then req == Better || req == Must else req == BetterNot || req == MustNot
  }

  predicate Insists(req: Req, on: bool) {
    req == if on then Must else MustNot
  }

  datatype Reaction = Reaction(cell: OptState, reply: seq<bool>, fatal: bool)

  /** What the modem does when the peer asks for state `on`. */
  function React(c: OptState, on: bool): Reaction {
    if Wants(c.req, !on) then
      if c.pending then
        var c' := c.(pending := false);
        if Insists(c.req, !on) then Reaction(c', [], true)
        else if c.on == !on then Reaction(c'.(on := on), [on], false)
        else Reaction(c', [], false)
      else
        Reaction(c, [!on], false)
    else
      var reply := if !c.pending && c.on == !on then [on] else [];
      Reaction(c.(pending := false, on := on), reply, false)
  }

  /** The state the modem asks for when it opens negotiation, if any. */
  function Request(c: OptState): seq<bool> {
    if Wants(c.req, !c.on) then [!c.on] else []
  }

  function AfterRequest(c: OptState): OptState {
    if Request(c) != [] then c.(pending := true) else c
  }

  function Verb(isLocal: bool, on: bool): (v: Byte)
    ensures IsVerb(v) && Msg(v, 0).On() == on && Msg(v, 0).AboutSender() == isLocal
  {
    if isLocal then (if on then WILL else WONT) else (if on then DO else DONT)
  }

  function ToMsgs(isLocal: bool, opt: Byte, bits: seq<bool>): (msgs: seq<Msg>)
    requires |bits| <= 1
    ensures |msgs| == |bits|
  {
    if bits == [] then [] else [Msg(Verb(isLocal, bits[0]), opt)]
  }

  // ---------------------------------------------------------------- the option table

  const ENTRIES := 5
  const DEFAULT_SLOT := ENTRIES - 1

  /** The option each slot of the table is about; -1 marks the default entry, which ends every loop. */
  function OptAt(slot: nat): int {
    if slot == 0 then TELOPT_BINARY
    else if slot == 1 then TELOPT_ECHO
    else if slot == 2 then TELOPT_SGA
    else if slot == 3 then TELOPT_TTYPE
    else -1
  }

  /** Where the table keeps an option; the last slot stands for every option the modem does not know. */
  function SlotOf(opt: Byte): (slot: nat)
    ensures slot < ENTRIES
    ensures slot < DEFAULT_SLOT ==> OptAt(slot) == opt
    ensures slot == DEFAULT_SLOT <==> opt !in {TELOPT_BINARY, TELOPT_ECHO, TELOPT_SGA, TELOPT_TTYPE}
    ensures opt >= NTELOPTS ==> slot == DEFAULT_SLOT
  {
    if opt == TELOPT_BINARY then 0
    else if opt == TELOPT_ECHO then 1
    else if opt == TELOPT_SGA then 2
    else if opt == TELOPT_TTYPE then 3
    else DEFAULT_SLOT
  }

  predicate IsTable(t: seq<OptEntry>) {
    |t| == ENTRIES && forall i :: 0 <= i < ENTRIES ==> t[i].opt == OptAt(i)
  }

  type Table = t: seq<OptEntry> | IsTable(t) witness TEMPLATE

  const TEMPLATE: seq<OptEntry> := [
    OptEntry(0, OptState(Better, false, false), OptState(Better, false, false)),
    OptEntry(1, OptState(MustNot, false, false), OptState(Better, false, false)),
    OptEntry(3, OptState(Better, false, false), OptState(Must, false, false)),
    OptEntry(24, OptState(Neutral, false, false), OptState(MustNot, false, false)),
    OptEntry(-1, OptState(MustNot, false, false), OptState(MustNot, false, false))
  ]

  /** The table with the three flags that summarise it and the note that requests went out. */
  datatype Tel = Tel(table: Table, binsend: bool, binrecv: bool, sgasend: bool, sentReqs: bool, asked: Asked)

  /** Whether requests really went out since the last reset, and under which settings: `sentReqs` is also set to skip
      them and cleared to repeat them. */
  datatype Asked = NotAsked | Asked(cfg: Atcmd)

  const FRESH := Tel(TEMPLATE, false, false, false, false, NotAsked)

  function Update(t: Table, slot: nat, isLocal: bool, c: OptState): Table
    requires slot < ENTRIES
  {
    t[slot := t[slot].With(isLocal, c)]
  }

  function OffCell(c: OptState): OptState { c.(on := false, pending := false) }

  function OffEntry(e: OptEntry): OptEntry { OptEntry(e.opt, OffCell(e.local), OffCell(e.remote)) }

  /** telOptReset: every known option starts disabled; the default entry is not touched. */
  function Reset(t: Tel): Tel {
    Tel(seq(ENTRIES, i requires 0 <= i < ENTRIES =>
          if i == DEFAULT_SLOT then t.table[i]
          else OffEntry(t.table[i])),
        false, false, false, false, NotAsked)
  }

  function BinaryReq(level: Level): Req {
    [BetterNot, Better, MustNot, Must][level]
  }

  function CharModeReq(level: Level): Req {
    [Better, BetterNot, Must, MustNot][level]
  }

  function WithReq(t: Table, slot: nat, isLocal: bool, req: Req): Table
    requires slot < ENTRIES
  {
    Update(t, slot, isLocal, t[slot].Side(isLocal).(req := req))
  }

  /** setReqs: %B governs BINARY, %L governs remote SGA and ECHO, %T governs local TTYPE. */
  function SetReqs(t: Table, cfg: Atcmd): Table {
    var t := WithReq(t, SlotOf(TELOPT_BINARY), true, BinaryReq(cfg.pb1));
    var t := WithReq(t, SlotOf(TELOPT_BINARY), false, BinaryReq(cfg.pb0));
    var t := WithReq(t, SlotOf(TELOPT_SGA), false, CharModeReq(cfg.pl));
    var t := WithReq(t, SlotOf(TELOPT_ECHO), false, CharModeReq(cfg.pl));
    WithReq(t, SlotOf(TELOPT_TTYPE), true, if cfg.termWont then MustNot else Neutral)
  }

  function RequestsOf(e: OptEntry): seq<Msg> {
    if 0 <= e.opt < 256 then
      ToMsgs(true, e.opt, Request(e.local)) + ToMsgs(false, e.opt, Request(e.remote))
    else []
  }

  function AfterRequests(e: OptEntry): OptEntry {
    if e.opt >= 0 then OptEntry(e.opt, AfterRequest(e.local), AfterRequest(e.remote)) else e
  }

  function AllRequests(t: seq<OptEntry>): seq<Msg>
    decreases |t|
  {
    if t == [] then [] else RequestsOf(t[0]) + AllRequests(t[1..])
  }

  function AfterAll(t: Table): Table {
    seq(ENTRIES, i requires 0 <= i < ENTRIES => AfterRequests(t[i]))
  }

  datatype Sent = Sent(tel: Tel, msgs: seq<Msg>)

  /** telOptSendReqs. */
  function SendReqs(t: Tel, cfg: Atcmd): Sent {
    var t1 := SetReqs(t.table, cfg);
    Sent(t.(table := AfterAll(t1), sentReqs := true, asked := Asked(cfg)), AllRequests(t1))
  }

  /** telOptSummarize. */
  function Summarize(t: Tel): Tel {
    t.(binsend := t.table[SlotOf(TELOPT_BINARY)].local.on,
       binrecv := t.table[SlotOf(TELOPT_BINARY)].remote.on,
       sgasend := t.table[SlotOf(TELOPT_SGA)].remote.on)
  }

  datatype Handled = Handled(tel: Tel, msgs: seq<Msg>, fatal: bool)

  /** telOptHandle: WILL and WONT are about our remote side, DO and DONT about our local side. */
  function Handle(t: Tel, m: Msg): (h: Handled)
    ensures |h.msgs| <= 1
  {
    var isLocal := !m.AboutSender();
    var slot := SlotOf(m.opt);
    var r := React(t.table[slot].Side(isLocal), m.On());
    var t' := t.(table := Update(t.table, slot, isLocal, r.cell));
    Handled(if r.fatal then t' else Summarize(t'), ToMsgs(isLocal, m.opt, r.reply), r.fatal)
  }

  // ---------------------------------------------------------------- bytes of commands

  function MsgBytes(m: Msg): seq<Byte> { [IAC, m.verb, m.opt] }

  function MsgsBytes(msgs: seq<Msg>): seq<Byte>
    decreases |msgs|
  {
    if msgs == [] then [] else MsgBytes(msgs[0]) + MsgsBytes(msgs[1..])
  }

  /** putOptCmd */
  function PutMsg(q: Queue, m: Msg): Queue
  {
    q.Put(IAC).Put(m.verb).Put(m.opt)
  }

  function PutMsgs(q: Queue, msgs: seq<Msg>): Queue
    decreases |msgs|
  {
    if msgs == [] then q else PutMsgs(PutMsg(q, msgs[0]), msgs[1..])
  }

  lemma {:induction false} PutMsgsConcat(q: Queue, a: seq<Msg>, b: seq<Msg>)
    ensures PutMsgs(q, a + b) == PutMsgs(PutMsgs(q, a), b)
    decreases |a|
  {
    if a == [] {
      assert a + b == b;
    } else {
      PutMsgsConcat(PutMsg(q, a[0]), a[1..], b);
      assert (a + b)[1..] == a[1..] + b;
    }
  }

  /** The answer to IAC SB TTYPE SEND IAC SE. */
  function TermBytes(term: seq<Byte>): seq<Byte> {
    [IAC, SB, TELOPT_TTYPE, TELQUAL_IS] + term + [IAC, SE]
  }

  /** ttypeSBHandle */
  function PutTerm(q: Queue, term: seq<Byte>): Queue
  {
    q.Put(IAC).Put(SB).Put(TELOPT_TTYPE).Put(TELQUAL_IS).PutN(term).Put(IAC).Put(SE)
  }

  // ---------------------------------------------------------------- what the puts do to the stream

  /** Unless bytes were refused, putting a run of bytes appends exactly them. */
  lemma PutNStream(q: Queue, s: seq<Byte>)
    requires q.Valid()
    ensures q.PutN(s).Valid() && q.PutN(s).lost >= q.lost
    ensures q.PutN(s).lost == q.lost ==> q.PutN(s).Stream() == q.Stream() + s
  {
    PutNKeepsPrefix(q, s);
    PutNValid(q, s);
    assert s[..|s|] == s;
  }

  lemma PutMsgStream(q: Queue, m: Msg)
    requires q.Valid()
    ensures PutMsg(q, m).Valid() && PutMsg(q, m).lost >= q.lost
    ensures PutMsg(q, m).lost == q.lost ==> PutMsg(q, m).Stream() == q.Stream() + MsgBytes(m)
  {
    if PutMsg(q, m).lost == q.lost {
      assert q.delivered + (q.pending + [IAC] + [m.verb] + [m.opt]) == q.Stream() + MsgBytes(m);
    }
  }

  lemma {:induction false} PutMsgsStream(q: Queue, msgs: seq<Msg>)
    requires q.Valid()
    ensures PutMsgs(q, msgs).Valid() && PutMsgs(q, msgs).lost >= q.lost
    ensures PutMsgs(q, msgs).lost == q.lost ==> PutMsgs(q, msgs).Stream() == q.Stream() + MsgsBytes(msgs)
    decreases |msgs|
  {
    if msgs == [] {
      assert q.Stream() + [] == q.Stream();
    } else {
      PutMsgStream(q, msgs[0]);
      PutMsgsStream(PutMsg(q, msgs[0]), msgs[1..]);
      assert q.Stream() + MsgBytes(msgs[0]) + MsgsBytes(msgs[1..]) == q.Stream() + MsgsBytes(msgs);
    }
  }

  lemma PutPairStream(q: Queue, a: Byte, b: Byte)
    requires q.Valid()
    ensures q.Put(a).Put(b).Valid()
    ensures q.Put(a).Put(b).lost >= q.lost
    ensures q.Put(a).Put(b).lost == q.lost ==> q.Put(a).Put(b).Stream() == q.Stream() + [a, b]
    ensures q.Ptr() + 2 <= HARD ==> q.Put(a).Put(b).lost == q.lost
  {
    if q.Put(a).Put(b).lost == q.lost {
      assert q.delivered + (q.pending + [a] + [b]) == q.Stream() + [a, b];
    }
  }

  lemma PutTermStream(q: Queue, term: seq<Byte>)
    requires q.Valid()
    ensures PutTerm(q, term).Valid() && PutTerm(q, term).lost >= q.lost
    ensures PutTerm(q, term).lost == q.lost ==> PutTerm(q, term).Stream() == q.Stream() + TermBytes(term)
  {
    var q2 := q.Put(IAC).Put(SB);
    var q4 := q2.Put(TELOPT_TTYPE).Put(TELQUAL_IS);
    var q5 := q4.PutN(term);
    PutPairStream(q, IAC, SB);
    PutPairStream(q2, TELOPT_TTYPE, TELQUAL_IS);
    PutNStream(q4, term);
    PutPairStream(q5, IAC, SE);
    if PutTerm(q, term).lost == q.lost {
      assert PutTerm(q, term).Stream() == q.Stream() + [IAC, SB] + [TELOPT_TTYPE, TELQUAL_IS] + term + [IAC, SE];
      TermSplits(q.Stream(), term);
    }
  }

  lemma TermSplits(s: seq<Byte>, term: seq<Byte>)
    ensures s + [IAC, SB] + [TELOPT_TTYPE, TELQUAL_IS] + term + [IAC, SE] == s + TermBytes(term)
  {
  }
}
