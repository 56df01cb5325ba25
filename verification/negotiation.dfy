/** Two modems negotiating options over a pair of FIFO channels. */
module Negotiation {
  import opened Wire
  import opened Settings
  import opened TelOpt

  /** Ends a and b, the commands in flight each way, whether an end dropped the connection, and which ends have
      sent their requests in the current round. */
  datatype Net = Net(a: Tel, b: Tel, ab: seq<Msg>, ba: seq<Msg>, dead: bool, sentA: bool, sentB: bool) {
    function Flip(): Net { Net(b, a, ba, ab, dead, sentB, sentA) }

    predicate Quiescent() { ab == [] && ba == [] }
  }

  datatype Act =
    | ARequests(cfg: Atcmd)
    | BRequests(cfg: Atcmd)
    | AReceives
    | BReceives
    | NewRound

  /** Each end sends requests at most once until the channels have drained. */
  predicate Enabled(n: Net, act: Act) {
    !n.dead &&
    match act
    case ARequests(_) => !n.sentA
    case BRequests(_) => !n.sentB
    case AReceives => n.ba != []
    case BReceives => n.ab != []
    case NewRound => n.Quiescent()
  }

  function RequestsA(n: Net, cfg: Atcmd): Net {
    var s := SendReqs(n.a, cfg);
    n.(a := s.tel, ab := n.ab + s.msgs, sentA := true)
  }

  function ReceivesA(n: Net): Net
    requires n.ba != []
  {
    var h := Handle(n.a, n.ba[0]);
    n.(a := h.tel, ba := n.ba[1..], ab := n.ab + h.msgs, dead := h.fatal)
  }

  function Next(n: Net, act: Act): Net
    requires Enabled(n, act)
  {
    match act
    case ARequests(cfg) => RequestsA(n, cfg)
    case BRequests(cfg) => RequestsA(n.Flip(), cfg).Flip()
    case AReceives => ReceivesA(n)
    case BReceives => ReceivesA(n.Flip()).Flip()
    case NewRound => n.(sentA := false, sentB := false)
  }

  predicate IsRun(n: Net, acts: seq<Act>)
    decreases |acts|
  {
    acts == [] || (Enabled(n, acts[0]) && IsRun(Next(n, acts[0]), acts[1..]))
  }

  function Run(n: Net, acts: seq<Act>): Net
    requires IsRun(n, acts)
    decreases |acts|
  {
    if acts == [] then n else Run(Next(n, acts[0]), acts[1..])
  }

  /** Commands taken off the channels. */
  function Deliveries(acts: seq<Act>): nat
    decreases |acts|
  {
    if acts == [] then 0
    else (if acts[0].AReceives? || acts[0].BReceives? then 1 else 0) + Deliveries(acts[1..])
  }

  /** Both ends know the same state of every option in every direction, and neither awaits an answer. */
  ghost predicate Agreed(n: Net) {
    forall slot, isLocal :: 0 <= slot < DEFAULT_SLOT ==> AgreedOn(n, slot, isLocal)
  }

  ghost predicate AgreedOn(n: Net, slot: nat, isLocal: bool)
    requires slot < DEFAULT_SLOT
  {
    var x, y := n.a.table[slot].Side(isLocal), n.b.table[slot].Side(!isLocal);
    x.on == y.on && !x.pending && !y.pending
  }

  // ---------------------------------------------------------------- one option, one direction

  /** The part of a net that concerns one side of one option at a and the other side at b. */
  datatype Pair = Pair(x: OptState, y: OptState, xy: seq<bool>, yx: seq<bool>, sx: bool, sy: bool) {
    function Flip(): Pair { Pair(y, x, yx, xy, sy, sx) }

    ghost predicate Quiet() {
      x.on == y.on && !x.pending && !y.pending && xy == [] && yx == []
    }

    /** x has asked for a change. */
    ghost predicate Asked() {
      && x.pending && !y.pending && x.on == y.on
      && xy == [!x.on] && yx == []
      && Wants(x.req, !x.on) && sx
    }

    /** y has answered with the state it took. */
    ghost predicate Answered() {
      && x.pending && !y.pending
      && xy == [] && yx == [y.on]
      && Wants(x.req, !x.on) && sx
    }

    /** y has answered and then asked for the opposite. */
    ghost predicate Reasked() {
      && x.pending && y.pending
      && xy == [] && yx == [y.on, !y.on]
      && Wants(x.req, !x.on) && Wants(y.req, !y.on) && sx && sy
    }

    /** Both ends asked for the same change at the same time. */
    ghost predicate Crossed() {
      && x.pending && y.pending && x.on == y.on
      && xy == [!x.on] && yx == [!x.on]
      && Wants(x.req, !x.on) && Wants(y.req, !y.on) && sx && sy
    }

    ghost predicate HalfOk() { Quiet() || Crossed() || Asked() || Answered() || Reasked() }

    ghost predicate Ok() { HalfOk() || Flip().HalfOk() }

    /** How many more deliveries this pair can cause. */
    ghost function Rank(): nat {
      (if sx then 0 else 2) + (if sy then 0 else 2) + |xy| + |yx|
      + (if Asked() || Reasked() || Flip().Asked() || Flip().Reasked() then 1 else 0)
    }
  }

  ghost function PairRequests(p: Pair, req: Req): Pair {
    var x := p.x.(req := req);
    p.(x := AfterRequest(x), xy := p.xy + Request(x), sx := true)
  }

  ghost function PairReceives(p: Pair): Pair
    requires p.yx != []
  {
    var r := React(p.x, p.yx[0]);
    p.(x := r.cell, yx := p.yx[1..], xy := p.xy + r.reply)
  }

  lemma PairRequestsOk(p: Pair, req: Req)
    requires p.Ok() && !p.sx
    ensures PairRequests(p, req).Ok()
    ensures PairRequests(p, req).Rank() <= p.Rank()
  {
  }

  lemma PairReceivesOk(p: Pair)
    requires p.Ok() && p.yx != []
    requires !React(p.x, p.yx[0]).fatal
    ensures PairReceives(p).Ok()
    ensures PairReceives(p).Rank() < p.Rank()
  {
  }

  // ---------------------------------------------------------------- projecting the net

  /** The states asked for or granted by the commands that speak about one side of one option. */
  function Bits(msgs: seq<Msg>, opt: int, aboutSender: bool): seq<bool>
    decreases |msgs|
  {
    if msgs == [] then [] else BitOf(msgs[0], opt, aboutSender) + Bits(msgs[1..], opt, aboutSender)
  }

  function BitOf(m: Msg, opt: int, aboutSender: bool): seq<bool> {
    if m.opt == opt && m.AboutSender() == aboutSender then [m.On()] else []
  }

  lemma {:induction false} BitsConcat(m: seq<Msg>, n: seq<Msg>, opt: int, aboutSender: bool)
    ensures Bits(m + n, opt, aboutSender) == Bits(m, opt, aboutSender) + Bits(n, opt, aboutSender)
    decreases |m|
  {
    if m == [] {
      assert m + n == n;
    } else {
      BitsConcat(m[1..], n, opt, aboutSender);
      assert (m + n)[1..] == m[1..] + n;
      var first, rest := BitOf(m[0], opt, aboutSender), Bits(m[1..], opt, aboutSender);
      assert first + (rest + Bits(n, opt, aboutSender)) == (first + rest) + Bits(n, opt, aboutSender);
    }
  }

  ghost predicate Known(msgs: seq<Msg>) {
    forall m <- msgs :: IsVerb(m.verb) && SlotOf(m.opt) < DEFAULT_SLOT
  }

  ghost function PairOf(n: Net, slot: nat, isLocal: bool): Pair
    requires slot < DEFAULT_SLOT
  {
    Pair(n.a.table[slot].Side(isLocal), n.b.table[slot].Side(!isLocal),
         Bits(n.ab, OptAt(slot), isLocal), Bits(n.ba, OptAt(slot), !isLocal), n.sentA, n.sentB)
  }

  ghost predicate Inv(n: Net) {
    && Known(n.ab) && Known(n.ba)
    && forall slot: nat, isLocal :: slot < DEFAULT_SLOT ==> PairOf(n, slot, isLocal).Ok()
  }

  /** One number for every option the modem knows, in either direction. */
  type Ranks = (nat, bool) -> nat

  ghost function Sum(r: Ranks): nat {
    r(0, true) + r(0, false) + r(1, true) + r(1, false) + r(2, true) + r(2, false) + r(3, true) + r(3, false)
  }

  ghost function RanksOf(n: Net): Ranks {
    (slot: nat, isLocal: bool) => if slot < DEFAULT_SLOT then PairOf(n, slot, isLocal).Rank() else 0
  }

  ghost function TotalRank(n: Net): nat { Sum(RanksOf(n)) }

  lemma PairOfFlip(n: Net, slot: nat, isLocal: bool)
    requires slot < DEFAULT_SLOT
    ensures PairOf(n.Flip(), slot, isLocal) == PairOf(n, slot, !isLocal).Flip()
  {
  }

  lemma FlipOk(p: Pair)
    ensures p.Flip().Ok() == p.Ok() && p.Flip().Rank() == p.Rank()
  {
    assert p.Flip().Flip() == p;
    assert p.Flip().Quiet() == p.Quiet();
    if p.Crossed() || p.Flip().Crossed() {
      assert p.Crossed() && p.Flip().Crossed();
    }
  }

  lemma FlipInv(n: Net)
    ensures Inv(n.Flip()) == Inv(n)
    ensures TotalRank(n.Flip()) == TotalRank(n)
  {
    forall slot: nat, isLocal | slot < DEFAULT_SLOT
      ensures PairOf(n.Flip(), slot, isLocal).Ok() == PairOf(n, slot, !isLocal).Ok()
      ensures PairOf(n.Flip(), slot, isLocal).Rank() == PairOf(n, slot, !isLocal).Rank()
    {
      PairOfFlip(n, slot, isLocal);
      FlipOk(PairOf(n, slot, !isLocal));
    }
    assert n.Flip().Flip() == n;
    if Inv(n.Flip()) {
      forall slot: nat, isLocal | slot < DEFAULT_SLOT
        ensures PairOf(n, slot, isLocal).Ok()
      {
        assert PairOf(n.Flip(), slot, !isLocal).Ok() == PairOf(n, slot, !!isLocal).Ok();
      }
    }
  }

  // ---------------------------------------------------------------- steps of the net

  /** What telOptSendReqs says about one side of one option is that side's request. */
  lemma RequestBits(t: Table, slot: nat, isLocal: bool)
    requires slot < DEFAULT_SLOT
    ensures Known(AllRequests(t))
    ensures Bits(AllRequests(t), OptAt(slot), isLocal) == Request(t[slot].Side(isLocal))
  {
    RequestBitsFrom(t, 0, slot, isLocal);
    assert t[0..] == t;
  }

  lemma {:induction false} RequestBitsFrom(t: Table, i: nat, slot: nat, isLocal: bool)
    requires i <= ENTRIES && slot < DEFAULT_SLOT
    ensures Known(AllRequests(t[i..]))
    ensures Bits(AllRequests(t[i..]), OptAt(slot), isLocal) ==
            if i <= slot then Request(t[slot].Side(isLocal)) else []
    decreases ENTRIES - i
  {
    if i == ENTRIES {
    } else {
      RequestBitsFrom(t, i + 1, slot, isLocal);
      assert t[i..][1..] == t[i + 1..];
      EntryBits(t, i, slot, isLocal);
      BitsConcat(RequestsOf(t[i]), AllRequests(t[i + 1..]), OptAt(slot), isLocal);
    }
  }

  /** The requests of one entry, seen from any side of any entry. */
  lemma KnownEntryBits(e: OptEntry, i: nat, slot: nat, isLocal: bool)
    requires i < DEFAULT_SLOT && slot < DEFAULT_SLOT && e.opt == OptAt(i)
    ensures Bits(RequestsOf(e), OptAt(slot), isLocal) == if i == slot then Request(e.Side(isLocal)) else []
  {
    var l := ToMsgs(true, e.opt, Request(e.local));
    var r := ToMsgs(false, e.opt, Request(e.remote));
    SlotsDistinct(slot, e.opt);
    BitsConcat(l, r, OptAt(slot), isLocal);
    ToMsgsBits(true, e.opt, Request(e.local), OptAt(slot), isLocal);
    ToMsgsBits(false, e.opt, Request(e.remote), OptAt(slot), isLocal);
  }

  lemma KnownEntry(e: OptEntry, i: nat)
    requires i < DEFAULT_SLOT && e.opt == OptAt(i)
    ensures Known(RequestsOf(e))
  {
    KnownMsgs(true, i, Request(e.local));
    KnownMsgs(false, i, Request(e.remote));
  }

  lemma EntryBits(t: Table, i: nat, slot: nat, isLocal: bool)
    requires i < ENTRIES && slot < DEFAULT_SLOT
    ensures Known(RequestsOf(t[i]))
    ensures Bits(RequestsOf(t[i]), OptAt(slot), isLocal) == if i == slot then Request(t[slot].Side(isLocal)) else []
  {
    assert t[i].opt == OptAt(i);
    if i < DEFAULT_SLOT {
      KnownEntry(t[i], i);
      KnownEntryBits(t[i], i, slot, isLocal);
    } else {
      assert RequestsOf(t[i]) == [];
    }
  }

  lemma KnownMsgs(about: bool, slot: nat, bits: seq<bool>)
    requires slot < DEFAULT_SLOT && |bits| <= 1
    ensures Known(ToMsgs(about, OptAt(slot), bits))
  {
  }

  lemma ToMsgsBits(about: bool, o: Byte, bits: seq<bool>, opt: int, isLocal: bool)
    requires |bits| <= 1
    ensures Bits(ToMsgs(about, o, bits), opt, isLocal) == if o == opt && about == isLocal then bits else []
  {
    if bits != [] {
      var m := Msg(Verb(about, bits[0]), o);
      assert ToMsgs(about, o, bits)[1..] == [];
      assert m.On() == bits[0] && m.AboutSender() == about;
    }
  }

  /** setReqs changes requirements and nothing else. */
  lemma SetReqsSide(t: Table, cfg: Atcmd, slot: nat, isLocal: bool)
    requires slot < DEFAULT_SLOT
    ensures var c, c' := t[slot].Side(isLocal), SetReqs(t, cfg)[slot].Side(isLocal);
      c' == c.(req := c'.req)
  {
  }

  lemma RequestsPair(n: Net, cfg: Atcmd, slot: nat, isLocal: bool)
    requires slot < DEFAULT_SLOT
    ensures PairOf(RequestsA(n, cfg), slot, isLocal) ==
            PairRequests(PairOf(n, slot, isLocal), SetReqs(n.a.table, cfg)[slot].Side(isLocal).req)
  {
    var t1 := SetReqs(n.a.table, cfg);
    SetReqsSide(n.a.table, cfg, slot, isLocal);
    RequestBits(t1, slot, isLocal);
    BitsConcat(n.ab, AllRequests(t1), OptAt(slot), isLocal);
    assert RequestsA(n, cfg).a.table[slot] == AfterRequests(t1[slot]);
  }

  lemma RequestsAInv(n: Net, cfg: Atcmd)
    requires Inv(n) && !n.sentA
    ensures Inv(RequestsA(n, cfg))
    ensures TotalRank(RequestsA(n, cfg)) <= TotalRank(n)
  {
    RequestBits(SetReqs(n.a.table, cfg), 0, true);
    forall slot: nat, isLocal | slot < DEFAULT_SLOT
      ensures PairOf(RequestsA(n, cfg), slot, isLocal).Ok()
      ensures PairOf(RequestsA(n, cfg), slot, isLocal).Rank() <= PairOf(n, slot, isLocal).Rank()
    {
      RequestsPair(n, cfg, slot, isLocal);
      PairRequestsOk(PairOf(n, slot, isLocal), SetReqs(n.a.table, cfg)[slot].Side(isLocal).req);
    }
    SumDrops(RanksOf(n), RanksOf(RequestsA(n, cfg)), 0, true);
  }

  lemma SlotsDistinct(slot: nat, opt: Byte)
    requires slot < DEFAULT_SLOT
    ensures OptAt(slot) == opt <==> SlotOf(opt) == slot
  {
  }

  lemma ReceivesSide(t: Tel, m: Msg, slot: nat, isLocal: bool)
    requires slot < DEFAULT_SLOT
    ensures var c := t.table[slot].Side(isLocal);
      Handle(t, m).tel.table[slot].Side(isLocal) ==
      if slot == SlotOf(m.opt) && isLocal == !m.AboutSender() then React(c, m.On()).cell else c
  {
    var slot0, isLocal0 := SlotOf(m.opt), !m.AboutSender();
    var cell := React(t.table[slot0].Side(isLocal0), m.On()).cell;
    assert Handle(t, m).tel.table == Update(t.table, slot0, isLocal0, cell);
  }

  /** What handling m adds to the commands about one side of one option. */
  lemma RepliesBits(t: Tel, m: Msg, ab: seq<Msg>, slot: nat, isLocal: bool)
    requires slot < DEFAULT_SLOT
    ensures Bits(ab + Handle(t, m).msgs, OptAt(slot), isLocal) == Bits(ab, OptAt(slot), isLocal) +
            if slot == SlotOf(m.opt) && isLocal == !m.AboutSender()
            then React(t.table[slot].Side(isLocal), m.On()).reply else []
  {
    var slot0, isLocal0 := SlotOf(m.opt), !m.AboutSender();
    var reply := React(t.table[slot0].Side(isLocal0), m.On()).reply;
    SlotsDistinct(slot, m.opt);
    BitsConcat(ab, Handle(t, m).msgs, OptAt(slot), isLocal);
    ToMsgsBits(isLocal0, m.opt, reply, OptAt(slot), isLocal);
  }

  /** What taking a command off the channel leaves of those about one side of one option. */
  lemma TakenBits(ba: seq<Msg>, slot: nat, isLocal: bool)
    requires ba != [] && slot < DEFAULT_SLOT
    ensures var m := ba[0];
      Bits(ba, OptAt(slot), !isLocal) ==
      (if slot == SlotOf(m.opt) && isLocal == !m.AboutSender() then [m.On()] else [])
      + Bits(ba[1..], OptAt(slot), !isLocal)
  {
    SlotsDistinct(slot, ba[0].opt);
  }

  /** The command is about this side of this option. */
  lemma ReceivesMatching(n: Net, slot: nat, isLocal: bool)
    requires n.ba != [] && slot < DEFAULT_SLOT
    requires slot == SlotOf(n.ba[0].opt) && isLocal == !n.ba[0].AboutSender()
    ensures var m, p := n.ba[0], PairOf(n, slot, isLocal);
      p.yx != [] && p.yx[0] == m.On() && PairOf(ReceivesA(n), slot, isLocal) == PairReceives(p)
  {
    TakenBits(n.ba, slot, isLocal);
    ReceivesSide(n.a, n.ba[0], slot, isLocal);
    RepliesBits(n.a, n.ba[0], n.ab, slot, isLocal);
  }

  /** The command is about another. */
  lemma ReceivesOther(n: Net, slot: nat, isLocal: bool)
    requires n.ba != [] && slot < DEFAULT_SLOT
    requires slot != SlotOf(n.ba[0].opt) || isLocal != !n.ba[0].AboutSender()
    ensures PairOf(ReceivesA(n), slot, isLocal) == PairOf(n, slot, isLocal)
  {
    TakenBits(n.ba, slot, isLocal);
    ReceivesSide(n.a, n.ba[0], slot, isLocal);
    RepliesBits(n.a, n.ba[0], n.ab, slot, isLocal);
  }

  lemma ReceivesKnown(n: Net)
    requires Known(n.ab) && Known(n.ba) && n.ba != []
    ensures SlotOf(n.ba[0].opt) < DEFAULT_SLOT
    ensures Known(ReceivesA(n).ab) && Known(ReceivesA(n).ba)
  {
    assert n.ba[0] in n.ba;
    assert forall r <- Handle(n.a, n.ba[0]).msgs :: IsVerb(r.verb) && r.opt == n.ba[0].opt;
  }

  /** A number that drops while none grows lowers the sum. */
  lemma SumDrops(r: Ranks, r': Ranks, slot0: nat, isLocal0: bool)
    requires slot0 < DEFAULT_SLOT
    requires forall slot: nat, isLocal | slot < DEFAULT_SLOT :: r'(slot, isLocal) <= r(slot, isLocal)
    ensures Sum(r') <= Sum(r)
    ensures r'(slot0, isLocal0) < r(slot0, isLocal0) ==> Sum(r') < Sum(r)
  {
  }

  lemma ReceivesAInv(n: Net)
    requires Inv(n) && n.ba != []
    requires !ReceivesA(n).dead
    ensures Inv(ReceivesA(n))
    ensures TotalRank(ReceivesA(n)) < TotalRank(n)
  {
    var m, n' := n.ba[0], ReceivesA(n);
    var slot0, isLocal0 := SlotOf(m.opt), !m.AboutSender();
    ReceivesKnown(n);
    forall slot: nat, isLocal | slot < DEFAULT_SLOT
      ensures PairOf(n', slot, isLocal).Ok()
      ensures PairOf(n', slot, isLocal).Rank() <= PairOf(n, slot, isLocal).Rank()
      ensures slot == slot0 && isLocal == isLocal0 ==>
                PairOf(n', slot, isLocal).Rank() < PairOf(n, slot, isLocal).Rank()
    {
      assert PairOf(n, slot, isLocal).Ok();
      if slot == slot0 && isLocal == isLocal0 {
        ReceivesMatching(n, slot, isLocal);
        PairReceivesOk(PairOf(n, slot, isLocal));
      } else {
        ReceivesOther(n, slot, isLocal);
      }
    }
    SumDrops(RanksOf(n), RanksOf(n'), slot0, isLocal0);
  }

  lemma NewRoundInv(n: Net)
    requires Inv(n) && n.Quiescent()
    ensures Agreed(n)
    ensures Inv(Next(n.(dead := false), NewRound))
    ensures TotalRank(Next(n.(dead := false), NewRound)) <= 32
  {
    var n' := Next(n.(dead := false), NewRound);
    forall slot: nat, isLocal | slot < DEFAULT_SLOT
      ensures AgreedOn(n, slot, isLocal)
      ensures PairOf(n', slot, isLocal).Ok() && PairOf(n', slot, isLocal).Rank() <= 4
    {
      assert PairOf(n, slot, isLocal).Ok();
      assert PairOf(n', slot, isLocal).Quiet();
    }
  }

  lemma StepInv(n: Net, act: Act)
    requires Inv(n) && Enabled(n, act) && !Next(n, act).dead
    ensures Inv(Next(n, act))
    ensures !act.NewRound? ==>
              TotalRank(Next(n, act)) + (if act.AReceives? || act.BReceives? then 1 else 0) <= TotalRank(n)
  {
    match act
    case ARequests(cfg) => RequestsAInv(n, cfg);
    case BRequests(cfg) =>
      FlipInv(n);
      RequestsAInv(n.Flip(), cfg);
      FlipInv(RequestsA(n.Flip(), cfg));
    case AReceives => ReceivesAInv(n);
    case BReceives =>
      FlipInv(n);
      ReceivesAInv(n.Flip());
      FlipInv(ReceivesA(n.Flip()));
    case NewRound => NewRoundInv(n);
  }

  // ---------------------------------------------------------------- main results

  ghost predicate Start(n: Net) {
    n.Quiescent() && !n.dead && !n.sentA && !n.sentB && Agreed(n)
  }

  lemma StartInv(n: Net)
    requires Start(n)
    ensures Inv(n) && TotalRank(n) <= 32
  {
    forall slot: nat, isLocal | slot < DEFAULT_SLOT
      ensures PairOf(n, slot, isLocal).Quiet() && PairOf(n, slot, isLocal).Rank() == 4
    {
      assert AgreedOn(n, slot, isLocal);
    }
  }

  lemma DeadStops(n: Net, acts: seq<Act>)
    requires n.dead && IsRun(n, acts)
    ensures acts == []
  {
  }

  lemma {:induction false} RunInv(n: Net, acts: seq<Act>)
    requires Inv(n) && IsRun(n, acts)
    ensures Run(n, acts).dead || Inv(Run(n, acts))
    decreases |acts|
  {
    if acts == [] {
    } else {
      if Next(n, acts[0]).dead {
        DeadStops(Next(n, acts[0]), acts[1..]);
      } else {
        StepInv(n, acts[0]);
        RunInv(Next(n, acts[0]), acts[1..]);
      }
    }
  }

  /** Agreement. Two modems start with equal option states and empty channels and then exchange any commands,
      over any number of rounds, each with any requirements of either side that setReqs can set. Whenever both
      channels are empty, either an end has disconnected or both ends hold the same state for every option in
      every direction and neither waits for an answer. */
  lemma NegotiationAgrees(n: Net, acts: seq<Act>)
    requires Start(n) && IsRun(n, acts)
    ensures var n' := Run(n, acts); n'.Quiescent() ==> n'.dead || Agreed(n')
  {
    StartInv(n);
    RunInv(n, acts);
    var n' := Run(n, acts);
    if n'.Quiescent() && !n'.dead {
      NewRoundInv(n');
    }
  }

  /** How many new rounds begin. */
  function NewRounds(acts: seq<Act>): nat
    decreases |acts|
  {
    if acts == [] then 0 else (if acts[0].NewRound? then 1 else 0) + NewRounds(acts[1..])
  }

  lemma {:induction false} RunRank(n: Net, acts: seq<Act>)
    requires Inv(n) && IsRun(n, acts)
    ensures var n' := Run(n, acts);
      Deliveries(acts) + (if n'.dead then 0 else TotalRank(n')) <= TotalRank(n) + 32 * NewRounds(acts)
    decreases |acts|
  {
    if acts == [] {
    } else {
      var n1 := Next(n, acts[0]);
      if n1.dead {
        DeadStops(n1, acts[1..]);
        InFlight(n);
      } else {
        StepInv(n, acts[0]);
        if acts[0].NewRound? {
          NewRoundInv(n);
        }
        RunRank(n1, acts[1..]);
      }
    }
  }

  /** Commands in flight never outnumber the rank. */
  lemma InFlight(n: Net)
    requires Inv(n)
    ensures |n.ab| + |n.ba| <= TotalRank(n)
  {
    CountBits(n.ab);
    CountBits(n.ba);
  }

  ghost function SlotCount(msgs: seq<Msg>, slot: nat): nat {
    |Bits(msgs, OptAt(slot), true)| + |Bits(msgs, OptAt(slot), false)|
  }

  lemma {:induction false} CountBits(msgs: seq<Msg>)
    requires Known(msgs)
    ensures |msgs| == SlotCount(msgs, 0) + SlotCount(msgs, 1) + SlotCount(msgs, 2) + SlotCount(msgs, 3)
    decreases |msgs|
  {
    if msgs == [] {
    } else {
      assert msgs[0] in msgs;
      CountBits(msgs[1..]);
      forall slot: nat | slot < DEFAULT_SLOT
        ensures SlotCount(msgs, slot) == SlotCount(msgs[1..], slot) + if slot == SlotOf(msgs[0].opt) then 1 else 0
      {
        SlotsDistinct(slot, msgs[0].opt);
      }
    }
  }

  /** Bounded chatter. Over any number of rounds the two ends exchange at most 32 commands a round, delivered or still
      in flight: no pair of requirements can make them answer each other for ever. */
  lemma NegotiationBounded(n: Net, acts: seq<Act>)
    requires Start(n) && IsRun(n, acts)
    ensures Deliveries(acts) <= 32 * (1 + NewRounds(acts))
    ensures var n' := Run(n, acts); !n'.dead ==> Deliveries(acts) + |n'.ab| + |n'.ba| <= 32 * (1 + NewRounds(acts))
  {
    StartInv(n);
    RunRank(n, acts);
    RunInv(n, acts);
    if !Run(n, acts).dead {
      InFlight(Run(n, acts));
    }
  }
}
