/** Why negotiation needs one round of requests at a time: with two outstanding, it may never end. */
module Rerequests {
  import opened Wire
  import opened Settings
  import opened TelOpt
  import opened Negotiation

  /** Runs in which an end may send its requests again at any time. */
  function Free(n: Net): Net { n.(sentA := false, sentB := false) }

  predicate IsFreeRun(n: Net, acts: seq<Act>)
    decreases |acts|
  {
    acts == [] || (Enabled(Free(n), acts[0]) && IsFreeRun(Next(Free(n), acts[0]), acts[1..]))
  }

  function FreeEnd(n: Net, acts: seq<Act>): Net
    requires IsFreeRun(n, acts)
    decreases |acts|
  {
    if acts == [] then n else FreeEnd(Next(Free(n), acts[0]), acts[1..])
  }

  /** How often end a sends its requests. */
  function Requests(acts: seq<Act>): nat
    decreases |acts|
  {
    if acts == [] then 0 else (if acts[0].ARequests? then 1 else 0) + Requests(acts[1..])
  }

  /** End b never does, and no new round begins. */
  predicate OneSided(acts: seq<Act>) {
    forall a <- acts :: !a.BRequests? && !a.NewRound?
  }

  /** A run with so many requests of end a, none of end b and no new round, that delivers at least so many commands and
      leaves both ends connected. */
  ghost predicate Chatters(n: Net, acts: seq<Act>, requests: nat, count: nat) {
    && IsFreeRun(n, acts) && !FreeEnd(n, acts).dead
    && Requests(acts) == requests && OneSided(acts) && Deliveries(acts) >= count
  }

  /** a wants its BINARY on and has just asked for it, b wants it off, and neither awaits an answer. */
  ghost predicate Rallying(n: Net) {
    && !n.dead && n.ab == [Msg(WILL, TELOPT_BINARY)] && n.ba == []
    && n.a.table[0].local == OptState(Better, false, false)
    && n.b.table[0].remote == OptState(BetterNot, false, false)
  }

  /** b refuses, and a takes the refusal for a request of its own to answer. */
  lemma RallyRound(n: Net)
    requires Rallying(n)
    ensures Enabled(Free(n), BReceives)
    ensures var n1 := Next(Free(n), BReceives);
      Enabled(Free(n1), AReceives) && Rallying(Next(Free(n1), AReceives))
  {
    var n1 := Next(Free(n), BReceives);
    var h := Handle(n.b, Msg(WILL, TELOPT_BINARY));
    assert h.msgs == [Msg(DONT, TELOPT_BINARY)];
    assert n1.ba == [Msg(DONT, TELOPT_BINARY)] && n1.ab == [];
    var g := Handle(n1.a, Msg(DONT, TELOPT_BINARY));
    assert g.msgs == [Msg(WILL, TELOPT_BINARY)];
  }

  function Rally(k: nat): seq<Act> {
    if k == 0 then [] else [BReceives] + ([AReceives] + Rally(k - 1))
  }

  lemma {:induction false} RalliesOn(n: Net, k: nat)
    requires Rallying(n)
    ensures Chatters(n, Rally(k), 0, 2 * k)
    decreases k
  {
    if k == 0 {
    } else {
      var n1 := Next(Free(n), BReceives);
      RallyRound(n);
      RalliesOn(Next(Free(n1), AReceives), k - 1);
      FreeFirst(n1, AReceives, Rally(k - 1), 0, 2 * k - 2);
      FreeFirst(n, BReceives, [AReceives] + Rally(k - 1), 0, 2 * k - 1);
    }
  }

  lemma FreeFirst(n: Net, a: Act, rest: seq<Act>, requests: nat, count: nat)
    requires Enabled(Free(n), a) && !a.BRequests? && !a.NewRound? && Chatters(Next(Free(n), a), rest, requests, count)
    ensures Chatters(n, [a] + rest, requests + (if a.ARequests? then 1 else 0),
                     count + if a.ARequests? then 0 else 1)
  {
    assert ([a] + rest)[1..] == rest;
  }

  // ---------------------------------------------------------------- how it begins

  /** %B1=1 and everything else as a new context has it. */
  const ASKING := DEFAULTS.(pb1 := 1)

  /** An end that has all it wants, but BINARY. */
  const CONTENT: Table := [
    OptEntry(0, OptState(Better, false, false), OptState(BetterNot, false, false)),
    OptEntry(1, OptState(MustNot, false, false), OptState(Better, true, false)),
    OptEntry(3, OptState(Better, true, false), OptState(Better, true, false)),
    OptEntry(24, OptState(Neutral, false, false), OptState(MustNot, false, false)),
    OptEntry(-1, OptState(MustNot, false, false), OptState(MustNot, false, false))
  ]

  /** Its peer, in the same states, which would rather not have BINARY. */
  const UNWILLING: Table := [
    OptEntry(0, OptState(BetterNot, false, false), OptState(BetterNot, false, false)),
    OptEntry(1, OptState(Better, true, false), OptState(Better, false, false)),
    OptEntry(3, OptState(Better, true, false), OptState(Better, true, false)),
    OptEntry(24, OptState(Neutral, false, false), OptState(Neutral, false, false)),
    OptEntry(-1, OptState(MustNot, false, false), OptState(MustNot, false, false))
  ]

  const WAITING: Table := CONTENT[0 := CONTENT[0].With(true, OptState(Better, false, true))]

  const BEGINNING := Net(Tel(CONTENT, false, false, true, true, NotAsked),
                         Tel(UNWILLING, false, false, true, true, NotAsked),
                         [], [], false, false, false)

  lemma BeginningAgrees()
    ensures Start(BEGINNING)
  {
    forall slot: nat, isLocal | slot < DEFAULT_SLOT
      ensures AgreedOn(BEGINNING, slot, isLocal)
    {
      assert slot == 0 || slot == 1 || slot == 2 || slot == 3;
    }
  }

  const ASK := Msg(WILL, TELOPT_BINARY)
  const REFUSAL := Msg(DONT, TELOPT_BINARY)

  lemma {:induction false} NoRequests(t: seq<OptEntry>)
    requires forall e <- t :: RequestsOf(e) == []
    ensures AllRequests(t) == []
    decreases |t|
  {
    if t == [] {
    } else {
      assert t[0] in t;
      NoRequests(t[1..]);
    }
  }

  lemma AsksMsgs(t: Table)
    requires t == CONTENT || t == WAITING
    ensures AllRequests(t) == [ASK]
  {
    assert RequestsOf(t[0]) == [ASK];
    forall e | e in t[1..]
      ensures RequestsOf(e) == []
    {
    }
    NoRequests(t[1..]);
  }

  lemma AsksTable(t: Table)
    requires t == CONTENT || t == WAITING
    ensures AfterAll(t) == WAITING
  {
  }

  /** The only request such an end has is for BINARY, and it makes it again if asked to. */
  lemma AsksBinary(t: Tel)
    requires t.table == CONTENT || t.table == WAITING
    ensures SendReqs(t, ASKING).msgs == [ASK]
    ensures SendReqs(t, ASKING).tel.table == WAITING
  {
    assert SetReqs(t.table, ASKING) == t.table;
    AsksMsgs(t.table);
    AsksTable(t.table);
  }

  lemma Answers(t: Tel)
    ensures t.table == UNWILLING ==>
              var h := Handle(t, ASK); h.msgs == [REFUSAL] && h.tel.table == UNWILLING && !h.fatal
    ensures t.table == WAITING ==>
              var h := Handle(t, REFUSAL); h.msgs == [] && h.tel.table == CONTENT && !h.fatal
    ensures t.table == CONTENT ==>
              var h := Handle(t, REFUSAL); h.msgs == [ASK] && h.tel.table == CONTENT && !h.fatal
  {
  }

  /** A net in the middle of the beginning. */
  ghost predicate At(n: Net, a: Table, ab: seq<Msg>, ba: seq<Msg>) {
    !n.dead && n.a.table == a && n.b.table == UNWILLING && n.ab == ab && n.ba == ba
  }

  lemma AsksAgain(n: Net, ab: seq<Msg>)
    requires At(n, n.a.table, ab, []) && (n.a.table == CONTENT || n.a.table == WAITING)
    ensures Enabled(Free(n), ARequests(ASKING)) && At(Next(Free(n), ARequests(ASKING)), WAITING, ab + [ASK], [])
  {
    AsksBinary(n.a);
  }

  lemma Refuses(n: Net, ab: seq<Msg>, ba: seq<Msg>)
    requires At(n, WAITING, [ASK] + ab, ba)
    ensures Enabled(Free(n), BReceives) && At(Next(Free(n), BReceives), WAITING, ab, ba + [REFUSAL])
  {
    Answers(n.b);
    assert ([ASK] + ab)[1..] == ab;
  }

  /** The first refusal answers the request; the second is taken for a request of the peer, and is answered. */
  lemma TakesRefusals(n: Net)
    requires At(n, WAITING, [], [REFUSAL, REFUSAL])
    ensures Enabled(Free(n), AReceives)
    ensures var n1 := Next(Free(n), AReceives);
      Enabled(Free(n1), AReceives) && Rallying(Next(Free(n1), AReceives))
  {
    var n1 := Next(Free(n), AReceives);
    Answers(n.a);
    assert At(n1, CONTENT, [], [REFUSAL]);
    Answers(n1.a);
    assert At(Next(Free(n1), AReceives), CONTENT, [ASK], []);
  }

  ghost predicate GoesOnFor(n: Net, requests: nat, count: nat) {
    exists acts :: Chatters(n, acts, requests, count)
  }

  lemma OneEarlier(n: Net, a: Act, requests: nat, count: nat)
    requires Enabled(Free(n), a) && !a.BRequests? && !a.NewRound? && GoesOnFor(Next(Free(n), a), requests, count)
    ensures GoesOnFor(n, requests + (if a.ARequests? then 1 else 0), count)
  {
    var rest :| Chatters(Next(Free(n), a), rest, requests, count);
    FreeFirst(n, a, rest, requests, count);
    assert Chatters(n, [a] + rest, requests + (if a.ARequests? then 1 else 0), count);
  }

  lemma AfterRefusals(n: Net, count: nat)
    requires At(n, WAITING, [], [REFUSAL, REFUSAL])
    ensures GoesOnFor(n, 0, count)
  {
    TakesRefusals(n);
    var n1 := Next(Free(n), AReceives);
    RalliesOn(Next(Free(n1), AReceives), count);
    assert Chatters(Next(Free(n1), AReceives), Rally(count), 0, count);
    OneEarlier(n1, AReceives, 0, count);
    OneEarlier(n, AReceives, 0, count);
  }

  lemma AfterTwoRequests(n: Net, count: nat)
    requires At(n, WAITING, [ASK] + [ASK], [])
    ensures GoesOnFor(n, 0, count)
  {
    Refuses(n, [ASK], []);
    var n1 := Next(Free(n), BReceives);
    assert [ASK] == [ASK] + [];
    Refuses(n1, [], [] + [REFUSAL]);
    var n2 := Next(Free(n1), BReceives);
    assert [] + [REFUSAL] + [REFUSAL] == [REFUSAL, REFUSAL];
    AfterRefusals(n2, count);
    OneEarlier(n1, BReceives, 0, count);
    OneEarlier(n, BReceives, 0, count);
  }

  lemma FromContent(n: Net, count: nat)
    requires At(n, CONTENT, [], [])
    ensures GoesOnFor(n, 2, count)
  {
    AsksAgain(n, []);
    var n1 := Next(Free(n), ARequests(ASKING));
    assert [] + [ASK] == [ASK];
    AsksAgain(n1, [ASK]);
    AfterTwoRequests(Next(Free(n1), ARequests(ASKING)), count);
    OneEarlier(n1, ARequests(ASKING), 0, count);
    OneEarlier(n, ARequests(ASKING), 1, count);
  }

  /** The ends agree, the channels are empty, and one end sends its requests twice before the first is answered, the
      other never: then there are runs of that one round with any number of deliveries, after which both ends are
      still connected. With one request of each end there are at most 32 (NegotiationBounded). */
  lemma TwoRequestsNeverEnd(count: nat)
    ensures exists n, acts :: Start(n) && Chatters(n, acts, 2, count)
  {
    var n := BEGINNING;
    BeginningAgrees();
    FromContent(n, count);
    var acts :| Chatters(n, acts, 2, count);
    assert Start(n) && Chatters(n, acts, 2, count);
  }
}
