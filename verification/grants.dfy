/** What negotiation is for: what one end asks for and the other does not refuse comes about at both. */
module Grants {
  import opened Settings
  import opened TelOpt
  import opened Negotiation

  /** A requirement that asks for a state, and one that does not refuse it. */
  predicate AsksFor(req: Req, on: bool) { req in if on then {Better, Must} else {BetterNot, MustNot} }

  predicate Permits(req: Req, on: bool) { req in if on then {Neutral, Better, Must} else {Neutral, BetterNot, MustNot} }

  // ---------------------------------------------------------------- one option, one direction

  /** x has asked in this round and y permits: the phase is one from which the state comes about. */
  ghost predicate Coming(p: Pair, on: bool) {
    p.sx && AsksFor(p.x.req, on) && Permits(p.y.req, on) ==>
      && (p.Quiet() ==> p.x.on == on)
      && (p.Answered() ==> p.y.on == on)
      && (p.Flip().Answered() ==> p.x.on == on)
      && !p.Flip().Asked()
      && !p.Reasked()
  }

  lemma RequestsComing(p: Pair, req: Req, on: bool)
    requires p.Ok() && !p.sx && (Permits(p.y.req, on))
    ensures Coming(PairRequests(p, req), on)
  {
  }

  lemma PeerRequestsComing(p: Pair, req: Req, on: bool)
    requires p.Ok() && !p.sy && Coming(p, on) && Permits(p.y.req, on)
    ensures Coming(PairRequests(p.Flip(), req).Flip(), on)
  {
  }

  lemma ReceivesComing(p: Pair, on: bool)
    requires p.Ok() && p.yx != [] && Coming(p, on) && !React(p.x, p.yx[0]).fatal
    ensures Coming(PairReceives(p), on)
  {
  }

  lemma PeerReceivesComing(p: Pair, on: bool)
    requires p.Ok() && p.xy != [] && Coming(p, on) && !React(p.y, p.xy[0]).fatal
    ensures Coming(PairReceives(p.Flip()).Flip(), on)
  {
  }

  // ---------------------------------------------------------------- the net

  /** The other end's requirement for the option. */
  function OtherReq(n: Net, slot: nat, isLocal: bool): Req
    requires slot < DEFAULT_SLOT
  {
    n.b.table[slot].Side(!isLocal).req
  }

  /** The other end permits the state all along. */
  predicate PermittedThroughout(n: Net, acts: seq<Act>, slot: nat, isLocal: bool, on: bool)
    requires slot < DEFAULT_SLOT && IsRun(n, acts)
    decreases |acts|
  {
    Permits(OtherReq(n, slot, isLocal), on) &&
    (acts != [] ==> PermittedThroughout(Next(n, acts[0]), acts[1..], slot, isLocal, on))
  }

  lemma AReceivesComing(n: Net, slot: nat, isLocal: bool, on: bool)
    requires slot < DEFAULT_SLOT && n.ba != [] && !ReceivesA(n).dead
    requires PairOf(n, slot, isLocal).Ok() && Coming(PairOf(n, slot, isLocal), on)
    ensures Coming(PairOf(ReceivesA(n), slot, isLocal), on)
  {
    if slot == SlotOf(n.ba[0].opt) && isLocal == !n.ba[0].AboutSender() {
      ReceivesMatching(n, slot, isLocal);
      ReceivesComing(PairOf(n, slot, isLocal), on);
    } else {
      ReceivesOther(n, slot, isLocal);
    }
  }

  lemma BReceivesComing(n: Net, slot: nat, isLocal: bool, on: bool)
    requires slot < DEFAULT_SLOT && n.ab != [] && !ReceivesA(n.Flip()).dead
    requires PairOf(n, slot, isLocal).Ok() && Coming(PairOf(n, slot, isLocal), on)
    ensures Coming(PairOf(ReceivesA(n.Flip()).Flip(), slot, isLocal), on)
  {
    var f, p := n.Flip(), PairOf(n, slot, isLocal);
    PairOfFlip(n, slot, !isLocal);
    PairOfFlip(ReceivesA(f), slot, isLocal);
    assert p.Flip().Flip() == p;
    if slot == SlotOf(f.ba[0].opt) && !isLocal == !f.ba[0].AboutSender() {
      ReceivesMatching(f, slot, !isLocal);
      PeerReceivesComing(p, on);
    } else {
      ReceivesOther(f, slot, !isLocal);
    }
  }

  lemma BRequestsComing(n: Net, cfg: Atcmd, slot: nat, isLocal: bool, on: bool)
    requires slot < DEFAULT_SLOT && !n.sentB && Permits(OtherReq(n, slot, isLocal), on)
    requires PairOf(n, slot, isLocal).Ok() && Coming(PairOf(n, slot, isLocal), on)
    ensures Coming(PairOf(RequestsA(n.Flip(), cfg).Flip(), slot, isLocal), on)
  {
    var f, p := n.Flip(), PairOf(n, slot, isLocal);
    PairOfFlip(n, slot, !isLocal);
    PairOfFlip(RequestsA(f, cfg), slot, isLocal);
    assert p.Flip().Flip() == p;
    RequestsPair(f, cfg, slot, !isLocal);
    PeerRequestsComing(p, SetReqs(f.a.table, cfg)[slot].Side(!isLocal).req, on);
  }

  lemma NextComing(n: Net, act: Act, slot: nat, isLocal: bool, on: bool)
    requires slot < DEFAULT_SLOT && Inv(n) && Enabled(n, act) && !Next(n, act).dead
    requires Coming(PairOf(n, slot, isLocal), on) && Permits(OtherReq(n, slot, isLocal), on)
    ensures Coming(PairOf(Next(n, act), slot, isLocal), on)
  {
    assert PairOf(n, slot, isLocal).Ok();
    match act
    case ARequests(cfg) =>
      RequestsPair(n, cfg, slot, isLocal);
      RequestsComing(PairOf(n, slot, isLocal), SetReqs(n.a.table, cfg)[slot].Side(isLocal).req, on);
    case BRequests(cfg) => BRequestsComing(n, cfg, slot, isLocal, on);
    case AReceives => AReceivesComing(n, slot, isLocal, on);
    case BReceives => BReceivesComing(n, slot, isLocal, on);
    case NewRound =>
  }

  lemma {:induction false} RunComing(n: Net, acts: seq<Act>, slot: nat, isLocal: bool, on: bool)
    requires slot < DEFAULT_SLOT && Inv(n) && IsRun(n, acts) && Coming(PairOf(n, slot, isLocal), on)
    requires PermittedThroughout(n, acts, slot, isLocal, on)
    ensures Run(n, acts).dead || Coming(PairOf(Run(n, acts), slot, isLocal), on)
    decreases |acts|
  {
    if acts == [] {
    } else if Next(n, acts[0]).dead {
      DeadStops(Next(n, acts[0]), acts[1..]);
    } else {
      StepInv(n, acts[0]);
      NextComing(n, acts[0], slot, isLocal, on);
      RunComing(Next(n, acts[0]), acts[1..], slot, isLocal, on);
    }
  }

  /** What is asked for comes about. Two modems that start agreed exchange any commands, over any number of rounds. If
      in the last round end a has sent its requests, and its requirement asks for a state of an option that the other
      end's requirement permits all along, then at quiescence an end has disconnected or both hold that state. */
  lemma WantedComesAbout(n: Net, acts: seq<Act>, slot: nat, isLocal: bool, on: bool)
    requires slot < DEFAULT_SLOT && Start(n) && IsRun(n, acts) && PermittedThroughout(n, acts, slot, isLocal, on)
    ensures var n' := Run(n, acts);
      n'.Quiescent() && !n'.dead && n'.sentA && AsksFor(n'.a.table[slot].Side(isLocal).req, on) ==>
        n'.a.table[slot].Side(isLocal).on == on && n'.b.table[slot].Side(!isLocal).on == on
  {
    var n' := Run(n, acts);
    StartInv(n);
    assert Coming(PairOf(n, slot, isLocal), on);
    RunComing(n, acts, slot, isLocal, on);
    RunInv(n, acts);
    NegotiationAgrees(n, acts);
    PermittedAtEnd(n, acts, slot, isLocal, on);
    if n'.Quiescent() && !n'.dead {
      assert AgreedOn(n', slot, isLocal);
      assert PairOf(n', slot, isLocal).Quiet();
    }
  }

  lemma {:induction false} PermittedAtEnd(n: Net, acts: seq<Act>, slot: nat, isLocal: bool, on: bool)
    requires slot < DEFAULT_SLOT && IsRun(n, acts) && PermittedThroughout(n, acts, slot, isLocal, on)
    ensures Permits(OtherReq(Run(n, acts), slot, isLocal), on)
    decreases |acts|
  {
    if acts == [] {
    } else {
      PermittedAtEnd(Next(n, acts[0]), acts[1..], slot, isLocal, on);
    }
  }

  // ---------------------------------------------------------------- the ends are alike

  function FlipAct(act: Act): Act {
    match act
    case ARequests(cfg) => BRequests(cfg)
    case BRequests(cfg) => ARequests(cfg)
    case AReceives => BReceives
    case BReceives => AReceives
    case NewRound => NewRound
  }

  function FlipActs(acts: seq<Act>): (flipped: seq<Act>)
    ensures |flipped| == |acts|
  {
    seq(|acts|, i requires 0 <= i < |acts| => FlipAct(acts[i]))
  }

  /** Exchanging the ends exchanges them in every run, so what is proved of a holds of b. */
  lemma {:induction false} RunFlips(n: Net, acts: seq<Act>)
    requires IsRun(n, acts)
    ensures IsRun(n.Flip(), FlipActs(acts)) && Run(n.Flip(), FlipActs(acts)) == Run(n, acts).Flip()
    decreases |acts|
  {
    if acts == [] {
    } else {
      assert n.Flip().Flip() == n;
      assert Next(n.Flip(), FlipAct(acts[0])) == Next(n, acts[0]).Flip();
      RunFlips(Next(n, acts[0]), acts[1..]);
      assert FlipActs(acts)[1..] == FlipActs(acts[1..]);
    }
  }

  lemma StartFlips(n: Net)
    requires Start(n)
    ensures Start(n.Flip())
  {
    forall slot: nat, isLocal | slot < DEFAULT_SLOT
      ensures AgreedOn(n.Flip(), slot, isLocal)
    {
      assert AgreedOn(n, slot, !isLocal);
    }
  }
}
