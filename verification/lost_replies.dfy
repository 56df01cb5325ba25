/** A +++ in the middle of a negotiation: what is queued for the socket is dropped, and with it agreement. */
module LostReplies {
  import opened Fifo
  import opened TelOpt
  import opened Iac
  import Machine
  import opened Negotiation
  import opened Rerequests

  // ---------------------------------------------------------------- in the modem

  /** Escaping to command mode and returning with ATO keeps the option table, but drops what was queued for the socket
      and makes the parser start afresh: the peer has got all that the table stands for if and only if nothing was
      pending, and what it sends next is parsed as it was sent if and only if the parser stood between items. */
  lemma EscapeAndReturn(rom: Machine.Rom, m: Machine.Modem)
    requires m.link.tel.sentReqs
    ensures var m1 := Machine.EnterCmd(Machine.Show(rom, m, Machine.OK)); var m2 := Machine.EnterOnline(rom, m1);
      && m2.link.tel == m.link.tel && m2.link.out == EMPTY
      && (m.link.out.delivered == m.link.out.Stream() <==> m.link.out.pending == [])
      && (m2.link.srl == m.link.srl <==> m.link.srl.state.Norm?)
  {
    var m1 := Machine.EnterCmd(Machine.Show(rom, m, Machine.OK));
    assert m1.link == Machine.ForgetInput(m.link).(out := EMPTY, tty := m1.link.tty);
    assert |m.link.out.Stream()| == |m.link.out.delivered| + |m.link.out.pending|;
    OnlineKeeps(rom, m1);
  }

  lemma OnlineKeeps(rom: Machine.Rom, m: Machine.Modem)
    requires m.link.tel.sentReqs
    ensures var l := Machine.EnterOnline(rom, m).link;
      l.tel == m.link.tel && l.out == EMPTY && l.srl == m.link.srl.(state := Norm)
  {
  }

  // ---------------------------------------------------------------- between two modems

  /** End b drops what it has queued. */
  function DropB(n: Net): Net { n.(ba := []) }

  /** A pair with a command on its way awaits an answer somewhere. */
  lemma SomeonePending(p: Pair)
    requires p.Ok() && p.yx != []
    ensures p.x.pending || p.y.pending
  {
  }

  /** In any round, exactly: when the other channel is empty, dropping a queue leaves the ends agreed if and only if the
      queue was empty. */
  lemma DropAgrees(n: Net, acts: seq<Act>)
    requires Start(n) && IsRun(n, acts) && !Run(n, acts).dead && Run(n, acts).ab == []
    ensures DropB(Run(n, acts)).Quiescent()
    ensures Agreed(DropB(Run(n, acts))) <==> Run(n, acts).ba == []
  {
    var n' := Run(n, acts);
    StartInv(n);
    RunInv(n, acts);
    if n'.ba == [] {
      NewRoundInv(n');
      assert DropB(n') == n';
    } else {
      var m := n'.ba[0];
      var slot, isLocal := SlotOf(m.opt), !m.AboutSender();
      ReceivesKnown(n');
      TakenBits(n'.ba, slot, isLocal);
      SomeonePending(PairOf(n', slot, isLocal));
      assert !AgreedOn(DropB(n'), slot, isLocal);
    }
  }

  /** And it happens: one request, whose refusal is still queued when the other end escapes to command mode. */
  lemma DroppedReplyDisagrees()
    ensures exists n, acts ::
              && Start(n) && IsRun(n, acts) && !Run(n, acts).dead && Run(n, acts).ab == []
              && DropB(Run(n, acts)).Quiescent() && !Agreed(DropB(Run(n, acts)))
  {
    var n := BEGINNING;
    BeginningAgrees();
    OneRefusal(n);
    DropAgrees(n, [ARequests(ASKING), BReceives]);
  }

  lemma OneRefusal(n: Net)
    requires At(n, CONTENT, [], []) && !n.sentA
    ensures var acts := [ARequests(ASKING), BReceives];
      IsRun(n, acts) && !Run(n, acts).dead && Run(n, acts).ab == [] && Run(n, acts).ba == [REFUSAL]
  {
    var acts := [ARequests(ASKING), BReceives];
    AsksBinary(n.a);
    var n1 := Next(n, ARequests(ASKING));
    assert [] + [ASK] == [ASK] && n1.ab == [ASK];
    Answers(n1.b);
    var n2 := Next(n1, BReceives);
    assert acts[1..] == [BReceives] && [BReceives][1..] == [];
    assert IsRun(n1, [BReceives]) && Run(n1, [BReceives]) == n2;
  }
}
