/** sockReadLoop does what the tokens of the stream say, whatever chunks they arrive in. */
module TokenLoop {
  import opened Wire
  import opened Settings
  import opened TelOpt
  import opened Iac
  import opened Relay
  import opened RelayRuns

  /** One token after another. */
  function Tokens(l: Link, cfg: Atcmd, ts: seq<Token>): Link
    decreases |ts|
  {
    if ts == [] then l else Tokens(TokenStep(l, cfg, ts[0]), cfg, ts[1..])
  }

  /** A token's effect does not depend on the parser or the record of bytes received. */
  lemma TokenStepCommutes(l: Link, cfg: Atcmd, t: Token, srl: Srl, received: seq<Byte>)
    ensures TokenStep(l.(srl := srl, received := received), cfg, t) ==
            TokenStep(l, cfg, t).(srl := srl, received := received)
  {
  }

  lemma {:induction false} TokensCommute(l: Link, cfg: Atcmd, ts: seq<Token>, srl: Srl, received: seq<Byte>)
    ensures Tokens(l.(srl := srl, received := received), cfg, ts) ==
            Tokens(l, cfg, ts).(srl := srl, received := received)
    decreases |ts|
  {
    if ts == [] {
    } else {
      TokenStepCommutes(l, cfg, ts[0], srl, received);
      TokensCommute(TokenStep(l, cfg, ts[0]), cfg, ts[1..], srl, received);
    }
  }

  /** The link after the tokens of some bytes, with the parser and the record moved past them. */
  function After(l: Link, cfg: Atcmd, bytes: seq<Byte>): Link {
    var p := Parse(l.srl, bytes);
    Tokens(l, cfg, p.tokens).(srl := p.srl, received := l.received + bytes)
  }

  lemma SockByteAfter(l: Link, cfg: Atcmd, c: Byte)
    requires !cfg.pr
    ensures SockByte(l, cfg, c) == After(l, cfg, [c])
  {
    var p := ParseByte(l.srl, c);
    assert [c][1..] == [];
    assert p.tokens + [] == p.tokens;
    assert Parse(l.srl, [c]) == Parsed(p.srl, p.tokens);
    if p.tokens != [] {
      TokenStepCommutes(l, cfg, p.tokens[0], p.srl, l.received + [c]);
      assert p.tokens[1..] == [];
      assert Tokens(l, cfg, p.tokens) == TokenStep(l, cfg, p.tokens[0]);
      assert SockByte(l, cfg, c) ==
             TokenStep(l.(srl := p.srl, received := l.received + [c]), cfg, p.tokens[0]);
    }
  }

  lemma {:induction false} TokensConcat(l: Link, cfg: Atcmd, a: seq<Token>, b: seq<Token>)
    ensures Tokens(l, cfg, a + b) == Tokens(Tokens(l, cfg, a), cfg, b)
    decreases |a|
  {
    if a == [] {
      assert a + b == b;
    } else {
      TokensConcat(TokenStep(l, cfg, a[0]), cfg, a[1..], b);
      assert (a + b)[1..] == a[1..] + b;
    }
  }

  lemma AfterConcat(l: Link, cfg: Atcmd, a: seq<Byte>, b: seq<Byte>)
    ensures After(l, cfg, a + b) == After(After(l, cfg, a), cfg, b)
  {
    var p := Parse(l.srl, a);
    var q := Parse(p.srl, b);
    var l1 := Tokens(l, cfg, p.tokens);
    ParseConcat(l.srl, a, b);
    TokensConcat(l, cfg, p.tokens, q.tokens);
    TokensCommute(l1, cfg, q.tokens, p.srl, l.received + a);
    Assoc(l.received, a, b);
  }

  /** sockReadLoop over any bytes does what their tokens say, in order, and nothing else. */
  lemma {:induction false} LoopFollowsTokens(l: Link, cfg: Atcmd, bytes: seq<Byte>)
    requires !cfg.pr
    ensures SockLoop(l, cfg, bytes) == After(l, cfg, bytes)
    decreases |bytes|
  {
    if bytes == [] {
      assert l.received + [] == l.received;
    } else {
      SockByteAfter(l, cfg, bytes[0]);
      LoopFollowsTokens(SockByte(l, cfg, bytes[0]), cfg, bytes[1..]);
      assert [bytes[0]] + bytes[1..] == bytes;
      AfterConcat(l, cfg, [bytes[0]], bytes[1..]);
    }
  }

  /** One recv after another. */
  function Chunks(l: Link, cfg: Atcmd, chunks: seq<seq<Byte>>): Link
    decreases |chunks|
  {
    if chunks == [] then l else Chunks(SockLoop(l, cfg, chunks[0]), cfg, chunks[1..])
  }

  lemma {:induction false} ChunksFollowTokens(l: Link, cfg: Atcmd, chunks: seq<seq<Byte>>)
    requires !cfg.pr
    ensures Chunks(l, cfg, chunks) == After(l, cfg, Joined(chunks))
    decreases |chunks|
  {
    if chunks == [] {
      assert l.received + [] == l.received;
    } else {
      LoopFollowsTokens(l, cfg, chunks[0]);
      ChunksFollowTokens(SockLoop(l, cfg, chunks[0]), cfg, chunks[1..]);
      AfterConcat(l, cfg, chunks[0], Joined(chunks[1..]));
    }
  }

  /** Parse undoes print, for the loop: a printed token list, cut into recv chunks in any way, acts on the link
      exactly as the tokens do, and leaves the parser between tokens. */
  lemma LoopUndoesPrint(l: Link, cfg: Atcmd, ts: seq<Token>, chunks: seq<seq<Byte>>)
    requires !cfg.pr && l.srl.state.Norm? && (forall t <- ts :: Printable(t))
    requires Joined(chunks) == PrintAll(ts)
    ensures var l' := Chunks(l, cfg, chunks);
      && l'.srl.state.Norm?
      && l' == Tokens(l, cfg, ts).(srl := l'.srl, received := l.received + PrintAll(ts))
  {
    ChunksFollowTokens(l, cfg, chunks);
    ParsePrint(l.srl, ts);
  }

  // ---------------------------------------------------------------- negotiation over the wire

  datatype Answered = Answered(tel: Tel, replies: seq<Msg>, fatal: bool)

  /** Handling one command after another, as an end of a Net does. */
  function HandleAll(t: Tel, msgs: seq<Msg>): Answered
    decreases |msgs|
  {
    if msgs == [] then Answered(t, [], false)
    else
      var h := Handle(t, msgs[0]);
      var a := HandleAll(h.tel, msgs[1..]);
      Answered(a.tel, h.msgs + a.replies, h.fatal || a.fatal)
  }

  function Wanted(msgs: seq<Msg>): seq<Token> {
    seq(|msgs|, i requires 0 <= i < |msgs| => Negotiate(msgs[i]))
  }

  lemma {:induction false} PrintMsgs(msgs: seq<Msg>)
    ensures PrintAll(Wanted(msgs)) == MsgsBytes(msgs)
    decreases |msgs|
  {
    if msgs == [] {
    } else {
      PrintMsgs(msgs[1..]);
      assert Wanted(msgs)[1..] == Wanted(msgs[1..]);
    }
  }

  lemma {:induction false} TokensHandle(l: Link, cfg: Atcmd, msgs: seq<Msg>)
    ensures var l' := Tokens(l, cfg, Wanted(msgs)); var a := HandleAll(l.tel, msgs);
      && l'.tel == a.tel && l'.out == PutMsgs(l.out, a.replies)
      && l'.sock == l.sock.(alive := l.sock.alive && !a.fatal)
      && l'.tty == l.tty
    decreases |msgs|
  {
    if msgs == [] {
    } else {
      var l1 := TokenStep(l, cfg, Negotiate(msgs[0]));
      assert Wanted(msgs)[1..] == Wanted(msgs[1..]);
      TokensHandle(l1, cfg, msgs[1..]);
      PutMsgsConcat(l.out, Handle(l.tel, msgs[0]).msgs, HandleAll(l1.tel, msgs[1..]).replies);
    }
  }

  /** The bytes one end queues for its commands reach the other end as those commands, however they are cut: it
      handles them in order, queues exactly the replies, and drops the line if and only if one of them is fatal. So
      the FIFO channels of Negotiation are what the byte streams are. */
  lemma CommandsOverTheWire(l: Link, cfg: Atcmd, msgs: seq<Msg>, chunks: seq<seq<Byte>>)
    requires !cfg.pr && l.srl.state.Norm? && (forall m <- msgs :: IsVerb(m.verb))
    requires Joined(chunks) == MsgsBytes(msgs)
    ensures var l' := Chunks(l, cfg, chunks); var a := HandleAll(l.tel, msgs);
      && l'.srl.state.Norm?
      && l'.tel == a.tel && l'.out == PutMsgs(l.out, a.replies)
      && l'.sock.alive == (l.sock.alive && !a.fatal)
      && l'.tty == l.tty
  {
    PrintMsgs(msgs);
    forall t | t in Wanted(msgs)
      ensures Printable(t)
    {
      var i :| 0 <= i < |msgs| && t == Negotiate(msgs[i]);
      assert msgs[i] in msgs;
    }
    LoopUndoesPrint(l, cfg, Wanted(msgs), chunks);
    TokensHandle(l, cfg, msgs);
  }
}
