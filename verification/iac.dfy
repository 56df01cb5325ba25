/** The telnet byte stream: the modem's parser (sockReadLoop in src/m2k_step.c), the printer it inverts, and a
    reference receiver written from RFC 854. */
module Iac {
  import opened Wire
  import opened TelOpt

  datatype SrlState = Norm | Iac | Cmd | Sb | Sbc | Sbs | Sbi

  datatype Srl = Srl(state: SrlState, cmd: Byte, opt: Byte)

  /** What the stream says, one item at a time. */
  datatype Token =
    | Data(c: Byte)
    | Negotiate(m: Msg)    // IAC WILL/WONT/DO/DONT opt
    | Command(c: Byte)     // any other two-byte command
    | SendSub(opt: Byte)   // IAC SB opt SEND IAC SE

  datatype Parsed = Parsed(srl: Srl, tokens: seq<Token>)

  /** One byte through the parser. */
  function ParseByte(s: Srl, c: Byte): (p: Parsed)
    ensures |p.tokens| <= 1
  {
    match s.state
    case Iac =>
      if IsVerb(c) then Parsed(s.(cmd := c, state := Cmd), [])
      else if c == IAC then Parsed(s.(state := Norm), [Data(c)])
      else if c == SB then Parsed(s.(state := Sb), [])
      else Parsed(s.(state := Norm), [Command(c)])
    case Cmd => Parsed(s.(state := Norm), [Negotiate(Msg(s.cmd, c))])
    case Sb => Parsed(s.(opt := c, state := Sbc), [])
    case Sbc => Parsed(s.(state := if c == TELQUAL_SEND then Sbs else Norm), [])
    case Sbs => Parsed(s.(state := if c == IAC then Sbi else Norm), [])
    case Sbi => Parsed(s.(state := Norm), [SendSub(s.opt)])
    case Norm => if c == IAC then Parsed(s.(state := Iac), []) else Parsed(s, [Data(c)])
  }

  function Parse(s: Srl, bytes: seq<Byte>): Parsed
    decreases |bytes|
  {
    if bytes == [] then Parsed(s, [])
    else
      var p := ParseByte(s, bytes[0]);
      var q := Parse(p.srl, bytes[1..]);
      Parsed(q.srl, p.tokens + q.tokens)
  }

  /** The parser's state carries over: cutting a stream anywhere makes no difference. */
  lemma {:induction false} ParseConcat(s: Srl, a: seq<Byte>, b: seq<Byte>)
    ensures var p, q := Parse(s, a), Parse(Parse(s, a).srl, b);
      Parse(s, a + b) == Parsed(q.srl, p.tokens + q.tokens)
    decreases |a|
  {
    if a == [] {
      assert a + b == b;
    } else {
      var p := ParseByte(s, a[0]);
      ParseConcat(p.srl, a[1..], b);
      assert (a + b)[1..] == a[1..] + b;
      var q := Parse(p.srl, a[1..]);
      var r := Parse(q.srl, b);
      assert p.tokens + (q.tokens + r.tokens) == (p.tokens + q.tokens) + r.tokens;
    }
  }

  // ---------------------------------------------------------------- parse undoes print

  predicate Printable(t: Token) {
    match t
    case Data(_) => true
    case Negotiate(m) => IsVerb(m.verb)
    case Command(c) => !IsVerb(c) && c != IAC && c != SB
    case SendSub(_) => true
  }

  function Print(t: Token): seq<Byte> {
    match t
    case Data(c) => if c == IAC then [IAC, IAC] else [c]
    case Negotiate(m) => MsgBytes(m)
    case Command(c) => [IAC, c]
    case SendSub(opt) => [IAC, SB, opt, TELQUAL_SEND, IAC, SE]
  }

  function PrintAll(ts: seq<Token>): seq<Byte>
    decreases |ts|
  {
    if ts == [] then [] else Print(ts[0]) + PrintAll(ts[1..])
  }

  /** What one recv after another returned. */
  function Joined(chunks: seq<seq<Byte>>): seq<Byte>
    decreases |chunks|
  {
    if chunks == [] then [] else chunks[0] + Joined(chunks[1..])
  }

  function ParseChunks(s: Srl, chunks: seq<seq<Byte>>): Parsed
    decreases |chunks|
  {
    if chunks == [] then Parsed(s, [])
    else
      var p := Parse(s, chunks[0]);
      var q := ParseChunks(p.srl, chunks[1..]);
      Parsed(q.srl, p.tokens + q.tokens)
  }

  lemma {:induction false} ChunksDoNotMatter(s: Srl, chunks: seq<seq<Byte>>)
    ensures ParseChunks(s, chunks) == Parse(s, Joined(chunks))
    decreases |chunks|
  {
    if chunks == [] {
    } else {
      ChunksDoNotMatter(Parse(s, chunks[0]).srl, chunks[1..]);
      ParseConcat(s, chunks[0], Joined(chunks[1..]));
    }
  }

  lemma Parse2(s: Srl, a: Byte, b: Byte)
    ensures var p := ParseByte(s, a); var q := ParseByte(p.srl, b);
      Parse(s, [a, b]) == Parsed(q.srl, p.tokens + q.tokens)
  {
    var p := ParseByte(s, a);
    assert [a, b][1..] == [b] && [b][1..] == [];
    assert Parse(p.srl, [b]).tokens == ParseByte(p.srl, b).tokens;
  }

  lemma ParsePrintOne(s: Srl, t: Token)
    requires s.state.Norm? && Printable(t)
    ensures var p := Parse(s, Print(t)); p.srl.state.Norm? && p.tokens == [t]
  {
    match t
    case Data(c) =>
      if c == IAC {
        Parse2(s, IAC, IAC);
      } else {
        assert [c][1..] == [];
      }
    case Command(c) => Parse2(s, IAC, c);
    case Negotiate(m) =>
      Parse2(s, IAC, m.verb);
      ParseConcat(s, [IAC, m.verb], [m.opt]);
      assert [IAC, m.verb] + [m.opt] == Print(t) && [m.opt][1..] == [];
    case SendSub(opt) =>
      Parse2(s, IAC, SB);
      var s2 := Parse(s, [IAC, SB]).srl;
      Parse2(s2, opt, TELQUAL_SEND);
      var s4 := Parse(s2, [opt, TELQUAL_SEND]).srl;
      Parse2(s4, IAC, SE);
      ParseConcat(s2, [opt, TELQUAL_SEND], [IAC, SE]);
      ParseConcat(s, [IAC, SB], [opt, TELQUAL_SEND] + [IAC, SE]);
      assert Print(t) == [IAC, SB] + ([opt, TELQUAL_SEND] + [IAC, SE]);
  }

  lemma {:induction false} ParsePrint(s: Srl, ts: seq<Token>)
    requires s.state.Norm? && (forall t <- ts :: Printable(t))
    ensures var p := Parse(s, PrintAll(ts)); p.srl.state.Norm? && p.tokens == ts
    decreases |ts|
  {
    if ts == [] {
    } else {
      ParsePrintOne(s, ts[0]);
      ParsePrint(Parse(s, Print(ts[0])).srl, ts[1..]);
      ParseConcat(s, Print(ts[0]), PrintAll(ts[1..]));
      assert [ts[0]] + ts[1..] == ts;
    }
  }

  /** Parse undoes print: however the printed stream is cut into recv chunks, the parser gives back exactly the
      tokens, in order, and ends between tokens. */
  lemma ParseUndoesPrint(s: Srl, ts: seq<Token>, chunks: seq<seq<Byte>>)
    requires s.state.Norm? && (forall t <- ts :: Printable(t))
    requires Joined(chunks) == PrintAll(ts)
    ensures var p := ParseChunks(s, chunks); p.srl.state.Norm? && p.tokens == ts
  {
    ChunksDoNotMatter(s, chunks);
    ParsePrint(s, ts);
  }

  // ---------------------------------------------------------------- the other end, by RFC 854

  datatype Peer = Plain | AfterIac | AfterVerb | InSub | InSubIac

  /** Sections "TELNET COMMAND STRUCTURE" of RFC 854 and "Subnegotiation" of RFC 855: data bytes, a doubled IAC for
      byte 255, two- and three-byte commands, and subnegotiations that run to IAC SE. */
  function PeerByte(p: Peer, c: Byte): (Peer, seq<Byte>) {
    match p
    case Plain => if c == IAC then (AfterIac, []) else (Plain, [c])
    case AfterIac =>
      if c == IAC then (Plain, [c])
      else if IsVerb(c) then (AfterVerb, [])
      else if c == SB then (InSub, [])
      else (Plain, [])
    case AfterVerb => (Plain, [])
    case InSub => (if c == IAC then InSubIac else InSub, [])
    case InSubIac => (if c == SE then Plain else InSub, [])
  }

  datatype Heard = Heard(peer: Peer, data: seq<Byte>)

  function Hear(p: Peer, bytes: seq<Byte>): Heard
    decreases |bytes|
  {
    if bytes == [] then Heard(p, [])
    else
      var (p1, d) := PeerByte(p, bytes[0]);
      var h := Hear(p1, bytes[1..]);
      Heard(h.peer, d + h.data)
  }

  lemma {:induction false} HearConcat(p: Peer, a: seq<Byte>, b: seq<Byte>)
    ensures var h, g := Hear(p, a), Hear(Hear(p, a).peer, b);
      Hear(p, a + b) == Heard(g.peer, h.data + g.data)
    decreases |a|
  {
    if a == [] {
      assert a + b == b;
    } else {
      var (p1, d) := PeerByte(p, a[0]);
      HearConcat(p1, a[1..], b);
      assert (a + b)[1..] == a[1..] + b;
      var h := Hear(p1, a[1..]);
      var g := Hear(h.peer, b);
      assert d + (h.data + g.data) == (d + h.data) + g.data;
    }
  }

  /** `bytes` is a whole number of telnet items that carry exactly `data`. */
  ghost predicate Carries(bytes: seq<Byte>, data: seq<Byte>) {
    Hear(Plain, bytes) == Heard(Plain, data)
  }

  lemma CarriesConcat(a: seq<Byte>, da: seq<Byte>, b: seq<Byte>, db: seq<Byte>)
    requires Carries(a, da) && Carries(b, db)
    ensures Carries(a + b, da + db)
  {
    HearConcat(Plain, a, b);
  }

  lemma Hear2(p: Peer, a: Byte, b: Byte)
    ensures var (p1, d1) := PeerByte(p, a); var (p2, d2) := PeerByte(p1, b);
      Hear(p, [a, b]) == Heard(p2, d1 + d2)
  {
    var (p1, _) := PeerByte(p, a);
    assert [a, b][1..] == [b] && [b][1..] == [];
    assert Hear(p1, [b]).data == PeerByte(p1, b).1;
  }

  lemma DataCarries(c: Byte)
    ensures Carries(Print(Data(c)), [c])
  {
    if c == IAC {
      Hear2(Plain, IAC, IAC);
    } else {
      assert [c][1..] == [];
    }
  }

  lemma MsgCarriesNothing(m: Msg)
    requires IsVerb(m.verb)
    ensures Carries(MsgBytes(m), [])
  {
    Hear2(Plain, IAC, m.verb);
    HearConcat(Plain, [IAC, m.verb], [m.opt]);
    assert MsgBytes(m) == [IAC, m.verb] + [m.opt] && [m.opt][1..] == [];
  }

  lemma {:induction false} MsgsCarryNothing(msgs: seq<Msg>)
    requires forall m <- msgs :: IsVerb(m.verb)
    ensures Carries(MsgsBytes(msgs), [])
    decreases |msgs|
  {
    if msgs == [] {
    } else {
      MsgCarriesNothing(msgs[0]);
      MsgsCarryNothing(msgs[1..]);
      CarriesConcat(MsgBytes(msgs[0]), [], MsgsBytes(msgs[1..]), []);
    }
  }

  lemma {:induction false} SubBodyHeard(body: seq<Byte>)
    requires IAC !in body
    ensures Hear(InSub, body) == Heard(InSub, [])
    decreases |body|
  {
    if body == [] {
    } else {
      SubBodyHeard(body[1..]);
    }
  }

  lemma TermCarriesNothing(term: seq<Byte>)
    requires IAC !in term
    ensures Carries(TermBytes(term), [])
  {
    var body: seq<Byte> := [TELOPT_TTYPE, TELQUAL_IS] + term;
    Hear2(Plain, IAC, SB);
    SubBodyHeard(body);
    Hear2(InSub, IAC, SE);
    HearConcat(InSub, body, [IAC, SE]);
    HearConcat(Plain, [IAC, SB], body + [IAC, SE]);
    assert TermBytes(term) == [IAC, SB] + (body + [IAC, SE]);
  }
}
