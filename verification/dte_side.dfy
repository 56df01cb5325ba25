/** What reaches the DTE: the echo of its own bytes and what the peer says, in any mode. */
module DteSide {
  import opened Wire
  import opened Settings
  import opened Fifo
  import opened Iac
  import opened Escape
  import opened Relay
  import opened RelayRuns
  import opened LineEditing
  import opened Transparency

  // ---------------------------------------------------------------- what the DTE should see

  function DataOf(tokens: seq<Token>): seq<Byte>
    decreases |tokens|
  {
    if tokens == [] then [] else (if tokens[0].Data? then [tokens[0].c] else []) + DataOf(tokens[1..])
  }

  /** What the DTE should see of bytes received in parser state s. */
  function Shown(s: Srl, cfg: Atcmd, bytes: seq<Byte>): seq<Byte> {
    if cfg.pr then bytes else DataOf(Parse(s, bytes).tokens)
  }

  lemma {:induction false} DataOfConcat(a: seq<Token>, b: seq<Token>)
    ensures DataOf(a + b) == DataOf(a) + DataOf(b)
    decreases |a|
  {
    if a == [] {
      assert a + b == b;
    } else {
      DataOfConcat(a[1..], b);
      assert (a + b)[0] == a[0] && (a + b)[1..] == a[1..] + b;
      Assoc(if a[0].Data? then [a[0].c] else [], DataOf(a[1..]), DataOf(b));
    }
  }

  lemma ShownConcat(s: Srl, cfg: Atcmd, a: seq<Byte>, b: seq<Byte>)
    ensures Shown(s, cfg, a + b) == Shown(s, cfg, a) + Shown(Parse(s, a).srl, cfg, b)
  {
    if !cfg.pr {
      ParseConcat(s, a, b);
      DataOfConcat(Parse(s, a).tokens, Parse(Parse(s, a).srl, b).tokens);
    }
  }

  /** What the DTE sees of its own bytes: line mode echoes each, and a line feed after a carriage return. */
  function EchoOf(k: Key, cfg: Atcmd): seq<Byte> {
    if !k.mode.Line? then [] else if k.c == cfg.s3 then [k.c, cfg.s4] else [k.c]
  }

  function Echo(keys: seq<Key>, cfg: Atcmd): (bytes: seq<Byte>)
    ensures |bytes| <= 2 * |keys|
    decreases |keys|
  {
    if keys == [] then [] else EchoOf(keys[0], cfg) + Echo(keys[1..], cfg)
  }

  /** The bytes handled from l to l'. */
  function NewKeys(l: Link, l': Link): seq<Key> {
    if |l.handled| <= |l'.handled| then l'.handled[|l.handled|..] else []
  }

  lemma {:induction false} EchoConcat(a: seq<Key>, b: seq<Key>, cfg: Atcmd)
    ensures Echo(a + b, cfg) == Echo(a, cfg) + Echo(b, cfg)
    decreases |a|
  {
    if a == [] {
      assert a + b == b;
    } else {
      EchoConcat(a[1..], b, cfg);
      assert (a + b)[0] == a[0] && (a + b)[1..] == a[1..] + b;
      Assoc(EchoOf(a[0], cfg), Echo(a[1..], cfg), Echo(b, cfg));
    }
  }

  lemma {:induction false} PutNConcat(q: Queue, a: seq<Byte>, b: seq<Byte>)
    ensures q.PutN(a + b) == q.PutN(a).PutN(b)
    decreases |a|
  {
    if a == [] {
      assert a + b == b;
    } else {
      PutNConcat(q.Put(a[0]), a[1..], b);
      assert (a + b)[0] == a[0] && (a + b)[1..] == a[1..] + b;
    }
  }

  /** Whether a run of bytes finds room, and exactly what comes of it if it does not. */
  lemma PutNExact(q: Queue, s: seq<Byte>)
    requires q.Valid()
    ensures var q', n := q.PutN(s), q.Ptr() + |s| - HARD;
      && q'.Valid()
      && q'.lost == q.lost + (if n > 0 then n else 0)
      && (n <= 0 ==> q'.Stream() == q.Stream() + s && q'.Ptr() == q.Ptr() + |s|)
  {
    PutNKeepsPrefix(q, s);
    PutNValid(q, s);
    if q.Ptr() + |s| <= HARD {
      PutNAppends(q, s);
      assert s[..|s|] == s;
    }
  }

  // ---------------------------------------------------------------- the two loops, exactly

  lemma TtyByteEchoes(l: Link, cfg: Atcmd)
    requires l.unread != []
    ensures TtyByte(l, cfg).tty == l.tty.PutN(EchoOf(KeyOf(l, cfg), cfg))
    ensures TtyByte(l, cfg).handled == l.handled + [KeyOf(l, cfg)]
  {
    var c := l.unread[0];
    TtyByteIs(l, cfg);
    PutTwo(l.tty, c, cfg.s4);
  }

  lemma PutTwo(q: Queue, a: Byte, b: Byte)
    ensures q.PutN([a]) == q.Put(a) && q.PutN([a, b]) == q.Put(a).Put(b)
  {
    assert [a][1..] == [] && [a, b][1..] == [b] && [b][1..] == [];
    assert q.Put(a).PutN([b]) == q.Put(a).Put(b);
  }

  /** ttyReadLoop puts on the TTY side exactly the echo of the bytes it handles, carriage returns included, whether or
      not there is room. */
  lemma {:induction false} TtyLoopEchoes(l: Link, cfg: Atcmd)
    ensures var l' := TtyLoop(l, cfg); l.handled <= l'.handled && l'.tty == l.tty.PutN(Echo(NewKeys(l, l'), cfg))
    decreases |l.unread|
  {
    if l.out.stop || l.unread == [] {
      assert NewKeys(l, l) == [];
    } else {
      var l1, l', k := TtyByte(l, cfg), TtyLoop(l, cfg), KeyOf(l, cfg);
      TtyByteEchoes(l, cfg);
      TtyLoopEchoes(l1, cfg);
      var keys := NewKeys(l, l');
      assert keys[0] == k && keys[1..] == NewKeys(l1, l');
      PutNConcat(l.tty, EchoOf(k, cfg), Echo(keys[1..], cfg));
    }
  }

  lemma SockByteShows(l: Link, cfg: Atcmd, c: Byte)
    ensures var l' := SockByte(l, cfg, c);
      && l'.tty == l.tty.PutN(Shown(l.srl, cfg, [c]))
      && (!cfg.pr ==> l'.srl == Parse(l.srl, [c]).srl)
      && l'.handled == l.handled
  {
    assert [c][1..] == [];
    PutTwo(l.tty, c, c);
    if !cfg.pr {
      var p := ParseByte(l.srl, c);
      assert p.tokens + [] == p.tokens;
      assert Parse(l.srl, [c]) == Parsed(p.srl, p.tokens);
      assert p.tokens != [] ==> p.tokens[1..] == [];
      if p.tokens != [] && p.tokens[0].Data? {
        assert p.tokens[0].c == c;
        assert DataOf(p.tokens) == [c] + DataOf([]) == [c];
      } else {
        assert DataOf(p.tokens) == [];
      }
    }
  }

  /** sockReadLoop puts on the TTY side exactly the data of the bytes received, whether or not there is room. */
  lemma {:induction false} SockLoopShows(l: Link, cfg: Atcmd, bytes: seq<Byte>)
    ensures var l' := SockLoop(l, cfg, bytes);
      && l'.tty == l.tty.PutN(Shown(l.srl, cfg, bytes))
      && (!cfg.pr ==> l'.srl == Parse(l.srl, bytes).srl)
      && l'.handled == l.handled
    decreases |bytes|
  {
    if bytes == [] {
    } else {
      var l1, c := SockByte(l, cfg, bytes[0]), bytes[0];
      SockByteShows(l, cfg, c);
      SockLoopShows(l1, cfg, bytes[1..]);
      assert bytes == [c] + bytes[1..];
      ShownConcat(l.srl, cfg, [c], bytes[1..]);
      ParseConcat(l.srl, [c], bytes[1..]);
      PutNConcat(l.tty, Shown(l.srl, cfg, [c]), Shown(Parse(l.srl, [c]).srl, cfg, bytes[1..]));
    }
  }

  lemma {:induction false} ShownFits(s: Srl, cfg: Atcmd, bytes: seq<Byte>)
    ensures |Shown(s, cfg, bytes)| <= |bytes|
    decreases |bytes|
  {
    if bytes == [] {
    } else {
      var c := bytes[0];
      assert bytes == [c] + bytes[1..];
      ShownConcat(s, cfg, [c], bytes[1..]);
      ShownFits(Parse(s, [c]).srl, cfg, bytes[1..]);
      assert [c][1..] == [];
      assert Parse(s, [c]).tokens == ParseByte(s, c).tokens + [];
      assert forall ts: seq<Token> :: |ts| == 1 ==> ts[1..] == [];
    }
  }

  // ---------------------------------------------------------------- one step, exactly

  /** The echo before the socket is read. */
  function EchoOut(l: Link, cfg: Atcmd, appIo: bool, w: World): seq<Byte> {
    Echo(NewKeys(l, IterOut(l, cfg, appIo, w).link), cfg)
  }

  /** What is received, then the echo after it. */
  function ShownIn(l: Link, cfg: Atcmd, appIo: bool, w: World): seq<Byte> {
    (if w.ev.sockIn then Shown(l.srl, cfg, w.recv) else []) + Echo(NewKeys(l, IterIn(l, cfg, appIo, w).link), cfg)
  }

  lemma NewKeysTrans(a: Link, b: Link, c: Link)
    requires a.handled <= b.handled <= c.handled
    ensures NewKeys(a, c) == NewKeys(a, b) + NewKeys(b, c)
  {
  }

  lemma OnSockWritableShows(l: Link, cfg: Atcmd, sent: int)
    ensures var l' := OnSockWritable(l, cfg, sent);
      l.handled <= l'.handled && l'.tty == l.tty.PutN(Echo(NewKeys(l, l'), cfg))
  {
    var ok := l.out.pending == [] || sent > 0;
    var l1 := l.(out := l.out.Write(sent), sock := if ok then l.sock else l.sock.(alive := false));
    TtyLoopEchoes(l1, cfg);
    assert NewKeys(l, l1) == [];
  }

  /** Before the socket is read: the echo, and in PTY mode what the TTY took. */
  lemma IterOutShows(l: Link, cfg: Atcmd, appIo: bool, w: World)
    ensures var l', q := IterOut(l, cfg, appIo, w).link, l.tty.PutN(EchoOut(l, cfg, appIo, w));
      && l.handled <= l'.handled
      && l'.tty == if !appIo && w.ev.ttyOut then q.Write(w.wrote) else q
  {
    var l1 := if w.ev.sockOut then OnSockWritable(l, cfg, w.sent) else l;
    OnSockWritableShows(l, cfg, w.sent);
    assert NewKeys(l, l) == [];
    assert l1.tty == l.tty.PutN(Echo(NewKeys(l, l1), cfg)) && l.handled <= l1.handled;
    if appIo {
      TtyLoopEchoes(l1, cfg);
      var l2 := TtyLoop(l1, cfg);
      NewKeysTrans(l, l1, l2);
      EchoConcat(NewKeys(l, l1), NewKeys(l1, l2), cfg);
      PutNConcat(l.tty, Echo(NewKeys(l, l1), cfg), Echo(NewKeys(l1, l2), cfg));
    }
  }

  /** From there on. */
  lemma IterInShows(l: Link, cfg: Atcmd, appIo: bool, w: World)
    ensures var l' := IterIn(l, cfg, appIo, w).link;
      l.handled <= l'.handled && l'.tty == l.tty.PutN(ShownIn(l, cfg, appIo, w))
  {
    var l1 := if w.ev.sockIn then OnSockReadable(l, cfg, w.recv) else l;
    var data := if w.ev.sockIn then Shown(l.srl, cfg, w.recv) else [];
    SockLoopShows(l, cfg, w.recv);
    assert l1.tty == l.tty.PutN(data) && l1.handled == l.handled;
    var l' := IterIn(l, cfg, appIo, w).link;
    if !appIo && w.ev.ttyIn && w.read != [] {
      TtyLoopEchoes(l1.(unread := w.read, prevT := l1.newT, newT := w.readAt), cfg);
    } else {
      assert NewKeys(l, l') == [] && data + [] == data;
    }
    PutNConcat(l.tty, data, Echo(NewKeys(l, l'), cfg));
  }

  // ---------------------------------------------------------------- acts and stays, exactly

  /** Whether a step goes beyond a +++ or a requested escape. */
  predicate Relays(l: Link, w: World) { !w.escapeReq && !SilenceOver(l.esc, w.now) }

  /** All that an act puts on the TTY side, in order. */
  function ShownBy(l: Link, cfg: Atcmd, appIo: bool, act: Act): seq<Byte> {
    if !act.Step? || !Relays(l, act.w) then []
    else
      var i := IterOut(l, cfg, appIo, act.w);
      EchoOut(l, cfg, appIo, act.w) + if i.verdict.Lost? then [] else ShownIn(i.link, cfg, appIo, act.w)
  }

  /** There is room for all of it: for the echo at once, and for the rest behind what the TTY left. */
  predicate Fits(l: Link, cfg: Atcmd, appIo: bool, act: Act) {
    act.Step? && Relays(l, act.w) ==>
      var i := IterOut(l, cfg, appIo, act.w);
      && l.tty.Ptr() + |EchoOut(l, cfg, appIo, act.w)| <= HARD
      && (!i.verdict.Lost? ==> i.link.tty.Ptr() + |ShownIn(i.link, cfg, appIo, act.w)| <= HARD)
  }

  /** One act: nothing is lost on its way to the DTE if and only if it fits, and then the stream to the DTE grows by
      exactly what the act shows. */
  lemma ActShows(l: Link, cfg: Atcmd, appIo: bool, act: Act)
    requires l.Valid()
    ensures var l' := Do(l, cfg, appIo, act).link;
      && l'.tty.lost >= l.tty.lost
      && (l'.tty.lost == l.tty.lost <==> Fits(l, cfg, appIo, act))
      && (Fits(l, cfg, appIo, act) ==> l'.tty.Stream() == l.tty.Stream() + ShownBy(l, cfg, appIo, act))
  {
    assert l.tty.Stream() + [] == l.tty.Stream();
    match act
    case AppRead(max) => ReadConserves(l.tty, max);
    case Step(w) =>
      if Relays(l, w) {
        StepShows(l, cfg, appIo, w);
      }
    case _ =>
  }

  lemma StepShows(l: Link, cfg: Atcmd, appIo: bool, w: World)
    requires l.Valid() && Relays(l, w)
    ensures var l' := OnlineIter(l, cfg, appIo, w).link;
      && l'.tty.lost >= l.tty.lost
      && (l'.tty.lost == l.tty.lost <==> Fits(l, cfg, appIo, Step(w)))
      && (Fits(l, cfg, appIo, Step(w)) ==> l'.tty.Stream() == l.tty.Stream() + ShownBy(l, cfg, appIo, Step(w)))
  {
    var i, e := IterOut(l, cfg, appIo, w), EchoOut(l, cfg, appIo, w);
    IterOutShows(l, cfg, appIo, w);
    IterOutFrame(l, cfg, appIo, w);
    PutNExact(l.tty, e);
    WriteConserves(l.tty.PutN(e), w.wrote);
    assert i.link.tty.Stream() == l.tty.PutN(e).Stream() && i.link.tty.lost == l.tty.PutN(e).lost;
    if i.verdict.Lost? {
      assert e + [] == e;
    } else {
      IterInShows(i.link, cfg, appIo, w);
      PutNExact(i.link.tty, ShownIn(i.link, cfg, appIo, w));
      Assoc(l.tty.Stream(), e, ShownIn(i.link, cfg, appIo, w));
    }
  }

  predicate AllFit(l: Link, cfg: Atcmd, appIo: bool, acts: seq<Act>)
    decreases |acts|
  {
    acts != [] ==> Fits(l, cfg, appIo, acts[0]) && AllFit(Do(l, cfg, appIo, acts[0]).link, cfg, appIo, acts[1..])
  }

  function ShownTo(l: Link, cfg: Atcmd, appIo: bool, acts: seq<Act>): seq<Byte>
    decreases |acts|
  {
    if acts == [] then []
    else ShownBy(l, cfg, appIo, acts[0]) + ShownTo(Do(l, cfg, appIo, acts[0]).link, cfg, appIo, acts[1..])
  }

  /** Towards the DTE, in any mixture of modes and whatever poll reports: nothing is lost if and only if every act finds
      room, and then what the DTE was given and what is pending for it grow by exactly the echo and the peer's data of
      each act, in order. */
  lemma {:induction false} DteSeesAll(l: Link, cfg: Atcmd, appIo: bool, acts: seq<Act>)
    requires l.Valid()
    ensures var l' := Stay(l, cfg, appIo, acts);
      && l'.tty.lost >= l.tty.lost
      && (l'.tty.lost == l.tty.lost <==> AllFit(l, cfg, appIo, acts))
      && (AllFit(l, cfg, appIo, acts) ==>
            l'.tty.delivered + l'.tty.pending ==
            l.tty.delivered + l.tty.pending + ShownTo(l, cfg, appIo, acts))
    decreases |acts|
  {
    if acts == [] {
      assert l.tty.Stream() + [] == l.tty.Stream();
    } else {
      var l1 := Do(l, cfg, appIo, acts[0]).link;
      DoExact(l, cfg, appIo, acts[0]);
      ActShows(l, cfg, appIo, acts[0]);
      DteSeesAll(l1, cfg, appIo, acts[1..]);
      Assoc(l.tty.Stream(), ShownBy(l, cfg, appIo, acts[0]), ShownTo(l1, cfg, appIo, acts[1..]));
    }
  }

  // ---------------------------------------------------------------- room that can be checked before a step

  /** Room for whatever this step can show: twice the bytes that may be echoed, and the bytes received. */
  predicate HasDteRoom(l: Link, cfg: Atcmd, appIo: bool, w: World) {
    && var echoed := (if ModeOf(l, cfg).Line? then |l.unread| else 0) + if cfg.pr then 0 else |ReadIn(appIo, w)|;
    l.tty.Ptr() + 2 * echoed + (if w.ev.sockIn then |w.recv| else 0) <= HARD
  }

  lemma {:induction false} NoEcho(m: Mode, keys: seq<Key>, cfg: Atcmd)
    requires AllIn(m, keys) && !m.Line?
    ensures Echo(keys, cfg) == []
    decreases |keys|
  {
    if keys == [] {
    } else {
      assert keys[0] in keys && forall k <- keys[1..] :: k in keys;
      NoEcho(m, keys[1..], cfg);
    }
  }

  lemma EchoOutBound(l: Link, cfg: Atcmd, appIo: bool, w: World)
    requires l.Valid()
    ensures |EchoOut(l, cfg, appIo, w)| <= if ModeOf(l, cfg).Line? then 2 * |l.unread| else 0
  {
    var l' := IterOut(l, cfg, appIo, w).link;
    IterOutShows(l, cfg, appIo, w);
    IterOutFrame(l, cfg, appIo, w);
    IterOutIn(l, cfg, appIo, w);
    assert |Dte(l')| == |l'.handled| + |l'.unread| && |Dte(l)| == |l.handled| + |l.unread|;
    if !ModeOf(l, cfg).Line? {
      NoEcho(ModeOf(l, cfg), NewKeys(l, l'), cfg);
    }
  }

  lemma ShownInBound(l: Link, cfg: Atcmd, appIo: bool, w: World)
    requires l.Valid()
    ensures var l' := IterIn(l, cfg, appIo, w).link; var e := Echo(NewKeys(l, l'), cfg);
      && |e| <= (if cfg.pr then 0 else 2 * |ReadIn(appIo, w)|)
      && (!ModeOf(l', cfg).Line? ==> e == [])
      && |ShownIn(l, cfg, appIo, w)| <= (if w.ev.sockIn then |w.recv| else 0) + |e|
  {
    var l' := IterIn(l, cfg, appIo, w).link;
    IterInShows(l, cfg, appIo, w);
    IterInFrame(l, cfg, appIo, w);
    IterInIn(l, cfg, appIo, w);
    ShownFits(l.srl, cfg, w.recv);
    assert |Dte(l')| == |l'.handled| + |l'.unread| && |Dte(l)| == |l.handled| + |l.unread|;
    if ReadIn(appIo, w) == [] {
      NothingHandledIn(l, cfg, appIo, w);
    } else if !ModeOf(l', cfg).Line? {
      NoEcho(ModeOf(l', cfg), NewKeys(l, l'), cfg);
    }
  }

  lemma NothingHandledIn(l: Link, cfg: Atcmd, appIo: bool, w: World)
    requires ReadIn(appIo, w) == []
    ensures IterIn(l, cfg, appIo, w).link.handled == l.handled
  {
    SockLoopShows(l, cfg, w.recv);
  }

  /** With that much room a step loses nothing, in any mode. */
  lemma RoomFits(l: Link, cfg: Atcmd, appIo: bool, w: World)
    requires l.Valid() && HasDteRoom(l, cfg, appIo, w)
    ensures Fits(l, cfg, appIo, Step(w))
  {
    var i := IterOut(l, cfg, appIo, w);
    EchoOutBound(l, cfg, appIo, w);
    IterOutShows(l, cfg, appIo, w);
    IterOutFrame(l, cfg, appIo, w);
    PutNExact(l.tty, EchoOut(l, cfg, appIo, w));
    ShownInBound(i.link, cfg, appIo, w);
  }

  predicate DteRoomy(l: Link, cfg: Atcmd, appIo: bool, acts: seq<Act>)
    decreases |acts|
  {
    acts != [] ==>
      && (acts[0].Step? ==> HasDteRoom(l, cfg, appIo, acts[0].w))
      && DteRoomy(Do(l, cfg, appIo, acts[0]).link, cfg, appIo, acts[1..])
  }

  lemma {:induction false} RoomyFits(l: Link, cfg: Atcmd, appIo: bool, acts: seq<Act>)
    requires l.Valid() && DteRoomy(l, cfg, appIo, acts)
    ensures AllFit(l, cfg, appIo, acts)
    decreases |acts|
  {
    if acts == [] {
    } else {
      DoExact(l, cfg, appIo, acts[0]);
      if acts[0].Step? {
        RoomFits(l, cfg, appIo, acts[0].w);
      }
      RoomyFits(Do(l, cfg, appIo, acts[0]).link, cfg, appIo, acts[1..]);
    }
  }

  /** A bound checked before every step keeps the DTE's side whole, in any mixture of modes. */
  lemma RoomyDteSeesAll(l: Link, cfg: Atcmd, appIo: bool, acts: seq<Act>)
    requires l.Valid() && DteRoomy(l, cfg, appIo, acts)
    ensures var l' := Stay(l, cfg, appIo, acts);
      && l'.tty.lost == l.tty.lost
      && l'.tty.delivered + l'.tty.pending == l.tty.delivered + l.tty.pending + ShownTo(l, cfg, appIo, acts)
  {
    RoomyFits(l, cfg, appIo, acts);
    DteSeesAll(l, cfg, appIo, acts);
  }

  // ---------------------------------------------------------------- outside line mode

  predicate NeverLine(l: Link, cfg: Atcmd, appIo: bool, acts: seq<Act>)
    decreases |acts|
  {
    !ModeOf(l, cfg).Line? && (acts != [] ==> NeverLine(Do(l, cfg, appIo, acts[0]).link, cfg, appIo, acts[1..]))
  }

  /** Poll reports only what was asked for. */
  predicate AllAsked(l: Link, cfg: Atcmd, appIo: bool, acts: seq<Act>)
    decreases |acts|
  {
    acts != [] ==>
      EventsOk(l, appIo, acts[0]) && AllAsked(Do(l, cfg, appIo, acts[0]).link, cfg, appIo, acts[1..])
  }

  lemma IterInParses(l: Link, cfg: Atcmd, appIo: bool, w: World)
    requires l.Valid()
    ensures !cfg.pr ==> IterIn(l, cfg, appIo, w).link.srl == Parse(l.srl, if w.ev.sockIn then w.recv else []).srl
  {
    SockLoopShows(l, cfg, w.recv);
    SockLoopFrame(l, cfg, w.recv);
    var l1 := if w.ev.sockIn then OnSockReadable(l, cfg, w.recv) else l;
    if !appIo && w.ev.ttyIn {
      TtyLoopFrame(l1.(unread := w.read, prevT := l1.newT, newT := w.readAt), cfg);
    }
  }

  lemma ActShowsPeer(l: Link, cfg: Atcmd, appIo: bool, act: Act)
    requires l.Valid() && EventsOk(l, appIo, act) && !ModeOf(l, cfg).Line?
    requires !ModeOf(Do(l, cfg, appIo, act).link, cfg).Line?
    ensures var bytes := ReceivedBy(l, cfg, appIo, act);
      && Fits(l, cfg, appIo, act)
      && ShownBy(l, cfg, appIo, act) == Shown(l.srl, cfg, bytes)
      && (!cfg.pr ==> Do(l, cfg, appIo, act).link.srl == Parse(l.srl, bytes).srl)
  {
    if act.Step? && Relays(l, act.w) {
      var w := act.w;
      var i := IterOut(l, cfg, appIo, w);
      EchoOutBound(l, cfg, appIo, w);
      IterOutShows(l, cfg, appIo, w);
      IterOutFrame(l, cfg, appIo, w);
      PutNExact(l.tty, []);
      if !i.verdict.Lost? {
        ShownInBound(i.link, cfg, appIo, w);
        IterInParses(i.link, cfg, appIo, w);
        assert Shown(l.srl, cfg, w.recv) + [] == Shown(l.srl, cfg, w.recv);
      }
    }
  }

  lemma {:induction false} StayShowsPeer(l: Link, cfg: Atcmd, appIo: bool, acts: seq<Act>)
    requires l.Valid() && NeverLine(l, cfg, appIo, acts) && AllAsked(l, cfg, appIo, acts)
    ensures AllFit(l, cfg, appIo, acts)
    ensures ShownTo(l, cfg, appIo, acts) == Shown(l.srl, cfg, Received(l, cfg, appIo, acts))
    decreases |acts|
  {
    if acts == [] {
    } else {
      var l1 := Do(l, cfg, appIo, acts[0]).link;
      DoExact(l, cfg, appIo, acts[0]);
      ActShowsPeer(l, cfg, appIo, acts[0]);
      StayShowsPeer(l1, cfg, appIo, acts[1..]);
      ShownConcat(l.srl, cfg, ReceivedBy(l, cfg, appIo, acts[0]), Received(l1, cfg, appIo, acts[1..]));
    }
  }

  /** Outside line mode nothing is ever lost towards the DTE while poll reports only what was asked for: what the DTE
      was given and what is pending for it grow by exactly what the bytes received say, which is the bytes themselves in
      raw mode and the data of the telnet stream otherwise. */
  lemma DteSeesPeer(l: Link, cfg: Atcmd, appIo: bool, acts: seq<Act>)
    requires l.Valid() && NeverLine(l, cfg, appIo, acts) && AllAsked(l, cfg, appIo, acts)
    ensures var l' := Stay(l, cfg, appIo, acts);
      && l'.tty.delivered + l'.tty.pending ==
         l.tty.delivered + l.tty.pending + Shown(l.srl, cfg, Received(l, cfg, appIo, acts))
      && l'.tty.lost == l.tty.lost
  {
    StayShowsPeer(l, cfg, appIo, acts);
    DteSeesAll(l, cfg, appIo, acts);
  }
}
