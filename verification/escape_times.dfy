/** The +++ escape in the time at which bytes arrived. */
module EscapeTimes {
  import opened Wire
  import opened Time
  import opened Settings
  import opened Fifo
  import opened Escape
  import opened Relay
  import opened RelayRuns
  import opened EscapeStays

  // ---------------------------------------------------------------- arrivals

  /** When the bytes an act took from the DTE arrived: at the write of the host, or at the read of the TTY. */
  function ArrivedBy(l: Link, cfg: Atcmd, appIo: bool, act: Act): (times: seq<Timeval>)
    ensures |times| == |TakenBy(l, cfg, appIo, act)|
  {
    match act
    case AppWrite(_, now) => seq(|TakenBy(l, cfg, appIo, act)|, _ => now)
    case Step(w) => seq(|TakenBy(l, cfg, appIo, act)|, _ => w.readAt)
    case _ => []
  }

  /** The arrival of every byte that Taken lists. */
  function Arrivals(l: Link, cfg: Atcmd, appIo: bool, acts: seq<Act>): (times: seq<Timeval>)
    ensures |times| == |Taken(l, cfg, appIo, acts)|
    decreases |acts|
  {
    if acts == [] then []
    else ArrivedBy(l, cfg, appIo, acts[0]) + Arrivals(Do(l, cfg, appIo, acts[0]).link, cfg, appIo, acts[1..])
  }

  /** New bytes come only when none are left unread: what a host can check before m2k_write_from_app. */
  predicate FindsNothing(l: Link, cfg: Atcmd, appIo: bool, act: Act) {
    && ReadsOk(l, cfg, appIo, act)
    && (act.AppWrite? && TakenBy(l, cfg, appIo, act) != [] ==> l.unread == [])
  }

  predicate AllFindNothing(l: Link, cfg: Atcmd, appIo: bool, acts: seq<Act>)
    decreases |acts|
  {
    acts != [] ==>
      && FindsNothing(l, cfg, appIo, acts[0])
      && AllFindNothing(Do(l, cfg, appIo, acts[0]).link, cfg, appIo, acts[1..])
  }

  /** A TTY is read only when nothing is unread, so in PTY mode this always holds. */
  lemma {:induction false} PtyFindsNothing(l: Link, cfg: Atcmd, acts: seq<Act>)
    requires GoesOn(l, cfg, false, acts)
    ensures AllFindNothing(l, cfg, false, acts)
    decreases |acts|
  {
    if acts == [] {
    } else {
      PtyFindsNothing(Do(l, cfg, false, acts[0]).link, cfg, acts[1..]);
    }
  }

  // ---------------------------------------------------------------- stamps and arrivals

  /** The stamps are the arrivals, for the bytes handled and for those still unread. */
  ghost predicate Stamped(l: Link, times: seq<Timeval>) {
    && |times| == |l.handled| + |l.unread|
    && (forall i :: 0 <= i < |l.handled| ==> l.handled[i].newT == times[i])
    && (forall i :: |l.handled| <= i < |times| ==> times[i] == l.newT)
  }

  /** One write, exactly: the stamps go on being the arrivals if and only if the write found nothing unread, or came at
      the very moment of the write before it. */
  lemma WriteKeepsStamps(l: Link, bytes: seq<Byte>, now: Timeval, times: seq<Timeval>)
    requires |l.unread| <= CHUNK && Stamped(l, times) && WriteFromApp(l.unread, bytes).consumed > 0
    ensures var take := WriteFromApp(l.unread, bytes).consumed;
      Stamped(FromApp(l, bytes, now), times + seq(take, _ => now)) <==> l.unread == [] || now == l.newT
  {
    var take := WriteFromApp(l.unread, bytes).consumed;
    var all := times + seq(take, _ => now);
    assert FromApp(l, bytes, now).unread == l.unread + bytes[..take];
    if l.unread != [] {
      assert all[|l.handled|] == times[|l.handled|] == l.newT;
    }
  }

  lemma TtyByteStamped(l: Link, cfg: Atcmd, times: seq<Timeval>)
    requires l.Valid() && l.unread != [] && Stamped(l, times)
    ensures Stamped(TtyByte(l, cfg), times)
  {
    TtyByteIs(l, cfg);
    assert times[|l.handled|] == l.newT;
  }

  lemma {:induction false} TtyLoopStamped(l: Link, cfg: Atcmd, times: seq<Timeval>)
    requires l.Valid() && Stamped(l, times)
    ensures Stamped(TtyLoop(l, cfg), times)
    decreases |l.unread|
  {
    if l.out.stop || l.unread == [] {
    } else {
      TtyByteFrame(l, cfg);
      TtyByteStamped(l, cfg, times);
      TtyLoopStamped(TtyByte(l, cfg), cfg, times);
    }
  }

  lemma IterOutStamped(l: Link, cfg: Atcmd, appIo: bool, w: World, times: seq<Timeval>)
    requires l.Valid() && Stamped(l, times)
    ensures Stamped(IterOut(l, cfg, appIo, w).link, times)
  {
    var l1 := if w.ev.sockOut then OnSockWritable(l, cfg, w.sent) else l;
    if w.ev.sockOut {
      var ok := l.out.pending == [] || w.sent > 0;
      var l0 := l.(out := l.out.Write(w.sent), sock := if ok then l.sock else l.sock.(alive := false));
      TtyLoopStamped(l0, cfg, times);
      OnSockWritableFrame(l, cfg, w.sent);
    }
    assert l1.Valid() && Stamped(l1, times);
    TtyLoopStamped(l1, cfg, times);
  }

  lemma IterInStamped(l: Link, cfg: Atcmd, appIo: bool, w: World, times: seq<Timeval>)
    requires l.Valid() && Stamped(l, times) && (ReadIn(appIo, w) != [] ==> l.unread == [])
    requires IterIn(l, cfg, appIo, w).verdict.Continue?
    ensures Stamped(IterIn(l, cfg, appIo, w).link,
                    times + seq(|ReadIn(appIo, w)|, _ => w.readAt))
  {
    var l1 := if w.ev.sockIn then OnSockReadable(l, cfg, w.recv) else l;
    if w.ev.sockIn {
      SockLoopFrame(l, cfg, w.recv);
    }
    assert l1.Valid() && Stamped(l1, times);
    if !appIo && w.ev.ttyIn {
      var l2 := l1.(unread := w.read, prevT := l1.newT, newT := w.readAt);
      assert Stamped(l2, times + seq(|w.read|, _ => w.readAt));
      TtyLoopStamped(l2, cfg, times + seq(|w.read|, _ => w.readAt));
    } else {
      assert times + [] == times;
    }
  }

  lemma DoStamped(l: Link, cfg: Atcmd, appIo: bool, act: Act, times: seq<Timeval>)
    requires l.Valid() && Stamped(l, times) && FindsNothing(l, cfg, appIo, act)
    requires Do(l, cfg, appIo, act).verdict.Continue?
    ensures Stamped(Do(l, cfg, appIo, act).link, times + ArrivedBy(l, cfg, appIo, act))
  {
    match act
    case Step(w) =>
      IterOutFrame(l, cfg, appIo, w);
      IterOutStamped(l, cfg, appIo, w, times);
      IterInStamped(IterOut(l, cfg, appIo, w).link, cfg, appIo, w, times);
    case AppWrite(bytes, now) =>
      if appIo && WriteFromApp(l.unread, bytes).consumed > 0 {
        WriteKeepsStamps(l, bytes, now, times);
      } else {
        assert times + [] == times;
      }
    case _ => assert times + [] == times;
  }

  lemma AssocTimes(a: seq<Timeval>, b: seq<Timeval>, c: seq<Timeval>)
    ensures a + b + c == a + (b + c)
  {
  }

  lemma {:induction false} StayStamped(l: Link, cfg: Atcmd, appIo: bool, acts: seq<Act>, times: seq<Timeval>)
    requires l.Valid() && Stamped(l, times) && GoesOn(l, cfg, appIo, acts) && AllFindNothing(l, cfg, appIo, acts)
    ensures Stamped(Stay(l, cfg, appIo, acts), times + Arrivals(l, cfg, appIo, acts))
    decreases |acts|
  {
    if acts == [] {
      assert times + [] == times;
    } else {
      var l1, more := Do(l, cfg, appIo, acts[0]).link, ArrivedBy(l, cfg, appIo, acts[0]);
      DoConserves(l, cfg, appIo, acts[0]);
      DoStamped(l, cfg, appIo, acts[0], times);
      StayStamped(l1, cfg, appIo, acts[1..], times + more);
      AssocTimes(times, more, Arrivals(l1, cfg, appIo, acts[1..]));
    }
  }

  // ---------------------------------------------------------------- one read after another

  /** A key stamped (newT, prevT) comes after key a: from the same read, or from the very next one. */
  ghost predicate Follows(a: Key, newT: Timeval, prevT: Timeval) {
    (newT == a.newT && prevT == a.prevT) || prevT == a.newT
  }

  /** The stamps of bytes handled tell their reads apart, and from the last read before going online, at `since`. */
  ghost predicate Linked(since: Timeval, keys: seq<Key>) {
    && (keys != [] ==> keys[0].prevT == since)
    && forall i :: 0 < i < |keys| ==> Follows(keys[i - 1], keys[i].newT, keys[i].prevT)
  }

  /** And so will those of the bytes to come. */
  ghost predicate Chained(since: Timeval, l: Link) {
    && Linked(since, l.handled)
    && (if l.handled == [] then since == if l.unread == [] then l.newT else l.prevT
        else
          var k := l.handled[|l.handled| - 1];
          if l.unread == [] then k.newT == l.newT else Follows(k, l.newT, l.prevT))
  }

  lemma LinkedAppend(since: Timeval, keys: seq<Key>, k: Key)
    requires Linked(since, keys)
    requires if keys == [] then k.prevT == since else Follows(keys[|keys| - 1], k.newT, k.prevT)
    ensures Linked(since, keys + [k])
  {
  }

  lemma TtyByteChained(since: Timeval, l: Link, cfg: Atcmd)
    requires l.Valid() && l.unread != [] && Chained(since, l)
    ensures Chained(since, TtyByte(l, cfg))
  {
    TtyByteFrame(l, cfg);
    TtyByteIs(l, cfg);
    LinkedAppend(since, l.handled, Key(l.unread[0], l.newT, l.prevT, ModeOf(l, cfg)));
  }

  lemma {:induction false} TtyLoopChained(since: Timeval, l: Link, cfg: Atcmd)
    requires l.Valid() && Chained(since, l)
    ensures Chained(since, TtyLoop(l, cfg))
    decreases |l.unread|
  {
    if l.out.stop || l.unread == [] {
    } else {
      TtyByteFrame(l, cfg);
      TtyByteChained(since, l, cfg);
      TtyLoopChained(since, TtyByte(l, cfg), cfg);
    }
  }

  lemma ChainedSame(since: Timeval, l: Link, l': Link)
    requires Chained(since, l)
    requires l'.handled == l.handled && l'.unread == l.unread && l'.newT == l.newT && l'.prevT == l.prevT
    ensures Chained(since, l')
  {
  }

  lemma OnSockWritableChained(since: Timeval, l: Link, cfg: Atcmd, sent: int)
    requires l.Valid() && Chained(since, l)
    ensures Chained(since, OnSockWritable(l, cfg, sent))
  {
    var ok := l.out.pending == [] || sent > 0;
    var l1 := l.(out := l.out.Write(sent), sock := if ok then l.sock else l.sock.(alive := false));
    ChainedSame(since, l, l1);
    TtyLoopChained(since, l1, cfg);
  }

  lemma IterOutChained(since: Timeval, l: Link, cfg: Atcmd, appIo: bool, w: World)
    requires l.Valid() && Chained(since, l)
    ensures Chained(since, IterOut(l, cfg, appIo, w).link)
  {
    var l1 := if w.ev.sockOut then OnSockWritable(l, cfg, w.sent) else l;
    if w.ev.sockOut {
      OnSockWritableChained(since, l, cfg, w.sent);
      OnSockWritableFrame(l, cfg, w.sent);
    }
    if appIo {
      TtyLoopChained(since, l1, cfg);
    } else {
      ChainedSame(since, l1, IterOut(l, cfg, appIo, w).link);
    }
  }

  lemma IterInChained(since: Timeval, l: Link, cfg: Atcmd, appIo: bool, w: World)
    requires l.Valid() && Chained(since, l) && (ReadIn(appIo, w) != [] ==> l.unread == [])
    requires IterIn(l, cfg, appIo, w).verdict.Continue?
    ensures Chained(since, IterIn(l, cfg, appIo, w).link)
  {
    var l1 := if w.ev.sockIn then OnSockReadable(l, cfg, w.recv) else l;
    if w.ev.sockIn {
      SockLoopFrame(l, cfg, w.recv);
    }
    assert l1.Valid() && Chained(since, l1);
    if !appIo && w.ev.ttyIn {
      TtyLoopChained(since, l1.(unread := w.read, prevT := l1.newT, newT := w.readAt), cfg);
    }
  }

  lemma DoChained(since: Timeval, l: Link, cfg: Atcmd, appIo: bool, act: Act)
    requires l.Valid() && Chained(since, l) && FindsNothing(l, cfg, appIo, act)
    requires Do(l, cfg, appIo, act).verdict.Continue?
    ensures Chained(since, Do(l, cfg, appIo, act).link)
  {
    if act.Step? {
      IterOutFrame(l, cfg, appIo, act.w);
      IterOutChained(since, l, cfg, appIo, act.w);
      IterInChained(since, IterOut(l, cfg, appIo, act.w).link, cfg, appIo, act.w);
    }
  }

  lemma {:induction false} StayChained(since: Timeval, l: Link, cfg: Atcmd, appIo: bool, acts: seq<Act>)
    requires l.Valid() && Chained(since, l) && GoesOn(l, cfg, appIo, acts) && AllFindNothing(l, cfg, appIo, acts)
    ensures Chained(since, Stay(l, cfg, appIo, acts))
    decreases |acts|
  {
    if acts == [] {
    } else {
      DoExact(l, cfg, appIo, acts[0]);
      DoChained(since, l, cfg, appIo, acts[0]);
      StayChained(since, Do(l, cfg, appIo, acts[0]).link, cfg, appIo, acts[1..]);
    }
  }

  // ---------------------------------------------------------------- main results

  /** The byte at i came in a read with nothing for the guard time before it: whatever was taken before that read came
      more than the guard time earlier, or, if nothing was, the last read before going online did. */
  ghost predicate Paused(cfg: Atcmd, since: Timeval, times: seq<Timeval>, i: nat)
    requires i < |times|
  {
    exists j :: 0 <= j <= i && PausedFrom(cfg, since, times, i, j)
  }

  ghost predicate PausedFrom(cfg: Atcmd, since: Timeval, times: seq<Timeval>, i: nat, j: nat)
    requires j <= i < |times|
  {
    && (forall k :: j <= k <= i ==> times[k] == times[i])
    && times[i].Micros() > (if j == 0 then since else times[j - 1]).Micros() + Guard(cfg.s12)
  }

  /** Three escape characters in a row end at position n of the bytes taken, the second and third arriving within the
      guard time of the first; a pause comes before the read of the first; and the guard time has passed since the last
      of them. */
  ghost predicate PausedPluses(cfg: Atcmd, since: Timeval, bytes: seq<Byte>, times: seq<Timeval>, n: nat,
                               now: Timeval)
  {
    && 3 <= n <= |bytes| && |times| == |bytes|
    && bytes[n - 3] == bytes[n - 2] == bytes[n - 1] == cfg.s2
    && times[n - 2].Micros() <= times[n - 3].Micros() + Guard(cfg.s12)
    && times[n - 1].Micros() <= times[n - 3].Micros() + Guard(cfg.s12)
    && Paused(cfg, since, times, n - 3)
    && now.Micros() >= times[n - 1].Micros() + Guard(cfg.s12)
  }

  /** Escape soundness in arrival times, in either I/O mode. If new bytes came only when none were unread (always so in
      PTY mode), a stay entered with checkSilence clear is left unasked only after three escape characters that arrived
      quickly after a pause, with the guard time passed since the last one, which is the last byte handled. */
  lemma EscapeAfterPausedPluses(l: Link, cfg: Atcmd, appIo: bool, acts: seq<Act>, w: World)
    requires l.Valid() && !l.esc.checkSilence && l.newT.Normal()
    requires GoesOn(GoOnline(l, cfg), cfg, appIo, acts) && w.now.Normal() && !w.escapeReq
    requires AllFindNothing(GoOnline(l, cfg), cfg, appIo, acts)
    requires OnlineIter(Stay(GoOnline(l, cfg), cfg, appIo, acts), cfg, appIo, w).verdict.Escaped?
    ensures var l0 := GoOnline(l, cfg);
      PausedPluses(cfg, l.newT, Taken(l0, cfg, appIo, acts), Arrivals(l0, cfg, appIo, acts),
                   |Stay(l0, cfg, appIo, acts).handled|, w.now)
  {
    var l0 := GoOnline(l, cfg);
    var l' := Stay(l0, cfg, appIo, acts);
    var bytes, times := Taken(l0, cfg, appIo, acts), Arrivals(l0, cfg, appIo, acts);
    EscapeOnlyAfterPluses(l, cfg, appIo, acts, w);
    StayTold(l, cfg, appIo, acts);
    StampsTell(cfg, l.newT, l', bytes, times, w.now);
  }

  /** These are the bytes handled. */
  ghost predicate Prefix(keys: seq<Key>, bytes: seq<Byte>) {
    |keys| <= |bytes| && forall i :: 0 <= i < |keys| ==> keys[i].c == bytes[i]
  }

  /** What a stay tells of its bytes. */
  lemma StayTold(l: Link, cfg: Atcmd, appIo: bool, acts: seq<Act>)
    requires l.Valid() && GoesOn(GoOnline(l, cfg), cfg, appIo, acts)
    requires AllFindNothing(GoOnline(l, cfg), cfg, appIo, acts)
    ensures var l0 := GoOnline(l, cfg); var l' := Stay(l0, cfg, appIo, acts);
      && Prefix(l'.handled, Taken(l0, cfg, appIo, acts))
      && Stamped(l', Arrivals(l0, cfg, appIo, acts))
      && Chained(l.newT, l')
  {
    var l0, times := GoOnline(l, cfg), Arrivals(GoOnline(l, cfg), cfg, appIo, acts);
    GoOnlineValid(l, cfg);
    assert l0.newT == l.newT;
    StayChained(l.newT, l0, cfg, appIo, acts);
    StayStamped(l0, cfg, appIo, acts, []);
    assert [] + times == times;
    HandledTaken(l0, cfg, appIo, acts);
  }

  /** Where the read of the key at i began. */
  lemma {:induction false} ReadBegan(since: Timeval, keys: seq<Key>, i: nat) returns (j: nat)
    requires i < |keys| && Linked(since, keys)
    ensures j <= i && (forall k :: j <= k <= i ==> keys[k].newT == keys[i].newT)
    ensures keys[i].prevT == if j == 0 then since else keys[j - 1].newT
    decreases i
  {
    if i == 0 {
      j := 0;
    } else if keys[i].prevT == keys[i - 1].newT {
      j := i;
    } else {
      assert Follows(keys[i - 1], keys[i].newT, keys[i].prevT);
      j := ReadBegan(since, keys, i - 1);
    }
  }

  lemma PauseTold(cfg: Atcmd, since: Timeval, keys: seq<Key>, times: seq<Timeval>, i: nat)
    requires Linked(since, keys) && i < |keys| <= |times|
    requires forall k :: 0 <= k < |keys| ==> keys[k].newT == times[k]
    requires keys[i].newT.Micros() > keys[i].prevT.Micros() + Guard(cfg.s12)
    ensures Paused(cfg, since, times, i)
  {
    var j := ReadBegan(since, keys, i);
    assert PausedFrom(cfg, since, times, i, j);
  }

  lemma StampsTell(cfg: Atcmd, since: Timeval, l: Link, bytes: seq<Byte>, times: seq<Timeval>, now: Timeval)
    requires EndsWithPluses(cfg.s2, cfg.s12, l.handled, 3)
    requires Prefix(l.handled, bytes) && |bytes| == |times| && Stamped(l, times) && Chained(since, l)
    requires now.Micros() >= l.handled[|l.handled| - 1].newT.Micros() + Guard(cfg.s12)
    ensures PausedPluses(cfg, since, bytes, times, |l.handled|, now)
  {
    var keys, n := l.handled, |l.handled|;
    var tail := keys[n - 3..];
    assert tail[0] in tail && tail[1] in tail && tail[2] in tail;
    assert tail[0] == keys[n - 3] && tail[1] == keys[n - 2] && tail[2] == keys[n - 1];
    PauseTold(cfg, since, keys, times, n - 3);
  }

  lemma {:induction false} GoesOnIsStay(l: Link, cfg: Atcmd, appIo: bool, acts: seq<Act>)
    requires GoesOn(l, cfg, appIo, acts)
    ensures IsStay(l, cfg, appIo, acts)
    decreases |acts|
  {
    if acts == [] {
    } else {
      GoesOnIsStay(Do(l, cfg, appIo, acts[0]).link, cfg, appIo, acts[1..]);
    }
  }

  lemma HandledTaken(l: Link, cfg: Atcmd, appIo: bool, acts: seq<Act>)
    requires l.Valid() && l.unread == [] && l.handled == [] && GoesOn(l, cfg, appIo, acts)
    ensures Prefix(Stay(l, cfg, appIo, acts).handled, Taken(l, cfg, appIo, acts))
  {
    var l' := Stay(l, cfg, appIo, acts);
    GoesOnIsStay(l, cfg, appIo, acts);
    DteConserved(l, cfg, appIo, acts);
    assert Dte(l) + Taken(l, cfg, appIo, acts) == Taken(l, cfg, appIo, acts);
    forall i | 0 <= i < |l'.handled|
      ensures l'.handled[i].c == Taken(l, cfg, appIo, acts)[i]
    {
      assert Dte(l')[i] == Bytes(l'.handled)[i];
    }
  }

  // ---------------------------------------------------------------- where the code is laxer

  lemma EscRunAppend(e: Esc, cfg: Atcmd, keys: seq<Key>, k: Key)
    ensures EscRun(e, cfg.s2, cfg.s12, keys + [k]) ==
            EscByte(EscRun(e, cfg.s2, cfg.s12, keys), cfg.s2, cfg.s12, k)
  {
    assert (keys + [k])[..|keys|] == keys;
  }

  /** The same-read case is real: text that ends in the three characters, read in one piece after a pause, arms the
      detector although nothing separates the text from them. */
  lemma TextThenPluses(e: Esc, cfg: Atcmd, c: Byte, newT: Timeval, prevT: Timeval, mode: Mode)
    requires e.state.Idle? && c != cfg.s2 && newT.Normal() && prevT.Normal()
    requires newT.Micros() > prevT.Micros() + Guard(cfg.s12)
    ensures var plus := Key(cfg.s2, newT, prevT, mode);
      EscRun(e, cfg.s2, cfg.s12, [Key(c, newT, prevT, mode), plus, plus, plus]).checkSilence
  {
    var text, plus := Key(c, newT, prevT, mode), Key(cfg.s2, newT, prevT, mode);
    var one := [text];
    EscRunAppend(e, cfg, [], text);
    EscRunAppend(e, cfg, one, plus);
    EscRunAppend(e, cfg, one + [plus], plus);
    EscRunAppend(e, cfg, one + [plus] + [plus], plus);
    assert [] + one == one && one + [plus] + [plus] + [plus] == [text, plus, plus, plus];
    assert [plus, plus, plus][0..] == [plus, plus, plus];
    EscapeComplete(e, cfg.s2, cfg.s12, plus, plus, plus);
  }

  lemma {:induction false} RawLoopAll(l: Link, cfg: Atcmd)
    requires l.Valid() && cfg.pr && l.out.Ptr() + |l.unread| <= SOFT
    ensures TtyLoop(l, cfg).unread == []
    ensures TtyLoop(l, cfg).handled ==
            l.handled + seq(|l.unread|, i requires 0 <= i < |l.unread| => Key(l.unread[i], l.newT, l.prevT, Raw))
    ensures TtyLoop(l, cfg).sock == l.sock
    decreases |l.unread|
  {
    if l.unread == [] {
    } else {
      TtyByteFrame(l, cfg);
      TtyByteIs(l, cfg);
      RawLoopAll(TtyByte(l, cfg), cfg);
    }
  }

  /** Without that condition it fails in app-I/O mode. A byte of text and two escape characters are written, and later,
      before the modem has handled them, a third: the second write stamps all four anew, and the detector takes them for
      a quick +++ after a pause, though the last came more than the guard time after the others and no pause came before
      them. */
  lemma RestampedEscape(l: Link, cfg: Atcmd, c: Byte, early: Timeval, late: Timeval, idle: World, w: World)
    requires l.Valid() && !l.esc.checkSilence && l.newT.Normal() && l.sock.alive && cfg.pr && c != cfg.s2
    requires early.Normal() && late.Normal() && late.Micros() > early.Micros() + Guard(cfg.s12)
    requires !idle.escapeReq && idle.ev == Events(false, false, false, false)
    requires idle.now.Normal() && idle.readAt.Normal()
    requires !w.escapeReq && w.now.Normal() && w.now.Micros() >= late.Micros() + Guard(cfg.s12)
    ensures var acts := [AppWrite([c, cfg.s2, cfg.s2], early), AppWrite([cfg.s2], late), Step(idle)];
      var l0 := GoOnline(l, cfg); var l' := Stay(l0, cfg, true, acts);
      && GoesOn(l0, cfg, true, acts)
      && OnlineIter(l', cfg, true, w).verdict.Escaped?
      && Arrivals(l0, cfg, true, acts) == [early, early, early, late]
      && !PausedPluses(cfg, l.newT, Taken(l0, cfg, true, acts), Arrivals(l0, cfg, true, acts), |l'.handled|, w.now)
  {
    var a1, a2, a3 := AppWrite([c, cfg.s2, cfg.s2], early), AppWrite([cfg.s2], late), Step(idle);
    var l0 := GoOnline(l, cfg);
    var l1 := Do(l0, cfg, true, a1).link;
    var l2 := Do(l1, cfg, true, a2).link;
    TwoWrites(l, cfg, c, early, late);
    FourKeys(l0.esc, l2, cfg, c, early, late);
    IdleStep(l2, cfg, idle);
    ThreeActs(l0, cfg, a1, a2, a3);
    NotPaused(cfg, l.newT, Taken(l0, cfg, true, [a1, a2, a3]), early, late, w.now);
  }

  lemma NotPaused(cfg: Atcmd, since: Timeval, bytes: seq<Byte>, early: Timeval, late: Timeval, now: Timeval)
    requires late.Micros() > early.Micros() + Guard(cfg.s12)
    ensures !PausedPluses(cfg, since, bytes, [early, early, early, late], 4, now)
  {
  }

  lemma ThreeActs(l: Link, cfg: Atcmd, a: Act, b: Act, c: Act)
    ensures var l1 := Do(l, cfg, true, a).link; var l2 := Do(l1, cfg, true, b).link;
      && Stay(l, cfg, true, [a, b, c]) == Do(l2, cfg, true, c).link
      && Arrivals(l, cfg, true, [a, b, c]) ==
         ArrivedBy(l, cfg, true, a) + (ArrivedBy(l1, cfg, true, b) + ArrivedBy(l2, cfg, true, c))
      && (GoesOn(l, cfg, true, [a, b, c]) <==>
            && ReadsOk(l, cfg, true, a) && ClockOk(a) && Do(l, cfg, true, a).verdict.Continue?
            && ReadsOk(l1, cfg, true, b) && ClockOk(b) && Do(l1, cfg, true, b).verdict.Continue?
            && ReadsOk(l2, cfg, true, c) && ClockOk(c) && Do(l2, cfg, true, c).verdict.Continue?)
  {
    var l1 := Do(l, cfg, true, a).link;
    var l2 := Do(l1, cfg, true, b).link;
    ActFirst(l2, cfg, c, []);
    ActFirst(l1, cfg, b, [c]);
    ActFirst(l, cfg, a, [b, c]);
    assert [a] + [b, c] == [a, b, c] && [b] + [c] == [b, c] && [c] + [] == [c];
    assert ArrivedBy(l2, cfg, true, c) + [] == ArrivedBy(l2, cfg, true, c);
  }

  /** The two writes, from a stay just begun. */
  lemma TwoWrites(l: Link, cfg: Atcmd, c: Byte, early: Timeval, late: Timeval)
    requires l.Valid() && cfg.pr
    ensures var l0 := GoOnline(l, cfg);
      var l1 := Do(l0, cfg, true, AppWrite([c, cfg.s2, cfg.s2], early)).link;
      && l0.handled == [] && l0.unread == [] && l0.out == EMPTY && l0.esc == l.esc.(state := Idle) && l0.sock == l.sock
      && l1 == l0.(unread := [c, cfg.s2, cfg.s2], prevT := l0.newT, newT := early)
      && Do(l1, cfg, true, AppWrite([cfg.s2], late)).link ==
         l1.(unread := [c, cfg.s2, cfg.s2, cfg.s2], prevT := early, newT := late)
      && ArrivedBy(l0, cfg, true, AppWrite([c, cfg.s2, cfg.s2], early)) == [early, early, early]
      && ArrivedBy(l1, cfg, true, AppWrite([cfg.s2], late)) == [late]
      && l0.Valid()
  {
    GoOnlineValid(l, cfg);
  }

  /** Text and three escape characters, all stamped by the same write. */
  lemma FourKeys(e: Esc, l: Link, cfg: Atcmd, c: Byte, early: Timeval, late: Timeval)
    requires l.Valid() && cfg.pr && l.out == EMPTY && l.handled == [] && l.esc == e
    requires e.state.Idle? && !e.checkSilence && c != cfg.s2 && early.Normal() && late.Normal()
    requires late.Micros() > early.Micros() + Guard(cfg.s12)
    requires l.unread == [c, cfg.s2, cfg.s2, cfg.s2] && l.newT == late && l.prevT == early
    ensures var l' := TtyLoop(l, cfg);
      && |l'.handled| == 4 && l'.sock == l.sock
      && l'.esc.checkSilence && l'.esc.expireT.Normal()
      && l'.esc.expireT.Micros() == late.Micros() + Guard(cfg.s12)
  {
    var l' := TtyLoop(l, cfg);
    var text, plus := Key(c, late, early, Raw), Key(cfg.s2, late, early, Raw);
    RawLoopAll(l, cfg);
    assert l'.handled == [text, plus, plus, plus];
    assert EscOk(e, l, cfg);
    TtyLoopEsc(e, l, cfg);
    TextThenPluses(e, cfg, c, late, early, Raw);
    EscRunTracks(e, cfg.s2, cfg.s12, l'.handled);
  }

  lemma IdleStep(l: Link, cfg: Atcmd, idle: World)
    requires l.sock.alive && l.unread != [] && !l.esc.checkSilence
    requires !idle.escapeReq && idle.ev == Events(false, false, false, false)
    requires TtyLoop(l, cfg).sock == l.sock
    ensures Do(l, cfg, true, Step(idle)) == Iter(TtyLoop(l, cfg), Continue)
  {
  }

  lemma ActFirst(l: Link, cfg: Atcmd, a: Act, rest: seq<Act>)
    ensures var acts, l1 := [a] + rest, Do(l, cfg, true, a).link;
      && Stay(l, cfg, true, acts) == Stay(l1, cfg, true, rest)
      && Taken(l, cfg, true, acts) == TakenBy(l, cfg, true, a) + Taken(l1, cfg, true, rest)
      && Arrivals(l, cfg, true, acts) == ArrivedBy(l, cfg, true, a) + Arrivals(l1, cfg, true, rest)
      && (GoesOn(l, cfg, true, acts) <==>
            && ReadsOk(l, cfg, true, a) && ClockOk(a) && Do(l, cfg, true, a).verdict.Continue?
            && GoesOn(l1, cfg, true, rest))
  {
    assert ([a] + rest)[1..] == rest;
  }
}
