/** What a modem's history of result codes, rings and states must look like. */
module History {
  import opened Time
  import opened Machine

  // ---------------------------------------------------------------- the protocol of result codes

  datatype Phase = Nowhere | AtCmd | AtDial | AtAnswer | Connecting | AtOnline | Leaving | AtDone | Wrong

  /** The allowed order of notes. A call comes up with exactly one CONNECT and goes down with exactly one OK or
      NO CARRIER; a dial or an answer wait ends with exactly one CONNECT or NO CARRIER; rings are shown only in
      command mode; nothing follows the end of the run. */
  function Advance(p: Phase, n: Note): Phase {
    match (p, n)
    case (_, Quieted) => p
    case (Nowhere, Entered(CMD)) => AtCmd
    case (AtCmd, Shown(OK)) => AtCmd
    case (AtCmd, Shown(ERROR)) => AtCmd
    case (AtCmd, Shown(NOCARRIER)) => AtCmd
    case (AtCmd, Rang(_, _)) => AtCmd
    case (AtCmd, Entered(DIAL)) => AtDial
    case (AtCmd, Entered(ANSWER)) => AtAnswer
    case (AtCmd, Entered(DONE)) => AtDone
    case (AtCmd, Shown(CONNECT)) => Connecting
    case (AtDial, Shown(CONNECT)) => Connecting
    case (AtDial, Shown(NOCARRIER)) => Leaving
    case (AtAnswer, Shown(CONNECT)) => Connecting
    case (AtAnswer, Shown(NOCARRIER)) => Leaving
    case (Connecting, Entered(ONLINE)) => AtOnline
    case (AtOnline, Shown(OK)) => Leaving
    case (AtOnline, Shown(NOCARRIER)) => Leaving
    case (Leaving, Entered(CMD)) => AtCmd
    case _ => Wrong
  }

  function Replay(h: seq<Note>): Phase
    decreases |h|
  {
    if h == [] then Nowhere else Advance(Replay(h[..|h| - 1]), h[|h| - 1])
  }

  function PhaseOf(s: State): Phase {
    match s
    case CMD => AtCmd
    case DIAL => AtDial
    case ANSWER => AtAnswer
    case ONLINE => AtOnline
    case DONE => AtDone
  }

  lemma ReplayAppend(h: seq<Note>, n: Note)
    ensures Replay(h + [n]) == Advance(Replay(h), n)
  {
    assert (h + [n])[..|h|] == h;
  }

  function Connects(h: seq<Note>): nat
    decreases |h|
  {
    if h == [] then 0 else Connects(h[..|h| - 1]) + if h[|h| - 1] == Shown(CONNECT) then 1 else 0
  }

  /** Codes shown while the line was online. */
  function OnlineEndings(h: seq<Note>): nat
    decreases |h|
  {
    if h == [] then 0
    else OnlineEndings(h[..|h| - 1]) + if Replay(h[..|h| - 1]).AtOnline? && h[|h| - 1].Shown? then 1 else 0
  }

  function Waits(h: seq<Note>): nat
    decreases |h|
  {
    if h == [] then 0
    else Waits(h[..|h| - 1]) + if h[|h| - 1] == Entered(DIAL) || h[|h| - 1] == Entered(ANSWER) then 1 else 0
  }

  /** CONNECT and NO CARRIER shown during a dial or an answer wait. */
  function WaitEndings(h: seq<Note>): nat
    decreases |h|
  {
    if h == [] then 0
    else
      var p := Replay(h[..|h| - 1]);
      WaitEndings(h[..|h| - 1]) + if (p.AtDial? || p.AtAnswer?) && h[|h| - 1].Shown? then 1 else 0
  }

  /** In a history that follows the protocol, CONNECTs and online endings pair up, and so do waits and their
      endings, up to the one that is open. */
  lemma {:induction false} BracketsBalance(h: seq<Note>)
    requires Replay(h) != Wrong
    ensures Connects(h) == OnlineEndings(h) + if Replay(h).AtOnline? || Replay(h).Connecting? then 1 else 0
    ensures Waits(h) == WaitEndings(h) + if Replay(h).AtDial? || Replay(h).AtAnswer? then 1 else 0
    decreases |h|
  {
    if h == [] {
    } else {
      BracketsBalance(h[..|h| - 1]);
    }
  }

  // ---------------------------------------------------------------- rings

  /** RINGs since the count was last cleared. */
  function RingsSince(h: seq<Note>): nat
    decreases |h|
  {
    if h == [] || h[|h| - 1].Quieted? then 0
    else RingsSince(h[..|h| - 1]) + if h[|h| - 1].Rang? then 1 else 0
  }

  datatype LastRing = Never | At(t: Timeval)

  function LastRingOf(h: seq<Note>): LastRing
    decreases |h|
  {
    if h == [] then Never
    else if h[|h| - 1].Rang? then At(h[|h| - 1].at)
    else LastRingOf(h[..|h| - 1])
  }

  function RingGap(t: Timeval): Timeval { Timeval(t.sec + RING_INTERVAL_SEC, t.usec) }

  /** Every RING shown with a nonzero S1 came no sooner than the interval after the RING before it. */
  predicate Spaced(h: seq<Note>)
    decreases |h|
  {
    h == [] ||
    (&& Spaced(h[..|h| - 1])
     && var n, last := h[|h| - 1], LastRingOf(h[..|h| - 1]);
     n.Rang? && n.s1 != 0 && last.At? ==> Cmp(n.at, RingGap(last.t)) >= 0)
  }

  lemma RingAppend(h: seq<Note>, n: Note)
    ensures RingsSince(h + [n]) == if n.Quieted? then 0 else RingsSince(h) + if n.Rang? then 1 else 0
    ensures LastRingOf(h + [n]) == if n.Rang? then At(n.at) else LastRingOf(h)
    ensures Spaced(h + [n]) <==>
            Spaced(h) && (n.Rang? && n.s1 != 0 && LastRingOf(h).At? ==> Cmp(n.at, RingGap(LastRingOf(h).t)) >= 0)
  {
    assert (h + [n])[..|h|] == h;
  }

  lemma {:induction false} LastRingFinds(h: seq<Note>, i: nat)
    requires i < |h| && h[i].Rang? && (forall k :: i < k < |h| ==> !h[k].Rang?)
    ensures LastRingOf(h) == At(h[i].at)
    decreases |h|
  {
    if i == |h| - 1 {
    } else {
      LastRingFinds(h[..|h| - 1], i);
    }
  }

  /** Spacing, spelled out: two successive RINGs, the later one with S1 nonzero, are at least six seconds apart. */
  lemma {:induction false} SpacedMeans(h: seq<Note>, i: nat, j: nat)
    requires Spaced(h) && i < j < |h| && h[i].Rang? && h[j].Rang?
    requires forall k :: i < k < j ==> !h[k].Rang?
    requires h[i].at.Normal() && h[j].at.Normal() && h[j].s1 != 0
    ensures h[j].at.Micros() >= h[i].at.Micros() + 6 * MICROS
    decreases |h|
  {
    if j < |h| - 1 {
      SpacedMeans(h[..|h| - 1], i, j);
    } else {
      LastRingFinds(h[..j], i);
    }
  }
}
