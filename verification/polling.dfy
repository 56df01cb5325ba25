/** What poll is asked for while online, and why nothing waits for an event that nobody asked for. */
module Polling {
  import opened Settings
  import opened Fifo
  import opened Relay
  import opened RelayRuns
  import opened FlowControl

  /** The poll set, event by event: read the socket while the TTY buffer is at or below its soft limit, write it while
      anything is pending; in PTY mode read the TTY while the socket buffer is at or below its soft limit and nothing is
      unread, and write it while anything is pending. */
  ghost predicate AskedRightly(l: Link, appIo: bool, asked: Events) {
    && (asked.sockIn <==> l.tty.Ptr() <= 2048)
    && (asked.sockOut <==> l.out.pending != [])
    && (asked.ttyIn <==> !appIo && l.out.Ptr() <= 2048 && l.unread == [])
    && (asked.ttyOut <==> !appIo && l.tty.pending != [])
  }

  lemma PollSetRight(l: Link, appIo: bool)
    requires l.Valid()
    ensures AskedRightly(l, appIo, PollSet(l, appIo))
  {
  }

  // ---------------------------------------------------------------- nothing waits unannounced

  /** Each direction waits only for an event that poll announces. Towards the peer: bytes to send ask for POLLOUT, and
      the DTE is not read only while its last bytes are unread or flow control holds it back, which bytes to send do.
      Towards the DTE: bytes to show ask for POLLOUT, and the peer is not read only while they are too many. */
  lemma NothingWaits(l: Link)
    requires l.Valid()
    ensures var asked := PollSet(l, false);
      && (l.out.pending != [] ==> asked.sockOut)
      && (!asked.ttyIn ==> l.unread != [] || l.out.stop)
      && (l.out.stop ==> asked.sockOut)
      && (l.tty.pending != [] ==> asked.ttyOut)
      && (!asked.sockIn ==> l.tty.stop)
      && (l.tty.stop ==> asked.ttyOut)
  {
  }

  /** No lost wakeup towards the DTE, after every act of every stay, whatever poll reported: pending bytes ask for
      POLLOUT on the TTY, and a peer held back is held back by them. */
  lemma {:induction false} NoLostOutput(l: Link, cfg: Atcmd, acts: seq<Act>)
    requires l.Valid()
    ensures var l' := Stay(l, cfg, false, acts); var asked := PollSet(l', false);
      && (l'.tty.pending != [] ==> asked.ttyOut)
      && (!asked.sockIn ==> l'.tty.pending != [] && asked.ttyOut)
    decreases |acts|
  {
    if acts == [] {
      NothingWaits(l);
    } else {
      DoExact(l, cfg, false, acts[0]);
      NoLostOutput(Do(l, cfg, false, acts[0]).link, cfg, acts[1..]);
    }
  }

  // ---------------------------------------------------------------- draining towards the DTE

  /** A step in which the TTY takes some bytes and nothing new arrives from either side. */
  predicate TtyDraining(l: Link, w: World) {
    && !w.escapeReq && !SilenceOver(l.esc, w.now)
    && w.ev.ttyOut && w.wrote > 0
    && !w.ev.sockIn && !w.ev.ttyIn
    && (w.ev.sockOut ==> w.sent > 0)
  }

  lemma TtyDrainStep(l: Link, cfg: Atcmd, w: World)
    requires l.Valid() && l.sock.alive && l.unread == [] && TtyDraining(l, w)
    ensures var i := OnlineIter(l, cfg, false, w);
      && i.verdict.Continue? && i.link.Valid() && i.link.sock.alive && i.link.unread == []
      && i.link.tty == l.tty.Write(w.wrote)
      && (l.tty.pending != [] ==> |i.link.tty.pending| < |l.tty.pending|)
  {
    IterOutFrame(l, cfg, false, w);
  }

  predicate AllTtyDraining(l: Link, cfg: Atcmd, ws: seq<World>)
    decreases |ws|
  {
    ws != [] ==> TtyDraining(l, ws[0]) && AllTtyDraining(OnlineIter(l, cfg, false, ws[0]).link, cfg, ws[1..])
  }

  /** Towards the DTE too everything leaves: with nothing unread and nothing new, as many writes of any sizes as bytes
      are pending empty the TTY buffer, and all of them have been delivered. */
  lemma {:induction false} TtyDrains(l: Link, cfg: Atcmd, ws: seq<World>)
    requires l.Valid() && l.sock.alive && l.unread == []
    requires AllTtyDraining(l, cfg, ws) && |ws| >= |l.tty.pending|
    ensures var l' := Drained(l, cfg, false, ws); l'.tty.pending == [] && l'.tty.delivered == l.tty.Stream()
    decreases |ws|
  {
    if ws == [] {
      assert l.tty.delivered + [] == l.tty.delivered;
    } else {
      var l1 := OnlineIter(l, cfg, false, ws[0]).link;
      TtyDrainStep(l, cfg, ws[0]);
      WriteConserves(l.tty, ws[0].wrote);
      if l.tty.pending == [] {
        assert l1.tty == l.tty;
      }
      TtyDrains(l1, cfg, ws[1..]);
    }
  }

  /** In app-I/O mode the host does it at once, by reading as much as is pending. */
  lemma HostDrains(l: Link, max: nat)
    requires l.Valid() && max >= |l.tty.pending|
    ensures ToApp(l, max).tty.pending == [] && ToApp(l, max).tty.delivered == l.tty.Stream()
  {
    assert l.tty.pending == [] ==> l.tty.delivered + [] == l.tty.delivered;
  }
}
