/** st_sock and the dialling functions of src/sock.c as they update it in place. */
module Dialer {
  import opened Wire
  import opened Time
  import opened Relay
  import opened Dial

  /** fd and alive of st_sock; `open` counts descriptors held from the operating system. */
  class Connection {
    var fd: int
    var alive: bool
    ghost var open: int

    ghost function View(): Sock
      reads this
    {
      Sock(fd, alive, open)
    }

    constructor ()
      ensures View() == NO_SOCK
    {
      fd, alive, open := 0, false, 0;
    }

    /** sockInit */
    method Init()
      modifies this
      ensures View() == Sock(0, false, old(open))
    {
      fd := 0;
      alive := false;
    }

    /** A descriptor from socket or accept. */
    method Hold(newFd: Fd)
      modifies this
      ensures View() == Sock(newFd, old(alive), old(open) + 1)
    {
      fd := newFd;
      open := open + 1;
    }

    /** sockClose and sockShutdown */
    method Close()
      modifies this
      ensures View() == Relay.Close(old(View()))
    {
      if fd <= 0 {
        return;
      }
      fd, alive := 0, false;
      open := open - 1;
    }

    method Lose()
      modifies this`alive
      ensures View() == old(View()).(alive := false)
    {
      alive := false;
    }
  }

  /** ctx->dial and sock->rp. */
  class DialCtx {
    const conn: Connection
    var count: int
    var rp: nat
    var deadline: Timeval
    ghost var tried: seq<nat>

    constructor (conn: Connection)
      ensures this.conn == conn && View() == Call(conn.View(), -1, 0, EPOCH, [])
    {
      this.conn := conn;
      count, rp, deadline, tried := -1, 0, EPOCH, [];
    }

    ghost function View(): Call
      reads this, conn
    {
      Call(conn.View(), count, rp, deadline, tried)
    }

    /** dialTryCurrent */
    method TryCurrent(s7: Byte, w: DialWorld) returns (r: int)
      modifies this, conn
      ensures Outcome(View(), r) == Dial.TryCurrent(old(View()), s7, w)
    {
      tried := tried + [rp];
      match w.attempt(rp) {
        case NoSocket =>
          conn.fd := -1;
          r := -1;
        case SetupFailed(fd) =>
          conn.Hold(fd);
          conn.Close();
          r := -1;
        case Connected(fd) =>
          conn.Hold(fd);
          conn.alive := true;
          r := 1;
        case InProgress(fd) =>
          conn.Hold(fd);
          var t := new TimevalVar(EPOCH);
          t.Set10ms(s7 * 100);
          var d := new TimevalVar(w.at(rp));
          d.Add(t.Value());
          deadline := d.Value();
          r := 0;
        case Refused(fd) =>
          conn.Hold(fd);
          conn.Close();
          r := -1;
      }
    }

    /** The loop over what is left of the list. */
    method TryFrom(s7: Byte, w: DialWorld) returns (r: int)
      modifies this, conn
      ensures Outcome(View(), r) == Dial.TryFrom(old(View()), s7, w)
    {
      ghost var was := View();
      while rp < count
        invariant Dial.TryFrom(View(), s7, w) == Dial.TryFrom(was, s7, w)
        decreases count - rp
      {
        ghost var before := View();
        r := TryCurrent(s7, w);
        if r >= 0 {
          return;
        }
        rp := rp + 1;
        assert View() == Dial.TryCurrent(before, s7, w).call.(rp := before.rp + 1);
      }
      count := -1;
      r := -1;
    }

    /** m2k_sockDialStart */
    method Start(found: int, s7: Byte, w: DialWorld) returns (r: int)
      modifies this, conn
      ensures Outcome(View(), r) == Dial.Start(old(View()), found, s7, w)
    {
      tried := [];
      if found < 0 {
        count := -1;
        return -1;
      }
      count := found;
      conn.Init();
      rp := 0;
      r := TryFrom(s7, w);
    }

    /** m2k_sockDialProgress */
    method Progress(s7: Byte, w: DialWorld) returns (r: int)
      modifies this, conn
      ensures Outcome(View(), r) == Dial.Progress(old(View()), s7, w)
    {
      if count < 0 || rp >= count {
        return -1;
      }
      var timedOut := Cmp(w.now, deadline) >= 0;
      if !timedOut {
        if w.probe.Done? {
          conn.alive := true;
          count := -1;
          return 1;
        }
        if w.probe.Pending? {
          return 0;
        }
      }
      conn.Close();
      rp := rp + 1;
      r := TryFrom(s7, w);
    }

    /** m2k_sockDialAbort */
    method Abort()
      modifies this, conn
      ensures View() == Dial.Abort(old(View()))
    {
      count := -1;
      conn.Close();
    }
  }
}
