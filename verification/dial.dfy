/** The resumable dial (m2k_sockDialStart, m2k_sockDialProgress, m2k_sockDialAbort in src/sock.c) on values. */
module Dial {
  import opened Time
  import opened Wire
  import opened Relay

  /** An open descriptor. The model leaves 0 out: a program whose standard input is closed is not modelled. */
  type Fd = x: int | x > 0 witness 1

  /** What socket, setsockopt and connect did for one address. */
  datatype Attempt =
    | NoSocket
    | SetupFailed(fd: Fd)
    | Connected(fd: Fd)
    | InProgress(fd: Fd)
    | Refused(fd: Fd)

  /** What calling connect again said about an attempt in progress. */
  datatype Probe = Done | Pending | Failed

  /** The outside world during one call: the clock, the probe, and what each address would answer and when. */
  datatype DialWorld = DialWorld(now: Timeval, probe: Probe, attempt: nat -> Attempt, at: nat -> Timeval)

  /** ctx->dial and sock->rp. The address list has `count` entries, or there is none (-1); rp is the current one.
      `tried` records the addresses a socket was asked for since the dial started. */
  datatype Call = Call(sock: Sock, count: int, rp: nat, deadline: Timeval, tried: seq<nat>)

  datatype Outcome = Outcome(call: Call, r: int)

  /** dialTryCurrent: 1 connected, 0 in progress, -1 failed. */
  function TryCurrent(c: Call, s7: Byte, w: DialWorld): Outcome {
    var c1 := c.(tried := c.tried + [c.rp]);
    match w.attempt(c.rp)
    case NoSocket => Outcome(c1.(sock := c.sock.(fd := -1)), -1)
    case SetupFailed(fd) => Outcome(c1.(sock := Close(Sock(fd, c.sock.alive, c.sock.open + 1))), -1)
    case Connected(fd) => Outcome(c1.(sock := Sock(fd, true, c.sock.open + 1)), 1)
    case InProgress(fd) =>
      Outcome(c1.(sock := Sock(fd, c.sock.alive, c.sock.open + 1), deadline := Plus(w.at(c.rp), Ticks(s7 * 100))), 0)
    case Refused(fd) => Outcome(c1.(sock := Close(Sock(fd, c.sock.alive, c.sock.open + 1))), -1)
  }

  /** The loop over the rest of the list, giving the list up when it is exhausted. */
  function TryFrom(c: Call, s7: Byte, w: DialWorld): Outcome
    decreases c.count - c.rp
  {
    if c.rp >= c.count then Outcome(c.(count := -1), -1)
    else
      var o := TryCurrent(c, s7, w);
      if o.r >= 0 then o else TryFrom(o.call.(rp := c.rp + 1), s7, w)
  }

  /** m2k_sockDialStart; found is the number of addresses, or -1 when the lookup failed. */
  function Start(c: Call, found: int, s7: Byte, w: DialWorld): Outcome {
    if found < 0 then Outcome(c.(count := -1, tried := []), -1)
    else TryFrom(Call(Sock(0, false, c.sock.open), found, 0, c.deadline, []), s7, w)
  }

  /** m2k_sockDialProgress */
  function Progress(c: Call, s7: Byte, w: DialWorld): Outcome {
    if c.count < 0 || c.rp >= c.count then Outcome(c, -1)
    else if Cmp(w.now, c.deadline) < 0 && w.probe.Done? then
      Outcome(c.(sock := c.sock.(alive := true), count := -1), 1)
    else if Cmp(w.now, c.deadline) < 0 && w.probe.Pending? then Outcome(c, 0)
    else TryFrom(c.(sock := Close(c.sock), rp := c.rp + 1), s7, w)
  }

  /** m2k_sockDialAbort */
  function Abort(c: Call): Call {
    c.(count := -1, sock := Close(c.sock))
  }

  // ---------------------------------------------------------------- properties

  /** No descriptor is held that the call does not know of, nor given back twice. */
  ghost predicate NoLeak(s: Sock) {
    s.open == if s.fd > 0 then 1 else 0
  }

  /** The addresses tried so far are the first ones of the list, each once, in order. */
  ghost predicate InOrder(tried: seq<nat>) {
    forall i :: 0 <= i < |tried| ==> tried[i] == i
  }

  /** A dial in progress: one socket, for the address tried last. */
  ghost predicate Dialling(c: Call) {
    && 0 <= c.rp < c.count
    && c.sock.fd > 0 && !c.sock.alive && c.sock.open == 1
    && |c.tried| == c.rp + 1
  }

  /** What an outcome promises, for a list of n addresses. */
  ghost predicate Promises(o: Outcome, n: int) {
    && InOrder(o.call.tried) && |o.call.tried| <= n && NoLeak(o.call.sock)
    && (o.r == 1 ==> o.call.sock.alive && o.call.sock.fd > 0)
    && (o.r == 0 ==> Dialling(o.call) && o.call.count == n)
    && (o.r == -1 ==> |o.call.tried| == n && o.call.sock.open == 0 && !o.call.sock.alive && o.call.count == -1)
    && -1 <= o.r <= 1
  }

  lemma {:induction false} TryFromPromises(c: Call, s7: Byte, w: DialWorld)
    requires 0 <= c.count && c.rp <= c.count && InOrder(c.tried) && |c.tried| == c.rp
    requires c.sock.fd <= 0 && !c.sock.alive && c.sock.open == 0
    ensures var o := TryFrom(c, s7, w);
      && Promises(o, c.count)
      && c.tried <= o.call.tried
      && (o.r == 0 ==> o.call.rp >= c.rp)
    decreases c.count - c.rp
  {
    if c.rp >= c.count {
    } else {
      var o := TryCurrent(c, s7, w);
      if o.r < 0 {
        TryFromPromises(o.call.(rp := c.rp + 1), s7, w);
      }
    }
  }

  /** Starting a dial with no socket held: addresses are tried in list order, each at most once, with at most one
      socket open, and failure is reported only after the whole list failed and with none left open. */
  lemma StartPromises(c: Call, found: int, s7: Byte, w: DialWorld)
    requires c.sock.fd <= 0 && !c.sock.alive && c.sock.open == 0
    ensures var o := Start(c, found, s7, w); found >= 0 ==> Promises(o, found)
    ensures var o := Start(c, found, s7, w); found < 0 ==> o.r == -1 && o.call.sock == c.sock && o.call.tried == []
  {
    if found >= 0 {
      TryFromPromises(Call(Sock(0, false, c.sock.open), found, 0, c.deadline, []), s7, w);
    }
  }

  /** Going on with a dial: "continue" means the same address, pending and before its deadline, or a later one; a
      later one is tried only once the current one timed out or failed. */
  lemma ProgressPromises(c: Call, s7: Byte, w: DialWorld)
    requires Dialling(c) && InOrder(c.tried)
    ensures var o := Progress(c, s7, w);
      && Promises(o, c.count)
      && c.tried <= o.call.tried
      && (o.call.tried != c.tried ==> Cmp(w.now, c.deadline) >= 0 || w.probe.Failed?)
      && (o.r == 0 ==>
            || (o.call == c && Cmp(w.now, c.deadline) < 0 && w.probe.Pending?)
            || o.call.rp > c.rp)
  {
    if Cmp(w.now, c.deadline) >= 0 || w.probe.Failed? {
      TryFromPromises(c.(sock := Close(c.sock), rp := c.rp + 1), s7, w);
    }
  }

  /** What the step machine needs to know of an outcome. */
  ghost predicate Launched(o: Outcome) {
    && NoLeak(o.call.sock) && -1 <= o.r <= 1
    && (o.r == 1 ==> o.call.sock.alive && o.call.sock.fd > 0)
    && (o.r == 0 ==> Dialling(o.call) && InOrder(o.call.tried))
    && (o.r == -1 ==> o.call.sock.open == 0 && !o.call.sock.alive)
  }

  lemma StartLaunches(c: Call, found: int, s7: Byte, w: DialWorld)
    requires c.sock.fd <= 0 && !c.sock.alive && c.sock.open == 0
    ensures Launched(Start(c, found, s7, w))
  {
    StartPromises(c, found, s7, w);
  }

  lemma ProgressLaunches(c: Call, s7: Byte, w: DialWorld)
    requires Dialling(c) && InOrder(c.tried)
    ensures Launched(Progress(c, s7, w))
  {
    ProgressPromises(c, s7, w);
  }

  // ---------------------------------------------------------------- a whole dial

  /** The outcome of a start and as many further calls as it takes or are made. */
  function Rest(o: Outcome, s7: Byte, ws: seq<DialWorld>): Outcome
    decreases |ws|
  {
    if ws == [] || o.r != 0 then o else Rest(Progress(o.call, s7, ws[0]), s7, ws[1..])
  }

  lemma {:induction false} RestPromises(o: Outcome, n: int, s7: Byte, ws: seq<DialWorld>)
    requires Promises(o, n)
    ensures Promises(Rest(o, s7, ws), n)
    decreases |ws|
  {
    if ws == [] || o.r != 0 {
    } else {
      ProgressPromises(o.call, s7, ws[0]);
      RestPromises(Progress(o.call, s7, ws[0]), n, s7, ws[1..]);
    }
  }

  /** A dial, whole: across a start and any number of progress calls under any answers of the network, each of the
      found addresses is tried at most once and in list order, at most one socket is open at any time, and failure
      is reported only after every address was tried and with no socket open. */
  lemma DialInOrder(c: Call, found: nat, s7: Byte, w: DialWorld, ws: seq<DialWorld>)
    requires c.sock.fd <= 0 && !c.sock.alive && c.sock.open == 0
    ensures var o := Rest(Start(c, found, s7, w), s7, ws);
      && InOrder(o.call.tried) && |o.call.tried| <= found
      && o.call.sock.open <= 1
      && (o.r == -1 ==> |o.call.tried| == found && o.call.sock.open == 0)
      && (o.r == 1 ==> o.call.sock.alive)
  {
    StartPromises(c, found, s7, w);
    RestPromises(Start(c, found, s7, w), found, s7, ws);
  }

  /** Each of these calls comes when the wait it finds has timed out or failed. */
  ghost predicate Overdue(o: Outcome, s7: Byte, ws: seq<DialWorld>)
    decreases |ws|
  {
    ws == [] || o.r != 0 ||
    (&& (Cmp(ws[0].now, o.call.deadline) >= 0 || ws[0].probe.Failed?)
     && Overdue(Progress(o.call, s7, ws[0]), s7, ws[1..]))
  }

  lemma {:induction false} RestEnds(o: Outcome, n: int, s7: Byte, ws: seq<DialWorld>)
    requires Promises(o, n) && Overdue(o, s7, ws)
    requires o.r == 0 ==> |ws| >= n - o.call.rp
    ensures Rest(o, s7, ws).r != 0
    decreases |ws|
  {
    if o.r != 0 {
    } else {
      ProgressPromises(o.call, s7, ws[0]);
      RestEnds(Progress(o.call, s7, ws[0]), n, s7, ws[1..]);
    }
  }

  /** A dial ends: however the addresses answer, a dial of n addresses is decided after at most n waits. */
  lemma DialEnds(c: Call, found: nat, s7: Byte, w: DialWorld, ws: seq<DialWorld>)
    requires c.sock.fd <= 0 && !c.sock.alive && c.sock.open == 0
    requires Overdue(Start(c, found, s7, w), s7, ws) && |ws| >= found
    ensures Rest(Start(c, found, s7, w), s7, ws).r != 0
  {
    StartPromises(c, found, s7, w);
    RestEnds(Start(c, found, s7, w), found, s7, ws);
  }
}
