/** How long a dial gives each address: S7 seconds from the start of its attempt. */
module DialTimes {
  import opened Wire
  import opened Time
  import Relay
  import opened Dial

  /** Every instant at which an attempt may start, and the clock, are normalised. */
  ghost predicate ClocksOk(w: DialWorld) {
    w.now.Normal() && forall i :: w.at(i).Normal()
  }

  ghost predicate AllClocksOk(ws: seq<DialWorld>) {
    forall w <- ws :: ClocksOk(w)
  }

  /** A dial that goes on gives its address until S7 seconds after `since`. */
  ghost predicate Timed(o: Outcome, since: Timeval, s7: Byte) {
    o.r == 0 ==> o.call.deadline.Normal() && o.call.deadline.Micros() == since.Micros() + s7 * 1_000_000
  }

  lemma TryCurrentTimed(c: Call, s7: Byte, w: DialWorld)
    requires ClocksOk(w)
    ensures Timed(TryCurrent(c, s7, w), w.at(c.rp), s7) && TryCurrent(c, s7, w).call.rp == c.rp
  {
    ExactArithmetic(w.at(c.rp), Ticks(s7 * 100), s7 * 100);
  }

  lemma {:induction false} TryFromTimed(c: Call, s7: Byte, w: DialWorld)
    requires ClocksOk(w)
    ensures var o := TryFrom(c, s7, w);
      && Timed(o, w.at(o.call.rp), s7)
      && c.tried <= o.call.tried
      && (o.r >= 0 ==> |o.call.tried| > |c.tried|)
    decreases c.count - c.rp
  {
    if c.rp >= c.count {
    } else {
      TryCurrentTimed(c, s7, w);
      var o := TryCurrent(c, s7, w);
      if o.r < 0 {
        TryFromTimed(o.call.(rp := c.rp + 1), s7, w);
      }
    }
  }

  /** A dial just started, or one that has moved on to another address, gives it S7 seconds from the start of its
      attempt. */
  lemma StartTimed(c: Call, found: int, s7: Byte, w: DialWorld)
    requires ClocksOk(w)
    ensures var o := Start(c, found, s7, w);
      o.r == 0 ==> o.call.deadline.Micros() == w.at(o.call.rp).Micros() + s7 * 1_000_000
    ensures Timed(Start(c, found, s7, w), w.at(Start(c, found, s7, w).call.rp), s7)
  {
    if found >= 0 {
      TryFromTimed(Call(Relay.Sock(0, false, c.sock.open), found, 0, c.deadline, []), s7, w);
    }
  }

  /** One more call, at any time before the S7 seconds are over and after. */
  lemma ProgressTimed(c: Call, since: Timeval, s7: Byte, w: DialWorld)
    requires Dialling(c) && InOrder(c.tried) && Timed(Outcome(c, 0), since, s7) && ClocksOk(w)
    ensures var o := Progress(c, s7, w);
      && Timed(o, if o.call.tried == c.tried then since else w.at(o.call.rp), s7)
      && (w.now.Micros() < since.Micros() + s7 * 1_000_000 ==>
            && (w.probe.Done? ==> o.r == 1 && o.call.sock == c.sock.(alive := true) && o.call.tried == c.tried)
            && (w.probe.Pending? ==> o == Outcome(c, 0))
            && (w.probe.Failed? ==> o.r == -1 || |o.call.tried| > |c.tried|))
      && (w.now.Micros() >= since.Micros() + s7 * 1_000_000 ==> o.r == -1 || |o.call.tried| > |c.tried|)
  {
    ProgressPromises(c, s7, w);
    TryFromTimed(c.(sock := Relay.Close(c.sock), rp := c.rp + 1), s7, w);
  }

  /** When the attempt going on after these calls began. */
  function Began(o: Outcome, since: Timeval, s7: Byte, ws: seq<DialWorld>): Timeval
    decreases |ws|
  {
    if ws == [] || o.r != 0 then since
    else
      var o1 := Progress(o.call, s7, ws[0]);
      Began(o1, if o1.call.tried == o.call.tried then since else ws[0].at(o1.call.rp), s7, ws[1..])
  }

  lemma {:induction false} RestTimed(o: Outcome, n: int, since: Timeval, s7: Byte, ws: seq<DialWorld>)
    requires Promises(o, n) && Timed(o, since, s7) && AllClocksOk(ws)
    ensures Timed(Rest(o, s7, ws), Began(o, since, s7, ws), s7)
    decreases |ws|
  {
    if ws == [] || o.r != 0 {
    } else {
      var o1 := Progress(o.call, s7, ws[0]);
      assert ws[0] in ws && forall w <- ws[1..] :: w in ws;
      ProgressPromises(o.call, s7, ws[0]);
      ProgressTimed(o.call, since, s7, ws[0]);
      RestTimed(o1, n, if o1.call.tried == o.call.tried then since else ws[0].at(o1.call.rp), s7, ws[1..]);
    }
  }

  /** The whole dial, by the clock. After a start and any number of calls, an attempt that is going on is kept while
      it is pending, and connects when it is done, at every instant earlier than S7 seconds after it began; from that
      instant on it is given up, done or not. */
  lemma EachHasS7(c: Call, found: nat, s7: Byte, w: DialWorld, ws: seq<DialWorld>, next: DialWorld)
    requires c.sock.fd <= 0 && !c.sock.alive && c.sock.open == 0
    requires ClocksOk(w) && AllClocksOk(ws) && ClocksOk(next)
    requires Rest(Start(c, found, s7, w), s7, ws).r == 0
    ensures var o1 := Start(c, found, s7, w); var o := Rest(o1, s7, ws); var o' := Progress(o.call, s7, next);
      var over := next.now.Micros() >= Began(o1, w.at(o1.call.rp), s7, ws).Micros() + s7 * 1_000_000;
      && (!over && next.probe.Done? ==> o'.r == 1 && o'.call.sock == o.call.sock.(alive := true))
      && (!over && next.probe.Pending? ==> o' == o)
      && (over ==> o'.r == -1 || |o'.call.tried| > |o.call.tried|)
  {
    var o1 := Start(c, found, s7, w);
    StartPromises(c, found, s7, w);
    StartTimed(c, found, s7, w);
    RestPromises(o1, found, s7, ws);
    RestTimed(o1, found, w.at(o1.call.rp), s7, ws);
    ProgressTimed(Rest(o1, s7, ws).call, Began(o1, w.at(o1.call.rp), s7, ws), s7, next);
  }
}
