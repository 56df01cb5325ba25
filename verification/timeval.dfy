/** Deadlines: struct timeval arithmetic (src/timeval.c). */
module Time {
  const MICROS := 1000 * 1000

  datatype Timeval = Timeval(sec: int, usec: int) {
    /** The instant as one number of microseconds. */
    ghost function Micros(): int { sec * MICROS + usec }

    predicate Normal() { 0 <= usec < MICROS }
  }

  const EPOCH := Timeval(0, 0)

  /** C's `/`, which truncates toward zero. */
  function TruncDiv(a: int, b: int): int
    requires b > 0
  {
    if a >= 0 then a / b else -((-a) / b)
  }

  /** A cast from long to a 32-bit int. */
  function ToInt32(x: int): int {
    (x + 0x8000_0000) % 0x1_0000_0000 - 0x8000_0000
  }

  function Ticks(b: int): Timeval {
    Timeval(TruncDiv(b, 100), (b - 100 * TruncDiv(b, 100)) * 10 * 1000)
  }

  function Plus(a: Timeval, b: Timeval): Timeval {
    var usec := a.usec + b.usec;
    if usec >= MICROS then Timeval(a.sec + b.sec + 1, usec - MICROS) else Timeval(a.sec + b.sec, usec)
  }

  function Minus(a: Timeval, b: Timeval): Timeval {
    var usec := a.usec - b.usec;
    if usec < 0 then Timeval(a.sec - b.sec - 1, usec + MICROS) else Timeval(a.sec - b.sec, usec)
  }

  /** timevalCmp: on normalised values it is the sign of the exact difference. */
  function Cmp(a: Timeval, b: Timeval): (r: int)
    ensures a.Normal() && b.Normal() ==>
              && (r < 0 <==> a.Micros() < b.Micros())
              && (r == 0 <==> a.Micros() == b.Micros())
              && (r > 0 <==> a.Micros() > b.Micros())
    ensures -1 <= r <= 1
  {
    if a.sec < b.sec then -1
    else if a.sec > b.sec then 1
    else if a.usec < b.usec then -1
    else if a.usec > b.usec then 1
    else 0
  }

  /** Set, add and subtract are exact, and adding or subtracting keeps values normalised. */
  lemma ExactArithmetic(a: Timeval, b: Timeval, ticks: int)
    ensures Plus(a, b).Micros() == a.Micros() + b.Micros()
    ensures Minus(a, b).Micros() == a.Micros() - b.Micros()
    ensures Ticks(ticks).Micros() == ticks * 10_000
    ensures a.Normal() && b.Normal() ==> Plus(a, b).Normal() && Minus(a, b).Normal()
    ensures ticks >= 0 ==> Ticks(ticks).Normal()
  {
    var q := TruncDiv(ticks, 100);
    calc {
      Ticks(ticks).Micros();
      q * MICROS + (ticks - 100 * q) * 10_000;
      ticks * 10_000;
    }
  }

  /** A struct timeval that the C functions update through a pointer. */
  class TimevalVar {
    var sec: int
    var usec: int

    constructor (t: Timeval)
      ensures Value() == t
    {
      sec, usec := t.sec, t.usec;
    }

    function Value(): Timeval
      reads this
    {
      Timeval(sec, usec)
    }

    method Set10ms(b: int)
      modifies this
      ensures Value() == Ticks(b)
      ensures Value().Micros() == b * 10_000
    {
      ExactArithmetic(EPOCH, EPOCH, b);
      sec := TruncDiv(b, 100);
      usec := (b - 100 * TruncDiv(b, 100)) * 10 * 1000;
    }

    method Add(b: Timeval)
      modifies this
      ensures Value() == Plus(old(Value()), b)
      ensures Value().Micros() == old(Value()).Micros() + b.Micros()
      ensures old(Value()).Normal() && b.Normal() ==> Value().Normal()
    {
      sec := sec + b.sec;
      usec := usec + b.usec;
      if usec >= MICROS {
        usec := usec - MICROS;
        sec := sec + 1;
      }
    }

    method Sub(b: Timeval)
      modifies this
      ensures Value() == Minus(old(Value()), b)
      ensures Value().Micros() == old(Value()).Micros() - b.Micros()
      ensures old(Value()).Normal() && b.Normal() ==> Value().Normal()
    {
      sec := sec - b.sec;
      usec := usec - b.usec;
      if usec < 0 {
        usec := usec + MICROS;
        sec := sec - 1;
      }
    }
  }

  /** Poll timeout until a deadline: 0 once it has passed, and otherwise the time left in whole milliseconds, but never
      below 1, cast to a 32-bit int. Before the deadline it is 0, so that a caller spins, exactly when the cast
      wraps to 0. */
  method RemainingMs(now: Timeval, deadline: Timeval) returns (ms: int)
    requires now.Normal() && deadline.Normal()
    ensures var left := deadline.Micros() - now.Micros();
      && (left <= 0 ==> ms == 0)
      && (0 < left < 1000 ==> ms == 1)
      && (left >= 1000 ==> ms == ToInt32(left / 1000))
      && (ms == 0 <==> left <= 0 || (left >= 1000 && left / 1000 % 0x1_0000_0000 == 0))
  {
    if Cmp(now, deadline) >= 0 {
      return 0;
    }
    var remaining := new TimevalVar(deadline);
    remaining.Sub(now);
    var long := remaining.sec * 1000 + TruncDiv(remaining.usec, 1000);
    WholeMs(remaining.Value());
    ms := if long <= 0 then 1 else ToInt32(long);
    CastToZero(long);
  }

  lemma WholeMs(t: Timeval)
    requires t.Normal()
    ensures t.sec * 1000 + TruncDiv(t.usec, 1000) == t.Micros() / 1000
  {
    assert t.Micros() == (t.sec * 1000 + t.usec / 1000) * 1000 + t.usec % 1000;
  }

  lemma CastToZero(x: int)
    ensures ToInt32(x) == 0 <==> x % 0x1_0000_0000 == 0
  {
  }
}
