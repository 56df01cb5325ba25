/** The +++ escape detector (escSeqHandle in src/m2k_step.c). */
module Escape {
  import opened Wire
  import opened Time
  import opened Settings

  datatype EscState = Idle | P1 | P2 | P3

  datatype Esc = Esc(state: EscState, plus1T: Timeval, checkSilence: bool, expireT: Timeval)

  const QUIET := Esc(Idle, EPOCH, false, EPOCH)

  /** One byte from the DTE as it was handled: the two time stamps that were current, and the mode. In app-I/O a write
      stamps anew whatever is still unread, so the stamps need not say when the byte arrived. */
  datatype Key = Key(c: Byte, newT: Timeval, prevT: Timeval, mode: Mode) {
    predicate Normal() { newT.Normal() && prevT.Normal() }
  }

  /** s12timePassed: t1 is later than t2 by more than the guard time. */
  function GuardPassed(s12: Byte, t1: Timeval, t2: Timeval): (r: bool)
    ensures t1.Normal() && t2.Normal() ==> (r <==> t1.Micros() > t2.Micros() + Guard(s12))
  {
    ExactArithmetic(Ticks(s12 * 2), t2, s12 * 2);
    Cmp(t1, Plus(Ticks(s12 * 2), t2)) > 0
  }

  /** S12 counts 20 ms. */
  ghost function Guard(s12: Byte): int { s12 * 20_000 }

  function First(e: Esc, s2: Byte, s12: Byte, k: Key): Esc {
    if k.c == s2 && GuardPassed(s12, k.newT, k.prevT) then e.(plus1T := k.newT, state := P1) else e
  }

  /** escSeqHandle */
  function EscByte(e: Esc, s2: Byte, s12: Byte, k: Key): Esc {
    match e.state
    case P1 =>
      if k.c == s2 && !GuardPassed(s12, k.newT, e.plus1T) then e.(state := P2) else e.(state := Idle)
    case P2 =>
      if k.c == s2 && !GuardPassed(s12, k.newT, e.plus1T) then
        e.(checkSilence := true, expireT := Plus(Ticks(s12 * 2), k.newT), state := P3)
      else e.(state := Idle)
    case P3 => First(e.(checkSilence := false, state := Idle), s2, s12, k)
    case Idle => First(e, s2, s12, k)
  }

  function EscRun(e: Esc, s2: Byte, s12: Byte, keys: seq<Key>): Esc
    decreases |keys|
  {
    if keys == [] then e else EscByte(EscRun(e, s2, s12, keys[..|keys| - 1]), s2, s12, keys[|keys| - 1])
  }

  /** The last n keys are escape characters, the first of them after a guarded pause and the rest within the
      guard time of that first one. */
  ghost predicate EndsWithPluses(s2: Byte, s12: Byte, keys: seq<Key>, n: nat) {
    n <= |keys| &&
    var tail := keys[|keys| - n..];
    && (forall k <- tail :: k.c == s2)
    && (n > 0 ==> tail[0].newT.Micros() > tail[0].prevT.Micros() + Guard(s12))
    && (forall k <- tail :: k.newT.Micros() <= tail[0].newT.Micros() + Guard(s12))
  }

  function Pluses(e: Esc): nat {
    match e.state case Idle => 0 case P1 => 1 case P2 => 2 case P3 => 3
  }

  ghost predicate Tracks(e: Esc, s2: Byte, s12: Byte, keys: seq<Key>) {
    && (e.checkSilence <==> e.state.P3?)
    && EndsWithPluses(s2, s12, keys, Pluses(e))
    && (!e.state.Idle? ==> e.plus1T == keys[|keys| - Pluses(e)].newT)
    && (e.checkSilence ==> e.expireT.Normal() && e.expireT.Micros() == keys[|keys| - 1].newT.Micros() + Guard(s12))
  }

  lemma OneMore(s2: Byte, s12: Byte, keys: seq<Key>, k: Key, n: nat)
    requires EndsWithPluses(s2, s12, keys, n)
    requires k.c == s2
    requires if n == 0 then k.newT.Micros() > k.prevT.Micros() + Guard(s12)
             else k.newT.Micros() <= keys[|keys| - n].newT.Micros() + Guard(s12)
    ensures EndsWithPluses(s2, s12, keys + [k], n + 1)
  {
    var all := keys + [k];
    assert all[|all| - (n + 1)..] == keys[|keys| - n..] + [k];
  }

  lemma EscByteTracks(e: Esc, s2: Byte, s12: Byte, keys: seq<Key>, k: Key)
    requires Tracks(e, s2, s12, keys) && k.Normal() && (forall k <- keys :: k.Normal())
    ensures Tracks(EscByte(e, s2, s12, k), s2, s12, keys + [k])
  {
    ExactArithmetic(Ticks(s12 * 2), k.newT, s12 * 2);
    var e' := EscByte(e, s2, s12, k);
    if e'.state.P2? || e'.state.P3? {
      assert keys[|keys| - Pluses(e)] in keys;
      OneMore(s2, s12, keys, k, Pluses(e));
    } else if e'.state.P1? {
      assert EndsWithPluses(s2, s12, keys, 0);
      OneMore(s2, s12, keys, k, 0);
    }
  }

  lemma {:induction false} EscRunTracks(e: Esc, s2: Byte, s12: Byte, keys: seq<Key>)
    requires e.state.Idle? && !e.checkSilence && (forall k <- keys :: k.Normal())
    ensures Tracks(EscRun(e, s2, s12, keys), s2, s12, keys)
    decreases |keys|
  {
    if keys == [] {
    } else {
      var n := |keys| - 1;
      EscRunTracks(e, s2, s12, keys[..n]);
      EscByteTracks(EscRun(e, s2, s12, keys[..n]), s2, s12, keys[..n], keys[n]);
      assert keys[..n] + [keys[n]] == keys;
    }
  }

  /** Soundness: the detector waits for silence exactly in state P3, and then the last three bytes handled were
      escape characters, typed quickly after a guarded pause, with the silence running from the last one. */
  lemma EscapeSound(e: Esc, s2: Byte, s12: Byte, keys: seq<Key>)
    requires e.state.Idle? && !e.checkSilence && (forall k <- keys :: k.Normal())
    ensures var e' := EscRun(e, s2, s12, keys);
      && (e'.checkSilence <==> e'.state.P3?)
      && (e'.checkSilence ==>
            && EndsWithPluses(s2, s12, keys, 3)
            && e'.expireT.Micros() == keys[|keys| - 1].newT.Micros() + Guard(s12))
  {
    EscRunTracks(e, s2, s12, keys);
  }

  /** Completeness, exactly: such a triple arms the detector if and only if no sequence was begun before it. After a
      lone escape character the first of the three only ends the old sequence, and the other two come too soon after it
      to begin a new one. */
  lemma EscapeComplete(e: Esc, s2: Byte, s12: Byte, a: Key, b: Key, c: Key)
    requires e.state.P1? || e.state.P2? ==> !e.checkSilence
    requires a.Normal() && b.Normal() && c.Normal()
    requires EndsWithPluses(s2, s12, [a, b, c], 3)
    ensures EscByte(EscByte(EscByte(e, s2, s12, a), s2, s12, b), s2, s12, c).checkSilence <==>
            e.state.Idle? || e.state.P3?
  {
    assert [a, b, c][0..] == [a, b, c];
    assert a in [a, b, c] && b in [a, b, c] && c in [a, b, c];
    assert [a, b, c][0] == a;
    if e.state.P1? || e.state.P2? {
      NotThree(e, s2, s12, a, b, c);
    }
  }

  /** In the middle of a sequence three more bytes never end in P3. */
  lemma NotThree(e: Esc, s2: Byte, s12: Byte, a: Key, b: Key, c: Key)
    requires (e.state.P1? || e.state.P2?) && !e.checkSilence
    ensures !EscByte(EscByte(EscByte(e, s2, s12, a), s2, s12, b), s2, s12, c).checkSilence
  {
    var e1 := EscByte(e, s2, s12, a);
    var e2 := EscByte(e1, s2, s12, b);
    assert !e1.state.P3? ==> (e1.state.P2? || e1.state.Idle?) && !e1.checkSilence;
    assert e1.state.P3? ==> (e2.state.P1? || e2.state.Idle?) && !e2.checkSilence;
  }
}
