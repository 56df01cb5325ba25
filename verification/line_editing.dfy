/** Line editing: what typing comes to, in batch and key by key, and when a doubled byte 255 survives it. */
module LineEditing {
  import opened Wire
  import opened Settings
  import opened Iac
  import opened Escape
  import opened Relay
  import opened RelayRuns

  // ---------------------------------------------------------------- line editing, as a batch

  /** The segment without line feeds. */
  function WithoutLf(s: seq<Byte>, lf: Byte): seq<Byte>
    decreases |s|
  {
    if s == [] then []
    else WithoutLf(s[..|s| - 1], lf) + if s[|s| - 1] == lf then [] else [s[|s| - 1]]
  }

  /** Data bytes as telnet sends them. */
  function Doubled(s: seq<Byte>): seq<Byte>
    decreases |s|
  {
    if s == [] then [] else Doubled(s[..|s| - 1]) + Print(Data(s[|s| - 1]))
  }

  /** One more byte, if its telnet form still fits the line. */
  function PutWhole(text: seq<Byte>, c: Byte): seq<Byte> {
    if |Doubled(text)| + |Print(Data(c))| <= LINEBUF_SIZE then text + [c] else text
  }

  /** What is left of a segment typed into a line of 256 telnet bytes with a backspace key. */
  function Typed(s: seq<Byte>, bs: Byte): seq<Byte>
    decreases |s|
  {
    if s == [] then []
    else
      var before := Typed(s[..|s| - 1], bs);
      var c := s[|s| - 1];
      if c == bs then Backspace(before) else PutWhole(before, c)
  }

  function Edited(s: seq<Byte>, cfg: Atcmd): seq<Byte> {
    Typed(WithoutLf(s, cfg.s4), cfg.s5)
  }

  /** What a key other than carriage return does to the text of the line. */
  function EditKey(text: seq<Byte>, cfg: Atcmd, c: Byte): seq<Byte> {
    if c == cfg.s4 then text else if c == cfg.s5 then Backspace(text) else PutWhole(text, c)
  }

  /** The segments of the typing that a carriage return ended. */
  function Segments(s: seq<Byte>, cr: Byte): seq<seq<Byte>>
    decreases |s|
  {
    if s == [] then []
    else Segments(s[..|s| - 1], cr) + if s[|s| - 1] == cr then [Residue(s[..|s| - 1], cr)] else []
  }

  /** What was typed after the last of them. */
  function Residue(s: seq<Byte>, cr: Byte): seq<Byte>
    decreases |s|
  {
    if s == [] || s[|s| - 1] == cr then [] else Residue(s[..|s| - 1], cr) + [s[|s| - 1]]
  }

  function Ended(segments: seq<seq<Byte>>, cr: Byte): seq<Byte>
    decreases |segments|
  {
    if segments == [] then [] else Ended(segments[..|segments| - 1], cr) + segments[|segments| - 1] + [cr]
  }

  /** That is what segments are: free of carriage returns, and all of the typing. */
  lemma {:induction false} SegmentsSplit(s: seq<Byte>, cr: Byte)
    ensures Ended(Segments(s, cr), cr) + Residue(s, cr) == s
    ensures cr !in Residue(s, cr) && forall t <- Segments(s, cr) :: cr !in t
    decreases |s|
  {
    if s == [] {
    } else {
      var init, c := s[..|s| - 1], s[|s| - 1];
      var ts, t := Segments(init, cr), Residue(init, cr);
      SegmentsSplit(init, cr);
      assert init + [c] == s;
      if c == cr {
        assert (ts + [t])[..|ts|] == ts;
        assert Ended(ts + [t], cr) == Ended(ts, cr) + t + [cr];
      } else {
        assert Segments(s, cr) == ts;
        assert Ended(ts, cr) + (t + [c]) == Ended(ts, cr) + t + [c];
      }
    }
  }

  /** Segments as they go to the peer: edited, with CR LF after each. */
  function OnTheWire(segments: seq<seq<Byte>>, cfg: Atcmd): seq<Byte>
    decreases |segments|
  {
    if segments == [] then []
    else OnTheWire(segments[..|segments| - 1], cfg) + (Edited(segments[|segments| - 1], cfg) + [CR, LF])
  }

  /** Every finished line, edited, with CR LF after it. */
  function Committed(s: seq<Byte>, cfg: Atcmd): seq<Byte> { OnTheWire(Segments(s, cfg.s3), cfg) }

  /** The unfinished line, edited. */
  function Unfinished(s: seq<Byte>, cfg: Atcmd): seq<Byte> { Edited(Residue(s, cfg.s3), cfg) }

  lemma EditedAppend(s: seq<Byte>, c: Byte, cfg: Atcmd)
    ensures Edited(s + [c], cfg) == EditKey(Edited(s, cfg), cfg, c)
  {
    var t := WithoutLf(s, cfg.s4);
    assert (s + [c])[..|s|] == s;
    if c == cfg.s4 {
      assert WithoutLf(s + [c], cfg.s4) == t + [] == t;
    } else {
      assert WithoutLf(s + [c], cfg.s4) == t + [c];
      assert (t + [c])[..|t|] == t;
    }
  }

  lemma SegmentsAppend(s: seq<Byte>, c: Byte, cr: Byte)
    ensures Segments(s + [c], cr) == Segments(s, cr) + if c == cr then [Residue(s, cr)] else []
    ensures Residue(s + [c], cr) == if c == cr then [] else Residue(s, cr) + [c]
  {
    assert (s + [c])[..|s|] == s;
  }

  lemma OnTheWireAppend(ts: seq<seq<Byte>>, t: seq<Byte>, cfg: Atcmd)
    ensures OnTheWire(ts + [t], cfg) == OnTheWire(ts, cfg) + (Edited(t, cfg) + [CR, LF])
  {
    assert (ts + [t])[..|ts|] == ts;
  }

  /** A carriage return finishes the line. */
  lemma TypeCr(s: seq<Byte>, cfg: Atcmd)
    ensures Committed(s + [cfg.s3], cfg) == Committed(s, cfg) + (Unfinished(s, cfg) + [CR, LF])
    ensures Unfinished(s + [cfg.s3], cfg) == []
  {
    SegmentsAppend(s, cfg.s3, cfg.s3);
    OnTheWireAppend(Segments(s, cfg.s3), Residue(s, cfg.s3), cfg);
  }

  /** Any other byte goes into the unfinished line. */
  lemma TypeOther(s: seq<Byte>, c: Byte, cfg: Atcmd)
    requires c != cfg.s3
    ensures Committed(s + [c], cfg) == Committed(s, cfg)
    ensures Unfinished(s + [c], cfg) == EditKey(Unfinished(s, cfg), cfg, c)
  {
    SegmentsAppend(s, c, cfg.s3);
    assert Segments(s, cfg.s3) + [] == Segments(s, cfg.s3);
    EditedAppend(Residue(s, cfg.s3), c, cfg);
  }

  // ---------------------------------------------------------------- byte 255 in a line

  /** A key that does not cut a doubled byte 255 in two: backspace does when the text ends in 255, and 255 itself
      does when one byte of the line is left. */
  predicate WholeKey(text: seq<Byte>, cfg: Atcmd, c: Byte) {
    if c == cfg.s4 then true
    else if c == cfg.s5 then text == [] || text[|text| - 1] != IAC
    else c == IAC ==> |Doubled(text)| != LINEBUF_SIZE - 1
  }

  lemma DoubledAppend(text: seq<Byte>, c: Byte)
    ensures Doubled(text + [c]) == Doubled(text) + Print(Data(c))
  {
    assert (text + [c])[..|text|] == text;
  }

  lemma BackspaceExact(text: seq<Byte>)
    ensures Backspace(Doubled(text)) == Doubled(Backspace(text)) <==> text == [] || text[|text| - 1] != IAC
    ensures |Doubled(Backspace(text))| <= |Doubled(text)|
  {
    if text != [] {
      var n := |text| - 1;
      var d := Doubled(text[..n]);
      DoubledAppend(text[..n], text[n]);
      assert text[..n] + [text[n]] == text;
      if text[n] == IAC {
        assert |Backspace(Doubled(text))| == |d| + 1;
      } else {
        assert (d + [text[n]])[..|d|] == d;
      }
    }
  }

  /** 255 goes through putLine1 twice. */
  lemma PutIacExact(text: seq<Byte>)
    requires |Doubled(text)| <= LINEBUF_SIZE
    ensures PutLine(PutLine(Doubled(text), IAC), IAC) == Doubled(PutWhole(text, IAC)) <==>
            |Doubled(text)| != LINEBUF_SIZE - 1
    ensures |Doubled(PutWhole(text, IAC))| <= LINEBUF_SIZE
  {
    var d := Doubled(text);
    DoubledAppend(text, IAC);
    assert |d + Print(Data(IAC))| == |d| + 2;
    assert d + [IAC] + [IAC] == d + Print(Data(IAC));
  }

  lemma PutPlainExact(text: seq<Byte>, c: Byte)
    requires |Doubled(text)| <= LINEBUF_SIZE && c != IAC
    ensures PutLine(Doubled(text), c) == Doubled(PutWhole(text, c))
    ensures |Doubled(PutWhole(text, c))| <= LINEBUF_SIZE
  {
    DoubledAppend(text, c);
    assert |Doubled(text) + Print(Data(c))| == |Doubled(text)| + 1;
  }

  /** The line buffer goes on holding the text in telnet form if and only if the key is such a key. */
  lemma WholeKeyExact(text: seq<Byte>, cfg: Atcmd, c: Byte)
    requires |Doubled(text)| <= LINEBUF_SIZE
    ensures LineKey(Doubled(text), cfg, c) == Doubled(EditKey(text, cfg, c)) <==> WholeKey(text, cfg, c)
    ensures |Doubled(EditKey(text, cfg, c))| <= LINEBUF_SIZE
  {
    if c != cfg.s4 {
      if c == cfg.s5 {
        BackspaceExact(text);
      } else if c == IAC {
        PutIacExact(text);
      } else {
        PutPlainExact(text, c);
      }
    }
  }

  /** What cutting one in two does to the peer: half a doubled 255 at the end of a line swallows the carriage return. */
  lemma HalfIacEatsCr(text: seq<Byte>)
    ensures Carries(Doubled(text) + [IAC] + [CR, LF], text + [LF])
  {
    DoubledCarries(text);
    Hear2(Plain, IAC, CR);
    assert [LF][1..] == [];
    CarriesConcat([IAC, CR], [], [LF], [LF]);
    assert [IAC, CR] + [LF] == [IAC] + [CR, LF] && [] + [LF] == [LF];
    CarriesConcat(Doubled(text), text, [IAC] + [CR, LF], [LF]);
    Assoc(Doubled(text), [IAC], [CR, LF]);
  }

  lemma {:induction false} DoubledCarries(text: seq<Byte>)
    ensures Carries(Doubled(text), text)
    decreases |text|
  {
    if text == [] {
    } else {
      var n := |text| - 1;
      DoubledCarries(text[..n]);
      DataCarries(text[n]);
      CarriesConcat(Doubled(text[..n]), text[..n], Print(Data(text[n])), [text[n]]);
      assert text[..n] + [text[n]] == text;
    }
  }

  /** Typing in which no key cuts a doubled 255 in two. */
  predicate Whole(s: seq<Byte>, cfg: Atcmd)
    decreases |s|
  {
    s == [] ||
    (&& Whole(s[..|s| - 1], cfg)
     && (s[|s| - 1] == cfg.s3 || WholeKey(Unfinished(s[..|s| - 1], cfg), cfg, s[|s| - 1])))
  }

  lemma WholeAppend(s: seq<Byte>, c: Byte, cfg: Atcmd)
    ensures Whole(s + [c], cfg) <==> Whole(s, cfg) && (c == cfg.s3 || WholeKey(Unfinished(s, cfg), cfg, c))
  {
    assert (s + [c])[..|s|] == s;
  }

  lemma {:induction false} WholePrefix(s: seq<Byte>, t: seq<Byte>, cfg: Atcmd)
    requires Whole(s + t, cfg)
    ensures Whole(s, cfg)
    decreases |t|
  {
    if t == [] {
      assert s + t == s;
    } else {
      var n := |t| - 1;
      assert (s + t)[..|s + t| - 1] == s + t[..n];
      WholePrefix(s, t[..n], cfg);
    }
  }

  lemma PlainKeyIsWhole(text: seq<Byte>, cfg: Atcmd, c: Byte)
    requires IAC !in text && c != IAC
    ensures WholeKey(text, cfg, c) && IAC !in EditKey(text, cfg, c)
  {
  }

  /** Input without byte 255 is such typing. */
  lemma {:induction false} NoIacIsWhole(s: seq<Byte>, cfg: Atcmd)
    requires IAC !in s
    ensures Whole(s, cfg) && IAC !in Unfinished(s, cfg)
    decreases |s|
  {
    if s == [] {
    } else {
      var t, c := s[..|s| - 1], s[|s| - 1];
      NoIacIsWhole(t, cfg);
      WholeAppend(t, c, cfg);
      assert t + [c] == s;
      if c == cfg.s3 {
        TypeCr(t, cfg);
      } else {
        TypeOther(t, c, cfg);
        PlainKeyIsWhole(Unfinished(t, cfg), cfg, c);
      }
    }
  }

  // ---------------------------------------------------------------- any mixture of modes

  /** What a run of keys comes to: the data told to the peer, and the text of the unfinished line. */
  datatype Told = Told(data: seq<Byte>, text: seq<Byte>)

  /** A line begun before the peer turns SGA on stays in the line buffer while characters go out one by one, and goes on
      if SGA is turned off again. */
  function Tell(t: Told, cfg: Atcmd, k: Key): Told {
    match k.mode
    case Raw | Char => t.(data := t.data + [k.c])
    case Line =>
      if k.c == cfg.s3 then Told(t.data + (t.text + [CR, LF]), []) else t.(text := EditKey(t.text, cfg, k.c))
  }

  function TellAll(t: Told, cfg: Atcmd, keys: seq<Key>): Told
    decreases |keys|
  {
    if keys == [] then t else Tell(TellAll(t, cfg, keys[..|keys| - 1]), cfg, keys[|keys| - 1])
  }

  predicate WholeStep(t: Told, cfg: Atcmd, k: Key) {
    k.mode.Line? && k.c != cfg.s3 ==> WholeKey(t.text, cfg, k.c)
  }

  /** None of the keys typed in line mode cuts a doubled 255 in two. */
  predicate WholeKeys(t: Told, cfg: Atcmd, keys: seq<Key>)
    decreases |keys|
  {
    keys == [] ||
    (&& WholeKeys(t, cfg, keys[..|keys| - 1])
     && WholeStep(TellAll(t, cfg, keys[..|keys| - 1]), cfg, keys[|keys| - 1]))
  }

  lemma TellAppend(t: Told, cfg: Atcmd, keys: seq<Key>, k: Key)
    ensures TellAll(t, cfg, keys + [k]) == Tell(TellAll(t, cfg, keys), cfg, k)
    ensures WholeKeys(t, cfg, keys + [k]) <==> WholeKeys(t, cfg, keys) && WholeStep(TellAll(t, cfg, keys), cfg, k)
  {
    assert (keys + [k])[..|keys|] == keys;
  }

  ghost predicate AllIn(m: Mode, keys: seq<Key>) {
    forall k <- keys :: k.mode == m
  }

  lemma BytesAppend(keys: seq<Key>, k: Key)
    ensures Bytes(keys + [k]) == Bytes(keys) + [k.c]
  {
  }

  /** In character mode alone, the keys are the data and the line stays as it is. */
  lemma {:induction false} TellChars(t: Told, cfg: Atcmd, keys: seq<Key>)
    requires AllIn(Char, keys)
    ensures TellAll(t, cfg, keys) == t.(data := t.data + Bytes(keys))
    ensures WholeKeys(t, cfg, keys)
    decreases |keys|
  {
    if keys == [] {
      assert t.data + [] == t.data;
    } else {
      var init, k := keys[..|keys| - 1], keys[|keys| - 1];
      assert init + [k] == keys;
      TellChars(t, cfg, init);
      TellAppend(t, cfg, init, k);
      BytesAppend(init, k);
      Assoc(t.data, Bytes(init), [k.c]);
    }
  }

  /** What holds of keys typed in line mode after `typed`. */
  ghost predicate LinesTold(typed: seq<Byte>, said: seq<Byte>, cfg: Atcmd, keys: seq<Key>) {
    var t0 := Told(said, Unfinished(typed, cfg));
    && WholeKeys(t0, cfg, keys)
    && TellAll(t0, cfg, keys).text == Unfinished(typed + Bytes(keys), cfg)
    && LinesAdded(typed, Bytes(keys), said, TellAll(t0, cfg, keys).data, cfg)
  }

  lemma OneMoreLineKey(typed: seq<Byte>, said: seq<Byte>, cfg: Atcmd, keys: seq<Key>, k: Key)
    requires LinesTold(typed, said, cfg, keys) && k.mode.Line?
    requires k.c == cfg.s3 || WholeKey(Unfinished(typed + Bytes(keys), cfg), cfg, k.c)
    ensures LinesTold(typed, said, cfg, keys + [k])
  {
    var t0, s := Told(said, Unfinished(typed, cfg)), typed + Bytes(keys);
    var t := TellAll(t0, cfg, keys);
    TellAppend(t0, cfg, keys, k);
    BytesAppend(keys, k);
    Assoc(typed, Bytes(keys), [k.c]);
    if k.c == cfg.s3 {
      TypeCr(s, cfg);
      LinesAddedMore(typed, Bytes(keys), said, t.data, cfg, [k.c], t.text + [CR, LF]);
    } else {
      TypeOther(s, k.c, cfg);
      assert Committed(s, cfg) + [] == Committed(s, cfg) && t.data + [] == t.data;
      LinesAddedMore(typed, Bytes(keys), said, t.data, cfg, [k.c], []);
    }
  }

  /** In line mode alone, the keys come to what the batch reference says of the typing that they continue. */
  lemma {:induction false} TellLines(typed: seq<Byte>, said: seq<Byte>, cfg: Atcmd, keys: seq<Key>)
    requires AllIn(Line, keys) && Whole(typed + Bytes(keys), cfg)
    ensures LinesTold(typed, said, cfg, keys)
    decreases |keys|
  {
    if keys == [] {
      assert typed + [] == typed;
      assert Committed(typed, cfg) + [] == Committed(typed, cfg) && said + [] == said;
    } else {
      var init, k := keys[..|keys| - 1], keys[|keys| - 1];
      assert init + [k] == keys && k in keys;
      BytesAppend(init, k);
      Assoc(typed, Bytes(init), [k.c]);
      WholeAppend(typed + Bytes(init), k.c, cfg);
      TellLines(typed, said, cfg, init);
      OneMoreLineKey(typed, said, cfg, init, k);
    }
  }

  /** Between typing `typed` and typing `more` after it, exactly the lines finished meanwhile were added to what was
      said. */
  ghost predicate LinesAdded(typed: seq<Byte>, more: seq<Byte>, said: seq<Byte>, data: seq<Byte>, cfg: Atcmd) {
    exists lines :: Committed(typed + more, cfg) == Committed(typed, cfg) + lines && data == said + lines
  }

  lemma LinesAddedMore(typed: seq<Byte>, more: seq<Byte>, said: seq<Byte>, data: seq<Byte>, cfg: Atcmd,
                 next: seq<Byte>, line: seq<Byte>)
    requires LinesAdded(typed, more, said, data, cfg)
    requires Committed(typed + (more + next), cfg) == Committed(typed + more, cfg) + line
    ensures LinesAdded(typed, more + next, said, data + line, cfg)
  {
    var lines :| Committed(typed + more, cfg) == Committed(typed, cfg) + lines && data == said + lines;
    Assoc(Committed(typed, cfg), lines, line);
    Assoc(said, lines, line);
  }

  /** Keys without byte 255, typed into a line without it, are whole, whatever modes they fall in. */
  lemma {:induction false} NoIacKeys(t: Told, cfg: Atcmd, keys: seq<Key>)
    requires IAC !in t.text && (forall k <- keys :: k.c != IAC)
    ensures WholeKeys(t, cfg, keys) && IAC !in TellAll(t, cfg, keys).text
    decreases |keys|
  {
    if keys == [] {
    } else {
      var init, k := keys[..|keys| - 1], keys[|keys| - 1];
      assert init + [k] == keys && k in keys;
      assert forall k' <- init :: k' in keys;
      NoIacKeys(t, cfg, init);
      TellAppend(t, cfg, init, k);
      PlainKeyIsWhole(TellAll(t, cfg, init).text, cfg, k.c);
    }
  }
}
