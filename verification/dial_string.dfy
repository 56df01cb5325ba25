/** The scanner's path through a dial command: the rules of src/cmdlex.l by longest match, and m2k_atcmdD of
    src/atcmd.c, which splits host and port. */
module DialString {

  // ---------------------------------------------------------------- character classes and named patterns

  predicate Letter(c: char) { 'a' <= c <= 'z' || 'A' <= c <= 'Z' }

  predicate Digit(c: char) { '0' <= c <= '9' }

  predicate All(s: string, p: char -> bool) { forall c <- s :: p(c) }

  predicate NumPart(s: string) { 1 <= |s| <= 3 && All(s, c => Digit(c) || c == ':') }

  /** `dots` more parts follow the first one, each after a dot. */
  predicate IsParts(s: string, dots: nat)
    decreases dots
  {
    if dots == 0 then NumPart(s)
    else exists n | 1 <= n <= 3 && n < |s| :: NumPart(s[..n]) && s[n] == '.' && IsParts(s[n + 1..], dots - 1)
  }

  predicate IsANum(s: string) { IsParts(s, 3) }

  predicate IsAStr(s: string) {
    s != "" && (Letter(s[0]) || s[0] == ':')
    && All(s[1..], c => c == '-' || Letter(c) || Digit(c) || c == ':' || c == '.')
  }

  predicate IsPNum(s: string) { 1 <= |s| <= 5 && All(s, Digit) }

  predicate IsPStr(s: string) { s != "" && Letter(s[0]) && All(s[1..], c => c == '-' || Letter(c) || Digit(c)) }

  // ---------------------------------------------------------------- rules

  datatype AddrType = NumAddr | StrAddr

  datatype PortType = NoPort | NumPort | StrPort

  /** The rules of start condition ATD, in the order of the file. */
  datatype Rule =
    | Modifier                                        // [tTpP]
    | Pause                                           // [0-9][wW,]
    | Stored                                          // [sS][0-9]*
    | Address(quoted: bool, at: AddrType, pt: PortType)
    | Space                                           // " "
    | Anything                                        // .|\n

  /** All of them but the last one, which takes any single character nothing else does. */
  const RULES: seq<Rule> := [
    Modifier, Pause, Stored,
    Address(false, NumAddr, NoPort), Address(true, NumAddr, NoPort),
    Address(false, NumAddr, NumPort), Address(true, NumAddr, NumPort),
    Address(true, NumAddr, StrPort),
    Address(true, StrAddr, NoPort), Address(true, StrAddr, NumPort), Address(true, StrAddr, StrPort),
    Space
  ]

  function UpTo(s: string, stop: char): (i: nat)
    ensures i <= |s| && stop !in s[..i] && (i < |s| ==> s[i] == stop)
    decreases |s|
  {
    if s == "" || s[0] == stop then 0
    else
      var i := UpTo(s[1..], stop);
      assert s[..i + 1] == [s[0]] + s[1..][..i];
      i + 1
  }

  predicate IsAddr(s: string, at: AddrType) {
    if at == NumAddr then IsANum(s) else IsAStr(s)
  }

  predicate IsPort(s: string, pt: PortType) {
    if pt == NumPort then IsPNum(s) else IsPStr(s)
  }

  /** An address, and after one space a port unless there is none. No address contains a space. */
  predicate IsBody(s: string, at: AddrType, pt: PortType) {
    if pt == NoPort then IsAddr(s, at)
    else
      var i := UpTo(s, ' ');
      i < |s| && IsAddr(s[..i], at) && IsPort(s[i + 1..], pt)
  }

  /** Opening quote, body, closing quote or not. */
  predicate IsQuoted(s: string, at: AddrType, pt: PortType) {
    s != "" && s[0] == '"' &&
    (IsBody(s[1..], at, pt) || (|s| >= 2 && s[|s| - 1] == '"' && IsBody(s[1..|s| - 1], at, pt)))
  }

  predicate Matches(r: Rule, s: string) {
    match r
    case Modifier => |s| == 1 && s[0] in "tTpP"
    case Pause => |s| == 2 && Digit(s[0]) && s[1] in "wW,"
    case Stored => s != "" && s[0] in "sS" && All(s[1..], Digit)
    case Address(quoted, at, pt) => if quoted then IsQuoted(s, at, pt) else IsBody(s, at, pt)
    case Space => s == " "
    case Anything => |s| == 1
  }

  /** The first rule that matches the text. */
  function FirstMatch(rules: seq<Rule>, s: string): (r: Rule)
    ensures r == Anything || (r in rules && Matches(r, s))
    ensures r == Anything ==> forall k <- rules :: k == Anything || !Matches(k, s)
    decreases |rules|
  {
    if rules == [] then Anything
    else if rules[0] != Anything && Matches(rules[0], s) then rules[0]
    else FirstMatch(rules[1..], s)
  }

  /** Longest match: the longest prefix of at most n characters that some rule matches. */
  function Longest(rules: seq<Rule>, s: string, n: nat): (m: nat)
    requires 1 <= n <= |s|
    ensures 1 <= m <= n && (m > 1 ==> FirstMatch(rules, s[..m]) != Anything)
    ensures forall k :: m < k <= n ==> FirstMatch(rules, s[..k]) == Anything
    decreases n
  {
    if n == 1 || FirstMatch(rules, s[..n]) != Anything then n else Longest(rules, s, n - 1)
  }

  // ---------------------------------------------------------------- m2k_atcmdD

  const ADDR_MAX := 255
  const PORT_MAX := 63

  datatype Target = Target(addr: string, addrType: AddrType, port: string, portType: PortType)

  predicate Blank(c: char) { c == ' ' || '\t' <= c <= '\r' }

  /** A scanf field %<width>[^...]: the longest run of characters outside `stops`, at most `width`. */
  function Field(s: string, stops: string, width: nat): (i: nat)
    ensures i <= |s| && i <= width
    decreases |s|
  {
    if s == "" || width == 0 || s[0] in stops then 0 else 1 + Field(s[1..], stops, width - 1)
  }

  function SkipBlanks(s: string): string
    decreases |s|
  {
    if s != "" && Blank(s[0]) then SkipBlanks(s[1..]) else s
  }

  /** m2k_atcmdD: fields that match nothing keep their old contents. */
  function AtcmdD(d: Target, text: string, at: AddrType, pt: PortType): Target {
    var s := if text != "" && text[0] == '"' then text[1..] else text;
    var i := Field(s, " \"", ADDR_MAX);
    if i == 0 then Target(d.addr, at, d.port, pt)
    else
      var rest := SkipBlanks(s[i..]);
      var j := Field(rest, "\"", PORT_MAX);
      Target(s[..i], at, if j == 0 then d.port else rest[..j], pt)
  }

  // ---------------------------------------------------------------- the scanner

  datatype StartCondition = INITIAL | AT | ATD

  datatype LexStat = NoAt | Ok | Error | Atd

  /** Where scanning ended: at the end of the line or a rule that returns, with a status and the dial target; or at a
      command of start condition AT other than D, which this part of the model does not follow. */
  datatype Lexed = Ended(stat: LexStat, target: Target) | OtherCommand(stat: LexStat, target: Target)

  datatype Scan = Scan(sc: StartCondition, stat: LexStat, target: Target, pos: nat)

  /** One match of the scanner: the new state, or nothing when the rule's action returns. */
  datatype Matched = Goes(scan: Scan) | Stops(lexed: Lexed)

  predicate AttentionAt(line: string, i: nat) {
    i + 1 < |line| && ((line[i] == 'a' && line[i + 1] == 't') || (line[i] == 'A' && line[i + 1] == 'T'))
  }

  function MatchInitial(line: string, s: Scan): Matched
    requires s.pos < |line|
  {
    if AttentionAt(line, s.pos) then Goes(s.(sc := AT, stat := Ok, pos := s.pos + 2))
    else if line[s.pos] == '#' && (s.pos == 0 || line[s.pos - 1] == '\n') then Stops(Ended(NoAt, s.target))
    else Goes(s.(pos := s.pos + 1))
  }

  function MatchAt(line: string, s: Scan): Matched
    requires s.pos < |line|
  {
    if line[s.pos] in "dD" then Goes(s.(sc := ATD, stat := Error, pos := s.pos + 1))
    else Stops(OtherCommand(s.stat, s.target))
  }

  function MatchAtd(rules: seq<Rule>, line: string, s: Scan): Matched
    requires s.pos < |line|
  {
    var rest := line[s.pos..];
    var n := Longest(rules, rest, |rest|);
    var s1 := s.(pos := s.pos + n);
    match FirstMatch(rules, rest[..n])
    case Address(_, at, pt) => Goes(s1.(sc := AT, stat := Atd, target := AtcmdD(s.target, rest[..n], at, pt)))
    case Anything => Stops(Ended(Error, s.target))
    case _ => Goes(s1)
  }

  function MatchOne(rules: seq<Rule>, line: string, s: Scan): (m: Matched)
    requires s.pos < |line|
    ensures m.Goes? ==> s.pos < m.scan.pos <= |line|
  {
    match s.sc
    case INITIAL => MatchInitial(line, s)
    case AT => MatchAt(line, s)
    case ATD => MatchAtd(rules, line, s)
  }

  function LexFrom(rules: seq<Rule>, line: string, s: Scan): Lexed
    requires s.pos <= |line|
    decreases |line| - s.pos
  {
    if s.pos == |line| then Ended(s.stat, s.target)
    else
      match MatchOne(rules, line, s)
      case Stops(lexed) => lexed
      case Goes(s1) => LexFrom(rules, line, s1)
  }

  /** cmdLex */
  function Lex(line: string, d: Target): Lexed {
    LexFrom(RULES, line, Scan(INITIAL, NoAt, d, 0))
  }

  /** The scanner as it runs: one match after another from the input pointer on. */
  method CmdLex(line: string, d: Target) returns (lexed: Lexed)
    ensures lexed == Lex(line, d)
  {
    var rules := RULES;
    var s := Scan(INITIAL, NoAt, d, 0);
    while s.pos < |line|
      invariant s.pos <= |line|
      invariant LexFrom(rules, line, s) == Lex(line, d)
      decreases |line| - s.pos
    {
      var m := MatchOne(rules, line, s);
      if m.Stops? {
        return m.lexed;
      }
      s := m.scan;
    }
    lexed := Ended(s.stat, s.target);
  }

  // ---------------------------------------------------------------- round trip

  /** What may stand before the AT: no at or AT, no newline, no # in front. */
  predicate Garbage(s: string) {
    && '\n' !in s
    && (s != "" ==> s[0] != '#')
    && (forall i :: 0 <= i < |s| ==> !AttentionAt(s, i))
  }

  predicate IsAttention(s: string) { s == "AT" || s == "at" }

  /** Tone, pulse and spaces between the D and the quoted address. */
  predicate Modifiers(s: string) { All(s, c => c in "tTpP ") }

  function PortTypeOf(port: string): PortType {
    if port == "" then NoPort else if Digit(port[0]) then NumPort else StrPort
  }

  /** A host that starts with a letter, and a port number, a service name, or no port, that fit their buffers. */
  predicate Dialable(host: string, port: string) {
    && IsAStr(host) && Letter(host[0]) && |host| <= ADDR_MAX
    && (port == "" || IsPNum(port) || IsPStr(port)) && |port| <= PORT_MAX
  }

  function Written(host: string, port: string): string {
    if port == "" then host else host + " " + port
  }

  /** The dial command for a host and port. */
  function DialLine(prefix: string, attention: string, d: char, modifiers: string, host: string, port: string,
                    close: bool): string
  {
    prefix + attention + [d] + modifiers + Quote(host, port, close)
  }

  lemma {:induction false} UpToFinds(a: string, stop: char, b: string)
    requires stop !in a
    ensures UpTo(a + [stop] + b, stop) == |a|
    decreases |a|
  {
    if a == "" {
    } else {
      UpToFinds(a[1..], stop, b);
      assert (a + [stop] + b)[1..] == a[1..] + [stop] + b;
    }
  }

  lemma HostChars(host: string)
    requires IsAStr(host)
    ensures forall c <- host :: c != ' ' && c != '"' && !Blank(c)
  {
    forall c | c in host
      ensures c != ' ' && c != '"' && !Blank(c)
    {
      assert c == host[0] || c in host[1..];
    }
  }

  lemma PortChars(port: string)
    requires IsPNum(port) || IsPStr(port)
    ensures forall c <- port :: c != ' ' && c != '"' && !Blank(c)
  {
    forall c | c in port
      ensures c != ' ' && c != '"' && !Blank(c)
    {
      assert c == port[0] || c in port[1..];
    }
  }

  /** The quoted text of a dialable host and port. */
  function Quote(host: string, port: string, close: bool): string {
    if close then "\"" + Written(host, port) + "\"" else "\"" + Written(host, port)
  }

  lemma WrittenIsBody(host: string, port: string)
    requires Dialable(host, port)
    ensures IsBody(Written(host, port), StrAddr, PortTypeOf(port))
  {
    HostChars(host);
    if port != "" {
      var s := Written(host, port);
      UpToFinds(host, ' ', port);
      assert s == host + [' '] + port;
      assert s[..|host|] == host && s[|host| + 1..] == port;
    }
  }

  lemma QuoteMatches(host: string, port: string, close: bool)
    requires Dialable(host, port)
    ensures Matches(Address(true, StrAddr, PortTypeOf(port)), Quote(host, port, close))
  {
    WrittenIsBody(host, port);
    var s := Quote(host, port, close);
    if close {
      assert s[1..|s| - 1] == Written(host, port);
    } else {
      assert s[1..] == Written(host, port);
    }
  }

  lemma PartsStart(s: string, dots: nat)
    requires IsParts(s, dots)
    ensures s != "" && (Digit(s[0]) || s[0] == ':')
  {
    if dots == 0 {
      assert s[0] in s;
    } else {
      var n :| 1 <= n <= 3 && n < |s| && NumPart(s[..n]) && s[n] == '.' && IsParts(s[n + 1..], dots - 1);
      assert s[0] == s[..n][0];
      assert s[..n][0] in s[..n];
    }
  }

  /** A numeric body starts with a digit or a colon, and a string body holds no quote. */
  lemma BodyStart(s: string, at: AddrType, pt: PortType)
    requires IsBody(s, at, pt)
    ensures s != "" && s[0] != '"'
    ensures at == NumAddr ==> Digit(s[0]) || s[0] == ':'
    ensures at == StrAddr ==> '"' !in s
  {
    var addr := if pt == NoPort then s else s[..UpTo(s, ' ')];
    if at == NumAddr {
      PartsStart(addr, 3);
    } else {
      HostChars(addr);
      if pt != NoPort {
        PortChars(s[UpTo(s, ' ') + 1..]);
        assert s == addr + [' '] + s[UpTo(s, ' ') + 1..];
      }
      assert s[0] == addr[0] && addr[0] in addr;
    }
  }

  lemma NoStop(s: string, stop: char)
    requires stop !in s
    ensures UpTo(s, stop) == |s|
  {
  }

  /** The only string rule that matches a written host and port is the one of its port type. */
  lemma BodyType(host: string, port: string, pt: PortType)
    requires Dialable(host, port) && IsBody(Written(host, port), StrAddr, pt)
    ensures pt == PortTypeOf(port)
  {
    var s := Written(host, port);
    HostChars(host);
    if port == "" {
      NoStop(s, ' ');
    } else {
      UpToFinds(host, ' ', port);
      assert s == host + [' '] + port;
      if pt == NoPort {
        HostChars(s);
        NoStop(s, ' ');
      } else {
        assert s[|host| + 1..] == port;
        assert port[0] in port;
      }
    }
  }

  /** Only the rule of its own kind matches a quoted string host. */
  lemma QuotedType(host: string, port: string, close: bool, at: AddrType, pt: PortType)
    requires Dialable(host, port) && IsQuoted(Quote(host, port, close), at, pt)
    ensures at == StrAddr && pt == PortTypeOf(port)
  {
    var w := Written(host, port);
    if close {
      ClosedBody(w, at, pt);
    } else {
      WrittenNoQuote(host, port);
      OpenBody(w, at, pt);
    }
    BodyTypes(host, port, at, pt);
  }

  lemma ClosedBody(w: string, at: AddrType, pt: PortType)
    requires w != "" && Letter(w[0]) && IsQuoted("\"" + w + "\"", at, pt)
    ensures IsBody(w, at, pt)
  {
    var s := "\"" + w + "\"";
    assert s[1..] == w + "\"" && s[1..|s| - 1] == w;
    EndQuoteNoBody(w, at, pt);
  }

  lemma OpenBody(w: string, at: AddrType, pt: PortType)
    requires w != "" && '"' !in w && IsQuoted("\"" + w, at, pt)
    ensures IsBody(w, at, pt)
  {
    var s := "\"" + w;
    assert s[1..] == w;
    assert s[|s| - 1] == w[|w| - 1] && w[|w| - 1] in w;
  }

  lemma BodyTypes(host: string, port: string, at: AddrType, pt: PortType)
    requires Dialable(host, port) && IsBody(Written(host, port), at, pt)
    ensures at == StrAddr && pt == PortTypeOf(port)
  {
    var w := Written(host, port);
    BodyStart(w, at, pt);
    assert w[0] == host[0];
    BodyType(host, port, pt);
  }

  lemma EndQuoteNoBody(w: string, at: AddrType, pt: PortType)
    requires w != "" && Letter(w[0])
    ensures !IsBody(w + "\"", at, pt)
  {
    var s := w + "\"";
    assert s[|w|] == '"' && s[0] == w[0];
    if IsBody(s, at, pt) {
      BodyStart(s, at, pt);
    }
  }

  lemma WrittenNoQuote(host: string, port: string)
    requires Dialable(host, port)
    ensures '"' !in Written(host, port)
  {
    WrittenIsBody(host, port);
    BodyStart(Written(host, port), StrAddr, PortTypeOf(port));
  }

  /** The scanner picks exactly the rule for a quoted string host with a port of that type. */
  lemma QuoteRule(rules: seq<Rule>, host: string, port: string, close: bool)
    requires GoodRules(rules) && Dialable(host, port)
    ensures FirstMatch(rules, Quote(host, port, close)) == Address(true, StrAddr, PortTypeOf(port))
  {
    var s := Quote(host, port, close);
    QuoteMatches(host, port, close);
    QuoteRuleIs(host, port, close, FirstMatch(rules, s));
  }

  /** What the proofs need of the rule list. */
  ghost predicate GoodRules(rules: seq<Rule>) {
    && Modifier in rules && Space in rules
    && Address(true, StrAddr, NoPort) in rules
    && Address(true, StrAddr, NumPort) in rules && Address(true, StrAddr, StrPort) in rules
    && (forall r <- rules :: r.Address? && !r.quoted ==> r.at == NumAddr)
  }

  lemma RulesGood()
    ensures GoodRules(RULES)
  {
    assert RULES[0] == Modifier && RULES[11] == Space;
    assert RULES[8] == Address(true, StrAddr, NoPort) && RULES[9] == Address(true, StrAddr, NumPort)
        && RULES[10] == Address(true, StrAddr, StrPort);
  }

  lemma QuoteRuleIs(host: string, port: string, close: bool, r: Rule)
    requires Dialable(host, port) && Matches(r, Quote(host, port, close)) && r != Anything
    ensures r == Address(true, StrAddr, PortTypeOf(port))
  {
    var s := Quote(host, port, close);
    assert s[0] == '"' && |s| >= 2;
    if r.Address? {
      if r.quoted {
        QuotedType(host, port, close, r.at, r.pt);
      } else {
        BodyStart(s, r.at, r.pt);
      }
    }
  }

  // ---------------------------------------------------------------- m2k_atcmdD undoes Quote

  lemma {:induction false} FieldFinds(a: string, stops: string, width: nat, b: string)
    requires |a| <= width && (forall c <- a :: c !in stops)
    requires b == "" || |a| == width || b[0] in stops
    ensures Field(a + b, stops, width) == |a|
    decreases |a|
  {
    if a == "" {
      assert a + b == b;
    } else {
      FieldFinds(a[1..], stops, width - 1, b);
      assert (a + b)[1..] == a[1..] + b;
      assert a[0] in a;
    }
  }

  /** The split gives back exactly the host and the port. */
  lemma AtcmdDSplits(d: Target, host: string, port: string, close: bool)
    requires Dialable(host, port)
    ensures var t := AtcmdD(d, Quote(host, port, close), StrAddr, PortTypeOf(port));
      && t.addr == host && t.addrType == StrAddr && t.portType == PortTypeOf(port)
      && (port != "" ==> t.port == port)
  {
    var end := if close then "\"" else "";
    var text := Quote(host, port, close);
    assert text[0] == '"' && text[1..] == Written(host, port) + end;
    SplitsHost(host, port, end);
    if port != "" {
      SplitsPort(port, end);
      assert (Written(host, port) + end)[|host|..] == " " + port + end;
    }
  }

  lemma SplitsHost(host: string, port: string, end: string)
    requires Dialable(host, port) && (end == "" || end == "\"")
    ensures var s := Written(host, port) + end; Field(s, " \"", ADDR_MAX) == |host| && s[..|host|] == host
  {
    var tail := if port == "" then end else " " + port + end;
    assert Written(host, port) + end == host + tail;
    HostChars(host);
    FieldFinds(host, " \"", ADDR_MAX, tail);
  }

  lemma SplitsPort(port: string, end: string)
    requires (IsPNum(port) || IsPStr(port)) && |port| <= PORT_MAX && (end == "" || end == "\"")
    ensures var rest := SkipBlanks(" " + port + end); Field(rest, "\"", PORT_MAX) == |port| && rest[..|port|] == port
  {
    PortChars(port);
    assert (" " + port + end)[1..] == port + end;
    assert port[0] in port && (port + end)[0] == port[0];
    FieldFinds(port, "\"", PORT_MAX, end);
  }

  // ---------------------------------------------------------------- the whole line

  lemma {:induction false} SkipGarbage(rules: seq<Rule>, line: string, s: Scan, end: nat)
    requires s.sc == INITIAL && s.pos <= end <= |line|
    requires forall i :: s.pos <= i < end ==> !AttentionAt(line, i) && line[i] != '\n'
    requires s.pos < end ==> if s.pos == 0 then line[0] != '#' else line[s.pos - 1] != '\n'
    ensures LexFrom(rules, line, s) == LexFrom(rules, line, s.(pos := end))
    decreases end - s.pos
  {
    if s.pos >= end {
    } else {
      SkipGarbage(rules, line, s.(pos := s.pos + 1), end);
    }
  }

  /** Garbage stays garbage in front of an attention sequence. */
  lemma GarbageInLine(line: string, prefix: string)
    requires Garbage(prefix) && |prefix| + 2 <= |line| && line[..|prefix|] == prefix
    requires AttentionAt(line, |prefix|)
    ensures forall i :: 0 <= i < |prefix| ==> !AttentionAt(line, i) && line[i] != '\n'
    ensures prefix != "" ==> line[0] != '#'
  {
    forall i | 0 <= i < |prefix|
      ensures !AttentionAt(line, i) && line[i] != '\n'
    {
      assert line[i] == prefix[i];
      assert !AttentionAt(prefix, i);
      if i + 1 < |prefix| {
        assert line[i + 1] == prefix[i + 1];
      }
    }
  }

  /** Modifiers and spaces in front of the quote are consumed one at a time: no rule matches more. */
  lemma ModifierRule(rules: seq<Rule>, rest: string)
    requires GoodRules(rules) && rest != "" && rest[0] in "tTpP "
    ensures Longest(rules, rest, |rest|) == 1
    ensures FirstMatch(rules, rest[..1]).Modifier? || FirstMatch(rules, rest[..1]).Space?
  {
    var n := Longest(rules, rest, |rest|);
    if n > 1 {
      NoBodyStart(rest[..n], FirstMatch(rules, rest[..n]));
    }
    assert rest[..1] == [rest[0]];
    assert Matches(Modifier, rest[..1]) || Matches(Space, rest[..1]);
    NoBodyStart(rest[..1], FirstMatch(rules, rest[..1]));
  }

  lemma NoBodyStart(s: string, r: Rule)
    requires s != "" && s[0] in "tTpP " && Matches(r, s) && r != Anything
    requires r.Address? && !r.quoted ==> r.at == NumAddr
    ensures |s| == 1 && (r.Modifier? || r.Space?)
  {
    if r.Address? && !r.quoted {
      BodyStart(s, r.at, r.pt);
    }
  }

  lemma {:induction false} SkipModifiers(rules: seq<Rule>, line: string, s: Scan, end: nat)
    requires GoodRules(rules) && s.sc == ATD && s.pos <= end <= |line|
    requires forall i :: s.pos <= i < end ==> line[i] in "tTpP "
    ensures LexFrom(rules, line, s) == LexFrom(rules, line, s.(pos := end))
    decreases end - s.pos
  {
    if s.pos >= end {
    } else {
      ModifierRule(rules, line[s.pos..]);
      SkipModifiers(rules, line, s.(pos := s.pos + 1), end);
    }
  }

  lemma QuoteMatched(rules: seq<Rule>, line: string, s: Scan, host: string, port: string, close: bool)
    requires GoodRules(rules) && Dialable(host, port)
    requires s.sc == ATD && s.pos <= |line| && line[s.pos..] == Quote(host, port, close)
    ensures LexFrom(rules, line, s) ==
            Ended(Atd, AtcmdD(s.target, Quote(host, port, close), StrAddr, PortTypeOf(port)))
  {
    var rest := line[s.pos..];
    QuoteRule(rules, host, port, close);
    assert rest[..|rest|] == rest;
    assert Longest(rules, rest, |rest|) == |rest|;
  }

  /** Dial-string round trip. After any garbage that is no attention sequence, AT or at, D or d, and any modifiers, the
      dial line written for a host and a port (or no port), closing quote or not, is scanned by longest match to a
      dial command with exactly that host, port and port type. */
  lemma DialRoundTrip(prefix: string, attention: string, c: char, modifiers: string,
                      host: string, port: string, close: bool, d: Target)
    requires Garbage(prefix) && IsAttention(attention) && c in "dD" && Modifiers(modifiers)
    requires Dialable(host, port)
    ensures var lexed := Lex(DialLine(prefix, attention, c, modifiers, host, port, close), d);
      && lexed.Ended? && lexed.stat == Atd
      && lexed.target.addr == host && lexed.target.addrType == StrAddr
      && lexed.target.portType == PortTypeOf(port)
      && (port != "" ==> lexed.target.port == port)
  {
    var line := DialLine(prefix, attention, c, modifiers, host, port, close);
    var quote := Quote(host, port, close);
    var p := |prefix|;
    var q := p + 3 + |modifiers|;
    var rules := RULES;
    RulesGood();
    LineParts(line, prefix, attention, c, modifiers, quote);
    GarbageInLine(line, prefix);
    SkipGarbage(rules, line, Scan(INITIAL, NoAt, d, 0), p);
    var s2 := Scan(ATD, Error, d, p + 3);
    assert LexFrom(rules, line, Scan(INITIAL, NoAt, d, p)) == LexFrom(rules, line, Scan(AT, Ok, d, p + 2));
    assert LexFrom(rules, line, Scan(AT, Ok, d, p + 2)) == LexFrom(rules, line, s2);
    SkipModifiers(rules, line, s2, q);
    QuoteMatched(rules, line, s2.(pos := q), host, port, close);
    AtcmdDSplits(d, host, port, close);
  }

  lemma LineParts(line: string, prefix: string, attention: string, c: char, modifiers: string, quote: string)
    requires line == prefix + attention + [c] + modifiers + quote
    requires IsAttention(attention) && Modifiers(modifiers)
    ensures var p, q := |prefix|, |prefix| + 3 + |modifiers|;
      && q <= |line| && line[..p] == prefix && AttentionAt(line, p) && line[p + 2] == c && line[q..] == quote
      && forall i :: p + 3 <= i < q ==> line[i] in "tTpP "
  {
    var p, q := |prefix|, |prefix| + 3 + |modifiers|;
    assert line[p] == attention[0] && line[p + 1] == attention[1];
    forall i | p + 3 <= i < q
      ensures line[i] in "tTpP "
    {
      assert line[i] == modifiers[i - p - 3];
      assert modifiers[i - p - 3] in modifiers;
    }
  }
}
