/** The wire codec: a restriction of section 2.3.1 of RFC 1459 that ends lines with a
    bare newline. `Parse` is the program's loop; `Decode` is the function it computes. */
module Message {
  import opened Text

  datatype Command = Nick | User | Quit | Join | Mode | Kick | Privmsg | Whois | Ping | Pong

  datatype Verb = Cmd(cmd: Command) | Numeric(n: nat)

  datatype Message = Message(prefix: Option<string>, verb: Verb, params: seq<string>)

  /** `ParseError` is the exception both programs catch; `OutOfRange` is the one neither does. */
  datatype ParseResult = Parsed(msg: Message) | ParseError | OutOfRange

  // ---------------------------------------------------------------- numerals

  function Digit(d: nat): char
    requires d < 10
  {
    ('0' as int + d) as char
  }

  predicate IsDigit(c: char) {
    '0' <= c <= '9'
  }

  predicate AllDigits(s: string) {
    forall c | c in s :: IsDigit(c)
  }

  function Digits(n: nat): string {
    if n < 10 then [Digit(n)] else Digits(n / 10) + [Digit(n % 10)]
  }

  function Value(s: string): nat
    requires AllDigits(s)
  {
    if s == "" then 0 else
      assert s[|s| - 1] in s;
      10 * Value(s[..|s| - 1]) + (s[|s| - 1] as int - '0' as int)
  }

  lemma {:induction false} DigitsValue(n: nat)
    ensures AllDigits(Digits(n)) && Value(Digits(n)) == n
  {
    if n < 10 {
      assert Digits(n)[..0] == "";
    } else {
      DigitsValue(n / 10);
      assert Digits(n)[..|Digits(n)| - 1] == Digits(n / 10);
    }
  }

  lemma DigitsLength(n: nat)
    ensures |Digits(n)| == 3 <==> 100 <= n <= 999
    ensures Digits(n) != ""
  {
    if n >= 1000 {
      LongNumeral(n / 10);
    } else if n >= 100 {
      assert |Digits(n / 10)| == 2;
    }
  }

  lemma {:induction false} LongNumeral(n: nat)
    requires n >= 100
    ensures |Digits(n)| >= 3
  {
    if n >= 1000 {
      LongNumeral(n / 10);
    } else {
      assert |Digits(n / 10)| == 2;
    }
  }

  lemma ValueOfThree(s: string)
    requires |s| == 3 && AllDigits(s)
    ensures Value(s) <= 999
  {
    assert s[0] in s && s[1] in s && s[2] in s;
    assert s[..2][..1] == s[..1] && s[..1][..0] == "";
    assert Value(s[..1]) <= 9;
    assert Value(s[..2]) <= 99;
  }

  // ---------------------------------------------------------------- printing

  function CommandName(c: Command): string {
    match c
    case Nick => "NICK"
    case User => "USER"
    case Quit => "QUIT"
    case Join => "JOIN"
    case Mode => "MODE"
    case Kick => "KICK"
    case Privmsg => "PRIVMSG"
    case Whois => "WHOIS"
    case Ping => "PING"
    case Pong => "PONG"
  }

  function VerbText(v: Verb): string {
    match v
    case Cmd(c) => CommandName(c)
    case Numeric(n) => Digits(n)
  }

  /** Every parameter but the last is followed by a space; the last one follows a colon. */
  function EncodeParams(ps: seq<string>): string {
    if |ps| == 0 then ""
    else if |ps| == 1 then ":" + ps[0]
    else ps[0] + " " + EncodeParams(ps[1..])
  }

  function EncodePrefix(p: Option<string>): string {
    if p.Some? then ":" + p.value + " " else ""
  }

  function Encode(m: Message): string {
    EncodePrefix(m.prefix) + (VerbText(m.verb) + " " + (EncodeParams(m.params) + "\n"))
  }

  // ---------------------------------------------------------------- parsing

  /** Cuts at the first space. Without one, the word is everything but the last byte,
      which the parser takes to be the newline. */
  function Word(s: string): string {
    var i := Find(s, ' ');
    if i < |s| then s[..i] else if s == "" then "" else s[..|s| - 1]
  }

  function AfterWord(s: string): (rest: string)
    ensures s != "" ==> |rest| < |s|
  {
    var i := Find(s, ' ');
    if i < |s| then s[i + 1..] else ""
  }

  function ParseVerb(name: string): Option<Verb> {
    if name == "USER" then Some(Cmd(User))
    else if name == "NICK" then Some(Cmd(Nick))
    else if name == "PRIVMSG" then Some(Cmd(Privmsg))
    else if name == "JOIN" then Some(Cmd(Join))
    else if name == "WHOIS" then Some(Cmd(Whois))
    else if name == "PING" then Some(Cmd(Ping))
    else if name == "PONG" then Some(Cmd(Pong))
    else if name == "MODE" then Some(Cmd(Mode))
    else if name == "QUIT" then Some(Cmd(Quit))
    else if name == "KICK" then Some(Cmd(Kick))
    else if |name| == 3 && AllDigits(name) then Some(Numeric(Value(name)))
    else None
  }

  /** The text after a leading colon: `substr(1, size - 2)`, whose count wraps when `s` is ":". */
  function Trailing(s: string): string
    requires s != ""
  {
    if |s| == 1 then "" else s[1..|s| - 1]
  }

  function DecodeParams(s: string): seq<string>
    decreases |s|
  {
    if s == "" || s[0] == '\n' then []
    else if s[0] == ':' then [Trailing(s)]
    else [Word(s)] + DecodeParams(AfterWord(s))
  }

  function DecodeBody(prefix: Option<string>, s: string): ParseResult {
    var verb := ParseVerb(Word(s));
    if verb.None? then ParseError
    else Parsed(Message(prefix, verb.value, DecodeParams(AfterWord(s))))
  }

  function Decode(s: string): ParseResult {
    if s == "" then OutOfRange
    else if s[0] != ':' then DecodeBody(None, s)
    else
      var i := Find(s, ' ');
      if i == |s| then ParseError else DecodeBody(Some(s[1..i]), s[i + 1..])
  }

  method Parse(s: string) returns (r: ParseResult)
    ensures r == Decode(s)
  {
    if s == "" {
      return OutOfRange;
    }
    var rest, prefix := s, None;
    if rest[0] == ':' {
      var space := Find(rest, ' ');
      if space == |rest| {
        return ParseError;
      }
      prefix := Some(rest[1..space]);
      rest := rest[space + 1..];
    }
    var verb := ParseVerb(Word(rest));
    if verb.None? {
      return ParseError;
    }
    var params := ParseParams(AfterWord(rest));
    return Parsed(Message(prefix, verb.value, params));
  }

  /** The loop that cuts up the parameters. */
  method ParseParams(s: string) returns (params: seq<string>)
    ensures params == DecodeParams(s)
  {
    ghost var all := DecodeParams(s);
    var rest := s;
    params := [];
    while rest != "" && rest[0] != '\n'
      invariant params + DecodeParams(rest) == all
      decreases |rest|
    {
      if rest[0] == ':' {
        params := params + [Trailing(rest)];
        assert params == all;
        break;
      }
      Assoc(params, [Word(rest)], DecodeParams(AfterWord(rest)));
      params, rest := params + [Word(rest)], AfterWord(rest);
    }
  }

  // ---------------------------------------------------------------- round trip

  predicate MiddleOk(p: string) {
    ' ' !in p && (p != "" ==> p[0] != ':' && p[0] != '\n')
  }

  predicate MiddlesOk(ps: seq<string>) {
    forall i | 0 <= i < |ps| - 1 :: MiddleOk(ps[i])
  }

  predicate VerbOk(v: Verb) {
    v.Numeric? ==> 100 <= v.n <= 999
  }

  /** What a caller can check before printing a message. */
  predicate Wireable(m: Message) {
    && (m.prefix.Some? ==> ' ' !in m.prefix.value)
    && VerbOk(m.verb)
    && MiddlesOk(m.params)
  }

  lemma {:induction false} ParamsRoundTrip(ps: seq<string>)
    ensures DecodeParams(EncodeParams(ps) + "\n") == ps <==> MiddlesOk(ps)
  {
    var s := EncodeParams(ps) + "\n";
    if |ps| == 1 {
      assert s[1..|s| - 1] == ps[0];
    } else if |ps| > 1 {
      var p, rest := ps[0], EncodeParams(ps[1..]) + "\n";
      ParamsRoundTrip(ps[1..]);
      assert s == p + " " + rest;
      assert MiddlesOk(ps) <==> MiddleOk(p) && MiddlesOk(ps[1..]) by {
        assert forall i | 0 < i < |ps| - 1 :: ps[i] == ps[1..][i - 1];
        assert forall i | 0 <= i < |ps[1..]| - 1 :: ps[1..][i] == ps[i + 1];
      }
      if p == "" || (p[0] != ':' && p[0] != '\n') {
        assert s[0] != ':' && s[0] != '\n';
        WordOfConcat(p, rest);
        if ' ' !in p {
          assert ps == [p] + ps[1..];
        } else {
          assert DecodeParams(s)[0] != ps[0];
        }
      } else {
        assert s[0] == p[0];
        assert |DecodeParams(s)| <= 1;
      }
    }
  }

  lemma WordOfConcat(p: string, rest: string)
    ensures ' ' !in p ==> Word(p + " " + rest) == p && AfterWord(p + " " + rest) == rest
    ensures ' ' in p ==> Word(p + " " + rest) != p
  {
    var s := p + " " + rest;
    if ' ' !in p {
      assert s[..|p|] == p;
      FindIs(s, ' ', |p|);
      assert s[|p| + 1..] == rest;
    } else {
      var i := Find(s, ' ');
      if i == |s| {
        assert s[|p|] in s[..i];
      }
    }
  }

  lemma VerbRoundTrip(v: Verb)
    ensures ' ' !in VerbText(v) && VerbText(v) != "" && VerbText(v)[0] != ':'
    ensures ParseVerb(VerbText(v)) == Some(v) <==> VerbOk(v)
    ensures !VerbOk(v) ==> ParseVerb(VerbText(v)) == None
  {
    match v
    case Cmd(c) => NameRoundTrip(c);
    case Numeric(n) => NumericRoundTrip(n);
  }

  lemma NameRoundTrip(c: Command)
    ensures ' ' !in CommandName(c) && CommandName(c) != "" && CommandName(c)[0] != ':'
    ensures ParseVerb(CommandName(c)) == Some(Cmd(c))
  {
  }

  lemma NumericRoundTrip(n: nat)
    ensures ' ' !in Digits(n) && Digits(n) != "" && Digits(n)[0] != ':'
    ensures ParseVerb(Digits(n)) == if 100 <= n <= 999 then Some(Numeric(n)) else None
  {
    DigitsValue(n);
    DigitsLength(n);
    var t := Digits(n);
    assert t[0] in t;
  }

  lemma BodyRoundTrip(prefix: Option<string>, v: Verb, ps: seq<string>)
    ensures DecodeBody(prefix, VerbText(v) + " " + (EncodeParams(ps) + "\n")) == Parsed(Message(prefix, v, ps))
            <==> VerbOk(v) && MiddlesOk(ps)
  {
    VerbRoundTrip(v);
    WordOfConcat(VerbText(v), EncodeParams(ps) + "\n");
    ParamsRoundTrip(ps);
  }

  /** Printing and parsing give a message back exactly when it is wireable. */
  lemma RoundTrip(m: Message)
    ensures Decode(Encode(m)) == Parsed(m) <==> Wireable(m)
  {
    var body := VerbText(m.verb) + " " + (EncodeParams(m.params) + "\n");
    VerbRoundTrip(m.verb);
    BodyRoundTrip(m.prefix, m.verb, m.params);
    match m.prefix
    case None =>
      assert Encode(m) == body;
    case Some(p) =>
      var s := Encode(m);
      assert s == (":" + p) + " " + body;
      assert s[0] == ':';
      WordOfConcat(":" + p, body);
      var i := Find(s, ' ');
      assert i < |s| by {
        assert s[|p| + 1] == ' ';
      }
      assert Word(s) == s[..i] == ":" + s[1..i];
      if ' ' !in p {
        assert s[..i] == ":" + p;
        assert s[1..i] == p;
      } else {
        assert ' ' in ":" + p by {
          var k :| 0 <= k < |p| && p[k] == ' ';
          assert (":" + p)[k + 1] == ' ';
        }
        assert s[1..i] != p;
      }
  }

  /** On wireable messages the printed text determines the message. */
  lemma EncodeInjective(a: Message, b: Message)
    requires Wireable(a) && Wireable(b) && Encode(a) == Encode(b)
    ensures a == b
  {
    RoundTrip(a);
    RoundTrip(b);
  }

  lemma {:induction false} DecodedMiddles(s: string)
    ensures MiddlesOk(DecodeParams(s))
    decreases |s|
  {
    if s != "" && s[0] != '\n' && s[0] != ':' {
      DecodedMiddles(AfterWord(s));
      var ps, tail := DecodeParams(s), DecodeParams(AfterWord(s));
      forall i | 0 <= i < |ps| - 1
        ensures MiddleOk(ps[i])
      {
        if i > 0 {
          assert ps[i] == tail[i - 1];
        } else {
          assert AfterWord(s) != "";
        }
      }
    }
  }

  /** What `Decode` accepts is wireable, except a numeric below 100. */
  lemma DecodedIsWireable(s: string)
    requires Decode(s).Parsed?
    ensures Wireable(Decode(s).msg) <==> (Decode(s).msg.verb.Numeric? ==> Decode(s).msg.verb.n >= 100)
  {
    if s[0] == ':' {
      var i := Find(s, ' ');
      assert s[1..i] == s[..i][1..];
      BodyIsWireable(Some(s[1..i]), s[i + 1..]);
    } else {
      BodyIsWireable(None, s);
    }
  }

  lemma BodyIsWireable(prefix: Option<string>, s: string)
    requires DecodeBody(prefix, s).Parsed? && (prefix.Some? ==> ' ' !in prefix.value)
    ensures var m := DecodeBody(prefix, s).msg; Wireable(m) <==> (m.verb.Numeric? ==> m.verb.n >= 100)
  {
    DecodedBody(prefix, s);
  }

  lemma DecodedBody(prefix: Option<string>, s: string)
    requires DecodeBody(prefix, s).Parsed?
    ensures DecodeBody(prefix, s).msg.prefix == prefix
    ensures MiddlesOk(DecodeBody(prefix, s).msg.params)
    ensures DecodeBody(prefix, s).msg.verb.Numeric? ==> DecodeBody(prefix, s).msg.verb.n <= 999
  {
    DecodedMiddles(AfterWord(s));
    if AllDigits(Word(s)) && |Word(s)| == 3 {
      ValueOfThree(Word(s));
    }
  }

  /** Printing what was parsed is a normal form: parsing it again changes nothing. */
  lemma NormalForm(s: string)
    requires Decode(s).Parsed?
    ensures Decode(Encode(Decode(s).msg)) == Decode(s)
            <==> (Decode(s).msg.verb.Numeric? ==> Decode(s).msg.verb.n >= 100)
  {
    DecodedIsWireable(s);
    RoundTrip(Decode(s).msg);
  }

  /** The parser throws `std::out_of_range` on the empty string alone. */
  lemma OnlyEmptyIsOutOfRange(s: string)
    ensures Decode(s) == OutOfRange <==> s == ""
  {
  }

  // ---------------------------------------------------------------- one line

  predicate IsLine(s: string) {
    s != "" && s[|s| - 1] == '\n' && '\n' !in s[..|s| - 1]
  }

  predicate NewlineFree(m: Message) {
    && (m.prefix.Some? ==> '\n' !in m.prefix.value)
    && forall p | p in m.params :: '\n' !in p
  }

  lemma {:induction false} EncodedParamsNewlineFree(ps: seq<string>)
    requires forall p | p in ps :: '\n' !in p
    ensures '\n' !in EncodeParams(ps)
  {
    if |ps| > 1 {
      EncodedParamsNewlineFree(ps[1..]);
    }
  }

  lemma EncodeIsLine(m: Message)
    requires NewlineFree(m)
    ensures IsLine(Encode(m))
  {
    EncodedParamsNewlineFree(m.params);
    if m.verb.Numeric? {
      DigitsValue(m.verb.n);
    }
    var s := EncodePrefix(m.prefix) + VerbText(m.verb) + " " + EncodeParams(m.params);
    assert '\n' !in VerbText(m.verb);
    assert '\n' !in s;
    assert Encode(m) == s + "\n";
    assert Encode(m)[..|Encode(m)| - 1] == s;
  }

  lemma EncodeNonEmpty(m: Message)
    ensures Encode(m) != ""
  {
  }

  // ---------------------------------------------------------------- canned replies

  const SERVER := Some("server")

  const NO_SUCH_NICK := Message(SERVER, Numeric(401), ["No such nick/channel"])
  const NO_SUCH_CHANNEL := Message(SERVER, Numeric(403), ["No such channel"])
  const CANNOT_SEND_TO_CHAN := Message(SERVER, Numeric(404), ["Cannot send to channel"])
  const ERRONEUS_NICKNAME := Message(SERVER, Numeric(432), ["Erroneus nickname"])
  const NICKNAME_IN_USE := Message(SERVER, Numeric(433), ["Nickname is already in use"])
  const NOT_ON_CHANNEL := Message(SERVER, Numeric(442), ["You're not on that channel"])
  const CHAN_OP_PRIV_NEEDED := Message(SERVER, Numeric(482), ["You're not channel operator"])
  const ALREADY_REGISTERED := Message(SERVER, Numeric(462), ["You may not reregister"])
  const PONG := Message(None, Cmd(Pong), [])

  function NeedMoreParams(c: Command): Message {
    Message(SERVER, Numeric(461), [CommandName(c), "Not enough parameters"])
  }
}
