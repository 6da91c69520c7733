/** The texts that the parser accepts, by their form: names, words separated by single
    spaces, and a last parameter after a colon or without one. */
module Grammar {
  import opened Text
  import opened Message

  // ---------------------------------------------------------------- names

  /** The first word of a message decides its verb: one of the ten names, or three digits. */
  lemma NamesAreKnown(name: string)
    ensures ParseVerb(name) == Some(Cmd(Nick)) <==> name == "NICK"
    ensures ParseVerb(name) == Some(Cmd(User)) <==> name == "USER"
    ensures ParseVerb(name) == Some(Cmd(Quit)) <==> name == "QUIT"
    ensures ParseVerb(name) == Some(Cmd(Join)) <==> name == "JOIN"
    ensures ParseVerb(name) == Some(Cmd(Mode)) <==> name == "MODE"
    ensures ParseVerb(name) == Some(Cmd(Kick)) <==> name == "KICK"
    ensures ParseVerb(name) == Some(Cmd(Privmsg)) <==> name == "PRIVMSG"
    ensures ParseVerb(name) == Some(Cmd(Whois)) <==> name == "WHOIS"
    ensures ParseVerb(name) == Some(Cmd(Ping)) <==> name == "PING"
    ensures ParseVerb(name) == Some(Cmd(Pong)) <==> name == "PONG"
    ensures ParseVerb(name).Some? && ParseVerb(name).value.Numeric? <==> |name| == 3 && AllDigits(name)
  {
  }

  /** A numeric is the number that its three digits spell. */
  lemma NumericIsSpelled(a: nat, b: nat, c: nat)
    requires a < 10 && b < 10 && c < 10
    ensures ParseVerb([Digit(a), Digit(b), Digit(c)]) == Some(Numeric(100 * a + 10 * b + c))
  {
    var s := [Digit(a), Digit(b), Digit(c)];
    assert s[..2] == [Digit(a), Digit(b)] && s[..2][..1] == [Digit(a)] && [Digit(a)][..0] == "";
    assert AllDigits(s[..2]) && AllDigits([Digit(a)]);
    assert Value([Digit(a)]) == a && Value(s[..2]) == 10 * a + b;
    assert s[0] == Digit(a);
  }

  // ---------------------------------------------------------------- words

  /** Parameters with a single space between any two. */
  function Joined(ps: seq<string>): string {
    if ps == [] then "" else if |ps| == 1 then ps[0] else ps[0] + " " + Joined(ps[1..])
  }

  /** Words that need no colon. */
  predicate WordsOk(ps: seq<string>) {
    forall i | 0 <= i < |ps| :: MiddleOk(ps[i]) && (i == |ps| - 1 ==> ps[i] != "")
  }

  lemma WordsOkHead(ps: seq<string>)
    requires |ps| > 1
    ensures WordsOk(ps) <==> MiddleOk(ps[0]) && WordsOk(ps[1..])
  {
    assert forall i | 0 <= i < |ps[1..]| :: ps[1..][i] == ps[i + 1];
    assert forall i | 0 < i < |ps| :: ps[i] == ps[1..][i - 1];
  }

  lemma LastWord(p: string)
    ensures DecodeParams(p + "\n") == [p] <==> p != "" && MiddleOk(p)
  {
    var s := p + "\n";
    if p == "" || p[0] == '\n' {
      assert s[0] == '\n';
    } else if p[0] == ':' {
      assert s[0] == ':' && |DecodeParams(s)[0]| < |p|;
    } else {
      assert s[0] == p[0];
      var i := Find(s, ' ');
      if ' ' in p {
        SpaceInside(p);
        assert |DecodeParams(s)[0]| < |p|;
      } else {
        FindIs(s, ' ', |s|);
        assert s[..|s|] == s && s[..|s| - 1] == p;
        assert DecodeParams("") == [];
      }
    }
  }

  lemma SpaceInside(p: string)
    requires ' ' in p
    ensures Find(p + "\n", ' ') < |p|
  {
    assert p[..|p|] == p;
    FindInPrefix(p, "\n", ' ');
  }

  /** A parameter list written without a colon is read back exactly when its words need none. */
  lemma {:induction false} WordsRoundTrip(ps: seq<string>)
    requires ps != []
    ensures DecodeParams(Joined(ps) + "\n") == ps <==> WordsOk(ps)
    decreases |ps|
  {
    if |ps| == 1 {
      LastWord(ps[0]);
      assert ps == [ps[0]];
    } else {
      WordsRoundTrip(ps[1..]);
      WordsOkHead(ps);
      FirstWord(ps[0], Joined(ps[1..]) + "\n", ps[1..]);
      Assoc(ps[0] + " ", Joined(ps[1..]), "\n");
      assert ps == [ps[0]] + ps[1..];
    }
  }

  lemma FirstWord(p: string, rest: string, ps: seq<string>)
    requires ps != []
    ensures DecodeParams(p + " " + rest) == [p] + ps <==> MiddleOk(p) && DecodeParams(rest) == ps
  {
    var s := p + " " + rest;
    WordOfConcat(p, rest);
    if p == "" || (p[0] != ':' && p[0] != '\n') {
      assert s[0] != ':' && s[0] != '\n';
      var ws := DecodeParams(s);
      assert ws == [Word(s)] + DecodeParams(AfterWord(s));
      assert ws[0] == Word(s) && ws[1..] == DecodeParams(AfterWord(s));
      assert ([p] + ps)[0] == p && ([p] + ps)[1..] == ps;
    } else {
      assert s[0] == p[0];
      assert |DecodeParams(s)| <= 1;
    }
  }

  // ---------------------------------------------------------------- whole messages

  /** The start of a message: the prefix after a colon, if there is one. */
  function Opening(prefix: Option<string>): string {
    if prefix.Some? then ":" + prefix.value + " " else ""
  }

  predicate PrefixOk(prefix: Option<string>) {
    prefix.Some? ==> ' ' !in prefix.value
  }

  lemma SpaceBefore(s: string, k: nat)
    requires k < |s| && s[k] == ' '
    ensures Find(s, ' ') <= k
  {
    var before := s[..Find(s, ' ')];
    assert forall j | 0 <= j < |before| :: s[j] == before[j] != ' ';
  }

  /** What follows a prefix is parsed as if it stood alone. */
  lemma Opened(prefix: Option<string>, body: string)
    requires body != "" && body[0] != ':'
    ensures PrefixOk(prefix) ==> Decode(Opening(prefix) + body) == DecodeBody(prefix, body)
    ensures !PrefixOk(prefix) ==> Decode(Opening(prefix) + body).Parsed? ==>
              Decode(Opening(prefix) + body).msg.prefix != prefix
  {
    if prefix.None? {
      assert Opening(prefix) + body == body;
    } else {
      var q := ":" + prefix.value;
      var s := q + " " + body;
      assert Opening(prefix) + body == s;
      WordOfConcat(q, body);
      assert s[|q|] == ' ' && s[0] == ':';
      var i := Find(s, ' ');
      assert s[..|s|] == s;
      SpaceBefore(s, |q|);
      assert s[..i] == ":" + s[1..i];
      if PrefixOk(prefix) {
        assert s[..i] == q && s[1..i] == prefix.value;
      } else {
        assert ' ' in prefix.value && ' ' !in s[..i];
      }
    }
  }

  /** A message without a colon before its last parameter is read back exactly when its words
      need none: the prefix has no space, a numeric is in 100..999, and every parameter is a
      word that does not start with a colon or a newline, the last one not empty. */
  lemma BareRoundTrip(prefix: Option<string>, v: Verb, ps: seq<string>)
    requires ps != []
    ensures Decode(Opening(prefix) + (VerbText(v) + " " + (Joined(ps) + "\n"))) == Parsed(Message(prefix, v, ps))
            <==> PrefixOk(prefix) && VerbOk(v) && WordsOk(ps)
  {
    var body := VerbText(v) + " " + (Joined(ps) + "\n");
    VerbRoundTrip(v);
    Opened(prefix, body);
    WordOfConcat(VerbText(v), Joined(ps) + "\n");
    WordsRoundTrip(ps);
  }

  /** The same for a message without parameters. */
  lemma LoneRoundTrip(prefix: Option<string>, v: Verb)
    ensures Decode(Opening(prefix) + (VerbText(v) + "\n")) == Parsed(Message(prefix, v, []))
            <==> PrefixOk(prefix) && VerbOk(v)
  {
    var t := VerbText(v);
    VerbRoundTrip(v);
    Opened(prefix, t + "\n");
    FindIs(t + "\n", ' ', |t| + 1);
    assert (t + "\n")[..|t|] == t;
    assert DecodeParams("") == [];
  }

  /** The printed form, byte by byte: every middle parameter is followed by a space and the
      last follows a colon; there is a space after the name even without parameters. */
  function Spaced(ps: seq<string>): string {
    if ps == [] then "" else ps[0] + " " + Spaced(ps[1..])
  }

  lemma {:induction false} PrintedParams(ps: seq<string>, last: string)
    ensures EncodeParams(ps + [last]) == Spaced(ps) + ":" + last
    decreases |ps|
  {
    if ps == [] {
      assert ps + [last] == [last];
    } else {
      var more := ps + [last];
      assert more[0] == ps[0] && more[1..] == ps[1..] + [last];
      PrintedParams(ps[1..], last);
      assert ps[0] + " " + (Spaced(ps[1..]) + ":" + last) == ps[0] + " " + Spaced(ps[1..]) + ":" + last;
    }
  }

  lemma PrintedForm(prefix: Option<string>, v: Verb, ps: seq<string>, last: string)
    ensures Encode(Message(prefix, v, [])) == Opening(prefix) + VerbText(v) + " " + "\n"
    ensures Encode(Message(prefix, v, ps + [last]))
            == Opening(prefix) + VerbText(v) + " " + Spaced(ps) + ":" + last + "\n"
  {
    PrintedParams(ps, last);
    SpellOut(Opening(prefix), VerbText(v), Spaced(ps), last);
    SpellNone(Opening(prefix), VerbText(v));
  }

  lemma SpellOut(opening: string, name: string, middles: string, last: string)
    ensures opening + (name + " " + (middles + ":" + last + "\n")) == opening + name + " " + middles + ":" + last + "\n"
  {
  }

  lemma SpellNone(opening: string, name: string)
    ensures opening + (name + " " + ("" + "\n")) == opening + name + " " + "\n"
  {
  }

  // ---------------------------------------------------------------- every accepted text

  /** How the text of parameters ends: at its end or at a newline, or with a last parameter,
      bare or after a colon, and one byte that is dropped. */
  datatype Ending = Stops(tail: string) | Bare(c: char) | Colon(end: string)

  /** Parameters each followed by a space, up to the ending. */
  function TextFrom(ps: seq<string>, e: Ending): string {
    if ps == [] then (if e.Stops? then e.tail else "")
    else if |ps| == 1 && e.Bare? then ps[0] + [e.c]
    else if |ps| == 1 && e.Colon? then ":" + ps[0] + e.end
    else ps[0] + " " + TextFrom(ps[1..], e)
  }

  predicate EndOk(ps: seq<string>, e: Ending) {
    match e
    case Stops(tail) => tail == "" || tail[0] == '\n'
    case Bare(c) => ps != [] && ' ' !in ps[|ps| - 1] && c != ' '
    case Colon(end) => ps != [] && |end| <= 1 && (end == "" ==> ps[|ps| - 1] == "")
  }

  ghost predicate IsParamsText(s: string, ps: seq<string>) {
    exists e :: EndOk(ps, e) && s == TextFrom(ps, e)
  }

  /** Nothing of the text is lost: the parameters, the spaces between them and the ending
      spell it, whatever it is. */
  lemma {:induction false} ParamsText(s: string)
    ensures IsParamsText(s, DecodeParams(s))
    decreases |s|
  {
    if s == "" || s[0] == '\n' {
      assert EndOk([], Stops(s)) && s == TextFrom([], Stops(s));
    } else if s[0] == ':' {
      ColonText(s);
    } else if Find(s, ' ') == |s| {
      BareText(s);
    } else {
      ParamsText(AfterWord(s));
      WordThen(s);
    }
  }

  lemma ColonText(s: string)
    requires s != "" && s[0] == ':'
    ensures DecodeParams(s) == [Trailing(s)] && IsParamsText(s, [Trailing(s)])
  {
    var end := if |s| == 1 then "" else [s[|s| - 1]];
    assert s == ":" + Trailing(s) + end;
    assert EndOk([Trailing(s)], Colon(end)) && s == TextFrom([Trailing(s)], Colon(end));
  }

  lemma BareText(s: string)
    requires s != "" && s[0] != '\n' && s[0] != ':' && Find(s, ' ') == |s|
    ensures DecodeParams(s) == [Word(s)] && IsParamsText(s, [Word(s)])
  {
    NoSpace(s);
    assert DecodeParams("") == [];
    BareEnd(s[..|s| - 1], s[|s| - 1]);
  }

  lemma NoSpace(s: string)
    requires s != "" && Find(s, ' ') == |s|
    ensures s == s[..|s| - 1] + [s[|s| - 1]] && ' ' !in s[..|s| - 1] && s[|s| - 1] != ' '
  {
    assert s[..|s|] == s;
    LastByte(s);
  }

  lemma LastByte(s: string)
    requires s != "" && ' ' !in s
    ensures s == s[..|s| - 1] + [s[|s| - 1]] && ' ' !in s[..|s| - 1] && s[|s| - 1] != ' '
  {
    assert s[|s| - 1] in s;
  }

  lemma BareEnd(w: string, c: char)
    requires ' ' !in w && c != ' '
    ensures IsParamsText(w + [c], [w])
  {
    assert EndOk([w], Bare(c)) && w + [c] == TextFrom([w], Bare(c));
  }

  lemma WordThen(s: string)
    requires s != "" && s[0] != '\n' && s[0] != ':' && Find(s, ' ') < |s|
    requires IsParamsText(AfterWord(s), DecodeParams(AfterWord(s)))
    ensures IsParamsText(s, DecodeParams(s))
  {
    CutAtSpace(s, Find(s, ' '));
    OneMoreWord(Word(s), AfterWord(s), DecodeParams(AfterWord(s)));
  }

  lemma CutAtSpace(s: string, i: nat)
    requires i < |s| && s[i] == ' '
    ensures s == s[..i] + " " + s[i + 1..]
  {
  }

  lemma OneMoreWord(w: string, rest: string, ps: seq<string>)
    requires IsParamsText(rest, ps)
    ensures IsParamsText(w + " " + rest, [w] + ps)
  {
    var e :| EndOk(ps, e) && rest == TextFrom(ps, e);
    var more := [w] + ps;
    assert more[1..] == ps;
    assert EndOk(more, e) && w + " " + rest == TextFrom(more, e);
  }

  /** The name of a message and what follows it: nothing but one byte, or a space and its
      parameters. */
  ghost predicate IsBody(body: string, v: Verb, ps: seq<string>) {
    exists name, rest :: body == name + rest && ParseVerb(name) == Some(v) && IsAfterName(name, rest, ps)
  }

  ghost predicate IsAfterName(name: string, rest: string, ps: seq<string>) {
    || (|rest| == 1 && rest != " " && ps == [])
    || (rest != "" && rest[0] == ' ' && IsParamsText(rest[1..], ps))
  }

  lemma BodyText(prefix: Option<string>, body: string)
    requires DecodeBody(prefix, body).Parsed?
    ensures var m := DecodeBody(prefix, body).msg; m.prefix == prefix && IsBody(body, m.verb, m.params)
  {
    var name := Word(body);
    NameText(body);
    ParamsText(AfterWord(body));
    NamesAreKnown("");
    NameIsBody(body, name, body[|name|..], ParseVerb(name).value, DecodeParams(AfterWord(body)));
  }

  lemma NameText(body: string)
    ensures |Word(body)| <= |body| && body[..|Word(body)|] == Word(body)
    ensures body != "" ==>
              var rest := body[|Word(body)|..];
              if Find(body, ' ') < |body| then rest != "" && rest[0] == ' ' && rest[1..] == AfterWord(body)
              else |rest| == 1 && rest != " " && AfterWord(body) == ""
  {
    var i := Find(body, ' ');
    if i == |body| && body != "" {
      assert body[..|body|] == body && body[|body| - 1] in body;
    }
  }

  lemma NameIsBody(body: string, name: string, rest: string, v: Verb, ps: seq<string>)
    requires body == name + rest && ParseVerb(name) == Some(v)
    requires (|rest| == 1 && rest != " " && ps == []) || (rest != "" && rest[0] == ' ' && IsParamsText(rest[1..], ps))
    ensures IsBody(body, v, ps)
  {
    assert IsAfterName(name, rest, ps);
  }

  ghost predicate IsText(s: string, m: Message) {
    exists body :: s == Opening(m.prefix) + body && IsBody(body, m.verb, m.params)
  }

  /** Every accepted text is a prefix after a colon, if any, a known name, and the text of its
      parameters. */
  lemma AcceptedText(s: string)
    requires Decode(s).Parsed?
    ensures var m := Decode(s).msg; PrefixOk(m.prefix) && (m.prefix.Some? <==> s[0] == ':') && IsText(s, m)
  {
    if s[0] == ':' {
      var prefix, body := s[1..Find(s, ' ')], s[Find(s, ' ') + 1..];
      SplitOpening(s);
      BodyText(Some(prefix), body);
      TextOf(s, Decode(s).msg, body);
    } else {
      BodyText(None, s);
      assert s == Opening(None) + s;
      TextOf(s, Decode(s).msg, s);
    }
  }

  lemma TextOf(s: string, m: Message, body: string)
    requires s == Opening(m.prefix) + body && IsBody(body, m.verb, m.params)
    ensures IsText(s, m)
  {
  }

  lemma SplitOpening(s: string)
    requires s != "" && s[0] == ':' && Find(s, ' ') < |s|
    ensures s == Opening(Some(s[1..Find(s, ' ')])) + s[Find(s, ' ') + 1..] && ' ' !in s[1..Find(s, ' ')]
  {
    CutAtSpace(s, Find(s, ' '));
    WithoutFirst(s, Find(s, ' '));
  }

  lemma WithoutFirst(s: string, i: nat)
    requires 0 < i <= |s| && ' ' !in s[..i]
    ensures s[..i] == [s[0]] + s[1..i] && ' ' !in s[1..i]
  {
  }

  /** A text with a known name is accepted, and its verb is the one the name says. */
  lemma NamedIsAccepted(prefix: Option<string>, name: string, rest: string)
    requires PrefixOk(prefix) && ParseVerb(name).Some? && ' ' !in name
    requires rest != "" && (rest[0] == ' ' || |rest| == 1)
    ensures Decode(Opening(prefix) + (name + rest)).Parsed?
    ensures var m := Decode(Opening(prefix) + (name + rest)).msg; m.verb == ParseVerb(name).value && m.prefix == prefix
  {
    KnownName(name);
    Opened(prefix, name + rest);
    WordIs(name, rest);
  }

  lemma KnownName(name: string)
    requires ParseVerb(name).Some?
    ensures name != "" && name[0] != ':'
  {
    if |name| == 3 && AllDigits(name) {
      assert name[0] in name;
    }
  }

  lemma WordIs(name: string, rest: string)
    requires ' ' !in name && rest != "" && (rest[0] == ' ' || |rest| == 1)
    ensures Word(name + rest) == name
  {
    var body := name + rest;
    if rest[0] == ' ' {
      assert body == name + " " + rest[1..];
      WordOfConcat(name, rest[1..]);
    } else {
      FindIs(body, ' ', |body|);
      assert body[..|body| - 1] == name;
    }
  }
}
