/** One direction of one connection, from `connection::send_message` on the server to
    `message::parse` in the client, under every interleaving of its steps. */
module EndToEnd {
  import opened Text
  import opened Message
  import opened SendQueue
  import Framing

  /** `flight` holds the bytes the server sent that the client has not read. */
  datatype Pipe = Pipe(snd: Sender, flight: string, held: string, parsed: seq<ParseResult>)

  datatype PipeEvent =
    | Post(m: Message)
    | Carried(n: nat)
    | Blocked
    | ClientRead(n: nat)

  const EMPTY_PIPE := Pipe(Sender("", []), "", "", [])

  predicate PipeEnabled(p: Pipe, e: PipeEvent) {
    match e
    case Post(_) => true
    case Carried(n) => p.snd.queue != [] && 0 < n <= |Front(p.snd)|
    case Blocked => p.snd.queue != []
    case ClientRead(n) => 0 < n <= |p.flight| && n <= Framing.MAX_SIZE
  }

  function PipeStep(p: Pipe, e: PipeEvent): Pipe
    requires PipeEnabled(p, e)
  {
    match e
    case Post(m) => p.(snd := Enqueue(p.snd, Encode(m)))
    case Carried(n) => p.(snd := Transmit(p.snd, n), flight := p.flight + Front(p.snd)[..n])
    case Blocked => p.(snd := Stall(p.snd))
    case ClientRead(n) =>
      var f := Framing.ClientFeed(p.held, p.flight[..n]);
      Pipe(p.snd, p.flight[n..], f.live,
           if f.delivered.Some? then p.parsed + [Decode(f.delivered.value)] else p.parsed)
  }

  predicate PipeLegal(p: Pipe, es: seq<PipeEvent>)
    decreases |es|
  {
    es == [] || (PipeEnabled(p, es[0]) && PipeLegal(PipeStep(p, es[0]), es[1..]))
  }

  function PipeRun(p: Pipe, es: seq<PipeEvent>): Pipe
    requires PipeLegal(p, es)
    decreases |es|
  {
    if es == [] then p else PipeRun(PipeStep(p, es[0]), es[1..])
  }

  /** The messages handed to `send_message`, in order. */
  function PostedIn(es: seq<PipeEvent>): seq<Message> {
    if es == [] then []
    else (if es[0].Post? then [es[0].m] else []) + PostedIn(es[1..])
  }

  /** The bytes that spell a sequence of messages. */
  function Spelled(ms: seq<Message>): string {
    if ms == [] then "" else Encode(ms[0]) + Spelled(ms[1..])
  }

  lemma {:induction false} SpelledSnoc(ms: seq<Message>, m: Message)
    ensures Spelled(ms + [m]) == Spelled(ms) + Encode(m)
  {
    if ms == [] {
      assert [m][1..] == [] && ms + [m] == [m];
    } else {
      SpelledSnoc(ms[1..], m);
      assert (ms + [m])[1..] == ms[1..] + [m];
      Assoc(Encode(ms[0]), Spelled(ms[1..]), Encode(m));
    }
  }

  predicate Carriable(ms: seq<Message>) {
    forall m | m in ms :: Wireable(m) && NewlineFree(m)
  }

  /** Everything between the last parsed message and the last posted one. */
  function Transit(p: Pipe): string {
    p.held + (p.flight + Pending(p.snd))
  }

  ghost predicate Faithful(p: Pipe, sent: seq<Message>) {
    && SenderOk(p.snd)
    && Matches(p.parsed, sent)
    && Transit(p) == Spelled(sent[|p.parsed|..])
  }

  lemma PostFaithful(p: Pipe, sent: seq<Message>, m: Message)
    requires Faithful(p, sent)
    ensures Faithful(PipeStep(p, Post(m)), sent + [m])
  {
    var left := sent[|p.parsed|..];
    EnqueueConserves(p.snd, Encode(m));
    Assoc(p.flight, Pending(p.snd), Encode(m));
    Assoc(p.held, p.flight + Pending(p.snd), Encode(m));
    SpelledSnoc(left, m);
    assert (sent + [m])[|p.parsed|..] == left + [m];
  }

  lemma TakenFaithful(p: Pipe, sent: seq<Message>, n: nat)
    requires Faithful(p, sent) && PipeEnabled(p, Carried(n))
    ensures Faithful(PipeStep(p, Carried(n)), sent)
  {
    TransmitConserves(p.snd, n);
    Assoc(p.flight, Front(p.snd)[..n], Pending(Transmit(p.snd, n)));
  }

  /** Two splits of the same text, one after its first line. */
  lemma FirstCut(s: string, rest: string, line: string, tail: string)
    requires s + rest == line + tail && IsLine(line) && '\n' in s
    ensures Find(s, '\n') < |s|
    ensures s[..Find(s, '\n') + 1] == line && s[Find(s, '\n') + 1..] + rest == tail
  {
    var i, n := Find(s, '\n'), |line| - 1;
    assert s[..|s|] == s;
    FindInPrefix(s, rest, '\n');
    FindIs(line, '\n', n);
    FindInPrefix(line, tail, '\n');
    CutBoth(s, rest, line, tail);
  }

  lemma CutBoth(s: string, rest: string, line: string, tail: string)
    requires s + rest == line + tail && |line| <= |s|
    ensures s[..|line|] == line && s[|line|..] + rest == tail
  {
    assert (s + rest)[..|line|] == s[..|line|] && (line + tail)[..|line|] == line;
    assert (s + rest)[|line|..] == s[|line|..] + rest && (line + tail)[|line|..] == tail;
  }

  lemma ReadFaithful(p: Pipe, sent: seq<Message>, n: nat)
    requires Faithful(p, sent) && Carriable(sent) && PipeEnabled(p, ClientRead(n))
    ensures Faithful(PipeStep(p, ClientRead(n)), sent)
  {
    var left, rest := sent[|p.parsed|..], p.flight[n..] + Pending(p.snd);
    var f := Framing.ClientFeed(p.held, p.flight[..n]);
    TransitSplits(p, n);
    LineRead(p.held, p.flight[..n], rest, left);
    if f.delivered.Some? {
      ParsedMore(p.parsed, sent, Decode(f.delivered.value));
    }
  }

  ghost predicate Matches(parsed: seq<ParseResult>, sent: seq<Message>) {
    |parsed| <= |sent| && forall i | 0 <= i < |parsed| :: parsed[i] == Parsed(sent[i])
  }

  lemma ParsedMore(parsed: seq<ParseResult>, sent: seq<Message>, x: ParseResult)
    requires Matches(parsed, sent) && |parsed| < |sent| && x == Parsed(sent[|parsed|])
    ensures Matches(parsed + [x], sent)
    ensures sent[|parsed + [x]|..] == sent[|parsed|..][1..]
  {
  }

  /** What one read of the client does to the rest of the stream. */
  lemma LineRead(held: string, data: string, rest: string, ms: seq<Message>)
    requires Carriable(ms) && held + data + rest == Spelled(ms)
    ensures var f := Framing.ClientFeed(held, data);
            if f.delivered.Some? then
              ms != [] && Decode(f.delivered.value) == Parsed(ms[0]) && f.live + rest == Spelled(ms[1..])
            else f.live + rest == Spelled(ms)
  {
    FeedCuts(held, data);
    if '\n' in held + data {
      LineTaken(held, data, rest, ms);
    }
  }

  lemma LineTaken(held: string, data: string, rest: string, ms: seq<Message>)
    requires Carriable(ms) && held + data + rest == Spelled(ms) && '\n' in held + data
    ensures var f := Framing.ClientFeed(held, data);
            && f.delivered.Some? && ms != []
            && Decode(f.delivered.value) == Parsed(ms[0]) && f.live + rest == Spelled(ms[1..])
  {
    FeedCuts(held, data);
    TakeLine(held + data, rest, ms);
  }

  lemma FeedCuts(held: string, data: string)
    ensures var f, s, i := Framing.ClientFeed(held, data), held + data, Find(held + data, '\n');
            if '\n' in s then i < |s| && f.delivered == Some(s[..i + 1]) && f.live == s[i + 1..]
            else f == Framing.Fed(s, None)
  {
    var s := held + data;
    var i := Find(s, '\n');
    if i == |s| {
      assert s[..i] == s;
    }
  }

  lemma TransitSplits(p: Pipe, n: nat)
    requires n <= |p.flight|
    ensures p.held + p.flight[..n] + (p.flight[n..] + Pending(p.snd)) == Transit(p)
  {
    var data, later := p.flight[..n], p.flight[n..];
    assert data + later == p.flight;
    Assoc(data, later, Pending(p.snd));
    Assoc(p.held, data, later + Pending(p.snd));
  }

  /** The first line in transit is the first message in transit. */
  lemma TakeLine(s: string, rest: string, ms: seq<Message>)
    requires Carriable(ms) && s + rest == Spelled(ms) && '\n' in s
    ensures Find(s, '\n') < |s| && ms != []
    ensures Decode(s[..Find(s, '\n') + 1]) == Parsed(ms[0])
    ensures s[Find(s, '\n') + 1..] + rest == Spelled(ms[1..])
  {
    assert ms != [] by {
      assert s != "";
    }
    EncodeIsLine(ms[0]);
    RoundTrip(ms[0]);
    FirstCut(s, rest, Encode(ms[0]), Spelled(ms[1..]));
  }

  lemma StepFaithful(p: Pipe, sent: seq<Message>, e: PipeEvent)
    requires Faithful(p, sent) && Carriable(sent) && PipeEnabled(p, e)
    ensures Faithful(PipeStep(p, e), sent + if e.Post? then [e.m] else [])
  {
    assert sent + [] == sent;
    match e {
      case Post(m) => PostFaithful(p, sent, m);
      case Carried(n) => TakenFaithful(p, sent, n);
      case Blocked => StallConserves(p.snd);
      case ClientRead(n) => ReadFaithful(p, sent, n);
    }
  }

  lemma {:induction false} RunFaithful(p: Pipe, sent: seq<Message>, es: seq<PipeEvent>)
    requires Faithful(p, sent) && Carriable(sent) && Carriable(PostedIn(es)) && PipeLegal(p, es)
    ensures Faithful(PipeRun(p, es), sent + PostedIn(es))
    decreases |es|
  {
    if es == [] {
      assert sent + [] == sent;
    } else {
      var now := if es[0].Post? then [es[0].m] else [];
      StepFaithful(p, sent, es[0]);
      RunFaithful(PipeStep(p, es[0]), sent + now, es[1..]);
      Assoc(sent, now, PostedIn(es[1..]));
    }
  }

  /** End-to-end fidelity: after every run, what the client has parsed is the beginning of
      what was posted, and the bytes in transit spell the rest of it. */
  lemma Fidelity(es: seq<PipeEvent>)
    requires PipeLegal(EMPTY_PIPE, es) && Carriable(PostedIn(es))
    ensures var p, sent := PipeRun(EMPTY_PIPE, es), PostedIn(es);
            && |p.parsed| <= |sent|
            && (forall i | 0 <= i < |p.parsed| :: p.parsed[i] == Parsed(sent[i]))
            && Transit(p) == Spelled(sent[|p.parsed|..])
            && (Transit(p) == "" <==> |p.parsed| == |sent|)
  {
    RunFaithful(EMPTY_PIPE, [], es);
    var p, sent := PipeRun(EMPTY_PIPE, es), PostedIn(es);
    assert [] + sent == sent;
    if |p.parsed| < |sent| {
      EncodeNonEmpty(sent[|p.parsed|]);
    }
  }

  // ---------------------------------------------------------------- poll_send as steps

  function TurnEvent(snd: Sender, answer: SendResult): PipeEvent
    requires snd.queue != []
  {
    match answer
    case Accepted(m) =>
      if m == 0 || Front(snd) == "" then Blocked
      else Carried(if m < |Front(snd)| then m else |Front(snd)|)
    case _ => Blocked
  }

  /** One call of `poll_send` as steps of the pipe. */
  function DrainEvents(snd: Sender, answers: nat -> SendResult, k: nat): seq<PipeEvent>
    decreases |snd.queue|
  {
    if snd.queue == [] then []
    else
      var t := SendOnce(snd, answers(k));
      [TurnEvent(snd, answers(k))] + if t.end.Some? then [] else DrainEvents(t.snd, answers, k + 1)
  }

  lemma TurnIsStep(p: Pipe, answer: SendResult)
    requires p.snd.queue != []
    ensures PipeEnabled(p, TurnEvent(p.snd, answer))
    ensures var t := SendOnce(p.snd, answer);
            PipeStep(p, TurnEvent(p.snd, answer)) == p.(snd := t.snd, flight := p.flight + t.sent)
  {
    assert p.flight + "" == p.flight;
  }

  /** However it ends, `poll_send` is a run of the pipe, so a pipe stays faithful through it. */
  lemma {:induction false} DrainIsRun(p: Pipe, answers: nat -> SendResult, k: nat)
    ensures var d, es := Drain(p.snd, answers, k), DrainEvents(p.snd, answers, k);
            && PipeLegal(p, es) && PostedIn(es) == []
            && PipeRun(p, es) == p.(snd := d.snd, flight := p.flight + d.sent)
    decreases |p.snd.queue|
  {
    if p.snd.queue == [] {
      assert p.flight + "" == p.flight;
    } else {
      var t, e := SendOnce(p.snd, answers(k)), TurnEvent(p.snd, answers(k));
      var q := PipeStep(p, e);
      TurnIsStep(p, answers(k));
      if t.end.Some? {
        assert [e][1..] == [];
        assert PipeLegal(q, []);
      } else {
        DrainIsRun(q, answers, k + 1);
        assert ([e] + DrainEvents(q.snd, answers, k + 1))[1..] == DrainEvents(q.snd, answers, k + 1);
        Assoc(p.flight, t.sent, Drain(q.snd, answers, k + 1).sent);
      }
    }
  }
}
