/** From a handler of the server to the window of a client: what a client shows of what the
    server posted to it. */
module Delivery {
  import opened Text
  import opened Message
  import opened Logs
  import opened SendQueue
  import opened Framing
  import opened Clients
  import opened ServerSpec
  import opened Plain
  import opened Worlds
  import opened Traffic

  /** The lines that spell a log. */
  function Printed(log: seq<Posted>): (lines: seq<string>)
    ensures |lines| == |log|
    ensures forall i | 0 <= i < |log| :: lines[i] == Encode(log[i].m)
  {
    seq(|log|, i requires 0 <= i < |log| => Encode(log[i].m))
  }

  lemma OneLine(line: string)
    requires IsLine(line)
    ensures Lines(line) == [line] && EndsLine(line)
  {
    var head := line[..|line| - 1];
    FirstLine(head, "");
    assert head + "\n" == line && line + "" == line;
    FirstLine("", "");
  }

  lemma AddLine(a: string, lines: seq<string>, line: string)
    requires Lines(a) == lines && (a == "" || EndsLine(a)) && IsLine(line)
    ensures Lines(a + line) == lines + [line] && EndsLine(a + line)
  {
    OneLine(line);
    LinesConcat(a, line);
  }

  lemma PrintedMore(log: seq<Posted>, last: Posted)
    ensures Printed(log + [last]) == Printed(log) + [Encode(last.m)]
  {
  }

  lemma FitParts(log: seq<Posted>)
    requires LogFit(log) && log != []
    ensures LogFit(log[..|log| - 1]) && Fit(log[|log| - 1].m)
    ensures Fit(log[0].m) && LogFit(log[1..])
  {
    assert log[|log| - 1] in log && log[0] in log;
    assert forall p | p in log[..|log| - 1] :: p in log;
    assert forall p | p in log[1..] :: p in log;
  }

  /** `text` spells `log` in the lines `lines`. */
  ghost predicate Spells(log: seq<Posted>, text: string, lines: seq<string>) {
    Lines(text) == lines && (text == "" || EndsLine(text)) && text == Texts(log) && lines == Printed(log)
  }

  ghost predicate Spelt(log: seq<Posted>) {
    exists text, lines :: Spells(log, text, lines)
  }

  lemma OneMoreLine(log: seq<Posted>, p: Posted)
    requires Spelt(log) && Fit(p.m)
    ensures Spelt(log + [p])
  {
    var text, lines :| Spells(log, text, lines);
    EncodeIsLine(p.m);
    AddLine(text, lines, Encode(p.m));
    PrintedMore(log, p);
    OneMorePosted(log, p);
    assert Spells(log + [p], text + Encode(p.m), lines + [Encode(p.m)]);
  }

  lemma {:induction false} FitLogIsSpelt(log: seq<Posted>)
    requires LogFit(log)
    ensures Spelt(log)
  {
    if log == [] {
      assert Spells(log, "", []);
    } else {
      FitParts(log);
      FitLogIsSpelt(log[..|log| - 1]);
      OneMoreLine(log[..|log| - 1], log[|log| - 1]);
      assert log[..|log| - 1] + [log[|log| - 1]] == log;
    }
  }

  /** The bytes of a fit log are its messages, a line each. */
  lemma LogIsLines(log: seq<Posted>)
    requires LogFit(log)
    ensures Lines(Texts(log)) == Printed(log)
  {
    FitLogIsSpelt(log);
  }

  /** `shown` is the beginning of `log`. */
  predicate ShowsLog(shown: seq<ParseResult>, log: seq<Posted>) {
    |shown| <= |log| && forall i | 0 <= i < |shown| :: shown[i] == Parsed(log[i].m)
  }

  lemma {:induction false} DecodedLog(taken: seq<string>, log: seq<Posted>)
    requires taken <= Printed(log) && LogFit(log)
    ensures ShowsLog(DecodeAll(taken), log)
  {
    if taken != [] {
      FitParts(log);
      assert taken[1..] <= Printed(log)[1..] == Printed(log[1..]);
      DecodedLog(taken[1..], log[1..]);
      RoundTrip(log[0].m);
      OneMoreShown(DecodeAll(taken[1..]), Decode(taken[0]), log);
    }
  }

  lemma OneMoreShown(shown: seq<ParseResult>, first: ParseResult, log: seq<Posted>)
    requires log != [] && ShowsLog(shown, log[1..]) && first == Parsed(log[0].m)
    ensures ShowsLog([first] + shown, log)
  {
  }

  lemma StreamLines(stream: string, wire: string, rest: string)
    requires stream <= wire
    ensures Lines(stream) <= Lines(wire + rest)
    ensures rest == "" && stream == wire ==> Lines(stream) == Lines(wire + rest)
  {
    LinesPrefix(stream, wire[|stream|..] + rest);
    assert wire == stream + wire[|stream|..];
    Assoc(stream, wire[|stream|..], rest);
    assert wire + "" == wire;
  }

  /** What a client has used when it holds no complete line. */
  lemma UsedAll(inputs: seq<string>)
    ensures var (taken, held) := ClientFeedAll("", inputs); '\n' !in held ==> taken == Lines(Flatten(inputs))
  {
    ClientFraming("", inputs);
    assert "" + Flatten(inputs) == Flatten(inputs);
    NoLines(ClientFeedAll("", inputs).1);
  }

  /** However the bytes are cut, a client that reads some of the bytes of a fit log shows its
      first messages; once it has read and used them all, all of them. */
  lemma ReaderShowsLog(log: seq<Posted>, wire: string, rest: string, inputs: seq<string>)
    requires LogFit(log) && wire + rest == Texts(log) && Flatten(inputs) <= wire
    ensures var (taken, held) := ClientFeedAll("", inputs);
            && ShowsLog(DecodeAll(taken), log)
            && (rest == "" && Flatten(inputs) == wire && '\n' !in held ==> |taken| == |log|)
  {
    LogIsLines(log);
    ShowsTheFirstLines(inputs);
    UsedAll(inputs);
    StreamLines(Flatten(inputs), wire, rest);
    DecodedLog(ClientFeedAll("", inputs).0, log);
  }

  /** What the kernel took from a connection. */
  function WireAt(w: World, id: Id): string
    requires id in w.ports
  {
    w.ports[id].taken.wire
  }

  /** On every connection of every run, the bytes taken and the bytes still queued are the
      messages posted. */
  lemma WireIsLog(w: World, id: Id)
    requires WorldOk(w) && id in w.ports
    ensures id in w.state.peers
    ensures WireAt(w, id) + Pending(Out(w.state.peers[id].log, w.ports[id].taken)) == Texts(w.state.peers[id].log)
  {
    assert SendSide(w, id);
    var snd :| SendOk(w.state.peers[id].log, w.ports[id].taken, snd);
    OutIs(w.state.peers[id].log, w.ports[id].taken, snd);
    SendFacts(w.state.peers[id].log, w.ports[id].taken, snd);
  }

  lemma EmptyGood()
    ensures Good(ServerSpec.EMPTY)
  {
  }

  /** After any run of clean events, every client has been shown the beginning of what the
      server posted to it, however its bytes were sent and read; and all of it once nothing
      is queued, in flight, or waiting in its buffer. */
  lemma ClientsShowTheirLogs(ticks: seq<Tick>, id: Id, inputs: seq<string>)
    requires RunTicks(START, ticks).Reaches? && AllClean(ServerSpec.EMPTY, RunTicks(START, ticks).events)
    requires var w := RunTicks(START, ticks).world; id in w.ports && Flatten(inputs) <= WireAt(w, id)
    ensures id in RunTicks(START, ticks).world.state.peers
    ensures var w, (taken, held) := RunTicks(START, ticks).world, ClientFeedAll("", inputs);
            var log := w.state.peers[id].log;
            && ShowsLog(DecodeAll(taken), log)
            && (Pending(Out(log, w.ports[id].taken)) == "" && Flatten(inputs) == WireAt(w, id) && '\n' !in held
                ==> |taken| == |log|)
  {
    var w := RunTicks(START, ticks).world;
    StartIsOk();
    TicksKeepOk(START, ticks);
    TicksAreRun(START, ticks);
    EmptyGood();
    RunGood(ServerSpec.EMPTY, RunTicks(START, ticks).events);
    WireIsLog(w, id);
    var log := w.state.peers[id].log;
    ReaderShowsLog(log, WireAt(w, id), Pending(Out(log, w.ports[id].taken)), inputs);
  }
}
