/** Newline framing on both ends of a connection. The server delivers at most one message
    a read and looks for its newline in the new bytes only; the client keeps everything it
    has not used and takes at most one line a read. */
module Framing {
  import opened Text

  /** The complete lines of a byte stream, each with its newline. */
  function Lines(s: string): seq<string>
    decreases |s|
  {
    var i := Find(s, '\n');
    if i == |s| then [] else [s[..i + 1]] + Lines(s[i + 1..])
  }

  predicate EndsLine(s: string) {
    s != "" && s[|s| - 1] == '\n'
  }

  lemma FirstLine(head: string, tail: string)
    requires '\n' !in head
    ensures Lines(head) == []
    ensures Lines(head + "\n" + tail) == [head + "\n"] + Lines(tail)
  {
    var s := head + "\n" + tail;
    assert s[..|head|] == head && head[..|head|] == head;
    FindIs(head, '\n', |head|);
    FindIs(s, '\n', |head|);
    assert s[..|head| + 1] == head + "\n" && s[|head| + 1..] == tail;
  }

  lemma SplitAtNewline(s: string)
    ensures var i := Find(s, '\n'); i < |s| ==> s == s[..i] + "\n" + s[i + 1..] && '\n' !in s[..i]
  {
    var i := Find(s, '\n');
    if i < |s| {
      SplitAt(s, i);
    }
  }

  lemma SplitAt(s: string, i: nat)
    requires i < |s| && s[i] == '\n'
    ensures s == s[..i] + "\n" + s[i + 1..]
  {
  }

  lemma NoLines(s: string)
    ensures Lines(s) == [] <==> '\n' !in s
  {
    var i := Find(s, '\n');
    if i == |s| {
      assert s == s[..i];
    }
  }

  /** Lines never span the end of a line. */
  lemma {:induction false} LinesConcat(a: string, b: string)
    requires a == "" || EndsLine(a)
    ensures Lines(a + b) == Lines(a) + Lines(b)
    decreases |a|
  {
    if a == "" {
      assert a + b == b;
    } else {
      var i := Find(a, '\n');
      EndIsFound(a);
      var head, tail := a[..i], a[i + 1..];
      LinesConcat(tail, b);
      LinesCut(a, b, i);
      Assoc([head + "\n"], Lines(tail), Lines(b));
    }
  }

  lemma EndIsFound(a: string)
    requires EndsLine(a)
    ensures var i := Find(a, '\n'); i < |a| && (a[i + 1..] == "" || EndsLine(a[i + 1..]))
  {
    assert a[|a| - 1] == '\n' && a[..|a|] == a;
  }

  lemma LinesCut(a: string, b: string, i: nat)
    requires i == Find(a, '\n') < |a|
    ensures Lines(a) == [a[..i] + "\n"] + Lines(a[i + 1..])
    ensures Lines(a + b) == [a[..i] + "\n"] + Lines(a[i + 1..] + b)
  {
    SplitAtNewline(a);
    FirstLine(a[..i], a[i + 1..]);
    FirstLine(a[..i], a[i + 1..] + b);
    assert a + b == a[..i] + "\n" + (a[i + 1..] + b);
  }

  /** Counting newlines is additive, wherever the stream is cut. */
  lemma {:induction false} LineCountConcat(a: string, b: string)
    ensures |Lines(a + b)| == |Lines(a)| + |Lines(b)|
    decreases |a|
  {
    var i, j := Find(a, '\n'), Find(b, '\n');
    if i < |a| {
      LineCountConcat(a[i + 1..], b);
      LinesCut(a, b, i);
    } else if j < |b| {
      assert a == a[..i];
      assert a + b == (a + b[..j]) + "\n" + b[j + 1..];
      FirstLine(a + b[..j], b[j + 1..]);
    } else {
      assert a == a[..i] && b == b[..j];
      FirstLine(a + b, "");
    }
  }

  lemma {:induction false} LinesPrefix(a: string, b: string)
    ensures Lines(a) <= Lines(a + b)
    decreases |a|
  {
    var i := Find(a, '\n');
    if i < |a| {
      LinesPrefix(a[i + 1..], b);
      LinesCut(a, b, i);
    }
  }

  // ---------------------------------------------------------------- the server's side

  /** What one read does to the live bytes of the buffer. */
  datatype Fed = Fed(live: string, delivered: Option<string>)

  function Feed(live: string, data: string): Fed {
    var i := Find(data, '\n');
    if i == |data| then Fed(live + data, None)
    else Fed(data[i + 1..], Some(live + data[..i + 1]))
  }

  /** A read without a newline is kept; otherwise the first newline in the new bytes ends the
      message, whatever follows it. */
  lemma FeedFirst(live: string, head: string, tail: string)
    requires '\n' !in head
    ensures Feed(live, head) == Fed(live + head, None)
    ensures Feed(live, head + "\n" + tail) == Fed(tail, Some(live + head + "\n"))
  {
    var s := head + "\n" + tail;
    assert head[..|head|] == head && s[..|head|] == head;
    FindIs(head, '\n', |head|);
    FindIs(s, '\n', |head|);
    assert s[..|head| + 1] == head + "\n" && s[|head| + 1..] == tail;
    Assoc(live, head, "\n");
  }

  function AsSeq(m: Option<string>): seq<string> {
    if m.Some? then [m.value] else []
  }

  function FeedAll(live: string, inputs: seq<string>): (seq<string>, string)
    decreases |inputs|
  {
    if inputs == [] then ([], live)
    else
      var f := Feed(live, inputs[0]);
      var (rest, last) := FeedAll(f.live, inputs[1..]);
      (AsSeq(f.delivered) + rest, last)
  }

  function AllLines(messages: seq<string>): seq<string> {
    if messages == [] then [] else Lines(messages[0]) + AllLines(messages[1..])
  }

  lemma FeedConserves(live: string, data: string)
    ensures Flatten(AsSeq(Feed(live, data).delivered)) + Feed(live, data).live == live + data
    ensures Feed(live, data).delivered.Some? ==> EndsLine(Feed(live, data).delivered.value)
  {
    var i := Find(data, '\n');
    if i < |data| {
      FlattenOne(live + data[..i + 1]);
      assert data[..i + 1] + data[i + 1..] == data;
    }
  }

  lemma Regroup(first: string, rest: string, last: string, live: string, tail: string, held: string, data: string)
    requires rest + last == live + tail
    requires first + live == held + data
    ensures first + rest + last == held + (data + tail) == first + (live + tail)
  {
    assert first + rest + last == first + (rest + last);
    assert first + (live + tail) == (first + live) + tail;
    assert held + (data + tail) == (held + data) + tail;
  }

  lemma FedOne(live: string, data: string)
    ensures FeedAll(live, [data]) == (AsSeq(Feed(live, data).delivered), Feed(live, data).live)
  {
    assert [data][1..] == [];
    assert AsSeq(Feed(live, data).delivered) + [] == AsSeq(Feed(live, data).delivered);
  }

  lemma {:induction false} FedConcat(live: string, a: seq<string>, b: seq<string>)
    ensures var (texts, held) := FeedAll(live, a);
            FeedAll(live, a + b) == (texts + FeedAll(held, b).0, FeedAll(held, b).1)
    decreases |a|
  {
    if a == [] {
      assert a + b == b && [] + FeedAll(live, b).0 == FeedAll(live, b).0;
    } else {
      var f := Feed(live, a[0]);
      assert (a + b)[1..] == a[1..] + b;
      FedConcat(f.live, a[1..], b);
      Assoc(AsSeq(f.delivered), FeedAll(f.live, a[1..]).0, FeedAll(FeedAll(f.live, a[1..]).1, b).0);
    }
  }

  /** For every sequence of reads, nothing is lost, invented or reordered, and every
      message is a run of complete lines. */
  lemma {:induction false} FramingConserves(live: string, inputs: seq<string>)
    ensures var (messages, last) := FeedAll(live, inputs);
            && Flatten(messages) + last == live + Flatten(inputs)
            && (forall m | m in messages :: EndsLine(m))
    decreases |inputs|
  {
    if inputs == [] {
      assert live + "" == live;
    } else {
      var data, f := inputs[0], Feed(live, inputs[0]);
      var (rest, last) := FeedAll(f.live, inputs[1..]);
      FramingConserves(f.live, inputs[1..]);
      FeedConserves(live, data);
      FlattenConcat(AsSeq(f.delivered), rest);
      Regroup(Flatten(AsSeq(f.delivered)), Flatten(rest), last, f.live, Flatten(inputs[1..]), live, data);
    }
  }

  lemma {:induction false} LinesOfMessages(messages: seq<string>, last: string)
    requires forall m | m in messages :: EndsLine(m)
    ensures Lines(Flatten(messages) + last) == AllLines(messages) + Lines(last)
  {
    if messages == [] {
      assert "" + last == last;
    } else {
      var m, rest := messages[0], Flatten(messages[1..]);
      LinesOfMessages(messages[1..], last);
      LinesConcat(m, rest + last);
      Assoc(m, rest, last);
      Assoc(Lines(m), AllLines(messages[1..]), Lines(last));
    }
  }

  /** The lines of the stream are those of the messages, then those still in the buffer. */
  lemma FramingLines(live: string, inputs: seq<string>)
    ensures var (messages, last) := FeedAll(live, inputs);
            Lines(live + Flatten(inputs)) == AllLines(messages) + Lines(last)
  {
    FramingConserves(live, inputs);
    LinesOfMessages(FeedAll(live, inputs).0, FeedAll(live, inputs).1);
  }

  predicate AtMostOneNewlineEach(inputs: seq<string>) {
    forall r | r in inputs :: |Lines(r)| <= 1
  }

  lemma {:induction false} AtMostOneDelivery(live: string, inputs: seq<string>)
    ensures var messages := FeedAll(live, inputs).0;
            && |messages| <= |Lines(Flatten(inputs))|
            && (!AtMostOneNewlineEach(inputs) ==> |messages| < |Lines(Flatten(inputs))|)
    decreases |inputs|
  {
    if inputs != [] {
      AtMostOneDelivery(Feed(live, inputs[0]).live, inputs[1..]);
      LineCountConcat(inputs[0], Flatten(inputs[1..]));
    }
  }

  lemma {:induction false} ExactWhenSpaced(live: string, inputs: seq<string>)
    requires '\n' !in live && AtMostOneNewlineEach(inputs)
    ensures FeedAll(live, inputs).0 == Lines(live + Flatten(inputs))
    decreases |inputs|
  {
    if inputs == [] {
      assert live + "" == live;
      FirstLine(live, "");
    } else {
      var data, rest := inputs[0], Flatten(inputs[1..]);
      var i := Find(data, '\n');
      if i == |data| {
        NoLines(data);
        ExactWhenSpaced(live + data, inputs[1..]);
        Assoc(live, data, rest);
      } else {
        LastNewline(data, i);
        ExactWhenSpaced(data[i + 1..], inputs[1..]);
        LaterCut(live, data, rest, i);
      }
    }
  }

  lemma LastNewline(data: string, i: nat)
    requires i == Find(data, '\n') < |data| && |Lines(data)| <= 1
    ensures '\n' !in data[i + 1..]
  {
    LinesCut(data, "", i);
    NoLines(data[i + 1..]);
  }

  lemma LaterCut(live: string, data: string, rest: string, i: nat)
    requires '\n' !in live && i == Find(data, '\n') < |data|
    ensures Lines(live + (data + rest)) == [live + data[..i + 1]] + Lines(data[i + 1..] + rest)
  {
    var a, c := data[..i], data[i + 1..];
    SplitAtNewline(data);
    FirstLine(live + a, c + rest);
    assert a + "\n" == data[..i + 1];
    Assoc(live, a, "\n");
    Assoc(a + "\n", c, rest);
    Assoc(live, a + "\n", c + rest);
  }

  /** The server delivers exactly the lines of the stream, one a message, if and only if
      no read brings in more than one newline. */
  lemma FramingExact(inputs: seq<string>)
    ensures FeedAll("", inputs).0 == Lines(Flatten(inputs)) <==> AtMostOneNewlineEach(inputs)
  {
    AtMostOneDelivery("", inputs);
    if AtMostOneNewlineEach(inputs) {
      ExactWhenSpaced("", inputs);
      assert "" + Flatten(inputs) == Flatten(inputs);
    }
  }

  // ---------------------------------------------------------------- the client's side

  /** What one read of the client brings at most. */
  const MAX_SIZE: nat := 4096

  function ClientFeed(held: string, data: string): Fed {
    var s := held + data;
    var i := Find(s, '\n');
    if i == |s| then Fed(s, None) else Fed(s[i + 1..], Some(s[..i + 1]))
  }

  function ClientFeedAll(held: string, inputs: seq<string>): (seq<string>, string)
    decreases |inputs|
  {
    if inputs == [] then ([], held)
    else
      var f := ClientFeed(held, inputs[0]);
      var (rest, last) := ClientFeedAll(f.live, inputs[1..]);
      (AsSeq(f.delivered) + rest, last)
  }

  lemma ClientFeedConserves(held: string, data: string)
    ensures Flatten(AsSeq(ClientFeed(held, data).delivered)) + ClientFeed(held, data).live == held + data
  {
    var s := held + data;
    var i := Find(s, '\n');
    if i < |s| {
      FlattenOne(s[..i + 1]);
    }
  }

  lemma ClientFeedLines(held: string, data: string, tail: string)
    ensures var f := ClientFeed(held, data);
            Lines(held + (data + tail)) == AsSeq(f.delivered) + Lines(f.live + tail)
  {
    var s := held + data;
    var i := Find(s, '\n');
    assert held + (data + tail) == s + tail;
    if i < |s| {
      LinesCut(s, tail, i);
      SplitAtNewline(s);
      assert s[..i] + "\n" == s[..i + 1];
    }
  }

  /** For every sequence of reads the client's lines are exactly the first lines of the
      stream, and what it still holds is exactly the rest of it. */
  lemma {:induction false} ClientFraming(held: string, inputs: seq<string>)
    ensures var (taken, last) := ClientFeedAll(held, inputs);
            && Flatten(taken) + last == held + Flatten(inputs)
            && taken + Lines(last) == Lines(held + Flatten(inputs))
    decreases |inputs|
  {
    if inputs == [] {
      assert held + "" == held;
    } else {
      var data, tail, f := inputs[0], Flatten(inputs[1..]), ClientFeed(held, inputs[0]);
      var (rest, last) := ClientFeedAll(f.live, inputs[1..]);
      ClientFraming(f.live, inputs[1..]);
      FlattenConcat(AsSeq(f.delivered), rest);
      ClientFeedConserves(held, data);
      Regroup(Flatten(AsSeq(f.delivered)), Flatten(rest), last, f.live, tail, held, data);
      ClientFeedLines(held, data, tail);
      Assoc(AsSeq(f.delivered), rest, Lines(last));
    }
  }
}
