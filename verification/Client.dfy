/** The client's receive loop: it keeps what it has not used and takes at most one line
    a read. */
module Clients {
  import opened Text
  import opened Message
  import opened Framing

  function DecodeAll(lines: seq<string>): (r: seq<ParseResult>)
    ensures |r| == |lines|
  {
    if lines == [] then [] else [Decode(lines[0])] + DecodeAll(lines[1..])
  }

  lemma {:induction false} DecodeAllConcat(a: seq<string>, b: seq<string>)
    ensures DecodeAll(a + b) == DecodeAll(a) + DecodeAll(b)
  {
    if a == [] {
      assert a + b == b;
    } else {
      assert (a + b)[1..] == a[1..] + b;
      DecodeAllConcat(a[1..], b);
    }
  }

  lemma {:induction false} OneMoreRead(held: string, inputs: seq<string>, data: string)
    ensures var (taken, last) := ClientFeedAll(held, inputs);
            var f := ClientFeed(last, data);
            ClientFeedAll(held, inputs + [data]) == (taken + AsSeq(f.delivered), f.live)
    decreases |inputs|
  {
    if inputs == [] {
      assert inputs + [data] == [data] && [data][1..] == [];
      var f := ClientFeed(held, data);
      assert AsSeq(f.delivered) + [] == [] + AsSeq(f.delivered);
    } else {
      assert (inputs + [data])[1..] == inputs[1..] + [data];
      var first := ClientFeed(held, inputs[0]);
      OneMoreRead(first.live, inputs[1..], data);
      var (taken, last) := ClientFeedAll(first.live, inputs[1..]);
      Assoc(AsSeq(first.delivered), taken, AsSeq(ClientFeed(last, data).delivered));
    }
  }

  class Client {
    var msgStr: string

    /** Every read, and every message or format error shown. */
    ghost var inputs: seq<string>
    ghost var shown: seq<ParseResult>

    ghost predicate Valid()
      reads this
    {
      var (taken, last) := ClientFeedAll("", inputs);
      msgStr == last && shown == DecodeAll(taken)
    }

    constructor ()
      ensures Valid() && inputs == [] && shown == []
    {
      msgStr, inputs, shown := "", [], [];
    }

    /** One turn of the loop; `line` is the message or the format error it shows. */
    method Receive(data: string) returns (line: Option<ParseResult>)
      requires Valid() && 0 < |data| <= MAX_SIZE
      modifies this
      ensures Valid() && inputs == old(inputs) + [data]
      ensures shown == old(shown) + (if line.Some? then [line.value] else [])
      ensures line.None? <==> '\n' !in old(msgStr) + data
      ensures line != Some(OutOfRange)
    {
      ghost var f := ClientFeed(msgStr, data);
      OneMoreRead("", inputs, data);
      ghost var taken := ClientFeedAll("", inputs).0;
      DecodeAllConcat(taken, AsSeq(f.delivered));
      inputs := inputs + [data];
      msgStr := msgStr + data;
      var endPos := Find(msgStr, '\n');
      NoLines(msgStr);
      if endPos == |msgStr| {
        assert msgStr[..endPos] == msgStr;
        return None;
      }
      OnlyEmptyIsOutOfRange(msgStr[..endPos + 1]);
      var r := Parse(msgStr[..endPos + 1]);
      msgStr := msgStr[endPos + 1..];
      shown := shown + [r];
      return Some(r);
    }
  }

  /** Whatever the reads, what the client shows is what the first lines of the stream say,
      one by one, and it holds the rest of the stream unchanged. */
  lemma ShowsTheFirstLines(inputs: seq<string>)
    ensures var (taken, last) := ClientFeedAll("", inputs);
            && taken <= Lines(Flatten(inputs))
            && DecodeAll(taken) == DecodeAll(Lines(Flatten(inputs)))[..|taken|]
            && Flatten(taken) + last == Flatten(inputs)
  {
    var (taken, last) := ClientFeedAll("", inputs);
    ClientFraming("", inputs);
    assert "" + Flatten(inputs) == Flatten(inputs);
    DecodeAllConcat(taken, Lines(last));
  }
}
