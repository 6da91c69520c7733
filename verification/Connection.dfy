/** One client's connection: framed input, queued output and its two poll tokens. */
module Connections {
  import opened Text
  import opened Message
  import opened SendQueue
  import opened Polling
  import opened Framing
  import opened Logs

  const BUF_SIZE: nat := 4096

  /** What one call of `recv` answers. */
  datatype RecvResult = Data(bytes: string) | EndOfStream | RecvWouldBlock | RecvFailed

  /** `vector::resize(n, 0)`. */
  function Resize(s: string, n: nat): (r: string)
    ensures |r| == n && (n <= |s| ==> r == s[..n]) && (n >= |s| ==> r[..|s|] == s)
  {
    if n <= |s| then s[..n] else s + seq(n - |s|, _ => '\0')
  }

  /** What `recv` and `resize` leave of a buffer with `idx` live bytes. */
  function Grown(buf: string, idx: nat, bytes: string): (r: string)
    requires |buf| == idx + BUF_SIZE && |bytes| <= BUF_SIZE
    ensures |r| == idx + |bytes| + BUF_SIZE && r[..idx + |bytes|] == buf[..idx] + bytes
  {
    var written := buf[..idx] + bytes + buf[idx + |bytes|..];
    ResizeKeeps(written, idx + |bytes| + BUF_SIZE, idx + |bytes|);
    assert written[..idx + |bytes|] == buf[..idx] + bytes;
    Resize(written, idx + |bytes| + BUF_SIZE)
  }

  /** What `rotate` and `resize` leave of it. */
  function Rotated(buf: string, idx: nat, msgEnd: nat): (r: string)
    requires |buf| == idx + BUF_SIZE && msgEnd < idx
    ensures |r| == idx - (msgEnd + 1) + BUF_SIZE && r[..idx - (msgEnd + 1)] == buf[..idx][msgEnd + 1..]
  {
    var rotated := buf[msgEnd + 1..idx] + buf[..msgEnd + 1] + buf[idx..];
    assert rotated[..idx - (msgEnd + 1)] == buf[..idx][msgEnd + 1..];
    Resize(rotated, idx - (msgEnd + 1) + BUF_SIZE)
  }

  lemma ResizeKeeps(s: string, n: nat, k: nat)
    requires k <= |s| <= n
    ensures Resize(s, n)[..k] == s[..k]
  {
    assert Resize(s, n)[..|s|][..k] == s[..k];
  }

  /** The state of a connection that decides which tokens are registered for it. */
  datatype Link = Link(fd: int, connected: bool, recvTok: Option<nat>, sendTok: Option<nat>)

  /** What no handler touches: the receive side, and what the kernel took from the send side. */
  datatype Intake = Intake(buf: string, idx: nat, delivered: string, received: string, taken: Taken)

  class Connection {
    const id: nat
    const fd: int
    const registry: PollRegistry

    var recvTok: Option<nat>
    var recvBuf: string
    var recvIdx: nat
    var sendTok: Option<nat>
    var sendBuf: string
    var sendQueue: seq<string>
    var connected: bool

    /** Every message enqueued, the pieces that were sent whole, and every byte the kernel
        took or gave. */
    ghost var log: seq<Posted>
    ghost var popped: nat
    ghost var wire: string
    ghost var delivered: string
    ghost var received: string

    ghost function Snd(): Sender
      reads this
    {
      Sender(sendBuf, sendQueue)
    }

    ghost function Live(): string
      reads this
    {
      LiveOf(Input())
    }

    ghost function Input(): Intake
      reads this
    {
      Intake(recvBuf, recvIdx, delivered, received, Output())
    }

    ghost function Output(): Taken
      reads this
    {
      Taken(popped, sendBuf, wire)
    }

    ghost function View(): Link
      reads this
    {
      Link(fd, connected, recvTok, sendTok)
    }

    /** Nothing is lost in either direction. */
    ghost predicate Conserved()
      reads this
    {
      && InputOk(Input())
      && SendOk(log, Output(), Snd())
      && recvTok.Some?
    }

    /** A connected client is polled for output exactly while there is some. */
    ghost predicate Valid()
      reads this
    {
      Conserved() && (connected ==> (sendTok.Some? <==> sendQueue != []))
    }

    constructor (fd: int, id: nat, registry: PollRegistry)
      requires registry.Valid()
      modifies registry
      ensures Valid() && connected && log == [] && wire == "" && received == "" && sendQueue == []
      ensures this.id == id && this.fd == fd && this.registry == registry && PortOf(Input()) == NEW_PORT
      ensures View() == Link(fd, true, Some(old(registry.view).next), None)
      ensures registry.Valid() && Evolves(old(registry.view), registry.view)
      ensures registry.view == Register(old(registry.view), fd, POLLIN, OnReadable(id))
    {
      this.id, this.fd, this.registry := id, fd, registry;
      recvBuf, recvIdx := Resize("", BUF_SIZE), 0;
      NothingPosted();
      sendTok, sendBuf, sendQueue := None, "", [];
      connected := true;
      log, popped, wire, delivered, received := [], 0, "", "", "";
      var tok := registry.RegisterEvent(fd, POLLIN, OnReadable(id));
      recvTok := Some(tok);
    }

    /** `send_message(std::string)`: every caller prints a message. */
    method SendText(s: string, ghost m: Message, ghost shared: bool)
      requires Valid() && registry.Valid() && s == Encode(m)
      modifies this`sendTok, this`sendQueue, this`log, registry
      ensures Valid() && registry.Valid() && Evolves(old(registry.view), registry.view)
      ensures log == old(log) + [Posted(m, shared)]
      ensures Snd() == Enqueue(old(Snd()), s)
      ensures old(sendTok).Some? ==> sendTok == old(sendTok) && registry.view == old(registry.view)
      ensures old(sendTok).None? ==>
                && sendTok == Some(old(registry.view).next)
                && registry.view == Register(old(registry.view), fd, POLLOUT, OnWritable(id))
    {
      Put(s, m, shared);
      WatchOutput();
    }

    method WatchOutput()
      requires registry.Valid()
      modifies this`sendTok, registry
      ensures registry.Valid() && Evolves(old(registry.view), registry.view) && sendTok.Some?
      ensures old(sendTok).Some? ==> sendTok == old(sendTok) && registry.view == old(registry.view)
      ensures old(sendTok).None? ==>
                && sendTok == Some(old(registry.view).next)
                && registry.view == Register(old(registry.view), fd, POLLOUT, OnWritable(id))
    {
      EvolvesReflexive(registry.view);
      if sendTok.None? {
        var tok := registry.RegisterEvent(fd, POLLOUT, OnWritable(id));
        sendTok := Some(tok);
      }
    }

    method Put(s: string, ghost m: Message, ghost shared: bool)
      requires Conserved() && s == Encode(m)
      modifies this`sendQueue, this`log
      ensures Conserved() && sendQueue != []
      ensures log == old(log) + [Posted(m, shared)] && Snd() == Enqueue(old(Snd()), s)
    {
      PostingKeeps(log, Output(), Snd(), Posted(m, shared));
      EnqueueIsSome(Snd(), s);
      QueueChunks(s);
      log := log + [Posted(m, shared)];
    }

    /** The `do`-`while` loop that cuts a message into pieces. */
    method QueueChunks(s: string)
      modifies this`sendQueue
      ensures sendQueue == old(sendQueue) + Chunks(s)
    {
      var slice, more := s, true;
      while more
        invariant if more then sendQueue + Chunks(slice) == old(sendQueue) + Chunks(s)
                  else sendQueue == old(sendQueue) + Chunks(s)
        decreases |slice| + if more then 1 else 0
      {
        var n := if |slice| < MSG_SIZE_LIMIT then |slice| else MSG_SIZE_LIMIT;
        if n == |slice| {
          assert slice[..n] == slice;
        } else {
          Assoc(sendQueue, [slice[..n]], Chunks(slice[n..]));
        }
        sendQueue := sendQueue + [slice[..n]];
        slice := slice[n..];
        more := slice != "";
      }
    }

    /** `send_message(irc::message)`. */
    method SendMessage(m: Message)
      requires Valid() && registry.Valid()
      modifies this`sendTok, this`sendQueue, this`log, registry
      ensures Valid() && registry.Valid() && Evolves(old(registry.view), registry.view)
      ensures log == old(log) + [Posted(m, false)]
      ensures Snd() == Enqueue(old(Snd()), Encode(m))
      ensures old(sendTok).Some? ==> sendTok == old(sendTok) && registry.view == old(registry.view)
      ensures old(sendTok).None? ==>
                && sendTok == Some(old(registry.view).next)
                && registry.view == Register(old(registry.view), fd, POLLOUT, OnWritable(id))
    {
      SendText(Encode(m), m, false);
    }

    method Disconnect()
      requires Conserved() && registry.Valid()
      modifies this`connected, registry
      ensures Valid() && !connected
      ensures registry.Valid() && Evolves(old(registry.view), registry.view)
      ensures registry.view == Unlinked(old(registry.view), old(View()))
    {
      EvolvesReflexive(registry.view);
      if !connected {
        return;
      }
      ghost var before := registry.view;
      var _ := registry.UnregisterEvent(recvTok.value);
      ghost var between := registry.view;
      if sendTok.Some? {
        var _ := registry.UnregisterEvent(sendTok.value);
        EvolvesTransitive(before, between, registry.view);
      }
      connected := false;
    }

    /** `answers` are what the calls of `send` return. */
    method PollSend(answers: nat -> SendResult) returns (threw: bool)
      requires Valid() && registry.Valid() && connected && sendTok.Some?
      modifies this`sendBuf, this`sendQueue, this`sendTok, this`connected, this`popped, this`wire, registry
      ensures Valid() && registry.Valid() && Evolves(old(registry.view), registry.view)
      ensures Snd() == Drain(old(Snd()), answers, 0).snd
      ensures Input() == old(Input()).(taken := Sent(old(Output()), old(Snd()), Drain(old(Snd()), answers, 0)))
      ensures threw <==> StopsWith(old(Snd()), answers, Failed)
      ensures !connected <==> StopsWith(old(Snd()), answers, Accepted(0))
      ensures var end := Drain(old(Snd()), answers, 0).end;
              && threw == (end == Threw)
              && connected == (end != Closed)
              && sendTok == (if end == Emptied then None else old(sendTok))
              && registry.view == AfterDrain(old(registry.view), old(View()), end)
    {
      var end := DrainQueue(answers);
      Unwatch(end);
      return end == Threw;
    }

    /** What `poll_send` does when its loop ends. */
    method Unwatch(end: End)
      requires Conserved() && registry.Valid() && connected && sendTok.Some? && (end == Emptied <==> sendQueue == [])
      modifies this`sendTok, this`connected, registry
      ensures Valid() && registry.Valid() && Evolves(old(registry.view), registry.view)
      ensures connected == (end != Closed) && sendTok == (if end == Emptied then None else old(sendTok))
      ensures registry.view == AfterDrain(old(registry.view), old(View()), end)
    {
      EvolvesReflexive(registry.view);
      if end == Emptied {
        var _ := registry.UnregisterEvent(sendTok.value);
        sendTok := None;
      } else if end == Closed {
        Disconnect();
      }
    }

    /** `poll_send` up to what it does when its loop ends. */
    method DrainQueue(answers: nat -> SendResult) returns (end: End)
      requires Conserved()
      modifies this`sendBuf, this`sendQueue, this`popped, this`wire
      ensures Conserved() && (end == Emptied <==> sendQueue == [])
      ensures var d := Drain(old(Snd()), answers, 0);
              Snd() == d.snd && Output() == Sent(old(Output()), old(Snd()), d) && end == d.end
      ensures end == Closed <==> StopsWith(old(Snd()), answers, Accepted(0))
      ensures end == Threw <==> StopsWith(old(Snd()), answers, Failed)
    {
      DrainFacts(log, Output(), Snd(), answers);
      end := DrainLoop(answers);
    }

    method DrainLoop(answers: nat -> SendResult) returns (end: End)
      requires SenderOk(Snd())
      modifies this`sendBuf, this`sendQueue, this`popped, this`wire
      ensures var d := Drain(old(Snd()), answers, 0);
              Snd() == d.snd && wire == old(wire) + d.sent && end == d.end
      ensures popped + |sendQueue| == old(popped + |sendQueue|)
    {
      ghost var goal := Drain(Snd(), answers, 0);
      var k := 0;
      while true
        invariant SenderOk(Snd()) && popped + |sendQueue| == old(popped + |sendQueue|)
        invariant Drain(Snd(), answers, k).snd == goal.snd && Drain(Snd(), answers, k).end == goal.end
        invariant wire + Drain(Snd(), answers, k).sent == old(wire) + goal.sent
        decreases |sendQueue|
      {
        if sendBuf == "" && sendQueue == [] {
          assert wire + "" == wire;
          return Emptied;
        }
        ghost var turn := SendOnce(Snd(), answers(k));
        SendOnceConserves(Snd(), answers(k));
        Assoc(wire, turn.sent, Drain(turn.snd, answers, k + 1).sent);
        var stop := SendSlice(answers(k));
        if stop.Some? {
          return stop.value;
        }
        k := k + 1;
      }
    }

    /** One turn of the loop of `poll_send`: how the loop ends, if it does. */
    method SendSlice(answer: SendResult) returns (end: Option<End>)
      requires SenderOk(Snd()) && sendQueue != []
      modifies this`sendBuf, this`sendQueue, this`popped, this`wire
      ensures var t := SendOnce(old(Snd()), answer);
              Snd() == t.snd && wire == old(wire) + t.sent && end == t.end
      ensures popped + |sendQueue| == old(popped + |sendQueue|)
    {
      if sendBuf == "" {
        sendBuf := sendQueue[0];
      }
      match answer {
        case WouldBlock =>
          assert wire + "" == wire;
          return Some(Waiting);
        case Failed =>
          assert wire + "" == wire;
          return Some(Threw);
        case Accepted(m) =>
          var n := if m < |sendBuf| then m else |sendBuf|;
          if n == 0 {
            assert wire + "" == wire;
            return Some(Closed);
          }
          wire := wire + sendBuf[..n];
          sendBuf := sendBuf[n..];
          if sendBuf != "" {
            return Some(Waiting);
          }
          sendQueue := sendQueue[1..];
          popped := popped + 1;
          return None;
      }
    }

    /** `poll_recv` up to the call of the handler: a message is returned to be handled. */
    method Receive(r: RecvResult) returns (msg: Option<string>, msgEnd: nat, threw: bool)
      requires Valid() && registry.Valid() && connected
      requires r.Data? ==> 0 < |r.bytes| <= BUF_SIZE
      modifies this`recvBuf, this`recvIdx, this`received, this`connected, registry
      ensures registry.Valid() && Evolves(old(registry.view), registry.view)
      ensures Valid() && threw == r.RecvFailed?
      ensures connected == !r.EndOfStream?
      ensures registry.view == if r.EndOfStream? then Unlinked(old(registry.view), old(View()))
                                 else old(registry.view)
      ensures Received(Reading(old(Input()), r, Input(), msg, msgEnd))
    {
      EvolvesReflexive(registry.view);
      msg, msgEnd, threw := None, 0, false;
      match r {
        case EndOfStream => Disconnect();
        case RecvWouldBlock =>
        case RecvFailed => threw := true;
        case Data(bytes) =>
          msg, msgEnd := TakeData(bytes);
      }
    }

    method TakeData(bytes: string) returns (msg: Option<string>, msgEnd: nat)
      requires Valid() && |bytes| <= BUF_SIZE
      modifies this`recvBuf, this`recvIdx, this`received
      ensures Valid() && received == old(received) + bytes
      ensures Framed(old(Live()), bytes, Live(), msg, msgEnd)
    {
      Append(bytes);
      msg, msgEnd := None, 0;
      var i := Find(bytes, '\n');
      if i < |bytes| {
        msgEnd := recvIdx - |bytes| + i;
        msg := Some(recvBuf[..msgEnd + 1]);
        PrefixOfPrefix(recvBuf, recvIdx, msgEnd + 1);
      }
    }

    method Append(bytes: string)
      requires Valid() && |bytes| <= BUF_SIZE
      modifies this`recvBuf, this`recvIdx, this`received
      ensures Valid() && Live() == old(Live()) + bytes && recvIdx == old(recvIdx) + |bytes|
      ensures received == old(received) + bytes
    {
      Assoc(delivered, Live(), bytes);
      recvBuf := Grown(recvBuf, recvIdx, bytes);
      recvIdx := recvIdx + |bytes|;
      received := received + bytes;
    }

    /** `poll_recv` after the call of the handler: the rotation that brings the next message
        to the start of the buffer. */
    method Compact(msgEnd: nat)
      requires Valid() && msgEnd < recvIdx
      modifies this`recvBuf, this`recvIdx, this`delivered
      ensures Valid() && Trimmed(old(Input()), msgEnd, Input())
    {
      LiveParts(delivered, Live(), msgEnd + 1);
      delivered := delivered + Live()[..msgEnd + 1];
      recvBuf := Rotated(recvBuf, recvIdx, msgEnd);
      recvIdx := recvIdx - (msgEnd + 1);
    }
  }

  /** A connection's two ends as values: the live bytes of its buffer, and what was taken
      from its queue. */
  datatype Port = Port(live: string, taken: Taken)

  const NEW_PORT := Port("", NOTHING_TAKEN)

  function PortOf(i: Intake): Port {
    Port(LiveOf(i), i.taken)
  }

  /** The buffer keeps its free space, and no byte received is lost. */
  predicate InputOk(i: Intake) {
    |i.buf| == i.idx + BUF_SIZE && i.delivered + LiveOf(i) == i.received
  }

  /** What `poll_send` leaves of the registry. */
  ghost function AfterDrain(r: Registry, l: Link, end: End): Registry
    requires l.recvTok.Some? && l.sendTok.Some?
  {
    if end == Emptied then Unregister(r, l.sendTok.value)
    else if end == Closed then Unlinked(r, l)
    else r
  }

  /** The bytes of the buffer that hold data. */
  function LiveOf(i: Intake): string {
    if i.idx <= |i.buf| then i.buf[..i.idx] else ""
  }

  /** One call of `poll_recv`, up to the call of the handler: the receive side before and
      after, and the message found. */
  datatype Reading = Reading(before: Intake, r: RecvResult, after: Intake, msg: Option<string>, msgEnd: nat)

  predicate Reads(x: Reading) {
    if x.r.Data? then
      && x.after.received == x.before.received + x.r.bytes && x.after.delivered == x.before.delivered
      && x.after.taken == x.before.taken
      && Framed(LiveOf(x.before), x.r.bytes, LiveOf(x.after), x.msg, x.msgEnd)
    else x.after == x.before && x.msg == None
  }

  /** `Reads`, unfolded only where it is mentioned. */
  ghost predicate Received(x: Reading) {
    forall y {:trigger Reads(y)} | y == x :: Reads(y)
  }

  /** What `poll_recv` does after the handler returns. */
  predicate Trims(i: Intake, msgEnd: nat, j: Intake) {
    && msgEnd < |LiveOf(i)| && LiveOf(j) == LiveOf(i)[msgEnd + 1..]
    && j.received == i.received && j.delivered == i.delivered + LiveOf(i)[..msgEnd + 1] && j.taken == i.taken
  }

  /** `Trims`, unfolded only where it is mentioned. */
  ghost predicate Trimmed(i: Intake, msgEnd: nat, j: Intake) {
    forall k {:trigger Trims(i, msgEnd, k)} | k == j :: Trims(i, msgEnd, k)
  }

  /** What it does altogether. */
  predicate ReadDone(i: Intake, r: RecvResult, j: Intake) {
    if r.Data? then
      var f := Feed(LiveOf(i), r.bytes);
      && j.received == i.received + r.bytes && LiveOf(j) == f.live && j.taken == i.taken
      && j.delivered == i.delivered + if f.delivered.Some? then f.delivered.value else ""
    else j == i
  }

  lemma ReadIsDone(x: Reading, j: Intake)
    requires Received(x) && if x.msg.Some? then Trimmed(x.after, x.msgEnd, j) else j == x.after
    ensures ReadDone(x.before, x.r, j)
  {
    assert Reads(x);
    if x.r.Data? {
      FramedFeeds(LiveOf(x.before), x.r.bytes, LiveOf(x.after), x.msg, x.msgEnd);
    }
    if x.msg.Some? {
      assert Trims(x.after, x.msgEnd, j);
    }
    assert x.before.delivered + "" == x.before.delivered;
  }

  /** The message handed over, and where it ends. */
  lemma ReadDelivers(x: Reading)
    requires Received(x)
    ensures x.msg == if x.r.Data? then Feed(LiveOf(x.before), x.r.bytes).delivered else None
    ensures x.msg.Some? ==> x.msgEnd < |LiveOf(x.after)|
  {
    assert Reads(x);
    if x.r.Data? {
      FramedFeeds(LiveOf(x.before), x.r.bytes, LiveOf(x.after), x.msg, x.msgEnd);
    }
  }

  /** A read brings `live` to `now`. Only the new bytes are searched; a message runs from
      the start of the buffer to the first new newline, at `msgEnd`. */
  predicate Framed(live: string, bytes: string, now: string, msg: Option<string>, msgEnd: nat) {
    && now == live + bytes
    && var i := Find(bytes, '\n');
       if i == |bytes| then msg == None
       else msgEnd == |live| + i && msg == Some(now[..msgEnd + 1])
  }

  /** That is what `Feed` delivers and leaves. */
  lemma FramedFeeds(live: string, bytes: string, now: string, msg: Option<string>, msgEnd: nat)
    requires Framed(live, bytes, now, msg, msgEnd)
    ensures msg == Feed(live, bytes).delivered
    ensures if msg.None? then now == Feed(live, bytes).live
            else msgEnd < |now| && now[msgEnd + 1..] == Feed(live, bytes).live
  {
    var i := Find(bytes, '\n');
    if i < |bytes| {
      CutAtNewline(live, bytes, now, i);
    }
  }

  lemma CutAtNewline(live: string, bytes: string, now: string, i: nat)
    requires i < |bytes| && now == live + bytes
    ensures now[..|live| + i + 1] == live + bytes[..i + 1] && now[|live| + i + 1..] == bytes[i + 1..]
  {
  }

  lemma PrefixOfPrefix(s: string, n: nat, k: nat)
    requires k <= n <= |s|
    ensures s[..n][..k] == s[..k]
  {
  }

  lemma LiveParts(delivered: string, live: string, k: nat)
    requires k <= |live|
    ensures delivered + live[..k] + live[k..] == delivered + live
  {
    assert live[..k] + live[k..] == live;
    Assoc(delivered, live[..k], live[k..]);
  }

  /** What `disconnect` leaves of the registry. */
  ghost function Unlinked(r: Registry, l: Link): Registry
    requires l.recvTok.Some?
  {
    if !l.connected then r
    else
      var s := Unregister(r, l.recvTok.value);
      if l.sendTok.Some? then Unregister(s, l.sendTok.value) else s
  }
}
