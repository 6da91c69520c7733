/** What a connection was given to send, and how much of it the kernel took. */
module Logs {
  import opened Text
  import opened Message
  import opened SendQueue

  /** One call of `send_message`: the message, and whether a channel sent it. */
  datatype Posted = Posted(m: Message, shared: bool)

  /** The bytes that spell a log. */
  function Texts(log: seq<Posted>): string {
    if log == [] then "" else Texts(log[..|log| - 1]) + Encode(log[|log| - 1].m)
  }

  /** Every piece that was ever queued, in order. */
  function Pieces(log: seq<Posted>): seq<string> {
    if log == [] then [] else Pieces(log[..|log| - 1]) + Chunks(Encode(log[|log| - 1].m))
  }

  lemma OneMorePosted(log: seq<Posted>, p: Posted)
    ensures Texts(log + [p]) == Texts(log) + Encode(p.m)
    ensures Pieces(log + [p]) == Pieces(log) + Chunks(Encode(p.m))
  {
    assert (log + [p])[..|log|] == log;
  }

  /** No message is empty, so no piece is. */
  lemma {:induction false} PiecesAreFull(log: seq<Posted>)
    ensures forall c | c in Pieces(log) :: c != "" && |c| <= MSG_SIZE_LIMIT
  {
    if log != [] {
      PiecesAreFull(log[..|log| - 1]);
      EncodeNonEmpty(log[|log| - 1].m);
      ChunksOfMessage(Encode(log[|log| - 1].m));
    }
  }

  /** What the kernel took: whole pieces, part of the next one, and the bytes themselves. */
  datatype Taken = Taken(popped: nat, slice: string, wire: string)

  const NOTHING_TAKEN := Taken(0, "", "")

  /** What is left of the pieces. */
  function Left(pieces: seq<string>, t: Taken): Sender {
    Sender(t.slice, if t.popped <= |pieces| then pieces[t.popped..] else [])
  }

  /** The bytes taken and the bytes left are all of `text`. */
  predicate Balanced(pieces: seq<string>, text: string, t: Taken) {
    && t.popped <= |pieces|
    && SenderOk(Left(pieces, t))
    && t.wire + Pending(Left(pieces, t)) == text
  }

  lemma BalancedMore(pieces: seq<string>, text: string, t: Taken, s: string)
    requires Balanced(pieces, text, t)
    ensures Balanced(pieces + Chunks(s), text + s, t)
    ensures Left(pieces + Chunks(s), t) == Enqueue(Left(pieces, t), s)
  {
    var q := Left(pieces, t);
    LeftOfMore(pieces, Chunks(s), t);
    EnqueueConserves(q, s);
    Assoc(t.wire, Pending(q), s);
  }

  lemma LeftOfMore(pieces: seq<string>, more: seq<string>, t: Taken)
    requires t.popped <= |pieces|
    ensures Left(pieces + more, t) == Sender(t.slice, Left(pieces, t).queue + more)
  {
    assert (pieces + more)[t.popped..] == pieces[t.popped..] + more;
  }

  /** What `poll_send` leaves of `t`, for what the calls of `send` answered. */
  function Sent(t: Taken, snd: Sender, d: Drained): Taken {
    var popped := if |d.snd.queue| <= |snd.queue| then |snd.queue| - |d.snd.queue| else 0;
    Taken(t.popped + popped, d.snd.slice, t.wire + d.sent)
  }

  lemma BalancedDrain(pieces: seq<string>, text: string, t: Taken, answers: nat -> SendResult)
    requires Balanced(pieces, text, t)
    ensures var q := Left(pieces, t);
            var d := Drain(q, answers, 0);
            Balanced(pieces, text, Sent(t, q, d)) && Left(pieces, Sent(t, q, d)) == d.snd
  {
    var q := Left(pieces, t);
    var d := Drain(q, answers, 0);
    DrainConserves(q, answers, 0);
    DrainSuffix(q, answers, 0);
    BalancedAfter(pieces, text, t, d);
  }

  lemma BalancedAfter(pieces: seq<string>, text: string, t: Taken, d: Drained)
    requires Balanced(pieces, text, t) && SenderOk(d.snd) && d.sent + Pending(d.snd) == Pending(Left(pieces, t))
    requires var q, r := Left(pieces, t).queue, d.snd.queue; |r| <= |q| && r == q[|q| - |r|..]
    ensures var u := Sent(t, Left(pieces, t), d); Balanced(pieces, text, u) && Left(pieces, u) == d.snd
  {
    LeftOfDrain(pieces, t, d);
    NothingLost(t.wire, d.sent, Pending(d.snd), Pending(Left(pieces, t)), text);
  }

  lemma LeftOfDrain(pieces: seq<string>, t: Taken, d: Drained)
    requires t.popped <= |pieces|
    requires var q, r := pieces[t.popped..], d.snd.queue; |r| <= |q| && r == q[|q| - |r|..]
    ensures var u := Sent(t, Left(pieces, t), d); Left(pieces, u) == d.snd && u.popped <= |pieces|
  {
    SuffixOfSuffix(pieces, t.popped, |d.snd.queue|);
  }

  lemma NothingLost(wire: string, sent: string, left: string, pending: string, all: string)
    requires wire + pending == all && sent + left == pending
    ensures wire + sent + left == all
  {
    Assoc(wire, sent, left);
  }

  lemma SuffixOfSuffix<T>(s: seq<T>, i: nat, n: nat)
    requires i <= |s| && n <= |s| - i
    ensures s[i..][|s| - i - n..] == s[|s| - n..]
  {
  }

  // ---------------------------------------------------------------- of a log

  /** `snd` is what is left to send of `log` when `t` is what was taken. */
  ghost predicate Holds(log: seq<Posted>, t: Taken, snd: Sender) {
    Balanced(Pieces(log), Texts(log), t) && snd == Left(Pieces(log), t)
  }

  /** `Holds`, unfolded only where it is mentioned. */
  ghost predicate SendOk(log: seq<Posted>, t: Taken, snd: Sender) {
    forall q {:trigger Holds(log, t, q)} | q == snd :: Holds(log, t, q)
  }

  lemma NothingPosted()
    ensures SendOk([], NOTHING_TAKEN, Sender("", []))
  {
    assert Holds([], NOTHING_TAKEN, Sender("", []));
  }

  /** The bytes taken and the bytes queued are the bytes of the log, in order, and every
      piece is full. */
  lemma SendFacts(log: seq<Posted>, t: Taken, snd: Sender)
    requires SendOk(log, t, snd)
    ensures SenderOk(snd) && t.wire + Pending(snd) == Texts(log)
    ensures forall c | c in snd.queue :: c != "" && |c| <= MSG_SIZE_LIMIT
  {
    assert Holds(log, t, snd);
    PiecesAreFull(log);
  }

  lemma SenderIsUnique(log: seq<Posted>, t: Taken, snd: Sender, other: Sender)
    requires SendOk(log, t, snd) && SendOk(log, t, other)
    ensures snd == other
  {
    assert Holds(log, t, snd) && Holds(log, t, other);
  }

  /** The send side that a log and what was taken of it determine. */
  ghost function Out(log: seq<Posted>, t: Taken): Sender {
    if exists snd :: SendOk(log, t, snd) then var snd :| SendOk(log, t, snd); snd else Sender("", [])
  }

  lemma OutIs(log: seq<Posted>, t: Taken, snd: Sender)
    requires SendOk(log, t, snd)
    ensures Out(log, t) == snd
  {
    SenderIsUnique(log, t, snd, Out(log, t));
  }

  /** Posting a message enqueues it and takes nothing. */
  lemma PostingKeeps(log: seq<Posted>, t: Taken, snd: Sender, p: Posted)
    requires SendOk(log, t, snd)
    ensures SendOk(log + [p], t, Enqueue(snd, Encode(p.m)))
  {
    assert Holds(log, t, snd);
    OneMorePosted(log, p);
    BalancedMore(Pieces(log), Texts(log), t, Encode(p.m));
    assert Holds(log + [p], t, Enqueue(snd, Encode(p.m)));
  }

  lemma DrainTakes(log: seq<Posted>, t: Taken, snd: Sender, answers: nat -> SendResult)
    requires SendOk(log, t, snd)
    ensures var d := Drain(snd, answers, 0);
            SendOk(log, Sent(t, snd, d), d.snd)
  {
    assert Holds(log, t, snd);
    BalancedDrain(Pieces(log), Texts(log), t, answers);
    assert Holds(log, Sent(t, snd, Drain(snd, answers, 0)), Drain(snd, answers, 0).snd);
  }

  /** With nothing but full pieces queued, a drain throws if and only if the first call of
      `send` that does not take all it is given fails, and closes the connection if and only
      if that call takes nothing. */
  lemma DrainStops(log: seq<Posted>, t: Taken, snd: Sender, answers: nat -> SendResult)
    requires SendOk(log, t, snd)
    ensures Drain(snd, answers, 0).end == Threw <==> StopsWith(snd, answers, Failed)
    ensures Drain(snd, answers, 0).end == Closed <==> StopsWith(snd, answers, Accepted(0))
    ensures Drain(snd, answers, 0).end == Emptied <==> StopsAt(snd, answers, 0, |snd.queue|)
  {
    SendFacts(log, t, snd);
    DrainEnds(snd, answers);
  }

  /** What a drain keeps. */
  lemma DrainFacts(log: seq<Posted>, t: Taken, snd: Sender, answers: nat -> SendResult)
    requires SendOk(log, t, snd)
    ensures var d := Drain(snd, answers, 0);
            && SendOk(log, Sent(t, snd, d), d.snd) && |d.snd.queue| <= |snd.queue|
            && (d.end == Emptied <==> d.snd.queue == [])
            && (d.end == Closed <==> StopsWith(snd, answers, Accepted(0)))
            && (d.end == Threw <==> StopsWith(snd, answers, Failed))
    ensures SenderOk(snd)
  {
    SendFacts(log, t, snd);
    DrainStops(log, t, snd, answers);
    DrainConserves(snd, answers, 0);
    DrainSuffix(snd, answers, 0);
    DrainTakes(log, t, snd, answers);
  }

  /** The send side of a log that has none is empty, so every send side has full pieces. */
  lemma OutIsFull(log: seq<Posted>, t: Taken)
    ensures SenderOk(Out(log, t)) && PiecesFull(Out(log, t).queue)
  {
    if exists snd :: SendOk(log, t, snd) {
      SendFacts(log, t, Out(log, t));
    }
  }
}
