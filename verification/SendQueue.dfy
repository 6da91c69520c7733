/** The send side of a connection: a queue of chunks and the unsent slice of its front. */
module SendQueue {
  import opened Text

  const MSG_SIZE_LIMIT: nat := 4096

  datatype Sender = Sender(slice: string, queue: seq<string>)

  /** The pieces `send_message` puts in the queue; the empty message makes one empty piece. */
  function Chunks(s: string): seq<string> {
    if |s| <= MSG_SIZE_LIMIT then [s] else [s[..MSG_SIZE_LIMIT]] + Chunks(s[MSG_SIZE_LIMIT..])
  }

  lemma {:induction false} ChunksOfMessage(s: string)
    ensures Flatten(Chunks(s)) == s
    ensures forall c | c in Chunks(s) :: |c| <= MSG_SIZE_LIMIT && (s != "" ==> c != "")
    ensures s != "" ==> |Chunks(s)| == (|s| + MSG_SIZE_LIMIT - 1) / MSG_SIZE_LIMIT
  {
    if |s| <= MSG_SIZE_LIMIT {
      FlattenOne(s);
    } else {
      ChunksOfMessage(s[MSG_SIZE_LIMIT..]);
      assert Chunks(s)[1..] == Chunks(s[MSG_SIZE_LIMIT..]);
    }
  }

  /** Every piece but the last is as long as a piece can be. */
  lemma {:induction false} ChunksAreFull(s: string, i: nat)
    requires i < |Chunks(s)| - 1
    ensures |Chunks(s)[i]| == MSG_SIZE_LIMIT
  {
    if i > 0 {
      ChunksAreFull(s[MSG_SIZE_LIMIT..], i - 1);
    }
  }

  /** The slice is the end of the front of the queue, or empty. */
  predicate SenderOk(snd: Sender) {
    snd.slice != "" ==>
      && snd.queue != []
      && |snd.slice| <= |snd.queue[0]|
      && snd.slice == snd.queue[0][|snd.queue[0]| - |snd.slice|..]
  }

  /** What the next call of `send` is given. */
  function Front(snd: Sender): string
    requires snd.queue != []
  {
    if snd.slice == "" then snd.queue[0] else snd.slice
  }

  /** The bytes still to be sent, in order. */
  function Pending(snd: Sender): string {
    if snd.queue == [] then "" else Front(snd) + Flatten(snd.queue[1..])
  }

  function Enqueue(snd: Sender, s: string): Sender {
    snd.(queue := snd.queue + Chunks(s))
  }

  /** One call of `send` that would block: the slice stays loaded. */
  function Stall(snd: Sender): Sender
    requires snd.queue != []
  {
    snd.(slice := Front(snd))
  }

  /** One call of `send` that takes `n` bytes; a finished front is popped. */
  function Transmit(snd: Sender, n: nat): Sender
    requires snd.queue != [] && n <= |Front(snd)|
  {
    if n == |Front(snd)| then Sender("", snd.queue[1..]) else snd.(slice := Front(snd)[n..])
  }

  lemma EnqueueConserves(snd: Sender, s: string)
    requires SenderOk(snd)
    ensures SenderOk(Enqueue(snd, s))
    ensures Pending(Enqueue(snd, s)) == Pending(snd) + s
    ensures Enqueue(snd, s).queue != []
  {
    ChunksOfMessage(s);
    if snd.queue == [] {
      assert snd.queue + Chunks(s) == Chunks(s);
      assert "" + s == s;
    } else {
      PendingMore(snd, Chunks(s));
    }
  }

  lemma PendingMore(snd: Sender, more: seq<string>)
    requires snd.queue != []
    ensures Pending(snd.(queue := snd.queue + more)) == Pending(snd) + Flatten(more)
  {
    var q := snd.queue;
    assert (q + more)[1..] == q[1..] + more;
    FlattenConcat(q[1..], more);
    Assoc(Front(snd), Flatten(q[1..]), Flatten(more));
  }

  lemma EnqueueIsSome(snd: Sender, s: string)
    ensures Enqueue(snd, s).queue != []
  {
  }

  lemma TransmitConserves(snd: Sender, n: nat)
    requires SenderOk(snd) && snd.queue != [] && 0 < n <= |Front(snd)|
    ensures SenderOk(Transmit(snd, n))
    ensures Front(snd)[..n] + Pending(Transmit(snd, n)) == Pending(snd)
  {
    var f, rest := Front(snd), snd.queue[1..];
    if n == |f| {
      assert f[..n] == f;
      if rest != [] {
        assert Flatten(rest) == rest[0] + Flatten(rest[1..]);
      }
    } else {
      assert f[..n] + f[n..] == f;
      Assoc(f[..n], f[n..], Flatten(rest));
    }
  }

  lemma StallConserves(snd: Sender)
    requires SenderOk(snd) && snd.queue != []
    ensures SenderOk(Stall(snd)) && Pending(Stall(snd)) == Pending(snd)
  {
  }

  // ---------------------------------------------------------------- one poll_send

  /** What one call of `send` answers; the kernel never takes more than it is offered. */
  datatype SendResult = Accepted(n: nat) | WouldBlock | Failed

  datatype End = Emptied | Waiting | Closed | Threw

  /** The state, the bytes taken, and how the loop ended if it did. */
  datatype SendTurn = SendTurn(snd: Sender, sent: string, end: Option<End>)

  datatype Drained = Drained(snd: Sender, sent: string, end: End)

  /** One call of `send` in the drain loop, on a non-empty queue. */
  function SendOnce(snd: Sender, answer: SendResult): (t: SendTurn)
    requires snd.queue != []
    ensures t.end.None? ==> |t.snd.queue| < |snd.queue|
  {
    var f := Front(snd);
    match answer
    case WouldBlock => SendTurn(Stall(snd), "", Some(Waiting))
    case Failed => SendTurn(Stall(snd), "", Some(Threw))
    case Accepted(m) =>
      var n := if m < |f| then m else |f|;
      if n == 0 then SendTurn(Stall(snd), "", Some(Closed))
      else SendTurn(Transmit(snd, n), f[..n], if n < |f| then Some(Waiting) else None)
  }

  /** The drain loop: `answers(k)` is what the `k`-th call of `send` returns. */
  function Drain(snd: Sender, answers: nat -> SendResult, k: nat): Drained
    decreases |snd.queue|
  {
    if snd.queue == [] then Drained(snd, "", Emptied)
    else
      var t := SendOnce(snd, answers(k));
      if t.end.Some? then Drained(t.snd, t.sent, t.end.value)
      else
        var d := Drain(t.snd, answers, k + 1);
        d.(sent := t.sent + d.sent)
  }

  lemma SendOnceConserves(snd: Sender, answer: SendResult)
    requires SenderOk(snd) && snd.queue != []
    ensures var t := SendOnce(snd, answer);
            && SenderOk(t.snd)
            && t.sent + Pending(t.snd) == Pending(snd)
            && (t.end.Some? ==> t.end.value != Emptied && t.snd.queue != [])
  {
    var f := Front(snd);
    if answer.Accepted? && answer.n > 0 && f != "" {
      TransmitConserves(snd, if answer.n < |f| then answer.n else |f|);
    } else {
      StallConserves(snd);
      NothingFirst(Pending(snd));
    }
  }

  lemma NothingFirst(s: string)
    ensures "" + s == s
  {
  }

  /** Send conservation: what a drain sent, then what is left, is what was pending; the
      loop says it is done exactly when nothing is left. */
  lemma {:induction false} DrainConserves(snd: Sender, answers: nat -> SendResult, k: nat)
    requires SenderOk(snd)
    ensures var d := Drain(snd, answers, k);
            && SenderOk(d.snd)
            && d.sent + Pending(d.snd) == Pending(snd)
            && (d.end == Emptied <==> d.snd.queue == [])
    decreases |snd.queue|
  {
    if snd.queue != [] {
      var t := SendOnce(snd, answers(k));
      SendOnceConserves(snd, answers(k));
      if t.end.None? {
        var d := Drain(t.snd, answers, k + 1);
        DrainConserves(t.snd, answers, k + 1);
        Assoc(t.sent, d.sent, Pending(d.snd));
      }
    }
  }

  /** A drain only takes pieces off the front. */
  lemma {:induction false} DrainSuffix(snd: Sender, answers: nat -> SendResult, k: nat)
    ensures var q, r := snd.queue, Drain(snd, answers, k).snd.queue;
            |r| <= |q| && r == q[|q| - |r|..]
    decreases |snd.queue|
  {
    if snd.queue != [] {
      var t := SendOnce(snd, answers(k));
      if t.end.None? {
        DrainSuffix(t.snd, answers, k + 1);
      }
    }
  }

  // ---------------------------------------------------------------- how a drain ends

  /** What the `i`-th call of `send` is given: the front of the queue, then whole pieces. */
  function Offer(snd: Sender, i: nat): string
    requires i < |snd.queue|
  {
    if i == 0 then Front(snd) else snd.queue[i]
  }

  predicate TakesAll(answer: SendResult, offer: string) {
    answer.Accepted? && answer.n >= |offer|
  }

  /** The calls from the `k`-th on take all they are given, up to the `j`-th after it. */
  predicate StopsAt(snd: Sender, answers: nat -> SendResult, k: nat, j: nat) {
    && j <= |snd.queue|
    && (forall i | 0 <= i < j :: TakesAll(answers(k + i), Offer(snd, i)))
    && (j < |snd.queue| ==> !TakesAll(answers(k + j), Offer(snd, j)))
  }

  /** The first `j` offers, one after the other. */
  function Offers(snd: Sender, j: nat): string
    requires j <= |snd.queue|
  {
    if j == 0 then "" else Front(snd) + Flatten(snd.queue[1..j])
  }

  /** How many bytes of its offer the answer takes. */
  function Part(answer: SendResult): nat {
    if answer.Accepted? then answer.n else 0
  }

  function EndOf(answer: SendResult): End {
    match answer
    case Failed => Threw
    case WouldBlock => Waiting
    case Accepted(n) => if n == 0 then Closed else Waiting
  }

  predicate PiecesFull(queue: seq<string>) {
    forall c | c in queue :: c != ""
  }

  /** What a drain leaves and sends when the `j`-th answer is the first that does not take all
      of its offer, or there is none. */
  predicate DrainsTo(snd: Sender, answers: nat -> SendResult, k: nat, j: nat, d: Drained)
    requires j <= |snd.queue|
  {
    if j == |snd.queue| then
      d == Drained(if snd.queue == [] then snd else Sender("", []), Offers(snd, j), Emptied)
    else
      var offer, n := Offer(snd, j), Part(answers(k + j));
      && n < |offer| && d.end == EndOf(answers(k + j))
      && d.snd == Sender(offer[n..], snd.queue[j..]) && d.sent == Offers(snd, j) + offer[..n]
  }

  /** With non-empty pieces, the first answer that does not take all of its offer decides how
      a drain ends, and everything before it and what it takes of its offer is sent. */
  lemma {:induction false} DrainExactly(snd: Sender, answers: nat -> SendResult, k: nat, j: nat)
    requires SenderOk(snd) && PiecesFull(snd.queue) && StopsAt(snd, answers, k, j)
    ensures DrainsTo(snd, answers, k, j, Drain(snd, answers, k))
    decreases |snd.queue|
  {
    if snd.queue != [] {
      if j == 0 {
        StopsFirst(snd, answers, k);
      } else {
        AfterOffer(snd, answers, k, j);
        DrainExactly(Sender("", snd.queue[1..]), answers, k + 1, j - 1);
        StopsLater(snd, answers, k, j);
      }
    }
  }

  lemma StopsFirst(snd: Sender, answers: nat -> SendResult, k: nat)
    requires SenderOk(snd) && PiecesFull(snd.queue) && snd.queue != [] && StopsAt(snd, answers, k, 0)
    ensures DrainsTo(snd, answers, k, 0, Drain(snd, answers, k))
  {
    assert snd.queue[0] in snd.queue && !TakesAll(answers(k + 0), Offer(snd, 0));
    NothingFirst(Front(snd)[..Part(answers(k))]);
  }

  lemma StopsLater(snd: Sender, answers: nat -> SendResult, k: nat, j: nat)
    requires PiecesFull(snd.queue) && snd.queue != [] && 0 < j && StopsAt(snd, answers, k, j) && SenderOk(snd)
    requires var next := Sender("", snd.queue[1..]); DrainsTo(next, answers, k + 1, j - 1, Drain(next, answers, k + 1))
    ensures DrainsTo(snd, answers, k, j, Drain(snd, answers, k))
  {
    var f, next := Front(snd), Sender("", snd.queue[1..]);
    assert snd.queue[0] in snd.queue && TakesAll(answers(k + 0), Offer(snd, 0)) && f[..|f|] == f;
    assert SendOnce(snd, answers(k)) == SendTurn(next, f, None);
    OffersMore(snd, next, j);
    if j < |snd.queue| {
      AfterOffer(snd, answers, k, j);
      assert Offer(next, j - 1) == Offer(snd, j) && k + 1 + (j - 1) == k + j;
      assert snd.queue[1..][j - 1..] == snd.queue[j..];
      Assoc(f, Offers(next, j - 1), Offer(snd, j)[..Part(answers(k + j))]);
    }
  }

  lemma AfterOffer(snd: Sender, answers: nat -> SendResult, k: nat, j: nat)
    requires snd.queue != [] && PiecesFull(snd.queue) && 0 < j && StopsAt(snd, answers, k, j)
    ensures PiecesFull(snd.queue[1..]) && StopsAt(Sender("", snd.queue[1..]), answers, k + 1, j - 1)
    ensures forall i | 0 <= i < |snd.queue| - 1 :: Offer(Sender("", snd.queue[1..]), i) == Offer(snd, i + 1)
  {
    var next := Sender("", snd.queue[1..]);
    assert forall c | c in snd.queue[1..] :: c in snd.queue;
    forall i | 0 <= i < j - 1
      ensures TakesAll(answers(k + 1 + i), Offer(next, i))
    {
      assert TakesAll(answers(k + (i + 1)), Offer(snd, i + 1));
    }
    assert k + 1 + (j - 1) == k + j;
  }

  lemma OffersMore(snd: Sender, next: Sender, j: nat)
    requires 0 < j <= |snd.queue| && next == Sender("", snd.queue[1..])
    ensures Offers(snd, j) == Front(snd) + Offers(next, j - 1)
  {
    if j > 1 {
      assert snd.queue[1..j] == [snd.queue[1]] + snd.queue[2..j] && snd.queue[1..][1..j - 1] == snd.queue[2..j];
    }
  }

  /** There is always a first such answer, or none. */
  lemma {:induction false} StopExists(snd: Sender, answers: nat -> SendResult, n: nat) returns (j: nat)
    requires n <= |snd.queue| && forall i | 0 <= i < n :: TakesAll(answers(i), Offer(snd, i))
    ensures StopsAt(snd, answers, 0, j)
    decreases |snd.queue| - n
  {
    if n == |snd.queue| || !TakesAll(answers(n), Offer(snd, n)) {
      j := n;
    } else {
      j := StopExists(snd, answers, n + 1);
    }
  }

  /** The first call that does not take all of its offer answers `answer`. */
  ghost predicate StopsWith(snd: Sender, answers: nat -> SendResult, answer: SendResult) {
    exists j: nat :: j < |snd.queue| && StopsAt(snd, answers, 0, j) && answers(j) == answer
  }

  /** It would block, or takes a part of its offer. */
  ghost predicate StopsShort(snd: Sender, answers: nat -> SendResult) {
    exists j: nat :: j < |snd.queue| && StopsAt(snd, answers, 0, j)
                     && (answers(j) == WouldBlock || (answers(j).Accepted? && answers(j).n > 0))
  }

  lemma OnlyStop(snd: Sender, answers: nat -> SendResult, j: nat, answer: SendResult)
    requires StopsAt(snd, answers, 0, j)
    ensures StopsWith(snd, answers, answer) <==> j < |snd.queue| && answers(j) == answer
    ensures StopsShort(snd, answers) <==>
              j < |snd.queue| && (answers(j) == WouldBlock || (answers(j).Accepted? && answers(j).n > 0))
    ensures StopsAt(snd, answers, 0, |snd.queue|) <==> j == |snd.queue|
  {
    forall i: nat
      ensures i != j ==> !StopsAt(snd, answers, 0, i)
    {
      if i != j {
        OneStop(snd, answers, i, j);
      }
    }
  }

  lemma OneStop(snd: Sender, answers: nat -> SendResult, i: nat, j: nat)
    requires i != j && StopsAt(snd, answers, 0, j)
    ensures !StopsAt(snd, answers, 0, i)
  {
    if i < j {
      assert TakesAll(answers(0 + i), Offer(snd, i));
    } else if j < |snd.queue| {
      assert !TakesAll(answers(0 + j), Offer(snd, j));
    }
  }

  /** Each ending of a drain, in terms of what `send` answers and is given. */
  lemma DrainEnds(snd: Sender, answers: nat -> SendResult)
    requires SenderOk(snd) && PiecesFull(snd.queue)
    ensures var end := Drain(snd, answers, 0).end;
            && (end == Threw <==> StopsWith(snd, answers, Failed))
            && (end == Closed <==> StopsWith(snd, answers, Accepted(0)))
            && (end == Waiting <==> StopsShort(snd, answers))
            && (end == Emptied <==> StopsAt(snd, answers, 0, |snd.queue|))
  {
    var j := StopExists(snd, answers, 0);
    DrainExactly(snd, answers, 0, j);
    OnlyStop(snd, answers, j, Failed);
    OnlyStop(snd, answers, j, Accepted(0));
    assert 0 + j == j;
  }
}
