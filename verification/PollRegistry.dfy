/** The registry of polled descriptors: two parallel vectors that callbacks may grow and
    shrink while the dispatch loop walks them by index. */
module Polling {
  import opened Text

  /** A `short` mask of poll events, as the set of its bits. */
  type Mask = set<nat>

  const POLLIN: Mask := {0}
  const POLLOUT: Mask := {2}

  /** What a registered callback captures. */
  datatype Callback = OnAccept | OnReadable(id: nat) | OnWritable(id: nat)

  datatype PollFd = PollFd(fd: int, events: Mask, revents: Mask)

  datatype Entry = Entry(poll: PollFd, cb: Callback, tok: nat)

  datatype Registry = Registry(next: nat, entries: seq<Entry>)

  predicate Ready(e: Entry) {
    e.poll.revents * e.poll.events != {}
  }

  /** Tokens are handed out in order and never reused, so the vectors stay sorted by token. */
  predicate RegistryOk(r: Registry) {
    && (forall i, j | 0 <= i < j < |r.entries| :: r.entries[i].tok < r.entries[j].tok)
    && (forall i | 0 <= i < |r.entries| :: r.entries[i].tok < r.next)
  }

  ghost function Toks(r: Registry): set<nat> {
    set e | e in r.entries :: e.tok
  }

  ghost predicate Registered(r: Registry, tok: nat) {
    tok in Toks(r)
  }

  /** A registration: its token, its callback, and what is polled for it. */
  datatype Watch = Watch(tok: nat, cb: Callback, fd: int, events: Mask)

  function AsWatch(e: Entry): Watch {
    Watch(e.tok, e.cb, e.poll.fd, e.poll.events)
  }

  predicate Watching(r: Registry, w: Watch) {
    exists e | e in r.entries :: AsWatch(e) == w
  }

  function Register(r: Registry, fd: int, events: Mask, cb: Callback): Registry {
    Registry(r.next + 1, r.entries + [Entry(PollFd(fd, events, {}), cb, r.next)])
  }

  function IndexOf(es: seq<Entry>, tok: nat): (i: nat)
    ensures i <= |es|
    ensures forall j | 0 <= j < i :: es[j].tok != tok
    ensures i < |es| ==> es[i].tok == tok
  {
    if es == [] || es[0].tok == tok then 0 else 1 + IndexOf(es[1..], tok)
  }

  function Without(es: seq<Entry>, i: nat): (r: seq<Entry>)
    requires i < |es|
    ensures |r| == |es| - 1
    ensures forall j | 0 <= j < |r| :: r[j] == es[if j < i then j else j + 1]
  {
    es[..i] + es[i + 1..]
  }

  function Unregister(r: Registry, tok: nat): Registry {
    var i := IndexOf(r.entries, tok);
    if i == |r.entries| then r else r.(entries := Without(r.entries, i))
  }

  /** What `::poll` writes before the callbacks run. */
  function Polled(r: Registry, revents: nat -> Mask): Registry {
    r.(entries := seq(|r.entries|, i requires 0 <= i < |r.entries| =>
      r.entries[i].(poll := r.entries[i].poll.(revents := revents(i)))))
  }

  /** After a poll an entry is ready exactly if an event that was asked for came. */
  lemma PolledReady(r: Registry, revents: nat -> Mask, i: nat)
    requires i < |r.entries|
    ensures |Polled(r, revents).entries| == |r.entries| && Polled(r, revents).next == r.next
    ensures AsWatch(Polled(r, revents).entries[i]) == AsWatch(r.entries[i])
    ensures Ready(Polled(r, revents).entries[i]) <==> exists b :: b in revents(i) && b in r.entries[i].poll.events
  {
    var common := revents(i) * r.entries[i].poll.events;
    assert forall b :: b in common <==> b in revents(i) && b in r.entries[i].poll.events;
    if common != {} {
      var b :| b in common;
    }
  }

  // ---------------------------------------------------------------- evolution

  /** What any callback can do to the registry: drop entries, and add ones that the current
      pass does not see as ready. */
  ghost predicate Evolves(r: Registry, s: Registry) {
    && r.next <= s.next
    && (forall e | e in s.entries && e.tok < r.next :: e in r.entries)
    && (forall e {:trigger Ready(e)} | e in s.entries && e.tok >= r.next :: !Ready(e))
  }

  lemma EvolvesReflexive(r: Registry)
    requires RegistryOk(r)
    ensures Evolves(r, r)
  {
  }

  lemma EvolvesTransitive(r: Registry, s: Registry, t: Registry)
    requires Evolves(r, s) && Evolves(s, t)
    ensures Evolves(r, t)
  {
  }

  lemma RegisterEvolves(r: Registry, fd: int, events: Mask, cb: Callback)
    requires RegistryOk(r)
    ensures RegistryOk(Register(r, fd, events, cb)) && Evolves(r, Register(r, fd, events, cb))
  {
  }

  lemma FoundIndex(r: Registry, tok: nat)
    ensures Registered(r, tok) <==> IndexOf(r.entries, tok) < |r.entries|
  {
    var i := IndexOf(r.entries, tok);
    if i < |r.entries| {
      assert r.entries[i] in r.entries;
    }
  }

  lemma UnregisterSorted(r: Registry, tok: nat)
    requires RegistryOk(r)
    ensures var s, i := Unregister(r, tok), IndexOf(r.entries, tok);
            && RegistryOk(s)
            && |s.entries| == |r.entries| - (if i < |r.entries| then 1 else 0)
            && forall j | 0 <= j < |s.entries| :: s.entries[j] == r.entries[if j < i then j else j + 1]
  {
  }

  lemma UnregisterEvolves(r: Registry, tok: nat)
    requires RegistryOk(r)
    ensures RegistryOk(Unregister(r, tok)) && Evolves(r, Unregister(r, tok))
    ensures !Registered(Unregister(r, tok), tok)
    ensures !Registered(r, tok) ==> Unregister(r, tok) == r
  {
    UnregisterSorted(r, tok);
    FoundIndex(r, tok);
    var s, i := Unregister(r, tok), IndexOf(r.entries, tok);
    forall e | e in s.entries
      ensures e in r.entries && e.tok != tok
    {
      var j :| 0 <= j < |s.entries| && s.entries[j] == e;
      var m := if j < i then j else j + 1;
      assert s.entries[j] == r.entries[m];
    }
  }

  /** Entries only ever move towards the front. */
  lemma {:induction false} MovesForward(r: Registry, s: Registry, j: nat)
    requires RegistryOk(r) && RegistryOk(s) && Evolves(r, s)
    requires j < |s.entries| && s.entries[j].tok < r.next
    ensures exists m | j <= m < |r.entries| :: r.entries[m] == s.entries[j]
  {
    assert s.entries[j] in s.entries;
    var m :| 0 <= m < |r.entries| && r.entries[m] == s.entries[j];
    if j > 0 {
      MovesForward(r, s, j - 1);
      var n :| j - 1 <= n < |r.entries| && r.entries[n] == s.entries[j - 1];
      assert n < m;
    }
  }

  ghost function ReadyToks(r: Registry, i: nat): set<nat> {
    set k | i <= k < |r.entries| && Ready(r.entries[k]) :: r.entries[k].tok
  }

  /** The tokens still to be called: those of the ready entries from `i` on. No callback
      can add to them, and calling entry `i` takes its own token out. */
  lemma ReadyShrinks(r: Registry, s: Registry, i: nat)
    requires RegistryOk(r) && RegistryOk(s) && Evolves(r, s)
    ensures ReadyToks(s, i) <= ReadyToks(r, i)
    ensures ReadyToks(r, i + 1) <= ReadyToks(r, i)
    ensures i < |r.entries| && Ready(r.entries[i]) ==> r.entries[i].tok in ReadyToks(r, i) - ReadyToks(r, i + 1)
  {
    forall t | t in ReadyToks(s, i)
      ensures t in ReadyToks(r, i)
    {
      var k :| i <= k < |s.entries| && Ready(s.entries[k]) && s.entries[k].tok == t;
      assert s.entries[k] in s.entries;
      MovesForward(r, s, k);
    }
  }

  /** One turn, whatever the callback did: the measure of the loop goes down. */
  lemma TurnShrinks(r: Registry, s: Registry, i: nat)
    requires RegistryOk(r) && RegistryOk(s) && Evolves(r, s) && i < |r.entries|
    ensures Ready(r.entries[i]) ==> ReadyToks(s, i + 1) < ReadyToks(r, i)
    ensures ReadyToks(r, i + 1) <= ReadyToks(r, i)
  {
    ReadyShrinks(r, r, i);
    ReadyShrinks(r, s, i);
    ReadyShrinks(r, s, i + 1);
  }

  // ---------------------------------------------------------------- one pass

  /** A callback reaches the registry through these two calls alone. */
  datatype Op = Add(fd: int, events: Mask, cb: Callback) | Drop(tok: nat)

  datatype Note = Called(tok: nat) | Added(tok: nat) | Dropped(tok: nat)

  function Apply(r: Registry, op: Op): Registry {
    match op
    case Add(fd, events, cb) => Register(r, fd, events, cb)
    case Drop(tok) => Unregister(r, tok)
  }

  function Report(r: Registry, op: Op): seq<Note> {
    match op
    case Add(_, _, _) => [Added(r.next)]
    case Drop(tok) => if IndexOf(r.entries, tok) < |r.entries| then [Dropped(tok)] else []
  }

  function ApplyAll(r: Registry, ops: seq<Op>): (Registry, seq<Note>)
    decreases |ops|
  {
    if ops == [] then (r, [])
    else
      var (s, events) := ApplyAll(Apply(r, ops[0]), ops[1..]);
      (s, Report(r, ops[0]) + events)
  }

  /** What a callback reports: tokens that are new, and tokens that are gone for good. */
  ghost predicate OpsDone(r: Registry, s: Registry, events: seq<Note>) {
    forall e | e in events :: !e.Called? && (e.Added? ==> r.next <= e.tok)
                              && (e.Dropped? ==> e.tok < s.next && !Registered(s, e.tok))
  }

  lemma OneOp(r: Registry, op: Op)
    requires RegistryOk(r)
    ensures var s := Apply(r, op); RegistryOk(s) && Evolves(r, s) && OpsDone(r, s, Report(r, op))
  {
    match op
    case Add(fd, events, cb) => RegisterEvolves(r, fd, events, cb);
    case Drop(tok) =>
      UnregisterEvolves(r, tok);
      if IndexOf(r.entries, tok) < |r.entries| {
        assert r.entries[IndexOf(r.entries, tok)].tok < r.next;
      }
  }

  lemma OpsCompose(r: Registry, s: Registry, t: Registry, first: seq<Note>, rest: seq<Note>)
    requires Evolves(r, s) && Evolves(s, t)
    requires OpsDone(r, s, first) && OpsDone(s, t, rest)
    ensures Evolves(r, t) && OpsDone(r, t, first + rest)
  {
  }

  lemma {:induction false} ApplyAllEvolves(r: Registry, ops: seq<Op>)
    requires RegistryOk(r)
    ensures var (s, events) := ApplyAll(r, ops);
            RegistryOk(s) && Evolves(r, s) && OpsDone(r, s, events)
    decreases |ops|
  {
    if ops != [] {
      var s := Apply(r, ops[0]);
      OneOp(r, ops[0]);
      ApplyAllEvolves(s, ops[1..]);
      var (t, rest) := ApplyAll(s, ops[1..]);
      OpsCompose(r, s, t, Report(r, ops[0]), rest);
    }
  }

  /** The walk from index `i`: `script(k)` is what the `k`-th callback does. */
  ghost function Dispatch(r: Registry, i: nat, script: nat -> seq<Op>, k: nat): (Registry, seq<Note>)
    requires RegistryOk(r)
    decreases ReadyToks(r, i), |r.entries| - i
  {
    if i >= |r.entries| then (r, [])
    else if Ready(r.entries[i]) then
      var (s, done) := ApplyAll(r, script(k));
      ApplyAllEvolves(r, script(k));
      TurnShrinks(r, s, i);
      var (t, rest) := Dispatch(s, i + 1, script, k + 1);
      (t, [Called(r.entries[i].tok)] + done + rest)
    else
      ReadyShrinks(r, r, i);
      Dispatch(r, i + 1, script, k)
  }

  ghost predicate CallsIncrease(events: seq<Note>) {
    forall a, b | 0 <= a < b < |events| && events[a].Called? && events[b].Called? :: events[a].tok < events[b].tok
  }

  /** Nothing is called after it was dropped, nor after it was added. */
  ghost predicate CallsAreLive(events: seq<Note>) {
    forall a, b | 0 <= a < b < |events| && !events[a].Called? && events[b].Called? :: events[a].tok != events[b].tok
  }

  ghost predicate CallsWithin(events: seq<Note>, toks: set<nat>) {
    forall e | e in events && e.Called? :: e.tok in toks
  }

  /** Tokens are called in strictly increasing order, each was registered and ready when
      the walk reached `i`, and none is called after its own removal or registration. */
  ghost predicate GoodPass(r: Registry, i: nat, s: Registry, events: seq<Note>) {
    && RegistryOk(s) && Evolves(r, s)
    && CallsIncrease(events) && CallsAreLive(events)
    && CallsWithin(events, ReadyToks(r, i))
  }

  /** `GoodPass`, unfolded only where it is mentioned. */
  ghost predicate IsGood(r: Registry, i: nat, s: Registry, events: seq<Note>) {
    forall t {:trigger GoodPass(r, i, t, events)} | t == s :: GoodPass(r, i, t, events)
  }

  /** Dispatch under mutation: the walk from any index is a good pass, whatever the callbacks do. */
  lemma DispatchOrder(r: Registry, i: nat, script: nat -> seq<Op>, k: nat)
    requires RegistryOk(r)
    ensures var (s, events) := Dispatch(r, i, script, k);
            GoodPass(r, i, s, events)
  {
    DispatchIsGood(r, i, script, k);
    var (s, events) := Dispatch(r, i, script, k);
    assert GoodPass(r, i, s, events);
  }

  lemma {:induction false} DispatchIsGood(r: Registry, i: nat, script: nat -> seq<Op>, k: nat)
    requires RegistryOk(r)
    ensures IsGood(r, i, Dispatch(r, i, script, k).0, Dispatch(r, i, script, k).1)
    decreases ReadyToks(r, i), |r.entries| - i
  {
    if i >= |r.entries| {
      NothingIsGood(r, i);
    } else if Ready(r.entries[i]) {
      var (s, done) := ApplyAll(r, script(k));
      ApplyAllEvolves(r, script(k));
      TurnShrinks(r, s, i);
      DispatchIsGood(s, i + 1, script, k + 1);
      DispatchCalls(r, i, script, k);
      CallThenRest(r, i, s, done, Dispatch(s, i + 1, script, k + 1).0, Dispatch(s, i + 1, script, k + 1).1);
    } else {
      ReadyShrinks(r, r, i);
      DispatchIsGood(r, i + 1, script, k);
      SkipOne(r, i, Dispatch(r, i + 1, script, k).0, Dispatch(r, i + 1, script, k).1);
    }
  }

  lemma NothingIsGood(r: Registry, i: nat)
    requires RegistryOk(r)
    ensures IsGood(r, i, r, [])
  {
  }

  lemma DispatchCalls(r: Registry, i: nat, script: nat -> seq<Op>, k: nat)
    requires RegistryOk(r) && i < |r.entries| && Ready(r.entries[i])
    ensures var (s, done) := ApplyAll(r, script(k));
            && RegistryOk(s)
            && Dispatch(r, i, script, k)
               == (Dispatch(s, i + 1, script, k + 1).0,
                   [Called(r.entries[i].tok)] + done + Dispatch(s, i + 1, script, k + 1).1)
  {
    ApplyAllEvolves(r, script(k));
  }

  lemma SkipOne(r: Registry, i: nat, s: Registry, events: seq<Note>)
    requires RegistryOk(r) && i < |r.entries| && IsGood(r, i + 1, s, events)
    ensures IsGood(r, i, s, events)
  {
    assert GoodPass(r, i + 1, s, events);
    ReadyShrinks(r, r, i);
  }

  lemma CallThenRest(r: Registry, i: nat, s: Registry, done: seq<Note>, t: Registry, rest: seq<Note>)
    requires RegistryOk(r) && RegistryOk(s) && Evolves(r, s)
    requires i < |r.entries| && Ready(r.entries[i])
    requires OpsDone(r, s, done) && IsGood(s, i + 1, t, rest)
    ensures IsGood(r, i, t, [Called(r.entries[i].tok)] + done + rest)
  {
    assert GoodPass(s, i + 1, t, rest);
    EvolvesTransitive(r, s, t);
    LaterTokens(r, s, i);
    ReadyShrinks(r, s, i);
    ReadyShrinks(r, s, i + 1);
    Compose(r, s, ReadyToks(s, i + 1), r.entries[i].tok, done, rest);
  }

  lemma LaterToken(r: Registry, s: Registry, i: nat, tok: nat)
    requires RegistryOk(r) && RegistryOk(s) && Evolves(r, s) && i < |r.entries|
    requires tok in ReadyToks(s, i + 1)
    ensures r.entries[i].tok < tok < r.next && Registered(s, tok)
  {
    var m :| i + 1 <= m < |s.entries| && Ready(s.entries[m]) && s.entries[m].tok == tok;
    assert s.entries[m] in s.entries;
    MovesForward(r, s, m);
    var n :| m <= n < |r.entries| && r.entries[n] == s.entries[m];
  }

  ghost predicate Later(t: nat, tok: nat, r: Registry, s: Registry) {
    tok < t < r.next && Registered(s, t)
  }

  ghost predicate AllLater(toks: set<nat>, tok: nat, r: Registry, s: Registry) {
    forall t | t in toks :: Later(t, tok, r, s)
  }

  lemma LaterTokens(r: Registry, s: Registry, i: nat)
    requires RegistryOk(r) && RegistryOk(s) && Evolves(r, s) && i < |r.entries|
    ensures AllLater(ReadyToks(s, i + 1), r.entries[i].tok, r, s)
  {
    forall tok | tok in ReadyToks(s, i + 1)
      ensures Later(tok, r.entries[i].tok, r, s)
    {
      LaterToken(r, s, i, tok);
    }
  }

  lemma Compose(r: Registry, s: Registry, toks: set<nat>, tok: nat, done: seq<Note>, rest: seq<Note>)
    requires OpsDone(r, s, done) && CallsWithin(rest, toks)
    requires AllLater(toks, tok, r, s)
    requires CallsIncrease(rest) && CallsAreLive(rest)
    ensures CallsIncrease([Called(tok)] + done + rest) && CallsAreLive([Called(tok)] + done + rest)
    ensures CallsWithin([Called(tok)] + done + rest, toks + {tok})
  {
    var all, n := [Called(tok)] + done + rest, 1 + |done|;
    assert forall b | 0 < b < n :: all[b] == done[b - 1] && all[b] in done;
    assert forall b | n <= b < |all| :: all[b] == rest[b - n] && all[b] in rest;
  }

  // ---------------------------------------------------------------- misses

  /** The ready entries whose tokens are not in `called`, counted. */
  function Uncalled(es: seq<Entry>, called: set<nat>): nat {
    if es == [] then 0
    else (if Ready(es[0]) && es[0].tok !in called then 1 else 0) + Uncalled(es[1..], called)
  }

  lemma {:induction false} UncalledConcat(a: seq<Entry>, b: seq<Entry>, called: set<nat>)
    ensures Uncalled(a + b, called) == Uncalled(a, called) + Uncalled(b, called)
  {
    if a == [] {
      assert a + b == b;
    } else {
      assert (a + b)[1..] == a[1..] + b;
      UncalledConcat(a[1..], b, called);
    }
  }

  lemma {:induction false} UncalledAntitone(es: seq<Entry>, called: set<nat>, more: set<nat>)
    requires called <= more
    ensures Uncalled(es, more) <= Uncalled(es, called)
  {
    if es != [] {
      UncalledAntitone(es[1..], called, more);
    }
  }

  lemma {:induction false} NoneUncalled(es: seq<Entry>, called: set<nat>, e: Entry)
    requires Uncalled(es, called) == 0 && e in es && Ready(e)
    ensures e.tok in called
  {
    if e != es[0] {
      NoneUncalled(es[1..], called, e);
    }
  }

  function Prefix(es: seq<Entry>, j: nat): seq<Entry> {
    if j <= |es| then es[..j] else es
  }

  function Drops(events: seq<Note>): nat {
    if events == [] then 0 else (if events[0].Dropped? then 1 else 0) + Drops(events[1..])
  }

  lemma {:induction false} DropsConcat(a: seq<Note>, b: seq<Note>)
    ensures Drops(a + b) == Drops(a) + Drops(b)
  {
    if a == [] {
      assert a + b == b;
    } else {
      assert (a + b)[1..] == a[1..] + b;
      DropsConcat(a[1..], b);
    }
  }

  lemma CutAfter(es: seq<Entry>, i: nat, n: nat, m: nat)
    requires i < n <= m + 1 <= |es|
    ensures (es[..i] + es[i + 1..])[..m] == es[..i] + (es[i + 1..n] + es[n..m + 1])
  {
    assert (es[..i] + es[i + 1..])[..m] == es[..i] + es[i + 1..m + 1];
    assert es[i + 1..m + 1] == es[i + 1..n] + es[n..m + 1];
  }

  /** An erasure pulls at most one entry into the part already walked. */
  lemma EraseMiss(es: seq<Entry>, i: nat, j: nat, called: set<nat>)
    requires i < |es|
    ensures Uncalled(Prefix(es[..i] + es[i + 1..], j), called) <= Uncalled(Prefix(es, j), called) + 1
  {
    var after := es[..i] + es[i + 1..];
    if j <= i {
      assert after[..j] == es[..j];
    } else {
      var n := if j < |es| then j else |es|;
      var m := if j < |after| then j else |after|;
      assert Prefix(es, j) == es[..i] + ([es[i]] + es[i + 1..n]);
      CutAfter(es, i, n, m);
      assert Prefix(after, j) == after[..m];
      assert |es[n..m + 1]| <= 1;
      UncalledConcat(es[..i], [es[i]] + es[i + 1..n], called);
      UncalledConcat([es[i]], es[i + 1..n], called);
      UncalledConcat(es[..i], es[i + 1..n] + es[n..m + 1], called);
      UncalledConcat(es[i + 1..n], es[n..m + 1], called);
    }
  }

  lemma OpMiss(r: Registry, op: Op, j: nat, called: set<nat>)
    ensures Uncalled(Prefix(Apply(r, op).entries, j), called)
            <= Uncalled(Prefix(r.entries, j), called) + Drops(Report(r, op))
  {
    match op
    case Add(fd, events, cb) =>
      var e := Entry(PollFd(fd, events, {}), cb, r.next);
      UncalledConcat(r.entries, [e], called);
      if j <= |r.entries| {
        assert (r.entries + [e])[..j] == r.entries[..j];
      } else {
        assert (r.entries + [e])[..|r.entries| + 1] == r.entries + [e];
        assert Prefix(r.entries + [e], j) == r.entries + [e];
      }
    case Drop(tok) =>
      var i := IndexOf(r.entries, tok);
      if i < |r.entries| {
        EraseMiss(r.entries, i, j, called);
      }
  }

  lemma {:induction false} OpsMiss(r: Registry, ops: seq<Op>, j: nat, called: set<nat>)
    ensures Uncalled(Prefix(ApplyAll(r, ops).0.entries, j), called)
            <= Uncalled(Prefix(r.entries, j), called) + Drops(ApplyAll(r, ops).1)
    decreases |ops|
  {
    if ops != [] {
      OpMiss(r, ops[0], j, called);
      OpsMiss(Apply(r, ops[0]), ops[1..], j, called);
      DropsConcat(Report(r, ops[0]), ApplyAll(Apply(r, ops[0]), ops[1..]).1);
    }
  }

  ghost function CalledToks(events: seq<Note>): set<nat> {
    set e | e in events && e.Called? :: e.tok
  }

  lemma WalkOne(r: Registry, i: nat, called: set<nat>)
    requires i < |r.entries|
    ensures var now := if Ready(r.entries[i]) then called + {r.entries[i].tok} else called;
            Uncalled(Prefix(r.entries, i + 1), now) <= Uncalled(Prefix(r.entries, i), called)
  {
    var now := if Ready(r.entries[i]) then called + {r.entries[i].tok} else called;
    assert r.entries[..i + 1] == r.entries[..i] + [r.entries[i]];
    UncalledConcat(r.entries[..i], [r.entries[i]], now);
    UncalledAntitone(r.entries[..i], called, now);
  }

  lemma {:induction false} WalkMisses(r: Registry, i: nat, script: nat -> seq<Op>, k: nat, called: set<nat>)
    requires RegistryOk(r)
    ensures var (s, events) := Dispatch(r, i, script, k);
            Uncalled(s.entries, called + CalledToks(events)) <= Uncalled(Prefix(r.entries, i), called) + Drops(events)
    decreases ReadyToks(r, i), |r.entries| - i
  {
    if i >= |r.entries| {
      assert Prefix(r.entries, i) == r.entries;
      assert called + CalledToks([]) == called;
    } else {
      WalkOne(r, i, called);
      ReadyShrinks(r, r, i);
      if Ready(r.entries[i]) {
        var tok := r.entries[i].tok;
        var (s, done) := ApplyAll(r, script(k));
        ApplyAllEvolves(r, script(k));
        TurnShrinks(r, s, i);
        OpsMiss(r, script(k), i + 1, called + {tok});
        WalkMisses(s, i + 1, script, k + 1, called + {tok});
        var (t, rest) := Dispatch(s, i + 1, script, k + 1);
        DropsConcat([Called(tok)], done);
        DropsConcat([Called(tok)] + done, rest);
        CalledOnce(r, s, tok, done, rest);
        assert called + {tok} + CalledToks(rest) == called + CalledToks([Called(tok)] + done + rest);
      } else {
        WalkMisses(r, i + 1, script, k, called);
      }
    }
  }

  lemma CalledOnce(r: Registry, s: Registry, tok: nat, done: seq<Note>, rest: seq<Note>)
    requires OpsDone(r, s, done)
    ensures CalledToks([Called(tok)] + done + rest) == {tok} + CalledToks(rest)
  {
    var all := [Called(tok)] + done + rest;
    assert forall e :: e in all <==> e == Called(tok) || e in done || e in rest;
    forall t | t in {tok} + CalledToks(rest)
      ensures t in CalledToks(all)
    {
      assert Called(t) in all;
    }
  }

  /** The ready tokens still registered at the end that were not called are at most the
      removals of the pass. */
  lemma MissesBounded(r: Registry, script: nat -> seq<Op>)
    requires RegistryOk(r)
    ensures var (s, events) := Dispatch(r, 0, script, 0);
            Uncalled(s.entries, CalledToks(events)) <= Drops(events)
  {
    WalkMisses(r, 0, script, 0, {});
    var (s, events) := Dispatch(r, 0, script, 0);
    assert {} + CalledToks(events) == CalledToks(events);
    assert Prefix(r.entries, 0) == [];
  }

  lemma {:induction false} OpsKeep(r: Registry, ops: seq<Op>)
    requires Drops(ApplyAll(r, ops).1) == 0
    ensures r.entries <= ApplyAll(r, ops).0.entries
    decreases |ops|
  {
    if ops != [] {
      DropsConcat(Report(r, ops[0]), ApplyAll(Apply(r, ops[0]), ops[1..]).1);
      OpsKeep(Apply(r, ops[0]), ops[1..]);
    }
  }

  lemma {:induction false} WalkKeeps(r: Registry, i: nat, script: nat -> seq<Op>, k: nat)
    requires RegistryOk(r) && Drops(Dispatch(r, i, script, k).1) == 0
    ensures r.entries <= Dispatch(r, i, script, k).0.entries
    decreases ReadyToks(r, i), |r.entries| - i
  {
    if i < |r.entries| {
      ReadyShrinks(r, r, i);
      if Ready(r.entries[i]) {
        var (s, done) := ApplyAll(r, script(k));
        ApplyAllEvolves(r, script(k));
        TurnShrinks(r, s, i);
        var (t, rest) := Dispatch(s, i + 1, script, k + 1);
        DispatchCalls(r, i, script, k);
        DropsConcat([Called(r.entries[i].tok)], done);
        DropsConcat([Called(r.entries[i].tok)] + done, rest);
        OpsKeep(r, script(k));
        WalkKeeps(s, i + 1, script, k + 1);
      } else {
        WalkKeeps(r, i + 1, script, k);
      }
    }
  }

  /** If no callback removes anything, exactly the ready tokens are called, each once. */
  lemma NoDropsNoMisses(r: Registry, script: nat -> seq<Op>)
    requires RegistryOk(r) && Drops(Dispatch(r, 0, script, 0).1) == 0
    ensures CalledToks(Dispatch(r, 0, script, 0).1) == ReadyToks(r, 0)
    ensures CallsIncrease(Dispatch(r, 0, script, 0).1)
  {
    var (s, events) := Dispatch(r, 0, script, 0);
    DispatchOrder(r, 0, script, 0);
    MissesBounded(r, script);
    WalkKeeps(r, 0, script, 0);
    AllCalled(r, s, CalledToks(events));
  }

  lemma AllCalled(r: Registry, s: Registry, called: set<nat>)
    requires r.entries <= s.entries && Uncalled(s.entries, called) == 0
    ensures ReadyToks(r, 0) <= called
  {
    forall t | t in ReadyToks(r, 0)
      ensures t in called
    {
      var k :| 0 <= k < |r.entries| && Ready(r.entries[k]) && r.entries[k].tok == t;
      assert s.entries[k] == r.entries[k];
      NoneUncalled(s.entries, called, r.entries[k]);
    }
  }

  // ---------------------------------------------------------------- misses, for any callback

  /** The tokens of the first `n` entries. */
  ghost function FirstToks(r: Registry, n: nat): set<nat> {
    set k | 0 <= k < n && k < |r.entries| :: r.entries[k].tok
  }

  lemma AddedOne(a: set<nat>, x: nat, b: set<nat>)
    requires x !in a && b == a + {x}
    ensures |b| == |a| + 1
  {
  }

  lemma FrontGrows(r: Registry, n: nat)
    requires RegistryOk(r)
    ensures |FirstToks(r, n + 1)| == |FirstToks(r, n)| + if n < |r.entries| then 1 else 0
  {
    if n < |r.entries| {
      AddedOne(FirstToks(r, n), r.entries[n].tok, FirstToks(r, n + 1));
    } else {
      assert FirstToks(r, n + 1) == FirstToks(r, n);
    }
  }

  lemma {:induction false} FrontSize(r: Registry, n: nat)
    requires RegistryOk(r)
    ensures |FirstToks(r, n)| == if n < |r.entries| then n else |r.entries|
    decreases n
  {
    if n == 0 {
      assert FirstToks(r, n) == {};
    } else {
      FrontSize(r, n - 1);
      FrontGrows(r, n - 1);
    }
  }

  /** The ready tokens among the first `n` that are not in `called`. */
  ghost function Missed(r: Registry, n: nat, called: set<nat>): set<nat> {
    set k | 0 <= k < n && k < |r.entries| && Ready(r.entries[k]) && r.entries[k].tok !in called :: r.entries[k].tok
  }

  /** Where an old entry that is still there was before. */
  lemma WasAt(r: Registry, s: Registry, j: nat) returns (m: nat)
    requires RegistryOk(r) && RegistryOk(s) && Evolves(r, s)
    requires j < |s.entries| && s.entries[j].tok < r.next
    ensures j <= m < |r.entries| && r.entries[m] == s.entries[j]
  {
    MovesForward(r, s, j);
    m :| j <= m < |r.entries| && r.entries[m] == s.entries[j];
  }

  /** What leaves the first `n` places was unregistered. */
  lemma FrontOnlyLoses(r: Registry, s: Registry, n: nat)
    requires RegistryOk(r) && RegistryOk(s) && Evolves(r, s)
    ensures forall x | x in FirstToks(r, n) && x !in FirstToks(s, n) :: x in Toks(r) - Toks(s)
  {
    forall x | x in FirstToks(r, n) && x in Toks(s)
      ensures x in FirstToks(s, n)
    {
      var k :| 0 <= k < n && k < |r.entries| && r.entries[k].tok == x;
      var e :| e in s.entries && e.tok == x;
      var j :| 0 <= j < |s.entries| && s.entries[j] == e;
      var m := WasAt(r, s, j);
    }
    assert forall x | x in FirstToks(r, n) :: x in Toks(r);
  }

  lemma NewlyMissed(r: Registry, s: Registry, i: nat, called: set<nat>)
    requires RegistryOk(r) && RegistryOk(s) && Evolves(r, s) && i < |r.entries|
    ensures forall x | x in Missed(s, i + 1, called + {r.entries[i].tok}) ::
              x in Missed(r, i, called) || (x in FirstToks(s, i + 1) && x !in FirstToks(r, i + 1))
  {
    forall x | x in Missed(s, i + 1, called + {r.entries[i].tok})
      ensures x in Missed(r, i, called) || (x in FirstToks(s, i + 1) && x !in FirstToks(r, i + 1))
    {
      MissedBefore(r, s, i, called, x);
    }
  }

  lemma MissedBefore(r: Registry, s: Registry, i: nat, called: set<nat>, x: nat)
    requires RegistryOk(r) && RegistryOk(s) && Evolves(r, s) && i < |r.entries|
    requires x in Missed(s, i + 1, called + {r.entries[i].tok})
    ensures x in FirstToks(s, i + 1) && (x in FirstToks(r, i + 1) ==> x in Missed(r, i, called))
  {
    var j :| 0 <= j < i + 1 && j < |s.entries| && Ready(s.entries[j]) && s.entries[j].tok == x;
    assert s.entries[j] in s.entries;
    var m := WasAt(r, s, j);
    if x in FirstToks(r, i + 1) {
      var k :| 0 <= k < i + 1 && r.entries[k].tok == x;
    }
  }

  lemma Exchange(p: set<nat>, q: set<nat>)
    requires |q| <= |p|
    ensures |q - p| <= |p - q|
  {
  }

  lemma AtMostBoth(a: set<nat>, b: set<nat>, c: set<nat>)
    requires a <= b + c
    ensures |a| <= |b| + |c|
  {
    Smaller(a, b + c);
  }

  lemma {:induction false} Smaller(a: set<nat>, b: set<nat>)
    requires a <= b
    ensures |a| <= |b|
  {
    if x :| x in a {
      Smaller(a - {x}, b - {x});
    }
  }

  /** The tokens unregistered so far: they were there at some point, and are gone. */
  ghost predicate WereDropped(start: Registry, now: Registry, dropped: set<nat>) {
    && dropped * Toks(now) == {}
    && forall t | t in dropped :: t < now.next && (t in Toks(start) || start.next <= t)
  }

  /** Every token of `now` is one of `start`'s or was handed out since. */
  ghost predicate OnlyNewer(start: Registry, now: Registry) {
    start.next <= now.next && forall t | t in Toks(now) :: t in Toks(start) || start.next <= t
  }

  lemma NewerMore(start: Registry, r: Registry, s: Registry)
    requires OnlyNewer(start, r) && Evolves(r, s)
    ensures OnlyNewer(start, s)
    ensures forall t | t in Toks(s) && t < r.next :: t in Toks(r)
  {
    forall t | t in Toks(s) && t < r.next
      ensures t in Toks(r)
    {
      var e :| e in s.entries && e.tok == t;
      assert e in r.entries;
    }
  }

  lemma WereDroppedMore(start: Registry, r: Registry, s: Registry, dropped: set<nat>)
    requires OnlyNewer(start, r) && Evolves(r, s) && RegistryOk(r) && WereDropped(start, r, dropped)
    ensures WereDropped(start, s, dropped + (Toks(r) - Toks(s)))
    ensures |dropped + (Toks(r) - Toks(s))| == |dropped| + |Toks(r) - Toks(s)|
  {
    NewerMore(start, r, s);
    forall t | t in dropped
      ensures t !in Toks(s) && t !in Toks(r)
    {
      assert t !in dropped * Toks(r);
    }
    assert dropped * (Toks(r) - Toks(s)) == {};
  }

  /** One turn, whatever the callback did: the misses stay at most the removals. */
  lemma TurnMisses(start: Registry, r: Registry, s: Registry, i: nat, called: set<nat>, dropped: set<nat>)
    requires RegistryOk(r) && RegistryOk(s) && OnlyNewer(start, r) && Evolves(r, s) && i < |r.entries|
    requires WereDropped(start, r, dropped) && |Missed(r, i, called)| <= |dropped|
    ensures |Missed(s, i + 1, called + {r.entries[i].tok})| <= |dropped + (Toks(r) - Toks(s))|
  {
    WereDroppedMore(start, r, s, dropped);
    NewMisses(r, s, i, called);
  }

  lemma NewMisses(r: Registry, s: Registry, i: nat, called: set<nat>)
    requires RegistryOk(r) && RegistryOk(s) && Evolves(r, s) && i < |r.entries|
    ensures |Missed(s, i + 1, called + {r.entries[i].tok})| <= |Missed(r, i, called)| + |Toks(r) - Toks(s)|
  {
    FrontOnlyLoses(r, s, i + 1);
    NewlyMissed(r, s, i, called);
    FrontNoLarger(r, s, i);
    CountMisses(FirstToks(r, i + 1), FirstToks(s, i + 1), Toks(r) - Toks(s), Missed(r, i, called),
                Missed(s, i + 1, called + {r.entries[i].tok}));
  }

  lemma FrontNoLarger(r: Registry, s: Registry, i: nat)
    requires RegistryOk(r) && RegistryOk(s) && i < |r.entries|
    ensures |FirstToks(s, i + 1)| <= |FirstToks(r, i + 1)|
  {
    FrontSize(r, i + 1);
    FrontSize(s, i + 1);
  }

  lemma CountMisses(p: set<nat>, q: set<nat>, lost: set<nat>, before: set<nat>, after: set<nat>)
    requires |q| <= |p|
    requires forall x | x in p && x !in q :: x in lost
    requires forall x | x in after :: x in before || (x in q && x !in p)
    ensures |after| <= |before| + |lost|
  {
    Exchange(p, q);
    assert p - q <= lost;
    Smaller(p - q, lost);
    assert after <= before + (q - p);
    AtMostBoth(after, before, q - p);
  }

  lemma SkipMisses(r: Registry, i: nat, called: set<nat>)
    requires i < |r.entries| && !Ready(r.entries[i])
    ensures Missed(r, i + 1, called) == Missed(r, i, called)
  {
  }

  // ---------------------------------------------------------------- the object

  class PollRegistry {
    var nextTok: nat
    var fds: seq<PollFd>
    var callbacksAndToks: seq<(Callback, nat)>

    /** The registry as a value. */
    ghost var view: Registry

    ghost predicate Valid()
      reads this
    {
      && |fds| == |callbacksAndToks|
      && view == Registry(nextTok, Zip(fds, callbacksAndToks))
      && RegistryOk(view)
    }

    constructor ()
      ensures Valid() && view == Registry(0, [])
    {
      nextTok, fds, callbacksAndToks, view := 0, [], [], Registry(0, []);
    }

    method RegisterEvent(fd: int, events: Mask, cb: Callback) returns (tok: nat)
      requires Valid()
      modifies this
      ensures Valid() && view == Register(old(view), fd, events, cb)
      ensures tok == old(view).next
      ensures Evolves(old(view), view)
    {
      RegisterEvolves(view, fd, events, cb);
      tok := nextTok;
      nextTok := nextTok + 1;
      fds := fds + [PollFd(fd, events, {})];
      callbacksAndToks := callbacksAndToks + [(cb, tok)];
      view := Register(view, fd, events, cb);
    }

    method UnregisterEvent(tok: nat) returns (ok: bool)
      requires Valid()
      modifies this
      ensures Valid() && view == Unregister(old(view), tok)
      ensures ok <==> Registered(old(view), tok)
      ensures Evolves(old(view), view)
    {
      UnregisterEvolves(view, tok);
      FoundIndex(view, tok);
      var i := FindToken(tok);
      if i == |callbacksAndToks| {
        return false;
      }
      ZipErase(fds, callbacksAndToks, i);
      callbacksAndToks := callbacksAndToks[..i] + callbacksAndToks[i + 1..];
      fds := fds[..i] + fds[i + 1..];
      view := Unregister(view, tok);
      return true;
    }

    method FindToken(tok: nat) returns (i: nat)
      requires Valid()
      ensures i == IndexOf(view.entries, tok)
    {
      i := 0;
      while i < |callbacksAndToks| && callbacksAndToks[i].1 != tok
        invariant i <= |callbacksAndToks|
        invariant forall j | 0 <= j < i :: callbacksAndToks[j].1 != tok
      {
        i := i + 1;
      }
      IndexIs(view.entries, tok, i);
    }

    /** What `::poll` does to the descriptors. */
    method Poll(revents: nat -> Mask)
      requires Valid()
      modifies this`fds, this`view
      ensures Valid() && view == Polled(old(view), revents)
    {
      fds := seq(|fds|, i requires 0 <= i < |fds| reads this => fds[i].(revents := revents(i)));
      view := Polled(view, revents);
    }

    method RunCallback(ops: seq<Op>) returns (ghost done: seq<Note>)
      requires Valid()
      modifies this
      ensures Valid() && view == ApplyAll(old(view), ops).0 && done == ApplyAll(old(view), ops).1
    {
      done := [];
      ghost var all := ApplyAll(view, ops);
      assert ops[0..] == ops && [] + all.1 == all.1;
      var k := 0;
      while k < |ops|
        invariant k <= |ops| && Valid()
        invariant ApplyAll(view, ops[k..]).0 == all.0 && done + ApplyAll(view, ops[k..]).1 == all.1
      {
        ApplyRest(view, ops, k, done);
        done := done + Report(view, ops[k]);
        match ops[k] {
          case Add(fd, events, cb) => var _ := RegisterEvent(fd, events, cb);
          case Drop(tok) => var _ := UnregisterEvent(tok);
        }
        k := k + 1;
      }
    }

    /** `n` and `revents` are what `::poll` returns; `script(k)` is what the `k`-th callback
        does to the registry. */
    method PollAndDispatch(n: int, revents: nat -> Mask, script: nat -> seq<Op>)
      returns (ret: int, ghost events: seq<Note>)
      requires Valid()
      modifies this
      ensures Valid() && ret == n
      ensures n < 0 ==> view == old(view) && events == []
      ensures n >= 0 ==> RegistryOk(Polled(old(view), revents))
                         && view == Dispatch(Polled(old(view), revents), 0, script, 0).0
                         && events == Dispatch(Polled(old(view), revents), 0, script, 0).1
    {
      events := [];
      if n < 0 {
        return n, events;
      }
      Poll(revents);
      events := Walk(script);
      return n, events;
    }

    /** The loop of `poll_and_dispatch`. */
    method Walk(script: nat -> seq<Op>) returns (ghost events: seq<Note>)
      requires Valid()
      modifies this
      ensures Valid() && (view, events) == Dispatch(old(view), 0, script, 0)
    {
      ghost var all := Dispatch(view, 0, script, 0);
      events := [];
      assert [] + all.1 == all.1;
      var i, k := 0, 0;
      while i < |fds|
        invariant Valid() && Ahead(events, Dispatch(view, i, script, k)) == all
        decreases ReadyToks(view, i), |fds| - i
      {
        k, events := Visit(i, k, script, events);
        i := i + 1;
      }
      assert events + [] == events;
    }

    /** One turn: the `k`-th callback is called if entry `i` is ready. */
    method Visit(i: nat, k: nat, script: nat -> seq<Op>, ghost events: seq<Note>)
      returns (next: nat, ghost after: seq<Note>)
      requires Valid() && i < |fds|
      modifies this
      ensures Valid()
      ensures Ahead(after, Dispatch(view, i + 1, script, next)) == Ahead(events, Dispatch(old(view), i, script, k))
      ensures ReadyToks(view, i + 1) < old(ReadyToks(view, i))
              || (ReadyToks(view, i + 1) <= old(ReadyToks(view, i)) && |fds| == old(|fds|))
    {
      ghost var r := view;
      DispatchStep(r, i, script, k, events);
      next, after := k, events;
      if fds[i].revents * fds[i].events != {} {
        assert Ready(r.entries[i]);
        var done := RunCallback(script(k));
        after := events + ([Called(r.entries[i].tok)] + done);
        next := k + 1;
      }
    }
  }

  /** The rest of a walk, after `events`. */
  ghost function Ahead(events: seq<Note>, rest: (Registry, seq<Note>)): (Registry, seq<Note>) {
    (rest.0, events + rest.1)
  }

  function Zip(fds: seq<PollFd>, cbs: seq<(Callback, nat)>): (es: seq<Entry>)
    requires |fds| == |cbs|
    ensures |es| == |fds|
    ensures forall i | 0 <= i < |fds| :: es[i] == Entry(fds[i], cbs[i].0, cbs[i].1)
  {
    seq(|fds|, i requires 0 <= i < |fds| => Entry(fds[i], cbs[i].0, cbs[i].1))
  }

  lemma ApplyRest(r: Registry, ops: seq<Op>, k: nat, done: seq<Note>)
    requires k < |ops|
    ensures var rest := ApplyAll(Apply(r, ops[k]), ops[k + 1..]);
            && ApplyAll(r, ops[k..]).0 == rest.0
            && done + ApplyAll(r, ops[k..]).1 == done + Report(r, ops[k]) + rest.1
  {
    assert ops[k..][1..] == ops[k + 1..];
    Assoc(done, Report(r, ops[k]), ApplyAll(Apply(r, ops[k]), ops[k + 1..]).1);
  }

  /** One turn of the loop, seen from the specification. */
  lemma DispatchStep(r: Registry, i: nat, script: nat -> seq<Op>, k: nat, events: seq<Note>)
    requires RegistryOk(r) && i < |r.entries|
    ensures var (s, done) := ApplyAll(r, script(k));
            if Ready(r.entries[i]) then
              && RegistryOk(s)
              && ReadyToks(s, i + 1) < ReadyToks(r, i)
              && Dispatch(r, i, script, k).0 == Dispatch(s, i + 1, script, k + 1).0
              && events + Dispatch(r, i, script, k).1
                 == events + ([Called(r.entries[i].tok)] + done) + Dispatch(s, i + 1, script, k + 1).1
            else
              && ReadyToks(r, i + 1) <= ReadyToks(r, i)
              && Dispatch(r, i, script, k) == Dispatch(r, i + 1, script, k)
  {
    var (s, done) := ApplyAll(r, script(k));
    ApplyAllEvolves(r, script(k));
    TurnShrinks(r, s, i);
    if Ready(r.entries[i]) {
      Assoc(events, [Called(r.entries[i].tok)] + done, Dispatch(s, i + 1, script, k + 1).1);
    }
  }

  predicate Increasing(toks: seq<nat>) {
    forall a, b | 0 <= a < b < |toks| :: toks[a] < toks[b]
  }

  predicate Before(toks: seq<nat>, later: set<nat>) {
    forall t, u | t in toks && u in later :: t < u
  }

  /** One turn, whatever the callback did: tokens are still called in increasing order. */
  lemma TurnInOrder(r: Registry, s: Registry, i: nat, called: seq<nat>)
    requires RegistryOk(r) && RegistryOk(s) && Evolves(r, s) && i < |r.entries| && Ready(r.entries[i])
    requires Increasing(called) && Before(called, ReadyToks(r, i))
    ensures Increasing(called + [r.entries[i].tok]) && Before(called + [r.entries[i].tok], ReadyToks(s, i + 1))
  {
    ReadyShrinks(r, s, i);
    ReadyShrinks(r, s, i + 1);
    LaterTokens(r, s, i);
    assert r.entries[i].tok in ReadyToks(r, i);
    assert forall a | 0 <= a < |called| :: called[a] in called;
  }

  lemma ZipErase(fds: seq<PollFd>, cbs: seq<(Callback, nat)>, i: nat)
    requires |fds| == |cbs| && i < |fds|
    ensures Zip(fds[..i] + fds[i + 1..], cbs[..i] + cbs[i + 1..]) == Zip(fds, cbs)[..i] + Zip(fds, cbs)[i + 1..]
  {
  }

  lemma IndexIs(es: seq<Entry>, tok: nat, i: nat)
    requires i <= |es| && (forall j | 0 <= j < i :: es[j].tok != tok)
    requires i < |es| ==> es[i].tok == tok
    ensures IndexOf(es, tok) == i
  {
    var k := IndexOf(es, tok);
  }
}
