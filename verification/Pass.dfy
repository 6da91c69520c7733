/** One pass of the server's own dispatch loop: which callbacks it calls, and which
    registrations they remove. */
module Passes {
  import opened Polling
  import opened Logs
  import opened ServerSpec
  import opened Invariant
  import opened Wiring
  import opened Worlds
  import opened Callbacks

  // ---------------------------------------------------------------- one pass

  function Tokens(calls: seq<Call>): (toks: seq<nat>)
    ensures |toks| == |calls|
  {
    seq(|calls|, j requires 0 <= j < |calls| => calls[j].tok)
  }

  function TokenSet(calls: seq<Call>): set<nat> {
    set c | c in calls :: c.tok
  }

  /** A walk over the registry that began at `start` and has `now` before it at `index`; the
      `k`-th call removed the registrations `drops[k]`. */
  datatype Pass = Pass(start: Registry, now: Registry, index: nat, calls: seq<Call>, drops: seq<set<Watch>>)

  /** The tokens of everything removed. */
  function DroppedToks(drops: seq<set<Watch>>): set<nat> {
    set k, w | 0 <= k < |drops| && w in drops[k] :: w.tok
  }

  /** The call is of a registration of `r` that is ready: its token and its callback. */
  ghost predicate CallOf(r: Registry, call: Call) {
    exists e :: e in r.entries && Ready(e) && e.tok == call.tok && e.cb == call.cb
  }

  /** Tokens are called in increasing order, and each call is of a registration that was
      there and ready from the start. */
  ghost predicate KeepsOrder(p: Pass) {
    && Increasing(Tokens(p.calls)) && Before(Tokens(p.calls), ReadyToks(p.now, p.index))
    && forall c | c in p.calls :: CallOf(p.start, c)
  }

  /** Tokens are never handed out again; the unregistered ones were there and are gone, and
      the others are still there. */
  ghost predicate KeepsTokens(p: Pass) {
    && Evolves(p.start, p.now) && OnlyNewer(p.start, p.now) && WereDropped(p.start, p.now, DroppedToks(p.drops))
    && Toks(p.start) <= Toks(p.now) + DroppedToks(p.drops)
  }

  /** Each call removed registrations of its own connection alone, at most two and for the
      listener none, and nothing is called that an earlier call removed. */
  ghost predicate KeepsDrops(p: Pass) {
    && |p.drops| == |p.calls|
    && (forall k | 0 <= k < |p.calls| :: OwnDrops(p.drops[k], Who(p.calls[k].cb)))
    && (forall k, w | 0 <= k < |p.calls| && w in p.drops[k] && w.tok < p.start.next :: Watching(p.start, w))
    && (forall j, k | 0 <= j < k < |p.calls| :: p.calls[k].tok !in WatchToks(p.drops[j]))
  }

  /** The ready tokens passed over number at most those unregistered. */
  ghost predicate KeepsCount(p: Pass) {
    |Missed(p.now, p.index, TokenSet(p.calls))| <= |DroppedToks(p.drops)|
  }

  ghost predicate Keeps(p: Pass) {
    KeepsOrder(p) && KeepsTokens(p) && KeepsDrops(p) && KeepsCount(p)
  }

  /** `Keeps`, unfolded only where it is mentioned. */
  ghost predicate Kept(p: Pass) {
    forall q {:trigger Keeps(q)} | q == p :: Keeps(q)
  }

  /** The pass went over every entry: every ready token still registered was called, except
      at most as many as were unregistered. */
  ghost predicate PassDone(p: Pass) {
    p.index >= |p.now.entries| && Keeps(p)
  }

  function Begun(start: Registry): Pass {
    Pass(start, start, 0, [], [])
  }

  function Skipped(p: Pass): Pass {
    p.(index := p.index + 1)
  }

  ghost function Advanced(p: Pass, s: Registry, call: Call): Pass {
    Pass(p.start, s, p.index + 1, p.calls + [call], p.drops + [Lost(p.now, s)])
  }

  lemma PassBegins(start: Registry)
    requires RegistryOk(start)
    ensures Kept(Begun(start))
  {
    EvolvesReflexive(start);
    assert DroppedToks([]) == {};
    assert Missed(start, 0, TokenSet([])) == {};
  }

  lemma PassSkips(p: Pass)
    requires RegistryOk(p.now) && Kept(p) && p.index < |p.now.entries| && !Ready(p.now.entries[p.index])
    ensures Kept(Skipped(p))
  {
    assert Keeps(p);
    SkipKeepsOrder(p);
    SkipKeepsCount(p);
    SkipKeepsRest(p);
  }

  lemma SkipKeepsOrder(p: Pass)
    requires RegistryOk(p.now) && KeepsOrder(p) && p.index < |p.now.entries|
    ensures KeepsOrder(Skipped(p))
  {
    EvolvesReflexive(p.now);
    TurnShrinks(p.now, p.now, p.index);
  }

  lemma SkipKeepsCount(p: Pass)
    requires KeepsCount(p) && p.index < |p.now.entries| && !Ready(p.now.entries[p.index])
    ensures KeepsCount(Skipped(p))
  {
    SkipMisses(p.now, p.index, TokenSet(p.calls));
  }

  lemma SkipKeepsRest(p: Pass)
    requires KeepsTokens(p) && KeepsDrops(p)
    ensures KeepsTokens(Skipped(p)) && KeepsDrops(Skipped(p))
  {
  }

  lemma TokensOfOneMore(calls: seq<Call>, call: Call)
    ensures Tokens(calls + [call]) == Tokens(calls) + [call.tok]
    ensures TokenSet(calls + [call]) == TokenSet(calls) + {call.tok}
  {
    assert forall c :: c in calls + [call] <==> c in calls || c == call;
  }

  /** `call` calls the entry before the walk. */
  predicate CallsNext(p: Pass, call: Call) {
    && p.index < |p.now.entries|
    && var e := p.now.entries[p.index]; Ready(e) && e.tok == call.tok && e.cb == call.cb
  }

  lemma PassCalls(p: Pass, s: Registry, call: Call)
    requires Kept(p) && RegistryOk(p.now) && RegistryOk(s) && OneEach(p.now) && CallsNext(p, call)
    requires HasShed(p.now, s, Who(call.cb))
    ensures Kept(Advanced(p, s, call))
  {
    assert Keeps(p);
    ShedEvolves(p.now, s, Who(call.cb));
    LostAreOwn(p.now, s, Who(call.cb));
    CallsKeepOrder(p, s, call);
    CallsKeepTokens(p, s, call);
    CallsKeepDrops(p, s, call);
    CallsKeepCount(p, s, call);
  }

  lemma OneMoreDrop(drops: seq<set<Watch>>, ws: set<Watch>)
    ensures DroppedToks(drops + [ws]) == DroppedToks(drops) + WatchToks(ws)
  {
    var more := drops + [ws];
    forall t | t in DroppedToks(drops) + WatchToks(ws)
      ensures t in DroppedToks(more)
    {
      if t in DroppedToks(drops) {
        var k, w :| 0 <= k < |drops| && w in drops[k] && w.tok == t;
        assert w in more[k];
      } else {
        var w :| w in ws && w.tok == t;
        assert w in more[|drops|];
      }
    }
  }

  lemma CallsKeepDrops(p: Pass, s: Registry, call: Call)
    requires KeepsDrops(p) && KeepsTokens(p) && CallsNext(p, call)
    requires OwnDrops(Lost(p.now, s), Who(call.cb))
    ensures KeepsDrops(Advanced(p, s, call))
  {
    var e := p.now.entries[p.index];
    assert e in p.now.entries && call.tok in Toks(p.now);
    var dropped := DroppedToks(p.drops);
    assert call.tok in dropped && call.tok in Toks(p.now) <==> call.tok in dropped * Toks(p.now);
    forall w | w in Lost(p.now, s) && w.tok < p.start.next
      ensures Watching(p.start, w)
    {
      var f :| f in p.now.entries && f !in s.entries && AsWatch(f) == w;
      assert f in p.start.entries;
    }
    forall j | 0 <= j < |p.calls|
      ensures call.tok !in WatchToks(p.drops[j])
    {
      assert call.tok !in dropped;
    }
  }

  lemma CallsKeepOrder(p: Pass, s: Registry, call: Call)
    requires KeepsOrder(p) && Evolves(p.start, p.now) && RegistryOk(p.now) && RegistryOk(s) && Evolves(p.now, s)
    requires CallsNext(p, call)
    ensures KeepsOrder(Advanced(p, s, call))
  {
    TokensOfOneMore(p.calls, call);
    TurnInOrder(p.now, s, p.index, Tokens(p.calls));
    assert p.now.entries[p.index] in p.now.entries;
    assert CallOf(p.start, call);
  }

  lemma CallsKeepTokens(p: Pass, s: Registry, call: Call)
    requires KeepsTokens(p) && RegistryOk(p.now) && Evolves(p.now, s)
    ensures KeepsTokens(Advanced(p, s, call))
  {
    EvolvesTransitive(p.start, p.now, s);
    NewerMore(p.start, p.now, s);
    WereDroppedMore(p.start, p.now, s, DroppedToks(p.drops));
    LostToks(p.now, s);
    OneMoreDrop(p.drops, Lost(p.now, s));
  }

  lemma CallsKeepCount(p: Pass, s: Registry, call: Call)
    requires KeepsTokens(p) && KeepsCount(p) && RegistryOk(p.now) && RegistryOk(s) && Evolves(p.now, s)
    requires p.index < |p.now.entries| && call.tok == p.now.entries[p.index].tok
    ensures KeepsCount(Advanced(p, s, call))
  {
    TurnMisses(p.start, p.now, s, p.index, TokenSet(p.calls), DroppedToks(p.drops));
    LostToks(p.now, s);
    OneMoreDrop(p.drops, Lost(p.now, s));
    CountAfter(p, s, call);
  }

  lemma CountAfter(p: Pass, s: Registry, call: Call)
    requires |Missed(s, p.index + 1, TokenSet(p.calls) + {call.tok})| <= |DroppedToks(p.drops + [Lost(p.now, s)])|
    ensures KeepsCount(Advanced(p, s, call))
  {
    TokensOfOneMore(p.calls, call);
    assert TokenSet(p.calls + [call]) == TokenSet(p.calls) + {call.tok};
  }

  /** The calls that are on a connection. */
  function CallsOnConns(calls: seq<Call>): nat {
    if calls == [] then 0
    else CallsOnConns(calls[..|calls| - 1]) + |Who(calls[|calls| - 1].cb)|
  }

  lemma {:induction false} DropsBounded(calls: seq<Call>, drops: seq<set<Watch>>)
    requires |drops| == |calls| && forall k | 0 <= k < |calls| :: OwnDrops(drops[k], Who(calls[k].cb))
    ensures |DroppedToks(drops)| <= 2 * CallsOnConns(calls)
    decreases |calls|
  {
    if calls == [] {
      assert DroppedToks(drops) == {};
    } else {
      var n := |calls| - 1;
      DropsBounded(calls[..n], drops[..n]);
      assert drops == drops[..n] + [drops[n]];
      OneMoreDrop(drops[..n], drops[n]);
      ToksNoMore(drops[n]);
      AtMostBoth(DroppedToks(drops), DroppedToks(drops[..n]), WatchToks(drops[n]));
    }
  }

  lemma {:induction false} ToksNoMore(ws: set<Watch>)
    ensures |WatchToks(ws)| <= |ws|
    decreases |ws|
  {
    if ws == {} {
      assert WatchToks(ws) == {};
    } else {
      var w :| w in ws;
      ToksNoMore(ws - {w});
      assert WatchToks(ws) == WatchToks(ws - {w}) + {w.tok};
      AtMostBoth(WatchToks(ws), WatchToks(ws - {w}), {w.tok});
    }
  }

  predicate OnlyAccepts(calls: seq<Call>) {
    forall c | c in calls :: c.cb == OnAccept
  }

  lemma {:induction false} AcceptsAreOnNone(calls: seq<Call>)
    requires OnlyAccepts(calls)
    ensures CallsOnConns(calls) == 0
    decreases |calls|
  {
    if calls != [] {
      AcceptsAreOnNone(calls[..|calls| - 1]);
    }
  }

  /** After a whole pass the ready, still registered tokens that were not called number at
      most two for each call on a connection. A pass that called nothing, or the listener
      alone, removed nothing and called everything that was ready. */
  lemma PassMisses(p: Pass)
    requires PassDone(p) && RegistryOk(p.start)
    ensures |Missed(p.now, |p.now.entries|, TokenSet(p.calls))| <= 2 * CallsOnConns(p.calls)
    ensures OnlyAccepts(p.calls) ==> DroppedToks(p.drops) == {} && ReadyToks(p.start, 0) <= TokenSet(p.calls)
  {
    DropsBounded(p.calls, p.drops);
    assert Missed(p.now, |p.now.entries|, TokenSet(p.calls)) == Missed(p.now, p.index, TokenSet(p.calls));
    if OnlyAccepts(p.calls) {
      AcceptsAreOnNone(p.calls);
      NothingMissed(p);
    }
  }

  lemma NothingMissed(p: Pass)
    requires PassDone(p) && RegistryOk(p.start) && DroppedToks(p.drops) == {}
    ensures ReadyToks(p.start, 0) <= TokenSet(p.calls)
  {
    var missed := Missed(p.now, p.index, TokenSet(p.calls));
    forall k | 0 <= k < |p.start.entries| && Ready(p.start.entries[k])
      ensures p.start.entries[k].tok in TokenSet(p.calls)
    {
      var e := p.start.entries[k];
      assert e.tok in Toks(p.start);
      var f :| f in p.now.entries && f.tok == e.tok;
      LostOnce(p.start, e, f);
      var i :| 0 <= i < |p.now.entries| && p.now.entries[i] == f;
      assert e.tok in TokenSet(p.calls) || e.tok in missed;
    }
  }

  // ---------------------------------------------------------------- the registry and the world

  /** Exactly the expected callbacks are registered, each once. */
  ghost predicate Mirrors(r: Registry, w: World) {
    OneEach(r) && forall cb :: Watches(r, cb) <==> Expects(w, cb)
  }

  /** `Mirrors`, unfolded only where it is mentioned. */
  ghost predicate IsMirrored(r: Registry, w: World) {
    forall v {:trigger Mirrors(r, v)} | v == w :: Mirrors(r, v)
  }

  lemma NetMirrors(net: Net, s: State)
    requires NetOk(net) && net.listener.cb == OnAccept && s.peers == Peers(net.conns) && Inv(s)
    ensures IsMirrored(net.registry.view, World(s, PortsOf(Inputs(net.conns))))
  {
    var w := World(s, PortsOf(Inputs(net.conns)));
    WiredOneEach(net);
    forall cb
      ensures Watches(net.registry.view, cb) <==> Expects(w, cb)
    {
      NetWatches(net, cb);
      if !cb.OnAccept? && IsOpen(w, cb.id) {
        Ours(net, cb.id);
        OutIs(w.state.peers[cb.id].log, w.ports[cb.id].taken, net.conns[cb.id].Snd());
      }
    }
  }

  lemma NetWatches(net: Net, cb: Callback)
    requires NetOk(net) && net.listener.cb == OnAccept
    ensures Watches(net.registry.view, cb) <==>
              match cb
              case OnAccept => true
              case OnReadable(id) => id in net.conns && net.conns[id].connected
              case OnWritable(id) => id in net.conns && net.conns[id].connected && net.conns[id].sendTok.Some?
  {
    var r, links := net.registry.view, Links(net.conns);
    if Watches(r, cb) {
      var e :| e in r.entries && e.cb == cb;
      assert Watching(r, AsWatch(e)) && Wanted(links, net.listener, AsWatch(e));
    }
    if !cb.OnAccept? && cb.id in net.conns {
      Ours(net, cb.id);
    }
    forall w | Wanted(links, net.listener, w) && w.cb == cb
      ensures Watches(r, cb)
    {
      assert Watching(r, w);
    }
    match cb
    case OnAccept => assert Wanted(links, net.listener, net.listener);
    case OnReadable(id) =>
      if id in net.conns && net.conns[id].connected {
        assert Wanted(links, net.listener, Watch(net.conns[id].recvTok.value, cb, net.conns[id].fd, POLLIN));
      }
    case OnWritable(id) =>
      if id in net.conns && net.conns[id].connected && net.conns[id].sendTok.Some? {
        assert Wanted(links, net.listener, Watch(net.conns[id].sendTok.value, cb, net.conns[id].fd, POLLOUT));
      }
  }

  /** From `w` to `u` the registrations `ws` were removed: those expected before and not after. */
  ghost predicate DropsExactly(w: World, u: World, ws: set<Watch>) {
    forall cb :: (exists v :: v in ws && v.cb == cb) <==> Expects(w, cb) && !Expects(u, cb)
  }

  lemma LostExactly(r: Registry, w: World, s: Registry, u: World, who: set<Id>)
    requires Mirrors(r, w) && Mirrors(s, u) && HasShed(r, s, who)
    ensures DropsExactly(w, u, Lost(r, s))
  {
    assert Sheds(r, s, who);
    forall cb
      ensures (exists v :: v in Lost(r, s) && v.cb == cb) <==> Expects(w, cb) && !Expects(u, cb)
    {
      assert Watches(r, cb) <==> Expects(w, cb);
      assert Watches(s, cb) <==> Expects(u, cb);
      if v :| v in Lost(r, s) && v.cb == cb {
        var e :| e in r.entries && e !in s.entries && AsWatch(e) == v;
        assert Watches(r, cb);
      }
      if Watches(r, cb) && !Watches(s, cb) {
        var e :| e in r.entries && e.cb == cb;
        assert AsWatch(e) in Lost(r, s);
      }
    }
  }

  /** The `k`-th call removed exactly what the world after it expects no more. */
  ghost predicate DropsAt(w: World, calls: seq<Call>, drops: seq<set<Watch>>, answers: nat -> Answers, k: nat)
    requires k < |calls| == |drops|
  {
    var a, b := RunTicks(w, CallTicks(calls[..k], answers)), RunTicks(w, CallTicks(calls[..k + 1], answers));
    a.Reaches? && b.Reaches? ==> DropsExactly(a.world, b.world, drops[k])
  }

  ghost predicate DropsFit(w: World, calls: seq<Call>, drops: seq<set<Watch>>, answers: nat -> Answers) {
    |drops| == |calls| && forall k | 0 <= k < |calls| :: DropsAt(w, calls, drops, answers, k)
  }

  lemma CallFits(w: World, calls: seq<Call>, drops: seq<set<Watch>>, call: Call, answers: nat -> Answers,
                 v: World, threw: bool, u: World, r: Registry, s: Registry)
    requires DropsFit(w, calls, drops, answers) && Ends(RunTicks(w, CallTicks(calls, answers)), false, v)
    requires Ends(RunTicks(w, CallTicks(calls + [call], answers)), threw, u) && HasShed(r, s, Who(call.cb))
    requires IsMirrored(r, v) && (!threw ==> IsMirrored(s, u))
    ensures DropsFit(w, calls + [call], drops + [Lost(r, s)], answers)
  {
    if !threw {
      assert Mirrors(r, v) && Mirrors(s, u);
      LostExactly(r, v, s, u, Who(call.cb));
    }
    OneMoreDropsFit(w, calls, drops, call, Lost(r, s), answers, v, threw, u);
  }

  lemma CallKeepsInv(w: World, call: Call, ans: Answers, u: World)
    requires Inv(w.state) && DidLeave(w, call, ans, false, u)
    ensures Inv(u.state)
  {
    assert Leaves(w, call, ans, false, u);
    TickIsRun(w, Calls(call, ans));
  }

  lemma OneMoreDropsFit(w: World, calls: seq<Call>, drops: seq<set<Watch>>, call: Call, ws: set<Watch>,
                        answers: nat -> Answers,
                        v: World, threw: bool, u: World)
    requires DropsFit(w, calls, drops, answers) && Ends(RunTicks(w, CallTicks(calls, answers)), false, v)
    requires Ends(RunTicks(w, CallTicks(calls + [call], answers)), threw, u) && (!threw ==> DropsExactly(v, u, ws))
    ensures DropsFit(w, calls + [call], drops + [ws], answers)
  {
    var cs, ds := calls + [call], drops + [ws];
    forall k | 0 <= k < |cs|
      ensures DropsAt(w, cs, ds, answers, k)
    {
      if k < |calls| {
        assert cs[..k] == calls[..k] && cs[..k + 1] == calls[..k + 1];
        assert DropsAt(w, calls, drops, answers, k);
      } else {
        assert cs[..k] == calls && cs[..k + 1] == cs;
      }
    }
  }
}
