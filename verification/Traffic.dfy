/** What goes through a run of the server, connection by connection: the bytes read and the
    messages handled, the messages posted and the bytes the kernel took. */
module Traffic {
  import opened Text
  import opened Message
  import opened Polling
  import opened Logs
  import opened SendQueue
  import opened Framing
  import opened Connections
  import opened ServerSpec
  import opened Invariant
  import opened Ages
  import opened Clearing
  import opened Worlds

  // ---------------------------------------------------------------- who is there

  /** The logs and what the kernel took of them fit together on every connection. */
  ghost predicate SendSide(w: World, id: Id)
    requires id in w.ports && id in w.state.peers
  {
    exists snd :: SendOk(w.state.peers[id].log, w.ports[id].taken, snd)
  }

  ghost predicate SendSides(w: World)
    requires w.ports.Keys == w.state.peers.Keys
  {
    forall id | id in w.ports :: SendSide(w, id)
  }

  ghost predicate WorldOk(w: World) {
    Inv(w.state) && w.ports.Keys == w.state.peers.Keys && SendSides(w)
  }

  lemma QuitPeople(s: State, id: Id, name: string, pick: Id)
    ensures var q := QuitChan(s, id, name, pick);
            q.Gone? ==> q.state.peers.Keys == s.peers.Keys && q.state.infos == s.infos && q.state.nextId == s.nextId
  {
  }

  lemma MovedPeople(s: State, id: Id, name: string, pick: Id)
    requires id in s.infos && id in s.peers
    ensures var o := Moved(s, id, name, pick);
            o.Ok? ==> o.state.peers.Keys == s.peers.Keys && o.state.nextId == s.nextId
  {
    if s.infos[id].joined.Some? {
      QuitPeople(s, id, s.infos[id].joined.value, pick);
    }
  }

  lemma FarewellPeople(s: State, id: Id, name: string, m: Message, pick: Id)
    requires name in s.rooms
    ensures var o := Farewell(s, id, name, m, pick);
            o.Ok? ==> o.state.peers.Keys == s.peers.Keys && o.state.infos == s.infos && o.state.nextId == s.nextId
  {
    QuitPeople(Broadcast(s, name, m), id, name, pick);
  }

  lemma QuitterPeople(s: State, id: Id, ps: seq<string>, pick: Id)
    requires id in s.infos && id in s.peers
    ensures var o := HandleQuit(s, id, ps, pick);
            o.Ok? ==> o.state.peers.Keys == s.peers.Keys && o.state.nextId == s.nextId
  {
    if s.infos[id].nick.Some? && |ps| != 1 && s.infos[id].joined.Some? && s.infos[id].joined.value in s.rooms {
      var nick := s.infos[id].nick.value;
      FarewellPeople(s, id, s.infos[id].joined.value,
          PrivateMessage(nick, [if |ps| == 0 then nick + " quit" else ps[1]]), pick);
    }
  }

  lemma KickPeople(s: State, id: Id, ps: seq<string>, pick: Id)
    requires id in s.infos && id in s.peers
    ensures var o := HandleKick(s, id, ps, pick);
            o.Ok? ==> o.state.peers.Keys == s.peers.Keys && o.state.nextId == s.nextId
  {
    var v := KickVerdict(s, id, ps);
    if v.Goes? {
      QuitPeople(s, v.target, v.name, pick);
    }
  }

  /** A message brings nobody in and takes nobody out. */
  lemma HandledPeople(s: State, id: Id, text: string, pick: Id)
    requires id in s.infos && id in s.peers
    ensures var o := HandleMessage(s, id, text, pick);
            o.Ok? ==> o.state.peers.Keys == s.peers.Keys && o.state.nextId == s.nextId
  {
    if Decode(text).Parsed? && Decode(text).msg.verb.Cmd? && Expected(s.infos[id].state, Decode(text).msg.verb.cmd) {
      CommandPeople(s, id, Decode(text).msg.verb.cmd, Decode(text).msg.params, pick);
    }
  }

  lemma CommandPeople(s: State, id: Id, cmd: Command, ps: seq<string>, pick: Id)
    requires id in s.infos && id in s.peers
    ensures var o := HandleCommand(s, id, cmd, ps, pick);
            o.Ok? ==> o.state.peers.Keys == s.peers.Keys && o.state.nextId == s.nextId
  {
    match cmd
    case Join =>
      if |ps| >= 1 {
        MovedPeople(s, id, ps[0], pick);
      }
    case Quit => QuitterPeople(s, id, ps, pick);
    case Kick => KickPeople(s, id, ps, pick);
    case _ =>
  }

  // ---------------------------------------------------------------- the send side

  lemma {:induction false} SendGrows(log: seq<Posted>, t: Taken, snd: Sender, more: seq<Posted>)
    requires SendOk(log, t, snd)
    ensures exists q :: SendOk(log + more, t, q)
    decreases |more|
  {
    if more == [] {
      assert log + more == log;
    } else {
      PostingKeeps(log, t, snd, more[0]);
      SendGrows(log + [more[0]], t, Enqueue(snd, Encode(more[0].m)), more[1..]);
      assert log + [more[0]] + more[1..] == log + more;
    }
  }

  lemma SideGrows(w: World, v: World, id: Id)
    requires id in w.ports && id in w.state.peers && id in v.ports && id in v.state.peers
    requires SendSide(w, id) && w.state.peers[id].log <= v.state.peers[id].log && v.ports[id].taken == w.ports[id].taken
    ensures SendSide(v, id)
  {
    var a, b := w.state.peers[id].log, v.state.peers[id].log;
    var snd :| SendOk(a, w.ports[id].taken, snd);
    SendGrows(a, w.ports[id].taken, snd, b[|a|..]);
    assert a + b[|a|..] == b;
  }

  /** Nothing was taken by the kernel on the connections that stay. */
  lemma SidesGrow(w: World, v: World)
    requires WorldOk(w) && Ages.Ages(w.state, v.state) && v.ports.Keys == v.state.peers.Keys
    requires forall id | id in v.ports :: id in w.ports && v.ports[id].taken == w.ports[id].taken
    ensures SendSides(v)
  {
    forall id | id in v.ports
      ensures SendSide(v, id)
    {
      assert PeerAges(w.state.peers[id], v.state.peers[id]);
      SideGrows(w, v, id);
    }
  }

  lemma AcceptKeepsOk(w: World, ipv4: nat)
    requires WorldOk(w)
    ensures WorldOk(Admits(w, ipv4))
  {
    var v := Admits(w, ipv4);
    TickIsRun(w, Calls(Call(0, OnAccept, 0), Answers(NewClient(0, ipv4), RecvWouldBlock, _ => WouldBlock)));
    forall id | id in v.ports
      ensures SendSide(v, id)
    {
      if id == w.state.nextId {
        NothingPosted();
        assert SendOk(v.state.peers[id].log, v.ports[id].taken, Sender("", []));
      } else {
        SideGrows(w, v, id);
      }
    }
  }

  lemma HandledKeepsOk(w: World, id: Id, live: string, text: string, pick: Id)
    requires WorldOk(w) && IsOpen(w, id) && text != "" && Handled(w, id, live, text, pick).Reaches?
    ensures WorldOk(Handled(w, id, live, text, pick).world)
  {
    var e := Sends(id, text, pick);
    TookOne(w.state, e);
    StepAges(w.state, e);
    HandledPeople(w.state, id, text, pick);
    SidesGrow(w, Handled(w, id, live, text, pick).world);
  }

  lemma HungUpKeepsOk(w: World, id: Id)
    requires WorldOk(w) && IsOpen(w, id)
    ensures WorldOk(w.(state := HungUp(w.state, id)))
  {
    var e := GoesAway(id);
    TookOne(w.state, e);
    StepAges(w.state, e);
    SidesGrow(w, w.(state := HungUp(w.state, id)));
  }

  lemma QuietKeepsOk(w: World, id: Id, live: string)
    requires WorldOk(w) && id in w.ports
    ensures WorldOk(w.(ports := w.ports[id := w.ports[id].(live := live)]))
  {
    var v := w.(ports := w.ports[id := w.ports[id].(live := live)]);
    forall x | x in v.ports
      ensures SendSide(v, x)
    {
      SideGrows(w, v, x);
    }
  }

  lemma ReadKeepsOk(w: World, id: Id, r: RecvResult, pick: Id)
    requires WorldOk(w) && IsOpen(w, id) && ReadNext(w, id, r, pick).Reaches?
    ensures WorldOk(ReadNext(w, id, r, pick).world)
  {
    match r
    case EndOfStream => HungUpKeepsOk(w, id);
    case Data(bytes) =>
      var f := Feed(w.ports[id].live, bytes);
      FeedConserves(w.ports[id].live, bytes);
      if f.delivered.None? {
        QuietKeepsOk(w, id, f.live);
      } else {
        HandledKeepsOk(w, id, f.live, f.delivered.value, pick);
      }
    case _ =>
  }

  lemma DrainKeepsOk(w: World, id: Id, answers: nat -> SendResult)
    requires WorldOk(w) && IsOpen(w, id)
    ensures var snd := OutOf(w, id);
            var taken := Sent(w.ports[id].taken, snd, Drain(snd, answers, 0));
            WorldOk(w.(ports := w.ports[id := w.ports[id].(taken := taken)]))
  {
    var snd := OutOf(w, id);
    var v := w.(ports := w.ports[id := w.ports[id].(taken := Sent(w.ports[id].taken, snd, Drain(snd, answers, 0)))]);
    assert SendSide(w, id);
    var q :| SendOk(w.state.peers[id].log, w.ports[id].taken, q);
    OutIs(w.state.peers[id].log, w.ports[id].taken, q);
    DrainTakes(w.state.peers[id].log, w.ports[id].taken, q, answers);
    forall x | x in v.ports
      ensures SendSide(v, x)
    {
      if x != id {
        SideGrows(w, v, x);
      }
    }
  }

  lemma WriteKeepsOk(w: World, id: Id, answers: nat -> SendResult)
    requires WorldOk(w) && IsOpen(w, id) && WriteNext(w, id, answers).Reaches?
    ensures WorldOk(WriteNext(w, id, answers).world)
  {
    DrainKeepsOk(w, id, answers);
    var snd := OutOf(w, id);
    var d := Drain(snd, answers, 0);
    if d.end == Closed {
      HungUpKeepsOk(w.(ports := w.ports[id := w.ports[id].(taken := Sent(w.ports[id].taken, snd, d))]), id);
    }
  }

  lemma SweepKeepsOk(w: World, t: Turn)
    requires WorldOk(w) && Swept(w, t).Reaches?
    ensures WorldOk(Swept(w, t).world)
  {
    if t.id in w.state.peers && !w.state.peers[t.id].connected {
      var e := IsReaped(t.id, t.pick);
      TookOne(w.state, e);
      StepAges(w.state, e);
      if w.state.infos[t.id].joined.Some? {
        var name, nick := w.state.infos[t.id].joined.value, w.state.infos[t.id].nick.value;
        FarewellPeople(w.state, t.id, name, ClearingMessage(name, nick), t.pick);
      }
      SidesGrow(w, Swept(w, t).world);
    }
  }

  lemma TickKeepsOk(w: World, tick: Tick)
    requires WorldOk(w) && OneTick(w, tick).Reaches?
    ensures WorldOk(OneTick(w, tick).world)
  {
    match tick
    case Sweeps(t) => SweepKeepsOk(w, t);
    case Calls(call, ans) =>
      match call.cb
      case OnAccept => AcceptKeepsOk(w, ans.accept.ipv4);
      case OnReadable(id) => ReadKeepsOk(w, id, ans.read, call.pick);
      case OnWritable(id) => WriteKeepsOk(w, id, ans.sends);
  }

  /** Over every run, on every connection, what the kernel took and what is queued are the
      messages posted to it. */
  lemma {:induction false} TicksKeepOk(w: World, ticks: seq<Tick>)
    requires WorldOk(w) && RunTicks(w, ticks).Reaches?
    ensures WorldOk(RunTicks(w, ticks).world)
    decreases |ticks|
  {
    if ticks != [] {
      TickKeepsOk(w, ticks[0]);
      TicksKeepOk(OneTick(w, ticks[0]).world, ticks[1..]);
    }
  }

  // ---------------------------------------------------------------- the receive side

  /** What is read from a connection. */
  function ReadsOf(id: Id, ticks: seq<Tick>): seq<string> {
    if ticks == [] then [] else ReadOf(id, ticks[0]) + ReadsOf(id, ticks[1..])
  }

  function ReadOf(id: Id, tick: Tick): seq<string> {
    if tick.Calls? && tick.call.cb == OnReadable(id) && tick.ans.read.Data? then [tick.ans.read.bytes] else []
  }

  /** The messages of a connection that are handled. */
  function TextsOf(id: Id, es: seq<Event>): seq<string> {
    if es == [] then []
    else (if es[0].Sends? && es[0].id == id then [es[0].text] else []) + TextsOf(id, es[1..])
  }

  lemma {:induction false} TextsConcat(id: Id, a: seq<Event>, b: seq<Event>)
    ensures TextsOf(id, a + b) == TextsOf(id, a) + TextsOf(id, b)
  {
    if a == [] {
      assert a + b == b;
    } else {
      assert (a + b)[1..] == a[1..] + b;
      TextsConcat(id, a[1..], b);
    }
  }

  /** What a connection holds; nothing before it is accepted. */
  function LiveAt(w: World, id: Id): string {
    if id in w.ports then w.ports[id].live else ""
  }

  predicate Erased(w: World, id: Id) {
    id !in w.ports && id < w.state.nextId
  }

  /** One tick handles what `Feed` delivers of what it reads. */
  ghost predicate Feeds(w: World, id: Id, read: seq<string>, texts: seq<string>, v: World) {
    if Erased(v, id) then read == [] && texts == []
    else (texts, LiveAt(v, id)) == FeedAll(LiveAt(w, id), read)
  }

  lemma OneText(id: Id, e: Event)
    ensures TextsOf(id, [e]) == if e.Sends? && e.id == id then [e.text] else []
  {
    assert [e][1..] == [];
  }

  lemma ReadFeeds(w: World, x: Id, r: RecvResult, pick: Id, id: Id)
    requires WorldOk(w) && IsOpen(w, x) && ReadNext(w, x, r, pick).Reaches?
    ensures var n := ReadNext(w, x, r, pick);
            Feeds(w, id, if x == id && r.Data? then [r.bytes] else [], TextsOf(id, n.events), n.world)
            && n.world.ports.Keys == w.ports.Keys && n.world.state.nextId == w.state.nextId
  {
    forall e {
      OneText(id, e);
    }
    if r.Data? {
      FedOne(w.ports[x].live, r.bytes);
      var f := Feed(w.ports[x].live, r.bytes);
      if f.delivered.Some? {
        HandledPeople(w.state, x, f.delivered.value, pick);
      }
    }
  }

  lemma TickFeeds(w: World, tick: Tick, id: Id)
    requires WorldOk(w) && OneTick(w, tick).Reaches?
    ensures var n := OneTick(w, tick);
            && Feeds(w, id, ReadOf(id, tick), TextsOf(id, n.events), n.world)
            && (Erased(w, id) ==> Erased(n.world, id))
  {
    forall e {
      OneText(id, e);
    }
    if tick.Calls? && tick.call.cb.OnReadable? {
      ReadFeeds(w, tick.call.cb.id, tick.ans.read, tick.call.pick, id);
    } else if tick.Sweeps? && tick.turn.id in w.state.peers {
      SweptPeople(w.state, tick.turn);
    }
  }

  lemma SweptPeople(s: State, t: Turn)
    requires t.id in s.peers
    ensures var o := Reap(s, t.id, t.pick);
            o.Ok? ==>
              && o.state.nextId == s.nextId
              && o.state.peers.Keys == if s.peers[t.id].connected then s.peers.Keys else s.peers.Keys - {t.id}
  {
    if t.id in s.infos && s.infos[t.id].joined.Some? && s.infos[t.id].joined.value in s.rooms
        && s.infos[t.id].nick.Some? {
      var name, nick := s.infos[t.id].joined.value, s.infos[t.id].nick.value;
      FarewellPeople(s, t.id, name, ClearingMessage(name, nick), t.pick);
    }
  }

  /** Nothing more happens to a connection that was erased. */
  lemma {:induction false} GoneIsSilent(w: World, ticks: seq<Tick>, id: Id)
    requires WorldOk(w) && Erased(w, id) && RunTicks(w, ticks).Reaches?
    ensures var n := RunTicks(w, ticks);
            Erased(n.world, id) && ReadsOf(id, ticks) == [] && TextsOf(id, n.events) == []
    decreases |ticks|
  {
    if ticks != [] {
      var n := OneTick(w, ticks[0]);
      TickKeepsOk(w, ticks[0]);
      TickFeeds(w, ticks[0], id);
      GoneIsSilent(n.world, ticks[1..], id);
      TextsConcat(id, n.events, RunTicks(n.world, ticks[1..]).events);
    }
  }

  /** The messages of a connection that are handled are those the framing makes of the bytes
      read from it, and what it holds is what the framing leaves. */
  ghost predicate HandlesReads(w: World, ticks: seq<Tick>, n: Next, id: Id) {
    var fed := FeedAll(LiveAt(w, id), ReadsOf(id, ticks));
    n.Reaches? && TextsOf(id, n.events) == fed.0 && (id in n.world.ports ==> n.world.ports[id].live == fed.1)
  }

  /** The framing composed with the server, over every run. */
  lemma {:induction false} HandlesWhatIsRead(w: World, ticks: seq<Tick>, id: Id)
    requires WorldOk(w) && RunTicks(w, ticks).Reaches?
    ensures HandlesReads(w, ticks, RunTicks(w, ticks), id)
    decreases |ticks|
  {
    if ticks != [] {
      var n := OneTick(w, ticks[0]);
      TickKeepsOk(w, ticks[0]);
      TickFeeds(w, ticks[0], id);
      TextsConcat(id, n.events, RunTicks(n.world, ticks[1..]).events);
      if Erased(n.world, id) {
        GoneIsSilent(n.world, ticks[1..], id);
      } else {
        HandlesWhatIsRead(n.world, ticks[1..], id);
        FedConcat(LiveAt(w, id), ReadOf(id, ticks[0]), ReadsOf(id, ticks[1..]));
      }
    }
  }

  lemma StartIsOk()
    ensures WorldOk(START)
  {
    EmptyInv();
  }

  /** From the start: the messages handled are the lines the client wrote if and only if no
      read held two newlines; in any case they and what is held are the bytes read. */
  lemma HandlesLines(ticks: seq<Tick>, id: Id)
    requires RunTicks(START, ticks).Reaches?
    ensures var n, got := RunTicks(START, ticks), ReadsOf(id, ticks);
            && (TextsOf(id, n.events) == Lines(Flatten(got)) <==> AtMostOneNewlineEach(got))
            && (id in n.world.ports ==> Flatten(TextsOf(id, n.events)) + n.world.ports[id].live == Flatten(got))
            && (forall m | m in TextsOf(id, n.events) :: EndsLine(m))
  {
    StartIsOk();
    HandlesWhatIsRead(START, ticks, id);
    FramingExact(ReadsOf(id, ticks));
    FramingConserves("", ReadsOf(id, ticks));
    assert "" + Flatten(ReadsOf(id, ticks)) == Flatten(ReadsOf(id, ticks));
  }
}
