/** The whole server between callbacks: its state and both ends of every connection. What a
    callback does is a function of that and of what the system calls answer. */
module Worlds {
  import opened Text
  import opened Polling
  import opened Logs
  import opened SendQueue
  import opened Framing
  import opened Connections
  import opened ServerSpec
  import opened Invariant
  import opened Clearing

  datatype World = World(state: State, ports: map<Id, Port>)

  const START := World(ServerSpec.EMPTY, map[])

  /** What `accept` and then `getpeername` answer: a client with its descriptor and address,
      no client, or a client whose address is unknown. */
  datatype AcceptResult = NewClient(fd: int, ipv4: nat) | AcceptFailed | AddressFailed(fd: int)

  /** What the system calls answer during one callback. */
  datatype Answers = Answers(accept: AcceptResult, read: RecvResult, sends: nat -> SendResult)

  predicate AnswersOk(ans: Answers) {
    ans.read.Data? ==> 0 < |ans.read.bytes| <= BUF_SIZE
  }

  /** One callback that was called; `pick` is the member that came first in the hash table. */
  datatype Call = Call(tok: nat, cb: Callback, pick: Id)

  /** `Crashes` ends the process; `Dead` is a callback that nothing should call. */
  datatype Next = Reaches(world: World, events: seq<Event>) | Crashes | Dead

  predicate IsOpen(w: World, id: Id) {
    id in w.state.infos && id in w.state.peers && id in w.ports && w.state.peers[id].connected
  }

  ghost function OutOf(w: World, id: Id): Sender
    requires IsOpen(w, id)
  {
    Out(w.state.peers[id].log, w.ports[id].taken)
  }

  function Admits(w: World, ipv4: nat): World {
    World(Admitted(w.state, ipv4), w.ports[w.state.nextId := NEW_PORT])
  }

  function AcceptNext(w: World, r: AcceptResult): Next {
    match r
    case NewClient(_, ipv4) => Reaches(Admits(w, ipv4), [Connects(ipv4)])
    case AcceptFailed => Crashes
    case AddressFailed(_) => Crashes
  }

  /** The handler's outcome, with the buffer as the framing leaves it. */
  ghost function Handled(w: World, id: Id, live: string, text: string, pick: Id): Next
    requires IsOpen(w, id)
  {
    match HandleMessage(w.state, id, text, pick)
    case Abort => Crashes
    case Ok(t, _) => Reaches(World(t, w.ports[id := w.ports[id].(live := live)]), [Sends(id, text, pick)])
  }

  ghost function ReadNext(w: World, id: Id, r: RecvResult, pick: Id): Next
    requires IsOpen(w, id)
  {
    match r
    case RecvWouldBlock => Reaches(w, [])
    case RecvFailed => Crashes
    case EndOfStream => Reaches(w.(state := HungUp(w.state, id)), [GoesAway(id)])
    case Data(bytes) =>
      var f := Feed(w.ports[id].live, bytes);
      match f.delivered
      case None => Reaches(w.(ports := w.ports[id := w.ports[id].(live := f.live)]), [])
      case Some(text) => Handled(w, id, f.live, text, pick)
  }

  ghost function WriteNext(w: World, id: Id, answers: nat -> SendResult): Next
    requires IsOpen(w, id)
  {
    var snd := OutOf(w, id);
    var d := Drain(snd, answers, 0);
    var ports := w.ports[id := w.ports[id].(taken := Sent(w.ports[id].taken, snd, d))];
    match d.end
    case Threw => Crashes
    case Closed => Reaches(World(HungUp(w.state, id), ports), [GoesAway(id)])
    case _ => Reaches(World(w.state, ports), [])
  }

  ghost function Ran(w: World, call: Call, ans: Answers): Next {
    match call.cb
    case OnAccept => AcceptNext(w, ans.accept)
    case OnReadable(id) => if IsOpen(w, id) then ReadNext(w, id, ans.read, call.pick) else Dead
    case OnWritable(id) => if IsOpen(w, id) then WriteNext(w, id, ans.sends) else Dead
  }

  /** One turn of the clearing loop. */
  ghost function Swept(w: World, t: Turn): Next {
    if t.id !in w.state.peers || w.state.peers[t.id].connected then Reaches(w, [])
    else
      match Reap(w.state, t.id, t.pick)
      case Abort => Crashes
      case Ok(u, _) => Reaches(World(u, w.ports - {t.id}), [IsReaped(t.id, t.pick)])
  }

  // ---------------------------------------------------------------- many

  datatype Tick = Calls(call: Call, ans: Answers) | Sweeps(turn: Turn)

  ghost function OneTick(w: World, tick: Tick): Next {
    match tick
    case Calls(call, ans) => Ran(w, call, ans)
    case Sweeps(t) => Swept(w, t)
  }

  ghost function RunTicks(w: World, ticks: seq<Tick>): Next
    decreases |ticks|
  {
    if ticks == [] then Reaches(w, [])
    else
      match OneTick(w, ticks[0])
      case Reaches(v, events) => Then(events, RunTicks(v, ticks[1..]))
      case other => other
  }

  /** `n`, with `events` before its own. */
  function Then(events: seq<Event>, n: Next): Next {
    match n
    case Reaches(v, more) => Reaches(v, events + more)
    case other => other
  }

  /** `ticks` after `n`. */
  ghost function After(n: Next, ticks: seq<Tick>): Next {
    if n.Reaches? then Then(n.events, RunTicks(n.world, ticks)) else n
  }

  /** The ticks of a pass: the `k`-th call gets the `k`-th answers. */
  function CallTicks(calls: seq<Call>, answers: nat -> Answers): (ticks: seq<Tick>)
    ensures |ticks| == |calls|
  {
    seq(|calls|, k requires 0 <= k < |calls| => Calls(calls[k], answers(k)))
  }

  function SweepTicks(turns: seq<Turn>): (ticks: seq<Tick>)
    ensures |ticks| == |turns|
  {
    seq(|turns|, k requires 0 <= k < |turns| => Sweeps(turns[k]))
  }

  lemma {:induction false} TicksConcat(w: World, a: seq<Tick>, b: seq<Tick>)
    ensures RunTicks(w, a + b) == After(RunTicks(w, a), b)
    decreases |a|
  {
    if a == [] {
      assert a + b == b;
      ThenNothing(RunTicks(w, b));
    } else {
      assert (a + b)[0] == a[0] && (a + b)[1..] == a[1..] + b;
      var n := OneTick(w, a[0]);
      if n.Reaches? {
        TicksConcat(n.world, a[1..], b);
        ThenTwice(n.events, RunTicks(n.world, a[1..]), b);
      }
    }
  }

  lemma ThenNothing(n: Next)
    ensures Then([], n) == n
  {
    if n.Reaches? {
      assert [] + n.events == n.events;
    }
  }

  lemma ThenTwice(events: seq<Event>, n: Next, ticks: seq<Tick>)
    ensures Then(events, After(n, ticks)) == After(Then(events, n), ticks)
  {
    if n.Reaches? && RunTicks(n.world, ticks).Reaches? {
      Assoc(events, n.events, RunTicks(n.world, ticks).events);
    }
  }

  lemma OneTickRun(w: World, tick: Tick)
    ensures RunTicks(w, [tick]) == OneTick(w, tick)
  {
    assert [tick][1..] == [];
    var n := OneTick(w, tick);
    if n.Reaches? {
      assert n.events + [] == n.events;
    }
  }

  lemma OneMoreCall(calls: seq<Call>, call: Call, answers: nat -> Answers)
    ensures CallTicks(calls + [call], answers) == CallTicks(calls, answers) + [Calls(call, answers(|calls|))]
  {
  }

  // ---------------------------------------------------------------- as runs of the specification

  /** The events `es` are a run of the specification from `s` to `t`. */
  ghost predicate Took(s: State, es: seq<Event>, t: State) {
    Legal(s, es) && Run(s, es) == t && Inv(t)
  }

  lemma TookNothing(s: State)
    requires Inv(s)
    ensures Took(s, [], s)
  {
  }

  lemma TookOne(s: State, e: Event)
    requires Inv(s) && Enabled(s, e) && Step(s, e).Ok?
    ensures Took(s, [e], Step(s, e).state)
  {
    RunOne(s, e);
    StepFollows(s, Model(s), e);
  }

  lemma TookMore(s: State, es: seq<Event>, t: State, more: seq<Event>, u: State)
    requires Took(s, es, t) && Took(t, more, u)
    ensures Took(s, es + more, u)
  {
    RunConcat(s, es, more);
  }

  /** A read that does not throw is a run of at most one step. */
  lemma ReadIsRun(w: World, id: Id, r: RecvResult, pick: Id)
    requires Inv(w.state) && IsOpen(w, id)
    ensures var n := ReadNext(w, id, r, pick); n.Reaches? ==> Took(w.state, n.events, n.world.state)
  {
    match r
    case RecvFailed =>
    case RecvWouldBlock => TookNothing(w.state);
    case EndOfStream => TookOne(w.state, GoesAway(id));
    case Data(bytes) =>
      var f := Feed(w.ports[id].live, bytes);
      FeedConserves(w.ports[id].live, bytes);
      if f.delivered.None? {
        TookNothing(w.state);
      } else if HandleMessage(w.state, id, f.delivered.value, pick).Ok? {
        TookOne(w.state, Sends(id, f.delivered.value, pick));
      }
  }

  lemma WriteIsRun(w: World, id: Id, answers: nat -> SendResult)
    requires Inv(w.state) && IsOpen(w, id)
    ensures var n := WriteNext(w, id, answers); n.Reaches? ==> Took(w.state, n.events, n.world.state)
  {
    if Drain(OutOf(w, id), answers, 0).end == Closed {
      TookOne(w.state, GoesAway(id));
    } else {
      TookNothing(w.state);
    }
  }

  lemma TickIsRun(w: World, tick: Tick)
    requires Inv(w.state)
    ensures var n := OneTick(w, tick); n.Reaches? ==> Took(w.state, n.events, n.world.state)
  {
    match tick
    case Calls(call, ans) =>
      match call.cb {
        case OnAccept =>
          if ans.accept.NewClient? {
            TookOne(w.state, Connects(ans.accept.ipv4));
          }
        case OnReadable(id) =>
          if IsOpen(w, id) {
            ReadIsRun(w, id, ans.read, call.pick);
          }
        case OnWritable(id) =>
          if IsOpen(w, id) {
            WriteIsRun(w, id, ans.sends);
          }
      }
    case Sweeps(t) =>
      if t.id !in w.state.peers || w.state.peers[t.id].connected {
        TookNothing(w.state);
      } else if Reap(w.state, t.id, t.pick).Ok? {
        TookOne(w.state, IsReaped(t.id, t.pick));
      }
  }

  /** Whatever is called and cleared, what happens is a run of the specification. */
  lemma {:induction false} TicksAreRun(w: World, ticks: seq<Tick>)
    requires Inv(w.state) && RunTicks(w, ticks).Reaches?
    ensures var n := RunTicks(w, ticks); Took(w.state, n.events, n.world.state)
    decreases |ticks|
  {
    if ticks == [] {
      TookNothing(w.state);
    } else {
      var n := OneTick(w, ticks[0]);
      TickIsRun(w, ticks[0]);
      TicksAreRun(n.world, ticks[1..]);
      var m := RunTicks(n.world, ticks[1..]);
      TookMore(w.state, n.events, n.world.state, m.events, m.world.state);
    }
  }

  lemma ReachableOn(s: State, es: seq<Event>, t: State)
    requires Reachable(s) && Took(s, es, t)
    ensures Reachable(t)
  {
    var before :| Legal(ServerSpec.EMPTY, before) && Run(ServerSpec.EMPTY, before) == s;
    RunConcat(ServerSpec.EMPTY, before, es);
  }

  /** The connection a callback is on, if any. */
  function Who(cb: Callback): set<Id> {
    if cb.OnAccept? then {} else {cb.id}
  }

  /** The callbacks that must be registered: the listener's, one for input on every open
      connection, and one for output on those with something to send. */
  ghost predicate Expects(w: World, cb: Callback) {
    match cb
    case OnAccept => true
    case OnReadable(id) => IsOpen(w, id)
    case OnWritable(id) => IsOpen(w, id) && OutOf(w, id).queue != []
  }

  /** What makes a callback throw: a failed system call, or a message that does not complete. */
  ghost predicate Fatal(w: World, cb: Callback, ans: Answers) {
    match cb
    case OnAccept => !ans.accept.NewClient?
    case OnReadable(id) =>
      IsOpen(w, id)
      && (ans.read.RecvFailed?
          || (ans.read.Data?
              && Feed(w.ports[id].live, ans.read.bytes).delivered.Some?
              && !Completes(w.state, id, Feed(w.ports[id].live, ans.read.bytes).delivered.value)))
    case OnWritable(id) => IsOpen(w, id) && StopsWith(OutOf(w, id), ans.sends, Failed)
  }

  /** Whichever member a promotion picks. */
  lemma ThrowsExactly(w: World, call: Call, ans: Answers)
    requires Inv(w.state)
    ensures Ran(w, call, ans).Crashes? <==> Fatal(w, call.cb, ans)
  {
    if call.cb.OnReadable? && IsOpen(w, call.cb.id) && ans.read.Data? {
      var f := Feed(w.ports[call.cb.id].live, ans.read.bytes);
      if f.delivered.Some? {
        HandlerCompletes(w.state, call.cb.id, f.delivered.value, call.pick);
      }
    } else if call.cb.OnWritable? && IsOpen(w, call.cb.id) {
      WriteThrows(w, call.cb.id, ans.sends);
    }
  }

  lemma WriteThrows(w: World, id: Id, answers: nat -> SendResult)
    requires IsOpen(w, id)
    ensures WriteNext(w, id, answers).Crashes? <==> StopsWith(OutOf(w, id), answers, Failed)
  {
    OutIsFull(w.state.peers[id].log, w.ports[id].taken);
    DrainEnds(OutOf(w, id), answers);
  }

  // ---------------------------------------------------------------- the clearing loop

  function Only(ports: map<Id, Port>, ids: set<Id>): map<Id, Port> {
    map id | id in ports && id in ids :: ports[id]
  }

  /** Clearing drops the ports of the connections it clears, and no others. */
  lemma {:induction false} SweepIs(w: World, turns: seq<Turn>)
    requires ClearAll(w.state, turns).Ok? && w.ports.Keys == w.state.peers.Keys
    ensures RunTicks(w, SweepTicks(turns)).Reaches?
    ensures var n := RunTicks(w, SweepTicks(turns)).world;
            n.state == ClearAll(w.state, turns).state && n.ports == Only(w.ports, n.state.peers.Keys)
    decreases |turns|
  {
    if turns == [] {
      assert Only(w.ports, w.state.peers.Keys) == w.ports;
    } else {
      assert SweepTicks(turns)[1..] == SweepTicks(turns[1..]);
      SweepOne(w, turns[0]);
      var v := Swept(w, turns[0]).world;
      SweepIs(v, turns[1..]);
      ClearShrinks(v.state, turns[1..]);
      OnlyTwice(w.ports, v.state.peers.Keys, ClearAll(v.state, turns[1..]).state.peers.Keys);
    }
  }

  lemma SweepOne(w: World, t: Turn)
    requires w.ports.Keys == w.state.peers.Keys
    requires t.id in w.state.peers ==> Reap(w.state, t.id, t.pick).Ok?
    ensures var n := Swept(w, t);
            n.Reaches? && n.world.ports.Keys == n.world.state.peers.Keys
            && n.world.ports == Only(w.ports, n.world.state.peers.Keys)
            && n.world.state == (if t.id in w.state.peers then Reap(w.state, t.id, t.pick).state else w.state)
  {
  }

  lemma OnlyTwice(ports: map<Id, Port>, some: set<Id>, fewer: set<Id>)
    requires fewer <= some
    ensures Only(Only(ports, some), fewer) == Only(ports, fewer)
  {
  }

  lemma OnlyAll(ports: map<Id, Port>)
    ensures Only(ports, ports.Keys) == ports
  {
  }

  lemma {:induction false} ClearShrinks(s: State, turns: seq<Turn>)
    requires ClearAll(s, turns).Ok?
    ensures ClearAll(s, turns).state.peers.Keys <= s.peers.Keys
    decreases |turns|
  {
    if turns != [] {
      if turns[0].id !in s.peers {
        ClearShrinks(s, turns[1..]);
      } else {
        ClearShrinks(Reap(s, turns[0].id, turns[0].pick).state, turns[1..]);
      }
    }
  }
}
