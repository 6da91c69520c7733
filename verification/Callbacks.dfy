/** What the handlers and the callbacks of the server come to: outcomes of single steps. */
module Callbacks {
  import opened Text
  import opened Message
  import opened Polling
  import opened Logs
  import opened Connections
  import opened SendQueue
  import opened ServerSpec
  import opened Invariant
  import opened Wiring
  import opened Dbs
  import opened Worlds

  // ---------------------------------------------------------------- handlers

  /** What a handler does: it throws, or leaves the state it should. */
  predicate Did(o: Outcome, threw: bool, t: State) {
    (threw <==> o.Abort?) && (!threw ==> t == o.state)
  }

  ghost function AsQuitted(r: QuitResult, t: State): QuitOutcome {
    match r
    case WasRefused => Refused
    case WasDone => Gone(t)
    case WasBroken => Broken
  }

  lemma KickIs(s: State, id: Id, ps: seq<string>, v: Verdict, pick: Id, threw: bool, t: State)
    requires id in s.infos && id in s.peers && v == KickVerdict(s, id, ps)
    requires v.Goes? ==> Did(Kicked(s, id, v.name, v.target, pick), threw, t)
    requires !v.Goes? ==> threw == v.Throws? && (v.Says? ==> t == Reply(s, id, v.message))
    ensures Did(HandleKick(s, id, ps, pick), threw, t)
  {
  }

  lemma KickedIs(s: State, id: Id, name: string, target: Id, pick: Id, r: QuitResult, t: State, u: State)
    requires name in s.rooms && target in s.infos && id in s.peers && target in t.infos
    requires ServerSpec.QuitChan(s, target, name, pick) == AsQuitted(r, t)
    requires r == WasRefused ==> u == Reply(s, id, NOT_ON_CHANNEL)
    requires r == WasDone ==> u == Detached(t, target)
    ensures Did(Kicked(s, id, name, target, pick), r == WasBroken, u)
  {
  }

  lemma EnteredIs(s: State, id: Id, name: string, t: State, threw: bool, u: State)
    requires id in s.infos && t == JoinChan(s, id, name) && (threw <==> t.infos[id].nick.None?)
    requires !threw ==> name in t.rooms && id in t.rooms[name].members
                        && u == Broadcast(t, name, JoinMessage(t, id, name))
    ensures threw <==> s.infos[id].nick.None?
    ensures !threw ==> u == Entered(s, id, name)
  {
  }

  lemma MovedIs(s: State, id: Id, name: string, pick: Id, r: QuitResult, t: State, threw: bool, u: State)
    requires id in s.infos && id in s.peers
    requires (if s.infos[id].joined.None? then Refused
              else ServerSpec.QuitChan(s, id, s.infos[id].joined.value, pick)) == AsQuitted(r, t)
    requires r == WasRefused ==> t == s
    requires r == WasBroken ==> threw
    requires r != WasBroken ==> id in t.infos && (threw <==> t.infos[id].nick.None?)
    requires r != WasBroken && !threw ==> u == Entered(t, id, name)
    ensures Did(Moved(s, id, name, pick), threw, u)
  {
  }

  lemma FarewellIs(s: State, id: Id, name: string, m: Message, pick: Id, r: QuitResult, t: State)
    requires name in s.rooms
    requires ServerSpec.QuitChan(Broadcast(s, name, m), id, name, pick) == AsQuitted(r, t)
    requires r == WasRefused ==> t == Broadcast(s, name, m)
    ensures Did(Farewell(s, id, name, m, pick), r == WasBroken, t)
  {
  }

  lemma QuitAnyNextId(rooms: map<string, Room>, infos: map<Id, ConnInfo>, peers: map<Id, Peer>, n: Id, id: Id,
                      name: string, pick: Id)
    ensures ServerSpec.QuitChan(State(rooms, infos, peers, n), id, name, pick)
            == match ServerSpec.QuitChan(State(rooms, infos, peers, 0), id, name, pick)
               case Refused => Refused
               case Broken => Broken
               case Gone(t) => Gone(t.(nextId := n))
  {
  }

  // ---------------------------------------------------------------- callbacks

  /** What a callback does: it throws, or leaves the world it should. */
  ghost predicate Ends(n: Next, threw: bool, w: World) {
    (threw <==> n.Crashes?) && (!threw ==> n.Reaches? && n.world == w)
  }

  ghost predicate Leaves(w: World, call: Call, ans: Answers, threw: bool, u: World) {
    Ends(Ran(w, call, ans), threw, u)
  }

  /** `Leaves`, unfolded only where it is mentioned. */
  ghost predicate DidLeave(w: World, call: Call, ans: Answers, threw: bool, u: World) {
    forall v {:trigger Leaves(w, call, ans, threw, v)} | v == u :: Leaves(w, call, ans, threw, v)
  }

  lemma AcceptEnds(w: World, call: Call, ans: Answers, infos: map<Id, ConnInfo>, peers: map<Id, Peer>,
                   ports: map<Id, Port>)
    requires call.cb == OnAccept && ans.accept.NewClient? && w.state.nextId !in w.state.infos
    requires infos == w.state.infos[w.state.nextId := ConnInfo(None, None, None, None, Init, ans.accept.ipv4)]
    requires peers == w.state.peers[w.state.nextId := Peer(true, [])] && ports == w.ports[w.state.nextId := NEW_PORT]
    ensures DidLeave(w, call, ans, false, World(State(w.state.rooms, infos, peers, w.state.nextId + 1), ports))
  {
  }

  lemma AcceptThrows(w: World, call: Call, ans: Answers, u: World)
    requires call.cb == OnAccept && !ans.accept.NewClient?
    ensures DidLeave(w, call, ans, true, u)
  {
  }

  /** A read of `x` that hands over nothing. */
  lemma QuietReadEnds(w: World, inputs: map<Id, Intake>, id: Id, call: Call, ans: Answers, x: Reading, t: State,
                      after: map<Id, Intake>)
    requires w.ports == PortsOf(inputs) && call.cb == OnReadable(id) && id in inputs && IsOpen(w, id)
    requires x.before == inputs[id] && x.r == ans.read && Received(x) && x.msg.None? && after == inputs[id := x.after]
    requires t == if x.r.EndOfStream? then HungUp(w.state, id) else w.state
    ensures DidLeave(w, call, ans, x.r.RecvFailed?, World(t, PortsOf(after)))
  {
    ReadDelivers(x);
    ReadIsDone(x, x.after);
    PortsWith(inputs, id, x.after);
    SameEntry(w.ports, id);
  }

  /** A read of `x`, the handling of its message, and the rotation that leaves `j`. */
  lemma HandledReadEnds(w: World, inputs: map<Id, Intake>, id: Id, call: Call, ans: Answers, x: Reading,
                        mid: map<Id, Intake>, j: Intake,
                        threw: bool, t: State, after: map<Id, Intake>)
    requires w.ports == PortsOf(inputs) && call.cb == OnReadable(id) && id in inputs && IsOpen(w, id)
    requires x.before == inputs[id] && x.r == ans.read && Received(x) && x.msg.Some? && mid == inputs[id := x.after]
    requires Did(ServerSpec.HandleMessage(w.state, id, x.msg.value, call.pick), threw, t)
    requires !threw ==> Trimmed(x.after, x.msgEnd, j) && after == mid[id := j]
    ensures DidLeave(w, call, ans, threw, World(t, PortsOf(after)))
  {
    ReadDelivers(x);
    if !threw {
      ReadIsDone(x, j);
      HandedOver(w, inputs, id, mid, x.after, j, after);
    }
    assert Leaves(w, call, ans, threw, World(t, PortsOf(after)));
  }

  lemma HandedOver(w: World, inputs: map<Id, Intake>, id: Id, mid: map<Id, Intake>, i: Intake, j: Intake,
                   after: map<Id, Intake>)
    requires w.ports == PortsOf(inputs) && id in inputs && mid == inputs[id := i] && after == mid[id := j]
    requires j.taken == inputs[id].taken
    ensures PortsOf(after) == w.ports[id := w.ports[id].(live := LiveOf(j))]
  {
    assert after == inputs[id := j];
    PortsWith(inputs, id, j);
  }

  lemma WriteEnds(w: World, inputs: map<Id, Intake>, id: Id, call: Call, ans: Answers, snd: Sender, threw: bool,
                  t: State,
                  after: map<Id, Intake>)
    requires w.ports == PortsOf(inputs) && call.cb == OnWritable(id)
    requires id in inputs && IsOpen(w, id) && SendOk(w.state.peers[id].log, inputs[id].taken, snd)
    requires var d := Drain(snd, ans.sends, 0);
             && threw == (d.end == Threw) && t == (if d.end == Closed then HungUp(w.state, id) else w.state)
             && after == inputs[id := inputs[id].(taken := Sent(inputs[id].taken, snd, d))]
    ensures DidLeave(w, call, ans, threw, World(t, PortsOf(after)))
  {
    OutIs(w.state.peers[id].log, inputs[id].taken, snd);
    PortsWith(inputs, id, after[id]);
  }

  /** A callback throws exactly when a system call fails or a message does not complete. */
  lemma CallThrows(w: World, call: Call, ans: Answers, threw: bool, u: World)
    requires Inv(w.state) && DidLeave(w, call, ans, threw, u)
    ensures threw <==> Fatal(w, call.cb, ans)
  {
    assert Leaves(w, call, ans, threw, u);
    ThrowsExactly(w, call, ans);
  }

  lemma CallFacts(s: State)
    requires Inv(s)
    ensures s.infos.Keys == s.peers.Keys && NicksDistinct(s.infos)
    ensures s.nextId !in s.infos && s.nextId !in s.peers
  {
  }

  /** One more callback after those of `calls`. */
  lemma CallEnds(w: World, calls: seq<Call>, call: Call, answers: nat -> Answers, v: World, threw: bool, u: World)
    requires Ends(RunTicks(w, CallTicks(calls, answers)), false, v)
    requires DidLeave(v, call, answers(|calls|), threw, u)
    ensures Ends(RunTicks(w, CallTicks(calls + [call], answers)), threw, u)
  {
    assert Leaves(v, call, answers(|calls|), threw, u);
    OneMoreCall(calls, call, answers);
    TicksConcat(w, CallTicks(calls, answers), [Calls(call, answers(|calls|))]);
    OneTickRun(v, Calls(call, answers(|calls|)));
  }
}
