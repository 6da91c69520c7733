/** The rounds of the main loop: a pass over the registry, then the clearing of closed
    connections. */
module Rounds {
  import opened Polling
  import opened Logs
  import opened ServerSpec
  import opened Invariant
  import opened Wiring
  import opened Clearing
  import opened Worlds
  import opened Traffic
  import opened Callbacks
  import opened Passes

  // ---------------------------------------------------------------- clearing

  /** The turns of the clearing loop so far lead from `w` to `u`. */
  ghost predicate Clears(w: World, turns: seq<Turn>, u: World) {
    && Inv(w.state) && ClearAll(w.state, turns).Ok? && u.state == ClearAll(w.state, turns).state
    && u.ports == Only(w.ports, u.state.peers.Keys)
  }

  /** `Clears`, unfolded only where it is mentioned. */
  ghost predicate IsCleared(w: World, turns: seq<Turn>, u: World) {
    forall v {:trigger Clears(w, turns, v)} | v == u :: Clears(w, turns, v)
  }

  lemma BuriedIs(s: State, id: Id, pick: Id, threw: bool, t: State)
    requires id in s.peers && !s.peers[id].connected && Clearable(s, id) && Did(Goodbye(s, id, pick), threw, t)
    ensures Cleaned(t, id) && Reap(s, id, pick).Ok? && Reap(s, id, pick).state == Removed(t, id)
  {
    assert IsCleaned(s, id, pick);
  }

  lemma ClearsNothing(w: World)
    requires Inv(w.state) && w.ports.Keys == w.state.peers.Keys
    ensures IsCleared(w, [], w)
  {
    OnlyAll(w.ports);
  }

  lemma ClearedIsClearable(w: World, turns: seq<Turn>, u: World, id: Id)
    requires IsCleared(w, turns, u) && id in u.state.peers && !u.state.peers[id].connected
    ensures Clearable(u.state, id)
  {
    assert Clears(w, turns, u);
    StillClearable(w.state, turns, id);
  }

  lemma ClearsOpen(w: World, turns: seq<Turn>, u: World, id: Id, pick: Id)
    requires IsCleared(w, turns, u) && id in u.state.peers && u.state.peers[id].connected
    ensures IsCleared(w, turns + [Turn(id, pick)], u)
  {
    assert Clears(w, turns, u);
    ClearOneMore(w.state, turns, Turn(id, pick));
  }

  lemma ClearsOne(w: World, turns: seq<Turn>, u: World, id: Id, pick: Id, v: World)
    requires IsCleared(w, turns, u) && id in u.state.peers && Reap(u.state, id, pick).Ok?
    requires v.state == Reap(u.state, id, pick).state
    requires v.ports == u.ports - {id} && v.state.peers.Keys == u.state.peers.Keys - {id}
    ensures IsCleared(w, turns + [Turn(id, pick)], v)
  {
    assert Clears(w, turns, u);
    ClearOneMore(w.state, turns, Turn(id, pick));
  }

  lemma ClearedIsRun(w: World, turns: seq<Turn>, u: World)
    requires IsCleared(w, turns, u) && w.ports.Keys == w.state.peers.Keys
    ensures ClearAll(w.state, turns).Ok? && u.state == ClearAll(w.state, turns).state
    ensures Ends(RunTicks(w, SweepTicks(turns)), false, u)
  {
    assert Clears(w, turns, u);
    SweepIs(w, turns);
  }

  // ---------------------------------------------------------------- rounds

  /** What `::poll` answers in one round, and what is answered during it. */
  datatype Round = Round(n: int, interrupted: bool, revents: nat -> Mask, answers: nat -> Answers)

  /** What one iteration of the main loop did: its pass over the registry, the turns of its
      clearing loop, and the registry it left. */
  datatype Served = Served(pass: Pass, turns: seq<Turn>, end: Registry)

  /** One iteration: the callbacks, and then the clearing of every connection there is. */
  ghost function RunRound(w: World, served: Served, round: Round): Next {
    if round.n < 0 then (if round.interrupted then Reaches(w, []) else Crashes)
    else
      match RunTicks(w, CallTicks(served.pass.calls, round.answers))
      case Reaches(v, es) =>
        if v.state.peers.Keys <= Visited(served.turns) then Then(es, RunTicks(v, SweepTicks(served.turns)))
        else Dead
      case other => other
  }

  ghost function RunRounds(w: World, serves: seq<Served>, rounds: seq<Round>): Next
    requires |serves| <= |rounds|
    decreases |serves|
  {
    if serves == [] then Reaches(w, [])
    else
      var last := |serves| - 1;
      match RunRounds(w, serves[..last], rounds)
      case Reaches(v, es) => Then(es, RunRound(v, serves[last], rounds[last]))
      case other => other
  }

  lemma OneMoreRound(w: World, serves: seq<Served>, rounds: seq<Round>, served: Served, v: World, threw: bool, u: World)
    requires |serves| < |rounds| && Ends(RunRounds(w, serves, rounds), false, v)
    requires Ends(RunRound(v, served, rounds[|serves|]), threw, u)
    ensures Ends(RunRounds(w, serves + [served], rounds), threw, u)
  {
    assert (serves + [served])[..|serves|] == serves;
  }

  /** The ticks of the first rounds, in order. */
  function AllTicks(serves: seq<Served>, rounds: seq<Round>): seq<Tick>
    requires |serves| <= |rounds|
    decreases |serves|
  {
    if serves == [] then []
    else
      var last := |serves| - 1;
      AllTicks(serves[..last], rounds) + RoundTicks(serves[last], rounds[last])
  }

  function RoundTicks(served: Served, round: Round): seq<Tick> {
    if round.n < 0 then [] else CallTicks(served.pass.calls, round.answers) + SweepTicks(served.turns)
  }

  lemma RoundIsTicks(w: World, served: Served, round: Round)
    requires RunRound(w, served, round).Reaches?
    ensures RunTicks(w, RoundTicks(served, round)) == RunRound(w, served, round)
  {
    if round.n >= 0 {
      TicksConcat(w, CallTicks(served.pass.calls, round.answers), SweepTicks(served.turns));
    }
  }

  /** Rounds are runs of ticks, so what holds of those holds of the main loop. */
  lemma {:induction false} RoundsAreTicks(w: World, serves: seq<Served>, rounds: seq<Round>)
    requires |serves| <= |rounds| && RunRounds(w, serves, rounds).Reaches?
    ensures RunTicks(w, AllTicks(serves, rounds)) == RunRounds(w, serves, rounds)
    decreases |serves|
  {
    if serves != [] {
      var last := |serves| - 1;
      RoundsAreTicks(w, serves[..last], rounds);
      var v := RunRounds(w, serves[..last], rounds).world;
      RoundIsTicks(v, serves[last], rounds[last]);
      TicksConcat(w, AllTicks(serves[..last], rounds), RoundTicks(serves[last], rounds[last]));
    }
  }

  predicate AllOpen(s: State) {
    forall x | x in s.peers :: s.peers[x].connected
  }

  /** A round keeps the invariant; after a poll that was not interrupted, every connection
      left is open. */
  lemma RoundReaches(w: World, served: Served, round: Round)
    requires WorldOk(w) && RunRound(w, served, round).Reaches?
    ensures var n := RunRound(w, served, round);
            WorldOk(n.world) && Took(w.state, n.events, n.world.state) && (round.n >= 0 ==> AllOpen(n.world.state))
  {
    RoundIsTicks(w, served, round);
    TicksKeepOk(w, RoundTicks(served, round));
    TicksAreRun(w, RoundTicks(served, round));
    if round.n >= 0 {
      var calls := CallTicks(served.pass.calls, round.answers);
      var v := RunTicks(w, calls).world;
      TicksKeepOk(w, calls);
      ReapPass(v.state, served.turns);
      SweepIs(v, served.turns);
    }
  }

  /** A round whose callbacks lead from `w` to `v` and whose clearing leads on to `u`. */
  lemma RoundEnds(w: World, served: Served, round: Round, v: World, u: World)
    requires WorldOk(w) && round.n >= 0 && Ends(RunTicks(w, CallTicks(served.pass.calls, round.answers)), false, v)
    requires v.state.peers.Keys <= Visited(served.turns) && IsCleared(v, served.turns, u)
    ensures Ends(RunRound(w, served, round), false, u) && Inv(u.state) && AllOpen(u.state)
  {
    TicksKeepOk(w, CallTicks(served.pass.calls, round.answers));
    ClearedIsRun(v, served.turns, u);
    RoundReaches(w, served, round);
  }

  /** Sound objects make a world whose connections lose nothing. */
  lemma NetIsOk(net: Net, s: State)
    requires NetOk(net) && s.peers == Peers(net.conns) && Inv(s)
    ensures WorldOk(World(s, PortsOf(Inputs(net.conns))))
  {
    var w := World(s, PortsOf(Inputs(net.conns)));
    forall id | id in w.ports
      ensures SendSide(w, id)
    {
      Ours(net, id);
      assert SendOk(w.state.peers[id].log, w.ports[id].taken, net.conns[id].Snd());
    }
  }

  /** What is read is what is handled, on every connection, over any number of rounds. */
  lemma RoundsHandleReads(w: World, serves: seq<Served>, rounds: seq<Round>)
    requires WorldOk(w) && |serves| <= |rounds| && RunRounds(w, serves, rounds).Reaches?
    ensures forall id :: HandlesReads(w, AllTicks(serves, rounds), RunRounds(w, serves, rounds), id)
  {
    RoundsAreTicks(w, serves, rounds);
    forall id {
      HandlesWhatIsRead(w, AllTicks(serves, rounds), id);
    }
  }

  /** The main loop never leaves the reachable states. */
  lemma RoundsReach(w: World, serves: seq<Served>, rounds: seq<Round>)
    requires WorldOk(w) && Reachable(w.state) && |serves| <= |rounds| && RunRounds(w, serves, rounds).Reaches?
    ensures Reachable(RunRounds(w, serves, rounds).world.state)
  {
    RoundsAreTicks(w, serves, rounds);
    TicksAreRun(w, AllTicks(serves, rounds));
    ReachableOn(w.state, RunRounds(w, serves, rounds).events, RunRounds(w, serves, rounds).world.state);
  }

  // ---------------------------------------------------------------- the registry between rounds

  /** The registry a round starts from. */
  function RegistryAt(r: Registry, serves: seq<Served>, j: nat): Registry
    requires j <= |serves|
  {
    if j == 0 then r else serves[j - 1].end
  }

  /** A round walks the registry as `::poll` left it; its callbacks remove what they can, and
      its clearing removes nothing. */
  ghost predicate Walks(r: Registry, served: Served, round: Round) {
    if round.n < 0 then served.end == r
    else served.pass.start == Polled(r, round.revents) && Keeps(served.pass) && HasShed(served.pass.now, served.end, {})
  }

  /** `Walks`, unfolded only where it is mentioned. */
  ghost predicate Walked(r: Registry, served: Served, round: Round) {
    forall x {:trigger Walks(r, x, round)} | x == served :: Walks(r, x, round)
  }

  ghost predicate AllWalked(r: Registry, serves: seq<Served>, rounds: seq<Round>) {
    |serves| <= |rounds| && forall j | 0 <= j < |serves| :: Walked(RegistryAt(r, serves, j), serves[j], rounds[j])
  }

  lemma OneMoreWalked(r: Registry, serves: seq<Served>, rounds: seq<Round>, served: Served)
    requires AllWalked(r, serves, rounds) && |serves| < |rounds|
    requires Walked(RegistryAt(r, serves, |serves|), served, rounds[|serves|])
    ensures AllWalked(r, serves + [served], rounds)
  {
    var more := serves + [served];
    forall j | 0 <= j < |more|
      ensures Walked(RegistryAt(r, more, j), more[j], rounds[j])
    {
      assert RegistryAt(r, more, j) == RegistryAt(r, serves, j);
      if j < |serves| {
        assert more[j] == serves[j];
      }
    }
  }

  /** The first `n` rounds went over every entry. */
  ghost predicate AllPassed(serves: seq<Served>, rounds: seq<Round>, n: nat) {
    n <= |serves| <= |rounds| && forall j | 0 <= j < n && rounds[j].n >= 0 :: PassDone(serves[j].pass)
  }

  lemma OneMorePassed(serves: seq<Served>, rounds: seq<Round>, served: Served)
    requires AllPassed(serves, rounds, |serves|) && |serves| < |rounds|
    ensures AllPassed(serves + [served], rounds, |serves|)
    ensures (rounds[|serves|].n >= 0 ==> PassDone(served.pass)) ==> AllPassed(serves + [served], rounds, |serves| + 1)
  {
  }

  /** In world `w` the registry is `r`; each call of the round removed exactly what was
      expected before it and not after it, and after all of them the registry is what is
      expected then. */
  ghost predicate Tracks(w: World, r: Registry, served: Served, round: Round) {
    && IsMirrored(r, w)
    && (round.n >= 0 ==>
          && DropsFit(w, served.pass.calls, served.pass.drops, round.answers)
          && var n := RunTicks(w, CallTicks(served.pass.calls, round.answers));
             n.Reaches? ==> IsMirrored(served.pass.now, n.world))
  }

  ghost predicate TracksAt(w: World, r: Registry, serves: seq<Served>, rounds: seq<Round>, j: nat)
    requires j < |serves| <= |rounds|
  {
    var n := RunRounds(w, serves[..j], rounds);
    n.Reaches? && Tracks(n.world, RegistryAt(r, serves, j), serves[j], rounds[j])
  }

  ghost predicate AllTracked(w: World, r: Registry, serves: seq<Served>, rounds: seq<Round>) {
    |serves| <= |rounds| && forall j | 0 <= j < |serves| :: TracksAt(w, r, serves, rounds, j)
  }

  lemma OneMoreTracked(w: World, r: Registry, serves: seq<Served>, rounds: seq<Round>, served: Served, v: World)
    requires AllTracked(w, r, serves, rounds) && |serves| < |rounds| && Ends(RunRounds(w, serves, rounds), false, v)
    requires Tracks(v, RegistryAt(r, serves, |serves|), served, rounds[|serves|])
    ensures AllTracked(w, r, serves + [served], rounds)
  {
    var more := serves + [served];
    forall j | 0 <= j < |more|
      ensures TracksAt(w, r, more, rounds, j)
    {
      assert more[..j] == serves[..j];
      assert RegistryAt(r, more, j) == RegistryAt(r, serves, j);
      if j < |serves| {
        assert TracksAt(w, r, serves, rounds, j);
      } else {
        assert serves[..j] == serves;
      }
    }
  }
}
