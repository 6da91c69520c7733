/** Two connections that stay in one channel hear the same broadcasts in the same order. */
module BroadcastOrder {
  import opened Text
  import opened Message
  import opened Logs
  import opened ServerSpec
  import opened Rooms
  import opened Invariant
  import opened Ages
  import opened Runs

  /** Between `p` and `q`, `a` and `b` were sent the same messages through channels. */
  ghost predicate Level(p: map<Id, Peer>, q: map<Id, Peer>, a: Id, b: Id) {
    && a in p && b in p && a in q && b in q
    && exists d: seq<Message> :: Shared(q[a].log) == Shared(p[a].log) + d && Shared(q[b].log) == Shared(p[b].log) + d
  }

  lemma LevelSame(p: map<Id, Peer>, q: map<Id, Peer>, a: Id, b: Id)
    requires a in p && b in p && a in q && b in q
    requires Shared(q[a].log) == Shared(p[a].log) && Shared(q[b].log) == Shared(p[b].log)
    ensures Level(p, q, a, b)
  {
    assert Shared(q[a].log) == Shared(p[a].log) + [] && Shared(q[b].log) == Shared(p[b].log) + [];
  }

  lemma LevelTransitive(p: map<Id, Peer>, q: map<Id, Peer>, r: map<Id, Peer>, a: Id, b: Id)
    requires Level(p, q, a, b) && Level(q, r, a, b)
    ensures Level(p, r, a, b)
  {
    var d: seq<Message> :| Shared(q[a].log) == Shared(p[a].log) + d && Shared(q[b].log) == Shared(p[b].log) + d;
    var e: seq<Message> :| Shared(r[a].log) == Shared(q[a].log) + e && Shared(r[b].log) == Shared(q[b].log) + e;
    Assoc(Shared(p[a].log), d, e);
    Assoc(Shared(p[b].log), d, e);
  }

  /** Each broadcast reaches the connected members, once, and nobody else. */
  lemma ShoutReaches(p: map<Id, Peer>, ids: set<Id>, m: Message, x: Id)
    requires x in p
    ensures x in Shout(p, ids, m)
    ensures Shared(Shout(p, ids, m)[x].log) == Shared(p[x].log) + if x in ids && p[x].connected then [m] else []
  {
    SharedSnoc(p[x].log, Posted(m, true));
    assert Shared(p[x].log) + [] == Shared(p[x].log);
  }

  lemma ShoutLevel(p: map<Id, Peer>, ids: set<Id>, m: Message, a: Id, b: Id)
    requires a in p && b in p && p[a].connected && p[b].connected && (a in ids <==> b in ids)
    ensures Level(p, Shout(p, ids, m), a, b)
  {
    ShoutReaches(p, ids, m, a);
    ShoutReaches(p, ids, m, b);
  }

  lemma ReplyLevel(s: State, id: Id, m: Message, a: Id, b: Id)
    requires id in s.peers && a in s.peers && b in s.peers
    ensures Level(s.peers, Reply(s, id, m).peers, a, b)
  {
    SharedSnoc(s.peers[id].log, Posted(m, false));
    LevelSame(s.peers, Reply(s, id, m).peers, a, b);
  }

  /** Both are connected and in `c`. */
  ghost predicate Together(s: State, c: string, a: Id, b: Id) {
    && IsMember(s, c, a) && IsMember(s, c, b)
    && a in s.peers && b in s.peers && s.peers[a].connected && s.peers[b].connected
  }

  lemma SameRooms(s: State, c: string, a: Id, b: Id)
    requires Inv(s) && IsMember(s, c, a) && IsMember(s, c, b)
    ensures forall d :: IsMember(s, d, a) <==> d == c
    ensures forall d :: IsMember(s, d, b) <==> d == c
  {
    assert HasJoined(s, c, a) && HasJoined(s, c, b);
    assert forall d :: IsMember(s, d, a) <==> HasJoined(s, d, a);
    assert forall d :: IsMember(s, d, b) <==> HasJoined(s, d, b);
  }

  lemma BroadcastLevel(s: State, d: string, m: Message, c: string, a: Id, b: Id)
    requires Inv(s) && Together(s, c, a, b) && d in s.rooms
    ensures Level(s.peers, Broadcast(s, d, m).peers, a, b)
  {
    SameRooms(s, c, a, b);
    assert IsMember(s, d, a) <==> IsMember(s, d, b);
    ShoutLevel(s.peers, s.rooms[d].members.Keys, m, a, b);
  }

  /** `quit_chan` on a third connection. */
  lemma QuitLevel(s: State, id: Id, d: string, pick: Id, c: string, a: Id, b: Id)
    requires Inv(s) && Together(s, c, a, b) && id != a && id != b && QuitChan(s, id, d, pick).Gone?
    ensures Level(s.peers, QuitChan(s, id, d, pick).state.peers, a, b)
  {
    SameRooms(s, c, a, b);
    assert IsMember(s, d, a) <==> IsMember(s, d, b);
    var left := s.rooms[d].members - {id};
    var after := Promoted(left, pick);
    LevelSame(s.peers, s.peers, a, b);
    var heir := Heir(left, pick);
    if left.Keys != {} && heir.Some? {
      assert after.Keys == left.Keys;
      ShoutLevel(s.peers, left.Keys, System(d, s.infos[heir.value].nick.value + " promoted to operator"), a, b);
    }
  }

  lemma QuitTogether(s: State, id: Id, d: string, pick: Id, c: string, a: Id, b: Id)
    requires Inv(s) && Together(s, c, a, b) && id != a && id != b && IsMember(s, d, id)
    ensures QuitChan(s, id, d, pick).Gone?
    ensures var q := QuitChan(s, id, d, pick).state; Together(q, c, a, b) && id in q.infos && Inv(Detached(q, id))
    ensures Level(s.peers, QuitChan(s, id, d, pick).state.peers, a, b)
  {
    var o :| IsBoss(s.rooms[d].members, o);
    QuitEffect(s, id, d, o, pick);
    LeftMembers(s, QuitChan(s, id, d, pick).state, d, id);
    DetachKeeps(s, QuitChan(s, id, d, pick).state, d, id);
    QuitLevel(s, id, d, pick, c, a, b);
  }

  lemma EnterLevel(s: State, id: Id, d: string, m: Message, c: string, a: Id, b: Id)
    requires id in s.infos && Inv(Detached(s, id)) && Together(s, c, a, b) && id != a && id != b
    requires s.infos[id].state == RegisteredUser && ChannelName(d)
    ensures d in JoinChan(s, id, d).rooms
    ensures Level(s.peers, Broadcast(JoinChan(s, id, d), d, m).peers, a, b)
  {
    var t := Detached(s, id);
    RejoinSame(s, id, d);
    assert Together(t, c, a, b);
    SameRooms(t, c, a, b);
    var u := JoinChan(t, id, d);
    assert IsMember(t, d, a) <==> IsMember(t, d, b);
    ShoutLevel(s.peers, u.rooms[d].members.Keys, m, a, b);
  }

  lemma MoveLevel(s: State, id: Id, d: string, e: string, m: Message, pick: Id, c: string, a: Id, b: Id)
    requires Inv(s) && Together(s, c, a, b) && id != a && id != b
    requires id in s.infos && s.infos[id].joined == Some(d) && ChannelName(e)
    ensures QuitChan(s, id, d, pick).Gone? && id in QuitChan(s, id, d, pick).state.infos
    ensures var t := JoinChan(QuitChan(s, id, d, pick).state, id, e);
            e in t.rooms && Level(s.peers, Broadcast(t, e, m).peers, a, b)
  {
    JoinedIn(s, Model(s), id);
    LeaveKeeps(s, Model(s), id, id, d, pick);
    QuitTogether(s, id, d, pick, c, a, b);
    var q := QuitChan(s, id, d, pick).state;
    EnterLevel(q, id, e, m, c, a, b);
    LevelTransitive(s.peers, q.peers, Broadcast(JoinChan(q, id, e), e, m).peers, a, b);
  }

  lemma DetachedAlready(s: State, id: Id)
    requires id in s.infos && s.infos[id].joined.None?
    ensures Detached(s, id) == s
  {
    assert Detached(s, id).infos == s.infos;
  }

  lemma JoinerLeaves(s: State, id: Id, ps: seq<string>, pick: Id)
    requires Inv(s) && id in s.infos && s.infos[id].joined.Some? && |ps| >= 1 && ChannelName(ps[0])
    ensures HandleJoin(s, id, ps, pick).Ok? ==> exists act :: act in HandleJoin(s, id, ps, pick).acts && Moves(act, id)
    ensures s.infos[id].joined.value in s.rooms && QuitChan(s, id, s.infos[id].joined.value, pick).Gone?
  {
    var d := s.infos[id].joined.value;
    JoinedIn(s, Model(s), id);
    LeaveKeeps(s, Model(s), id, id, d, pick);
    if HandleJoin(s, id, ps, pick).Ok? {
      assert Leave(id, id, HeirOf(s, id, d, pick)) in HandleJoin(s, id, ps, pick).acts;
    }
  }

  lemma JoinLevel(s: State, id: Id, ps: seq<string>, pick: Id, c: string, a: Id, b: Id)
    requires Inv(s) && Together(s, c, a, b) && id in s.infos && s.infos[id].state == RegisteredUser
    requires HandleJoin(s, id, ps, pick).Ok?
    requires forall act | act in HandleJoin(s, id, ps, pick).acts :: !Moves(act, a) && !Moves(act, b)
    ensures Level(s.peers, HandleJoin(s, id, ps, pick).state.peers, a, b)
  {
    if |ps| < 1 || !ChannelName(ps[0]) {
      assert HasJoined(s, c, a) && HasJoined(s, c, b);
      ReplyLevel(s, id, if |ps| < 1 then NeedMoreParams(Join) else NO_SUCH_CHANNEL, a, b);
    } else if s.infos[id].joined.Some? {
      NextLevel(s, id, ps, pick, c, a, b);
    } else {
      FirstLevel(s, id, ps[0], pick, c, a, b);
    }
  }

  lemma NextLevel(s: State, id: Id, ps: seq<string>, pick: Id, c: string, a: Id, b: Id)
    requires Inv(s) && Together(s, c, a, b) && id in s.infos && s.infos[id].joined.Some?
    requires s.infos[id].state == RegisteredUser
    requires |ps| >= 1 && ChannelName(ps[0]) && HandleJoin(s, id, ps, pick).Ok?
    requires forall act | act in HandleJoin(s, id, ps, pick).acts :: !Moves(act, a) && !Moves(act, b)
    ensures Level(s.peers, HandleJoin(s, id, ps, pick).state.peers, a, b)
  {
    var d, e := s.infos[id].joined.value, ps[0];
    JoinerLeaves(s, id, ps, pick);
    var t := JoinChan(QuitChan(s, id, d, pick).state, id, e);
    var m := System(e, JoinText(s.infos[id].nick.value, e, t.rooms[e].members[id].isOperator));
    MoveLevel(s, id, d, e, m, pick, c, a, b);
  }

  lemma FirstLevel(s: State, id: Id, e: string, pick: Id, c: string, a: Id, b: Id)
    requires Inv(s) && Together(s, c, a, b) && id in s.infos && s.infos[id].joined.None?
    requires s.infos[id].state == RegisteredUser
    requires ChannelName(e)
    ensures Moved(s, id, e, pick).Ok? && Level(s.peers, Moved(s, id, e, pick).state.peers, a, b)
  {
    DetachedAlready(s, id);
    MovedFirst(s, id, e, pick);
    var t := JoinChan(s, id, e);
    EnterLevel(s, id, e, System(e, JoinText(s.infos[id].nick.value, e, t.rooms[e].members[id].isOperator)), c, a, b);
  }

  lemma FarewellLevel(s: State, id: Id, d: string, m: Message, pick: Id, c: string, a: Id, b: Id)
    requires Inv(s) && Together(s, c, a, b) && id != a && id != b
    requires id in s.infos && s.infos[id].joined == Some(d)
    ensures d in s.rooms && QuitChan(Broadcast(s, d, m), id, d, pick).Gone?
    ensures Level(s.peers, QuitChan(Broadcast(s, d, m), id, d, pick).state.peers, a, b)
  {
    JoinedIn(s, Model(s), id);
    BroadcastLevel(s, d, m, c, a, b);
    var t := Broadcast(s, d, m);
    BroadcastFollows(s, Model(s), d, m);
    assert Together(t, c, a, b) && IsMember(t, d, id);
    QuitTogether(t, id, d, pick, c, a, b);
    LevelTransitive(s.peers, t.peers, QuitChan(t, id, d, pick).state.peers, a, b);
  }

  lemma SameLogsLevel(p: map<Id, Peer>, q: map<Id, Peer>, r: map<Id, Peer>, a: Id, b: Id)
    requires Level(p, q, a, b) && a in r && b in r && r[a].log == q[a].log && r[b].log == q[b].log
    ensures Level(p, r, a, b)
  {
  }

  lemma QuitterLevel(s: State, id: Id, ps: seq<string>, pick: Id, c: string, a: Id, b: Id)
    requires Inv(s) && Together(s, c, a, b) && id in s.infos && HandleQuit(s, id, ps, pick).Ok?
    requires forall act | act in HandleQuit(s, id, ps, pick).acts :: !Moves(act, a) && !Moves(act, b)
    ensures Level(s.peers, HandleQuit(s, id, ps, pick).state.peers, a, b)
  {
    assert HasJoined(s, c, a) && HasJoined(s, c, b);
    var nick, joined := s.infos[id].nick.value, s.infos[id].joined;
    if joined.None? {
      LevelSame(s.peers, HungUp(s, id).peers, a, b);
    } else {
      var m := PrivateMessage(nick, [if |ps| == 0 then nick + " quit" else ps[1]]);
      GoodbyeFollows(s, Model(s), id, joined.value, m, pick);
      assert Leave(id, id, HeirOf(s, id, joined.value, pick)) in HandleQuit(s, id, ps, pick).acts;
      FarewellLevel(s, id, joined.value, m, pick, c, a, b);
      var q := QuitChan(Broadcast(s, joined.value, m), id, joined.value, pick).state;
      SameLogsLevel(s.peers, q.peers, HandleQuit(s, id, ps, pick).state.peers, a, b);
    }
  }

  lemma KickerLevel(s: State, id: Id, ps: seq<string>, pick: Id, c: string, a: Id, b: Id)
    requires Inv(s) && Together(s, c, a, b) && id in s.infos && HandleKick(s, id, ps, pick).Ok?
    requires forall act | act in HandleKick(s, id, ps, pick).acts :: !Moves(act, a) && !Moves(act, b)
    ensures Level(s.peers, HandleKick(s, id, ps, pick).state.peers, a, b)
  {
    forall m {
      ReplyLevel(s, id, m, a, b);
    }
    var o := HandleKick(s, id, ps, pick);
    if o.acts != [] {
      var d, x := GetChanName(ps[0], s.infos[id]).value, FindNick(s.infos, ps[1]).value;
      assert o.acts[0] in o.acts;
      QuitTogether(s, x, d, pick, c, a, b);
    }
  }

  lemma RepliesLevel(s: State, id: Id, cmd: Command, ps: seq<string>, pick: Id, c: string, a: Id, b: Id)
    requires Inv(s) && Together(s, c, a, b) && id in s.infos && HandleCommand(s, id, cmd, ps, pick).Ok?
    requires cmd == Pong || cmd == Nick || cmd == User || cmd == Ping || cmd == Whois
    ensures Level(s.peers, HandleCommand(s, id, cmd, ps, pick).state.peers, a, b)
  {
    forall m {
      ReplyLevel(s, id, m, a, b);
    }
    LevelSame(s.peers, s.peers, a, b);
  }

  lemma ModeLevel(s: State, id: Id, ps: seq<string>, c: string, a: Id, b: Id)
    requires Inv(s) && Together(s, c, a, b) && id in s.infos && HandleMode(s, id, ps).Ok?
    ensures Level(s.peers, HandleMode(s, id, ps).state.peers, a, b)
  {
    forall m {
      ReplyLevel(s, id, m, a, b);
    }
    LevelSame(s.peers, s.peers, a, b);
  }

  lemma PrivmsgLevel(s: State, id: Id, ps: seq<string>, c: string, a: Id, b: Id)
    requires Inv(s) && Together(s, c, a, b) && id in s.infos && HandlePrivmsg(s, id, ps).Ok?
    ensures Level(s.peers, HandlePrivmsg(s, id, ps).state.peers, a, b)
  {
    forall m {
      ReplyLevel(s, id, m, a, b);
    }
    forall d, m | d in s.rooms {
      BroadcastLevel(s, d, m, c, a, b);
    }
  }

  lemma CommandLevel(s: State, id: Id, cmd: Command, ps: seq<string>, pick: Id, c: string, a: Id, b: Id)
    requires Inv(s) && Together(s, c, a, b) && id in s.infos && HandleCommand(s, id, cmd, ps, pick).Ok?
    requires Expected(s.infos[id].state, cmd)
    requires forall act | act in HandleCommand(s, id, cmd, ps, pick).acts :: !Moves(act, a) && !Moves(act, b)
    ensures Level(s.peers, HandleCommand(s, id, cmd, ps, pick).state.peers, a, b)
  {
    match cmd
    case Join => JoinLevel(s, id, ps, pick, c, a, b);
    case Quit => QuitterLevel(s, id, ps, pick, c, a, b);
    case Kick => KickerLevel(s, id, ps, pick, c, a, b);
    case Mode => ModeLevel(s, id, ps, c, a, b);
    case Privmsg => PrivmsgLevel(s, id, ps, c, a, b);
    case _ => RepliesLevel(s, id, cmd, ps, pick, c, a, b);
  }

  lemma ReapLevel(s: State, id: Id, pick: Id, c: string, a: Id, b: Id)
    requires Inv(s) && Together(s, c, a, b) && id in s.peers && !s.peers[id].connected && Reap(s, id, pick).Ok?
    ensures Level(s.peers, Reap(s, id, pick).state.peers, a, b)
  {
    LevelSame(s.peers, s.peers, a, b);
    var t := Reap(s, id, pick).state;
    if s.infos[id].joined.None? {
      SameLogsLevel(s.peers, s.peers, t.peers, a, b);
    } else {
      var d, nick := s.infos[id].joined.value, s.infos[id].nick.value;
      var m := PrivateMessage(nick, [d, nick + " quit"]);
      FarewellLevel(s, id, d, m, pick, c, a, b);
      SameLogsLevel(s.peers, QuitChan(Broadcast(s, d, m), id, d, pick).state.peers, t.peers, a, b);
    }
  }

  lemma StepLevel(s: State, e: Event, c: string, a: Id, b: Id)
    requires Inv(s) && Together(s, c, a, b) && Enabled(s, e) && Step(s, e).Ok?
    requires forall act | act in Step(s, e).acts :: !Moves(act, a) && !Moves(act, b)
    ensures Level(s.peers, Step(s, e).state.peers, a, b)
  {
    LevelSame(s.peers, s.peers, a, b);
    match e
    case Connects(ipv4) => SameLogsLevel(s.peers, s.peers, Admitted(s, ipv4).peers, a, b);
    case GoesAway(id) => SameLogsLevel(s.peers, s.peers, HungUp(s, id).peers, a, b);
    case IsReaped(id, pick) => ReapLevel(s, id, pick, c, a, b);
    case Sends(id, text, pick) =>
      if Decode(text).Parsed? && Decode(text).msg.verb.Cmd? {
        var m := Decode(text).msg;
        if Expected(s.infos[id].state, m.verb.cmd) {
          CommandLevel(s, id, m.verb.cmd, m.params, pick, c, a, b);
        }
      }
  }

  lemma StepTogether(s: State, e: Event, c: string, a: Id, b: Id)
    requires Inv(s) && Together(s, c, a, b) && Enabled(s, e) && Step(s, e).Ok?
    requires forall act | act in Step(s, e).acts :: !Moves(act, a) && !Moves(act, b)
    ensures Inv(Step(s, e).state) && IsMember(Step(s, e).state, c, a) && IsMember(Step(s, e).state, c, b)
    ensures a in Step(s, e).state.peers && b in Step(s, e).state.peers
  {
    var m, o := Model(s), Step(s, e);
    ModelOk(s, m);
    StepFollows(s, m, e);
    assert HasJoined(s, c, a) && HasJoined(s, c, b);
    assert In(m, a, c) && In(m, b, c);
    PlaceStays(m, o.acts, a, c);
    PlaceStays(m, o.acts, b, c);
    assert In(DoAll(m, o.acts), a, c) && In(DoAll(m, o.acts), b, c);
    assert HasJoined(o.state, c, a) && HasJoined(o.state, c, b);
  }

  predicate NeitherMoves(acts: seq<Act>, a: Id, b: Id) {
    forall act | act in acts :: !Moves(act, a) && !Moves(act, b)
  }

  lemma ActsSplit(s: State, es: seq<Event>, a: Id, b: Id)
    requires Legal(s, es) && es != [] && NeitherMoves(Acts(s, es), a, b)
    ensures NeitherMoves(Step(s, es[0]).acts, a, b)
    ensures NeitherMoves(Acts(Step(s, es[0]).state, es[1..]), a, b)
  {
    var first, rest := Step(s, es[0]).acts, Acts(Step(s, es[0]).state, es[1..]);
    assert Acts(s, es) == first + rest;
    assert forall act | act in first :: act in first + rest;
    assert forall act | act in rest :: act in first + rest;
  }

  predicate StillConnected(s: State, a: Id, b: Id) {
    (a in s.peers ==> s.peers[a].connected) && (b in s.peers ==> s.peers[b].connected)
  }

  /** Common order: over any run in which two members of a channel neither leave it nor
      lose their connection, the broadcasts added to their logs are equal. */
  lemma {:induction false} CommonOrder(s: State, es: seq<Event>, c: string, a: Id, b: Id)
    requires Inv(s) && Legal(s, es) && Together(s, c, a, b)
    requires NeitherMoves(Acts(s, es), a, b) && StillConnected(Run(s, es), a, b)
    ensures Level(s.peers, Run(s, es).peers, a, b)
    decreases |es|
  {
    if es == [] {
      LevelSame(s.peers, s.peers, a, b);
    } else {
      var t, rest := Step(s, es[0]).state, es[1..];
      ActsSplit(s, es, a, b);
      StepLevel(s, es[0], c, a, b);
      StepTogether(s, es[0], c, a, b);
      StillThere(t, rest, c, a);
      StillThere(t, rest, c, b);
      CommonOrder(t, rest, c, a, b);
      LevelTransitive(s.peers, t.peers, Run(t, rest).peers, a, b);
    }
  }

  /** A member that does not leave is still there, and connected only if it was all along. */
  lemma StillThere(s: State, es: seq<Event>, c: string, x: Id)
    requires Inv(s) && Legal(s, es) && IsMember(s, c, x) && x in s.peers
    requires forall act | act in Acts(s, es) :: !Moves(act, x)
    ensures x in Run(s, es).peers
    ensures Run(s, es).peers[x].connected ==> s.peers[x].connected
  {
    var m := Model(s);
    ModelOk(s, m);
    RunFollows(s, m, es);
    RunAges(s, es);
    assert HasJoined(s, c, x);
    assert In(m, x, c);
    PlaceStays(m, Acts(s, es), x, c);
    assert In(DoAll(m, Acts(s, es)), x, c);
    assert HasJoined(Run(s, es), c, x);
  }
}
