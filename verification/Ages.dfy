/** What only ever grows: registration, logs, and the set of connections that are gone. */
module Ages {
  import opened Text
  import opened Message
  import opened ServerSpec
  import opened Rooms
  import opened Invariant

  function Rank(state: ConnState): nat {
    match state
    case Init => 0
    case RegisteredNick => 1
    case RegisteredUser => 2
  }

  /** Registration never moves backwards, and what it has fixed stays. */
  predicate InfoAges(x: ConnInfo, y: ConnInfo) {
    && Rank(x.state) <= Rank(y.state)
    && y.ipv4 == x.ipv4
    && (x.nick.Some? ==> y.nick.Some?)
    && (x.username.Some? ==> y.username == x.username)
    && (x.realname.Some? ==> y.realname == x.realname)
  }

  /** Messages are only added, and a closed connection stays closed. */
  predicate PeerAges(x: Peer, y: Peer) {
    x.log <= y.log && (y.connected ==> x.connected)
  }

  ghost predicate InfosAge(s: map<Id, ConnInfo>, t: map<Id, ConnInfo>) {
    forall id | id in s && id in t :: InfoAges(s[id], t[id])
  }

  ghost predicate PeersAge(s: map<Id, Peer>, t: map<Id, Peer>) {
    forall id | id in s && id in t :: PeerAges(s[id], t[id])
  }

  /** Identities are never used again. */
  ghost predicate NoReturn(s: State, t: State) {
    && s.nextId <= t.nextId
    && (forall id | id < s.nextId && id in t.infos :: id in s.infos)
    && (forall id | id < s.nextId && id in t.peers :: id in s.peers)
  }

  ghost predicate Ages(s: State, t: State) {
    InfosAge(s.infos, t.infos) && PeersAge(s.peers, t.peers) && NoReturn(s, t)
  }

  lemma AgesTransitive(s: State, t: State, u: State)
    requires Inv(s) && Ages(s, t) && Ages(t, u)
    ensures Ages(s, u)
  {
    forall id | id in s.infos && id in u.infos
      ensures InfoAges(s.infos[id], u.infos[id]) && id in t.infos
    {
      assert InfoAges(s.infos[id], t.infos[id]);
    }
    forall id | id in s.peers && id in u.peers
      ensures PeerAges(s.peers[id], u.peers[id]) && id in t.peers
    {
      assert id in s.infos && PeerAges(s.peers[id], t.peers[id]);
    }
  }

  lemma SameIdsAge(s: State, t: State)
    requires t.infos.Keys == s.infos.Keys && t.peers.Keys == s.peers.Keys && t.nextId == s.nextId
    requires InfosAge(s.infos, t.infos) && PeersAge(s.peers, t.peers)
    ensures Ages(s, t)
  {
  }

  lemma QuietAges(s: State, t: State)
    requires Quiet(s, t)
    ensures Ages(s, t)
  {
  }

  lemma ReplyAges(s: State, id: Id, m: Message)
    requires id in s.peers
    ensures Ages(s, Reply(s, id, m))
  {
    QuietAges(s, Reply(s, id, m));
  }

  lemma JoinAges(s: State, a: Rooms, id: Id, ps: seq<string>, pick: Id)
    requires Inv(s) && Shows(s, a) && id in s.infos && HandleJoin(s, id, ps, pick).Ok?
    ensures Ages(s, HandleJoin(s, id, ps, pick).state)
  {
    ReplyAges(s, id, NeedMoreParams(Join));
    ReplyAges(s, id, NO_SUCH_CHANNEL);
    if |ps| >= 1 && ChannelName(ps[0]) {
      var joined := s.infos[id].joined;
      if joined.Some? {
        JoinedIn(s, a, id);
        LeaveKeeps(s, a, id, id, joined.value, pick);
        var q := QuitChan(s, id, joined.value, pick).state;
        EnterHeard(s, q, id, ps[0]);
      } else {
        EnterHeard(s, s, id, ps[0]);
      }
    }
  }

  lemma EnterHeard(s: State, q: State, id: Id, c: string)
    requires id in s.infos && q.infos == s.infos && q.nextId == s.nextId && Heard(s, q)
    ensures c in JoinChan(q, id, c).rooms
    ensures forall m :: Ages(s, Broadcast(JoinChan(q, id, c), c, m))
  {
    var t := JoinChan(q, id, c);
    forall m
      ensures Ages(s, Broadcast(t, c, m))
    {
      ShoutHeard(t, c, m);
      HeardTwice(s, t, Broadcast(t, c, m));
      assert InfosAge(s.infos, t.infos);
      SameIdsAge(s, Broadcast(t, c, m));
    }
  }

  lemma DetachAges(s: State, q: State, id: Id)
    requires id in s.infos && q.infos == s.infos && q.nextId == s.nextId && Heard(s, q)
    ensures Ages(s, Detached(q, id))
    ensures id in s.peers ==> Ages(s, HungUp(Detached(q, id), id))
    ensures NoReturn(s, Removed(q, id)) && Ages(s, Removed(q, id))
  {
    assert InfosAge(s.infos, Detached(q, id).infos);
    SameIdsAge(s, Detached(q, id));
    if id in s.peers {
      SameIdsAge(s, HungUp(Detached(q, id), id));
    }
  }

  lemma QuitAges(s: State, a: Rooms, id: Id, ps: seq<string>, pick: Id)
    requires Inv(s) && Shows(s, a) && id in s.infos && HandleQuit(s, id, ps, pick).Ok?
    ensures Ages(s, HandleQuit(s, id, ps, pick).state)
  {
    var nick, joined := s.infos[id].nick.value, s.infos[id].joined;
    if joined.Some? {
      var m := PrivateMessage(nick, [if |ps| == 0 then nick + " quit" else ps[1]]);
      JoinedIn(s, a, id);
      GoodbyeFollows(s, a, id, joined.value, m, pick);
      var q := QuitChan(Broadcast(s, joined.value, m), id, joined.value, pick).state;
      QuitNextId(s, id, joined.value, m, pick);
      DetachAges(s, q, id);
    } else {
      SameIdsAge(s, HungUp(s, id));
    }
  }

  lemma QuitNextId(s: State, id: Id, c: string, m: Message, pick: Id)
    requires c in s.rooms && QuitChan(Broadcast(s, c, m), id, c, pick).Gone?
    ensures QuitChan(Broadcast(s, c, m), id, c, pick).state.nextId == s.nextId
  {
  }

  lemma KickAges(s: State, a: Rooms, id: Id, ps: seq<string>, pick: Id)
    requires Inv(s) && Shows(s, a) && id in s.infos && HandleKick(s, id, ps, pick).Ok?
    ensures Ages(s, HandleKick(s, id, ps, pick).state)
  {
    forall m {
      ReplyAges(s, id, m);
    }
    if HandleKick(s, id, ps, pick).acts != [] {
      var c, x := GetChanName(ps[0], s.infos[id]).value, FindNick(s.infos, ps[1]).value;
      assert IsMember(s, c, x) && HasJoined(s, c, x);
      assert In(a, x, c) && IsBoss(s.rooms[c].members, a.boss[c]);
      LeaveKeeps(s, a, id, x, c, pick);
      DetachAges(s, QuitChan(s, x, c, pick).state, x);
    }
  }

  lemma FieldsAge(s: State, id: Id, cmd: Command, ps: seq<string>, pick: Id)
    requires Inv(s) && id in s.infos && Expected(s.infos[id].state, cmd) && (cmd == Nick || cmd == User)
    ensures HandleCommand(s, id, cmd, ps, pick).Ok? && Ages(s, HandleCommand(s, id, cmd, ps, pick).state)
  {
    forall m {
      ReplyAges(s, id, m);
    }
  }

  lemma TalkAges(s: State, id: Id, cmd: Command, ps: seq<string>, pick: Id)
    requires Inv(s) && id in s.infos && HandleCommand(s, id, cmd, ps, pick).Ok?
    requires cmd == Privmsg || cmd == Whois || cmd == Ping || cmd == Pong
    ensures Ages(s, HandleCommand(s, id, cmd, ps, pick).state)
  {
    QuietAges(s, s);
    forall m {
      ReplyAges(s, id, m);
    }
    forall c, m | c in s.rooms
      ensures Ages(s, Broadcast(s, c, m))
    {
      ShoutHeard(s, c, m);
      QuietAges(s, Broadcast(s, c, m));
    }
  }

  lemma ModeAges(s: State, id: Id, ps: seq<string>)
    requires Inv(s) && id in s.infos && HandleMode(s, id, ps).Ok?
    ensures Ages(s, HandleMode(s, id, ps).state)
  {
    forall m {
      ReplyAges(s, id, m);
    }
    var v := ModeVerdict(s, id, ps);
    if v.Goes? {
      SameIdsAge(s, HandleMode(s, id, ps).state);
    }
  }

  lemma CommandAges(s: State, id: Id, cmd: Command, ps: seq<string>, pick: Id)
    requires Inv(s) && id in s.infos && HandleCommand(s, id, cmd, ps, pick).Ok? && Expected(s.infos[id].state, cmd)
    ensures Ages(s, HandleCommand(s, id, cmd, ps, pick).state)
  {
    match cmd
    case Join => JoinAges(s, Model(s), id, ps, pick);
    case Quit => QuitAges(s, Model(s), id, ps, pick);
    case Kick => KickAges(s, Model(s), id, ps, pick);
    case Mode => ModeAges(s, id, ps);
    case Nick => FieldsAge(s, id, cmd, ps, pick);
    case User => FieldsAge(s, id, cmd, ps, pick);
    case _ => TalkAges(s, id, cmd, ps, pick);
  }

  lemma ClearedAges(s: State, id: Id, c: string, nick: string, pick: Id)
    requires Inv(s) && id in s.infos && s.infos[id].joined == Some(c)
    ensures var m := PrivateMessage(nick, [c, nick + " quit"]);
            && c in s.rooms && QuitChan(Broadcast(s, c, m), id, c, pick).Gone?
            && Ages(s, Removed(QuitChan(Broadcast(s, c, m), id, c, pick).state, id))
  {
    var m := PrivateMessage(nick, [c, nick + " quit"]);
    GoodbyeFollows(s, Model(s), id, c, m, pick);
    QuitNextId(s, id, c, m, pick);
    DetachAges(s, QuitChan(Broadcast(s, c, m), id, c, pick).state, id);
  }

  lemma ReapAges(s: State, id: Id, pick: Id)
    requires Inv(s) && id in s.peers && Reap(s, id, pick).Ok?
    ensures Ages(s, Reap(s, id, pick).state)
  {
    if !s.peers[id].connected {
      if s.infos[id].joined.Some? {
        ClearedAges(s, id, s.infos[id].joined.value, s.infos[id].nick.value, pick);
      } else {
        DetachAges(s, s, id);
      }
    } else {
      QuietAges(s, s);
    }
  }

  lemma StepAges(s: State, e: Event)
    requires Inv(s) && Enabled(s, e) && Step(s, e).Ok?
    ensures Ages(s, Step(s, e).state)
  {
    match e
    case Connects(_) =>
    case GoesAway(id) => SameIdsAge(s, HungUp(s, id));
    case IsReaped(id, pick) => ReapAges(s, id, pick);
    case Sends(id, text, pick) =>
      if Decode(text).Parsed? && Decode(text).msg.verb.Cmd? {
        var m := Decode(text).msg;
        if Expected(s.infos[id].state, m.verb.cmd) {
          CommandAges(s, id, m.verb.cmd, m.params, pick);
        }
      }
  }

  /** Over every run, a connection's registration never moves backwards, its log only grows,
      a closed one stays closed, and one that is gone never comes back. */
  lemma {:induction false} RunAges(s: State, es: seq<Event>)
    requires Inv(s) && Legal(s, es)
    ensures Ages(s, Run(s, es))
    decreases |es|
  {
    if es == [] {
      assert forall id | id in s.infos :: InfoAges(s.infos[id], s.infos[id]);
    } else {
      var t := Step(s, es[0]).state;
      StepFollows(s, Model(s), es[0]);
      StepAges(s, es[0]);
      RunAges(t, es[1..]);
      AgesTransitive(s, t, Run(t, es[1..]));
    }
  }
}
