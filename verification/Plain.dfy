/** When everything the server posts can be read back from the wire. */
module Plain {
  import opened Text
  import opened Message
  import opened Logs
  import opened ServerSpec
  import opened Invariant

  /** Printed, the message is one line that parses to it. */
  predicate Fit(m: Message) {
    Wireable(m) && NewlineFree(m)
  }

  predicate OneWord(s: string) {
    ' ' !in s && '\n' !in s
  }

  predicate InfoPlain(info: ConnInfo) {
    && (info.nick.Some? ==> OneWord(info.nick.value))
    && (info.username.Some? ==> MiddleOk(info.username.value) && '\n' !in info.username.value)
    && (info.realname.Some? ==> '\n' !in info.realname.value)
  }

  /** Nothing that goes into a message spoils it. */
  ghost predicate IsPlain(s: State) {
    && (forall id | id in s.infos :: InfoPlain(s.infos[id]))
    && (forall c | c in s.rooms :: OneWord(c))
  }

  predicate LogFit(log: seq<Posted>) {
    forall p | p in log :: Fit(p.m)
  }

  ghost predicate AllFit(s: State) {
    forall id | id in s.peers :: LogFit(s.peers[id].log)
  }

  ghost predicate Good(s: State) {
    IsPlain(s) && AllFit(s)
  }

  /** What can be checked of a message before it is handled. */
  predicate CleanCommand(s: State, id: Id, cmd: Command, ps: seq<string>)
    requires id in s.infos
  {
    match cmd
    case Nick => |ps| >= 1 && |ps[0]| <= 50 && !NickUsed(s.infos, ps[0]) ==> OneWord(ps[0])
    case User =>
      |ps| >= 4 && s.infos[id].state != RegisteredUser ==>
        MiddleOk(ps[0]) && '\n' !in ps[0] && '\n' !in ps[3]
    case Join => |ps| >= 1 && ChannelName(ps[0]) ==> OneWord(ps[0])
    case Privmsg => |ps| >= 2 && IsSpoken(s, id, GetChanName(ps[0], s.infos[id])) ==> '\n' !in ps[|ps| - 1]
    case Quit => |ps| >= 2 && s.infos[id].joined.Some? ==> '\n' !in ps[1]
    case _ => true
  }

  /** The sender may speak in the channel. */
  predicate IsSpoken(s: State, id: Id, name: Option<string>) {
    name.Some? && IsMember(s, name.value, id) && !s.rooms[name.value].members[id].isMuted
  }

  predicate CleanEvent(s: State, e: Event)
    requires Enabled(s, e)
  {
    e.Sends? && Decode(e.text).Parsed? ==>
      var m := Decode(e.text).msg;
      m.verb.Cmd? && Expected(s.infos[e.id].state, m.verb.cmd) ==> CleanCommand(s, e.id, m.verb.cmd, m.params)
  }

  // ---------------------------------------------------------------- sending

  lemma PostedGood(s: State, t: State, m: Message)
    requires Good(s) && Fit(m) && t.rooms == s.rooms && t.infos == s.infos && t.peers.Keys == s.peers.Keys
    requires forall id | id in s.peers :: t.peers[id].log == s.peers[id].log
                                          || exists shared :: t.peers[id].log == s.peers[id].log + [Posted(m, shared)]
    ensures Good(t)
  {
    forall id | id in t.peers
      ensures LogFit(t.peers[id].log)
    {
      assert LogFit(s.peers[id].log);
    }
  }

  lemma ReplyGood(s: State, id: Id, m: Message)
    requires Good(s) && id in s.peers && Fit(m)
    ensures Good(Reply(s, id, m))
  {
    var t := Reply(s, id, m);
    assert t.peers[id].log == s.peers[id].log + [Posted(m, false)];
    PostedGood(s, t, m);
  }

  lemma BroadcastGood(s: State, c: string, m: Message)
    requires Good(s) && c in s.rooms && Fit(m)
    ensures Good(Broadcast(s, c, m))
  {
    var t := Broadcast(s, c, m);
    forall id | id in s.peers
      ensures t.peers[id].log == s.peers[id].log
              || exists shared :: t.peers[id].log == s.peers[id].log + [Posted(m, shared)]
    {
      assert t.peers[id].log == s.peers[id].log || t.peers[id].log == s.peers[id].log + [Posted(m, true)];
    }
    PostedGood(s, t, m);
  }

  /** A member that is connected hears a message that is not fit. */
  lemma BroadcastSpoils(s: State, c: string, m: Message, id: Id)
    requires IsMember(s, c, id) && id in s.peers && s.peers[id].connected && !Fit(m)
    ensures !AllFit(Broadcast(s, c, m))
  {
    var log := Broadcast(s, c, m).peers[id].log;
    assert log == s.peers[id].log + [Posted(m, true)];
    assert Posted(m, true) in log;
    assert !LogFit(log);
  }

  lemma HeardFit(s: State, t: State)
    requires Heard(s, t) && AllFit(t)
    ensures AllFit(s)
  {
    forall id | id in s.peers
      ensures LogFit(s.peers[id].log)
    {
      var a, b := s.peers[id].log, t.peers[id].log;
      assert LogFit(b);
      forall p | p in a
        ensures Fit(p.m)
      {
        assert p in b;
      }
    }
  }

  lemma ServerFits(n: nat, text: string)
    requires 100 <= n <= 999
    ensures Fit(Message(SERVER, Numeric(n), [text])) <==> '\n' !in text
  {
    assert text in [text];
  }

  lemma MoreParamsFits(c: Command)
    ensures Fit(NeedMoreParams(c))
  {
    assert '\n' !in CommandName(c) && ' ' !in CommandName(c) && CommandName(c)[0] != ':';
    assert '\n' !in "Not enough parameters";
  }

  lemma NickRepliesFit()
    ensures Fit(ERRONEUS_NICKNAME) && Fit(NICKNAME_IN_USE) && Fit(ALREADY_REGISTERED) && Fit(PONG)
  {
    ServerFits(432, "Erroneus nickname");
    ServerFits(433, "Nickname is already in use");
    ServerFits(462, "You may not reregister");
  }

  lemma ChannelRepliesFit()
    ensures Fit(NO_SUCH_NICK) && Fit(NO_SUCH_CHANNEL) && Fit(CANNOT_SEND_TO_CHAN)
    ensures Fit(NOT_ON_CHANNEL) && Fit(CHAN_OP_PRIV_NEEDED)
  {
    ServerFits(401, "No such nick/channel");
    ServerFits(403, "No such channel");
    ServerFits(404, "Cannot send to channel");
    ServerFits(442, "You're not on that channel");
    ServerFits(482, "You're not channel operator");
  }

  /** A reply that is fit, or one of the server's own. */
  lemma RepliesGood(s: State, id: Id)
    requires Good(s) && id in s.peers
    ensures Good(Reply(s, id, NO_SUCH_NICK)) && Good(Reply(s, id, NO_SUCH_CHANNEL))
    ensures Good(Reply(s, id, CANNOT_SEND_TO_CHAN))
    ensures Good(Reply(s, id, NOT_ON_CHANNEL)) && Good(Reply(s, id, CHAN_OP_PRIV_NEEDED))
    ensures Good(Reply(s, id, ERRONEUS_NICKNAME)) && Good(Reply(s, id, NICKNAME_IN_USE))
    ensures Good(Reply(s, id, ALREADY_REGISTERED))
    ensures Good(Reply(s, id, PONG)) && forall c :: Good(Reply(s, id, NeedMoreParams(c)))
  {
    NickRepliesFit();
    ChannelRepliesFit();
    forall m | Fit(m) {
      ReplyGood(s, id, m);
    }
    forall c {
      MoreParamsFits(c);
    }
  }

  lemma NameFits(s: State, c: string)
    requires Inv(s) && IsPlain(s) && c in s.rooms
    ensures OneWord(c) && MiddleOk(c)
  {
  }

  lemma SystemFits(name: string, text: string)
    ensures Fit(System(name, text)) <==> MiddleOk(name) && '\n' !in name && '\n' !in text
  {
    var m := System(name, text);
    assert m.params[0] == name && m.params[1] == text;
    assert name in m.params && text in m.params;
  }

  lemma PrivateFits(nick: string, name: string, text: string)
    requires OneWord(nick) && OneWord(name) && MiddleOk(name)
    ensures Fit(PrivateMessage(nick, [name, text])) <==> '\n' !in text
    ensures Fit(PrivateMessage(nick, [text])) <==> '\n' !in text
  {
    assert text in [name, text] && text in [text];
  }

  // ---------------------------------------------------------------- every step

  lemma QuitGood(s: State, id: Id, c: string, pick: Id)
    requires Inv(s) && Good(s) && IsMember(s, c, id)
    ensures QuitChan(s, id, c, pick).Gone? && Heard(s, QuitChan(s, id, c, pick).state)
    ensures QuitChan(s, id, c, pick).state.infos == s.infos && Good(QuitChan(s, id, c, pick).state)
  {
    QuitEffect(s, id, c, Boss(s.rooms[c].members), pick);
    var left := s.rooms[c].members - {id};
    if left.Keys != {} && Heir(left, pick).Some? {
      AnnouncedGood(s, c, Promoted(left, pick), Heir(left, pick).value);
    }
  }

  lemma AnnouncedGood(s: State, c: string, members: map<Id, Member>, heir: Id)
    requires Inv(s) && Good(s) && c in s.rooms && heir in s.infos && s.infos[heir].nick.Some?
    ensures var t := s.(rooms := s.rooms[c := s.rooms[c].(members := members)]);
            Good(Broadcast(t, c, System(c, s.infos[heir].nick.value + " promoted to operator")))
  {
    var t := s.(rooms := s.rooms[c := s.rooms[c].(members := members)]);
    assert InfoPlain(s.infos[heir]);
    NameFits(s, c);
    SystemFits(c, s.infos[heir].nick.value + " promoted to operator");
    BroadcastGood(t, c, System(c, s.infos[heir].nick.value + " promoted to operator"));
  }

  lemma DetachGood(s: State, id: Id)
    requires Good(s) && id in s.infos
    ensures Good(Detached(s, id)) && (id in s.peers ==> Good(HungUp(s, id))) && Good(Removed(s, id))
  {
    if id in s.peers {
      assert LogFit(s.peers[id].log);
    }
    forall x | x in Removed(s, id).peers
      ensures LogFit(Removed(s, id).peers[x].log)
    {
      assert LogFit(s.peers[x].log);
    }
  }

  lemma NickGood(s: State, id: Id, ps: seq<string>)
    requires Inv(s) && Good(s) && id in s.infos
    ensures Good(HandleNick(s, id, ps).state) <==> CleanCommand(s, id, Nick, ps)
  {
    RepliesGood(s, id);
    if |ps| >= 1 && |ps[0]| <= 50 && !NickUsed(s.infos, ps[0]) {
      var t := HandleNick(s, id, ps).state;
      assert InfoPlain(s.infos[id]);
      assert InfoPlain(t.infos[id]) <==> OneWord(ps[0]);
    }
  }

  lemma UserGood(s: State, id: Id, ps: seq<string>)
    requires Inv(s) && Good(s) && id in s.infos
    ensures Good(HandleUser(s, id, ps).state) <==> CleanCommand(s, id, User, ps)
  {
    RepliesGood(s, id);
    if |ps| >= 4 && s.infos[id].state != RegisteredUser {
      var t := HandleUser(s, id, ps).state;
      assert InfoPlain(s.infos[id]);
      assert InfoPlain(t.infos[id]) <==> CleanCommand(s, id, User, ps);
    }
  }

  lemma JoinTextFits(nick: string, c: string, isOperator: bool)
    requires OneWord(nick) && OneWord(c) && MiddleOk(c)
    ensures Fit(System(c, JoinText(nick, c, isOperator)))
  {
    SystemFits(c, JoinText(nick, c, isOperator));
  }

  lemma EnteredGood(s: State, id: Id, c: string)
    requires Good(s) && id in s.infos && s.infos[id].nick.Some? && ChannelName(c)
    requires forall d | d in s.rooms :: s.rooms[d].name == d
    ensures Good(Entered(s, id, c)) <==> OneWord(c)
  {
    var t := JoinChan(s, id, c);
    assert InfoPlain(s.infos[id]) && InfoPlain(t.infos[id]);
    assert c in Entered(s, id, c).rooms;
    if OneWord(c) {
      assert Good(t);
      JoinTextFits(s.infos[id].nick.value, c, t.rooms[c].members[id].isOperator);
      BroadcastGood(t, c, JoinMessage(t, id, c));
    }
  }

  lemma JoinGood(s: State, id: Id, ps: seq<string>, pick: Id)
    requires Inv(s) && Good(s) && id in s.infos && s.infos[id].state == RegisteredUser
    ensures HandleJoin(s, id, ps, pick).Ok?
    ensures Good(HandleJoin(s, id, ps, pick).state) <==> CleanCommand(s, id, Join, ps)
  {
    if |ps| >= 1 && ChannelName(ps[0]) {
      MovedGood(s, id, ps[0], pick);
    } else {
      RepliesGood(s, id);
    }
  }

  lemma MovedGood(s: State, id: Id, c: string, pick: Id)
    requires Inv(s) && Good(s) && id in s.infos && s.infos[id].state == RegisteredUser && ChannelName(c)
    ensures Moved(s, id, c, pick).Ok? && (Good(Moved(s, id, c, pick).state) <==> OneWord(c))
  {
    var joined := s.infos[id].joined;
    if joined.Some? {
      JoinedIn(s, Model(s), id);
      QuitGood(s, id, joined.value, pick);
      LeftNames(s, id, joined.value, pick);
      EnteredGood(QuitChan(s, id, joined.value, pick).state, id, c);
    } else {
      EnteredGood(s, id, c);
    }
  }

  lemma LeftNames(s: State, id: Id, c: string, pick: Id)
    requires Inv(s) && IsMember(s, c, id)
    ensures var q := QuitChan(s, id, c, pick); q.Gone? ==> forall d | d in q.state.rooms :: q.state.rooms[d].name == d
  {
  }

  lemma PrivmsgGood(s: State, id: Id, ps: seq<string>)
    requires Inv(s) && Good(s) && id in s.infos && s.peers[id].connected && HandlePrivmsg(s, id, ps).Ok?
    ensures Good(HandlePrivmsg(s, id, ps).state) <==> CleanCommand(s, id, Privmsg, ps)
  {
    RepliesGood(s, id);
    if |ps| >= 2 && IsSpoken(s, id, GetChanName(ps[0], s.infos[id])) {
      var c, nick, text := GetChanName(ps[0], s.infos[id]).value, s.infos[id].nick.value, ps[|ps| - 1];
      NameFits(s, c);
      PrivateFits(nick, c, text);
      if '\n' in text {
        BroadcastSpoils(s, c, PrivateMessage(nick, [c, text]), id);
      } else {
        BroadcastGood(s, c, PrivateMessage(nick, [c, text]));
      }
    }
  }

  /** A last message to the channel, then `quit_chan`. */
  lemma FarewellGood(s: State, id: Id, c: string, m: Message, pick: Id)
    requires Inv(s) && Good(s) && id in s.infos && s.infos[id].joined == Some(c)
    ensures c in s.rooms && Farewell(s, id, c, m, pick).Ok? && id in Farewell(s, id, c, m, pick).state.infos
    ensures Fit(m) ==> Good(Farewell(s, id, c, m, pick).state)
    ensures s.peers[id].connected && !Fit(m) ==> !AllFit(Farewell(s, id, c, m, pick).state)
  {
    GoodbyeFollows(s, Model(s), id, c, m, pick);
    JoinedIn(s, Model(s), id);
    BroadcastFollows(s, Model(s), c, m);
    var t := Broadcast(s, c, m);
    assert IsMember(t, c, id);
    if Fit(m) {
      BroadcastGood(s, c, m);
      QuitGood(t, id, c, pick);
    } else if s.peers[id].connected {
      BroadcastSpoils(s, c, m, id);
      QuitEffect(t, id, c, Boss(t.rooms[c].members), pick);
      if AllFit(QuitChan(t, id, c, pick).state) {
        HeardFit(t, QuitChan(t, id, c, pick).state);
      }
    }
  }

  lemma QuitterGood(s: State, id: Id, ps: seq<string>, pick: Id)
    requires Inv(s) && Good(s) && id in s.infos && s.peers[id].connected && s.infos[id].state == RegisteredUser
    requires |ps| != 1
    ensures HandleQuit(s, id, ps, pick).Ok?
    ensures Good(HandleQuit(s, id, ps, pick).state) <==> CleanCommand(s, id, Quit, ps)
  {
    if s.infos[id].joined.Some? {
      var nick := s.infos[id].nick.value;
      LeaverGood(s, id, s.infos[id].joined.value, if |ps| == 0 then nick + " quit" else ps[1], pick);
    } else {
      DetachGood(s, id);
    }
  }

  lemma LeaverGood(s: State, id: Id, c: string, text: string, pick: Id)
    requires Inv(s) && Good(s) && id in s.infos && s.peers[id].connected && s.infos[id].joined == Some(c)
    requires s.infos[id].nick.Some?
    ensures c in s.rooms && id in s.peers
    ensures var o := Farewell(s, id, c, PrivateMessage(s.infos[id].nick.value, [text]), pick);
            o.Ok? && id in o.state.infos && (Good(HungUp(Detached(o.state, id), id)) <==> '\n' !in text)
  {
    var nick := s.infos[id].nick.value;
    var m := PrivateMessage(nick, [text]);
    FarewellGood(s, id, c, m, pick);
    NameFits(s, c);
    PrivateFits(nick, c, text);
    ClosedGood(Farewell(s, id, c, m, pick).state, id);
  }

  lemma ClosedGood(q: State, id: Id)
    requires id in q.infos && id in q.peers
    ensures Good(q) ==> Good(HungUp(Detached(q, id), id))
    ensures AllFit(HungUp(Detached(q, id), id)) ==> AllFit(q)
  {
    if Good(q) {
      DetachGood(q, id);
      DetachGood(Detached(q, id), id);
    }
    var t := HungUp(Detached(q, id), id);
    if AllFit(t) {
      forall x | x in q.peers
        ensures LogFit(q.peers[x].log)
      {
        assert LogFit(t.peers[x].log);
      }
    }
  }

  lemma ModeratorSays(s: State, id: Id, name: string, nick: string)
    requires name in s.rooms
    ensures var v := ModeratorVerdict(s, id, name, nick); v.Says? ==> Fit(v.message)
  {
    ChannelRepliesFit();
  }

  lemma VerdictsSay(s: State, id: Id, ps: seq<string>)
    requires id in s.infos
    ensures ModeVerdict(s, id, ps).Says? ==> Fit(ModeVerdict(s, id, ps).message)
    ensures KickVerdict(s, id, ps).Says? ==> Fit(KickVerdict(s, id, ps).message)
  {
    ChannelRepliesFit();
    MoreParamsFits(Mode);
    MoreParamsFits(Kick);
    forall name, nick | name in s.rooms {
      ModeratorSays(s, id, name, nick);
    }
  }

  lemma KickGood(s: State, id: Id, ps: seq<string>, pick: Id)
    requires Inv(s) && Good(s) && id in s.infos && HandleKick(s, id, ps, pick).Ok?
    ensures Good(HandleKick(s, id, ps, pick).state)
  {
    var v := KickVerdict(s, id, ps);
    VerdictsSay(s, id, ps);
    if v.Says? {
      ReplyGood(s, id, v.message);
    } else {
      KickedGood(s, id, v.name, v.target, pick);
    }
  }

  lemma KickedGood(s: State, id: Id, name: string, target: Id, pick: Id)
    requires Inv(s) && Good(s) && id in s.peers && name in s.rooms && target in s.infos
    ensures Kicked(s, id, name, target, pick).Ok? ==> Good(Kicked(s, id, name, target, pick).state)
  {
    if IsMember(s, name, target) {
      QuitGood(s, target, name, pick);
      DetachGood(QuitChan(s, target, name, pick).state, target);
    } else {
      ChannelRepliesFit();
      ReplyGood(s, id, NOT_ON_CHANNEL);
    }
  }

  lemma ModeGood(s: State, id: Id, ps: seq<string>)
    requires Inv(s) && Good(s) && id in s.infos && HandleMode(s, id, ps).Ok?
    ensures Good(HandleMode(s, id, ps).state)
  {
    var v := ModeVerdict(s, id, ps);
    VerdictsSay(s, id, ps);
    if v.Says? {
      ReplyGood(s, id, v.message);
    } else {
      VoicedGood(s, id, v.name, v.target, ps[1]);
    }
  }

  lemma VoicedGood(s: State, id: Id, name: string, target: Id, modifiers: string)
    requires Good(s) && name in s.rooms && Voiced(s, id, name, target, modifiers).Ok?
    ensures Good(Voiced(s, id, name, target, modifiers).state)
  {
  }

  lemma {:induction false} DigitsPlain(n: nat)
    ensures OneWord(Digits(n)) && MiddleOk(Digits(n))
  {
    DigitsValue(n);
    DigitsLength(n);
    assert Digits(n)[0] in Digits(n);
  }

  lemma QuadPlain(ip: nat)
    ensures OneWord(DottedQuad(ip)) && MiddleOk(DottedQuad(ip))
  {
    DigitsPlain(ip / 0x100_0000 % 256);
    DigitsPlain(ip / 0x1_0000 % 256);
    DigitsPlain(ip / 0x100 % 256);
    DigitsPlain(ip % 256);
    FourWords(Digits(ip / 0x100_0000 % 256), Digits(ip / 0x1_0000 % 256), Digits(ip / 0x100 % 256), Digits(ip % 256));
  }

  lemma FourWords(a: string, b: string, c: string, d: string)
    requires OneWord(a) && OneWord(b) && OneWord(c) && OneWord(d) && MiddleOk(a)
    ensures OneWord(a + "." + b + "." + c + "." + d) && MiddleOk(a + "." + b + "." + c + "." + d)
  {
    var s := a + "." + b + "." + c + "." + d;
    assert s[0] == if a == "" then '.' else a[0];
  }

  lemma WhoisFits(info: ConnInfo)
    requires InfoPlain(info)
    ensures Fit(WhoisReply(info))
  {
    QuadPlain(info.ipv4);
    FourParams(OrUnknown(info.username), DottedQuad(info.ipv4), OrUnknown(info.realname));
  }

  lemma FourParams(user: string, quad: string, name: string)
    requires MiddleOk(user) && '\n' !in user && OneWord(quad) && MiddleOk(quad) && '\n' !in name
    ensures Fit(Message(None, Numeric(311), [user, quad, "*", name]))
  {
  }

  lemma WhoisGood(s: State, id: Id, ps: seq<string>)
    requires Inv(s) && Good(s) && id in s.infos && HandleWhois(s, id, ps).Ok?
    ensures Good(HandleWhois(s, id, ps).state)
  {
    RepliesGood(s, id);
    if |ps| >= 1 && FindNick(s.infos, ps[0]).Some? {
      var info := s.infos[FindNick(s.infos, ps[0]).value];
      WhoisFits(info);
      ReplyGood(s, id, WhoisReply(info));
    }
  }

  lemma CommandGood(s: State, id: Id, cmd: Command, ps: seq<string>, pick: Id)
    requires Inv(s) && Good(s) && id in s.infos && s.peers[id].connected && Expected(s.infos[id].state, cmd)
    requires HandleCommand(s, id, cmd, ps, pick).Ok?
    ensures Good(HandleCommand(s, id, cmd, ps, pick).state) <==> CleanCommand(s, id, cmd, ps)
  {
    match cmd
    case Pong =>
    case Nick => NickGood(s, id, ps);
    case User => UserGood(s, id, ps);
    case Ping => RepliesGood(s, id);
    case Join => JoinGood(s, id, ps, pick);
    case Mode => ModeGood(s, id, ps);
    case Whois => WhoisGood(s, id, ps);
    case Privmsg => PrivmsgGood(s, id, ps);
    case Quit =>
      QuitFollows(s, Model(s), id, ps, pick);
      QuitterGood(s, id, ps, pick);
    case Kick => KickGood(s, id, ps, pick);
  }

  lemma ReapGood(s: State, id: Id, pick: Id)
    requires Inv(s) && Good(s) && id in s.peers && Reap(s, id, pick).Ok?
    ensures Good(Reap(s, id, pick).state)
  {
    if !s.peers[id].connected {
      if s.infos[id].joined.Some? {
        var c, nick := s.infos[id].joined.value, s.infos[id].nick.value;
        JoinedIn(s, Model(s), id);
        NameFits(s, c);
        PrivateFits(nick, c, nick + " quit");
        FarewellGood(s, id, c, ClearingMessage(c, nick), pick);
        DetachGood(Farewell(s, id, c, ClearingMessage(c, nick), pick).state, id);
      } else {
        DetachGood(s, id);
      }
    }
  }

  /** A step keeps every name plain and every posted message fit exactly if its event is
      clean, whichever member a promotion picks. */
  lemma StepGood(s: State, e: Event)
    requires Inv(s) && Good(s) && Enabled(s, e) && Step(s, e).Ok?
    ensures Good(Step(s, e).state) <==> CleanEvent(s, e)
  {
    match e
    case Connects(ipv4) => AdmittedGood(s, ipv4);
    case GoesAway(id) => DetachGood(s, id);
    case IsReaped(id, pick) => ReapGood(s, id, pick);
    case Sends(id, text, pick) =>
      if Decode(text).Parsed? && Decode(text).msg.verb.Cmd? {
        var m := Decode(text).msg;
        if Expected(s.infos[id].state, m.verb.cmd) {
          CommandGood(s, id, m.verb.cmd, m.params, pick);
        }
      }
  }

  lemma AdmittedGood(s: State, ipv4: nat)
    requires Good(s)
    ensures Good(Admitted(s, ipv4))
  {
    var t := Admitted(s, ipv4);
    forall x | x in t.peers
      ensures LogFit(t.peers[x].log)
    {
      if x != s.nextId {
        assert LogFit(s.peers[x].log);
      }
    }
  }

  // ---------------------------------------------------------------- every run

  ghost predicate AlwaysGood(s: State, es: seq<Event>)
    requires Legal(s, es)
    decreases |es|
  {
    Good(s) && (es == [] || AlwaysGood(Step(s, es[0]).state, es[1..]))
  }

  /** Every event is possible in its turn and clean. */
  ghost predicate AllClean(s: State, es: seq<Event>)
    decreases |es|
  {
    es == [] || (Enabled(s, es[0]) && Step(s, es[0]).Ok? && CleanEvent(s, es[0])
        && AllClean(Step(s, es[0]).state, es[1..]))
  }

  /** All along a run names stay plain and logs fit if and only if every event is clean. */
  lemma {:induction false} RunGood(s: State, es: seq<Event>)
    requires Inv(s) && Good(s) && Legal(s, es)
    ensures AlwaysGood(s, es) <==> AllClean(s, es)
    ensures AllClean(s, es) ==> Good(Run(s, es))
    decreases |es|
  {
    if es != [] {
      var t := Step(s, es[0]).state;
      StepGood(s, es[0]);
      StepFollows(s, Model(s), es[0]);
      if Good(t) {
        RunGood(t, es[1..]);
      } else {
        assert !AlwaysGood(t, es[1..]);
      }
    }
  }

  // ---------------------------------------------------------------- messages of one line

  lemma {:induction false} LineParams(s: string)
    requires s != "" ==> IsLine(s)
    ensures forall p | p in DecodeParams(s) :: '\n' !in p
    decreases |s|
  {
    if s != "" && s[0] != '\n' && s[0] != ':' {
      WordOfLine(s);
      LineParams(AfterWord(s));
    } else if s != "" && s[0] == ':' {
      TailOfLine(s);
    }
  }

  lemma TailOfLine(s: string)
    requires IsLine(s) && s[0] != '\n'
    ensures '\n' !in Trailing(s)
  {
    forall k | 0 <= k < |Trailing(s)|
      ensures Trailing(s)[k] != '\n'
    {
      assert s[..|s| - 1][k + 1] == Trailing(s)[k];
    }
  }

  lemma WordOfLine(s: string)
    requires IsLine(s)
    ensures '\n' !in Word(s) && (AfterWord(s) != "" ==> IsLine(AfterWord(s)))
  {
    var i, init := Find(s, ' '), s[..|s| - 1];
    if i < |s| {
      assert i < |s| - 1;
      assert s[..i] == init[..i];
      var rest := s[i + 1..];
      assert rest[..|rest| - 1] == init[i + 1..];
    }
  }

  lemma LineMessage(text: string)
    requires IsLine(text) && Decode(text).Parsed?
    ensures MiddlesOk(Decode(text).msg.params) && forall p | p in Decode(text).msg.params :: '\n' !in p
  {
    var body := text;
    if text[0] == ':' {
      WordOfLine(text);
      body := text[Find(text, ' ') + 1..];
    }
    BodyOfLine(if text[0] == ':' then Some(text[1..Find(text, ' ')]) else None, body);
  }

  lemma BodyOfLine(prefix: Option<string>, s: string)
    requires (s != "" ==> IsLine(s)) && DecodeBody(prefix, s).Parsed?
    ensures MiddlesOk(DecodeBody(prefix, s).msg.params)
            && forall p | p in DecodeBody(prefix, s).msg.params :: '\n' !in p
  {
    if s != "" {
      WordOfLine(s);
    }
    LineParams(AfterWord(s));
    DecodedMiddles(AfterWord(s));
  }

  /** Of a delivery of one line nothing can spoil but a nick or a channel name with a space
      in it: one that comes after a colon. */
  lemma LineIsClean(s: State, id: Id, text: string)
    requires id in s.infos && IsLine(text) && Decode(text).Parsed? && Decode(text).msg.verb.Cmd?
    ensures var cmd, ps := Decode(text).msg.verb.cmd, Decode(text).msg.params;
            CleanCommand(s, id, cmd, ps) <==> UnspacedCommand(s, id, cmd, ps)
  {
    LineMessage(text);
    MiddlesAreClean(s, id, Decode(text).msg.verb.cmd, Decode(text).msg.params);
  }

  predicate UnspacedCommand(s: State, id: Id, cmd: Command, ps: seq<string>) {
    match cmd
    case Nick => |ps| >= 1 && |ps[0]| <= 50 && !NickUsed(s.infos, ps[0]) ==> ' ' !in ps[0]
    case Join => |ps| >= 1 && ChannelName(ps[0]) ==> ' ' !in ps[0]
    case _ => true
  }

  lemma MiddlesAreClean(s: State, id: Id, cmd: Command, ps: seq<string>)
    requires id in s.infos && MiddlesOk(ps) && forall p | p in ps :: '\n' !in p
    ensures CleanCommand(s, id, cmd, ps) <==> UnspacedCommand(s, id, cmd, ps)
  {
    assert forall k | 0 <= k < |ps| :: ps[k] in ps;
  }
}
