/** What the server does, as functions on values: the connections' registration data, the
    channels, and what each connection was sent. The classes in `Channel`, `Db` and `Server`
    compute these functions on their fields. */
module ServerSpec {
  import opened Text
  import opened Message
  import opened Logs

  type Id = nat

  datatype ConnState = Init | RegisteredNick | RegisteredUser

  datatype ConnInfo = ConnInfo(
    joined: Option<string>, nick: Option<string>, realname: Option<string>, username: Option<string>,
    state: ConnState, ipv4: nat)

  datatype Member = Member(isMuted: bool, isOperator: bool)

  datatype Room = Room(name: string, members: map<Id, Member>)

  /** A connection seen from the server: whether it is open, and all it was sent. */
  datatype Peer = Peer(connected: bool, log: seq<Posted>)

  datatype State = State(rooms: map<string, Room>, infos: map<Id, ConnInfo>, peers: map<Id, Peer>, nextId: Id)

  /** What a step does to the rooms, in the order it does it. */
  datatype Act =
    | Enter(id: Id, room: string)
    | Leave(actor: Id, id: Id, heir: Id)
    | SetMute(actor: Id, id: Id, muted: bool)

  /** `Abort` is an exception that nothing catches, or the use of an empty optional. */
  datatype Outcome = Ok(state: State, acts: seq<Act>) | Abort

  const EMPTY := State(map[], map[], map[], 0)

  // ---------------------------------------------------------------- sending

  function Append(p: Peer, m: Message, shared: bool): Peer {
    p.(log := p.log + [Posted(m, shared)])
  }

  function PostedTo(peers: map<Id, Peer>, id: Id, m: Message, shared: bool): map<Id, Peer>
    requires id in peers
  {
    peers[id := Append(peers[id], m, shared)]
  }

  function Reply(s: State, id: Id, m: Message): State
    requires id in s.peers
  {
    s.(peers := PostedTo(s.peers, id, m, false))
  }

  /** `channel::send_message`: one copy to each member that is still connected. */
  function Shout(peers: map<Id, Peer>, ids: set<Id>, m: Message): map<Id, Peer> {
    map id | id in peers :: if id in ids && peers[id].connected then Append(peers[id], m, true) else peers[id]
  }

  function Broadcast(s: State, name: string, m: Message): State
    requires name in s.rooms
  {
    s.(peers := Shout(s.peers, s.rooms[name].members.Keys, m))
  }

  function System(name: string, text: string): Message {
    Message(Some("system"), Cmd(Privmsg), [name, text])
  }

  // ---------------------------------------------------------------- channels

  predicate HasOperator(members: map<Id, Member>) {
    exists id | id in members :: members[id].isOperator
  }

  /** The first member in the order of the hash table: `pick` when it is a member. */
  ghost function First(members: map<Id, Member>, pick: Id): (id: Id)
    requires members.Keys != {}
    ensures id in members
  {
    if pick in members then pick else var id :| id in members; id
  }

  ghost function Heir(members: map<Id, Member>, pick: Id): Option<Id> {
    if HasOperator(members) || members.Keys == {} then None else Some(First(members, pick))
  }

  ghost function Promoted(members: map<Id, Member>, pick: Id): map<Id, Member> {
    var heir := Heir(members, pick);
    if heir.None? then members else members[heir.value := members[heir.value].(isOperator := true)]
  }

  /** `Refused` is the `false` of `quit_chan`; `Broken` is the use of a missing nick. */
  datatype QuitOutcome = Refused | Gone(state: State) | Broken

  ghost function QuitChan(s: State, id: Id, name: string, pick: Id): QuitOutcome {
    if name !in s.rooms || id !in s.rooms[name].members then Refused
    else
      var left := s.rooms[name].members - {id};
      if left.Keys == {} then Gone(s.(rooms := s.rooms - {name}))
      else
        var heir := Heir(left, pick);
        var t := s.(rooms := s.rooms[name := s.rooms[name].(members := Promoted(left, pick))]);
        if heir.None? then Gone(t)
        else if heir.value !in s.infos || s.infos[heir.value].nick.None? then Broken
        else Gone(Broadcast(t, name, System(name, s.infos[heir.value].nick.value + " promoted to operator")))
  }

  /** Who operates the channel if `id` was its operator and leaves it. */
  ghost function HeirOf(s: State, id: Id, name: string, pick: Id): Id
    requires name in s.rooms
  {
    var left := s.rooms[name].members - {id};
    if left.Keys == {} then id else First(left, pick)
  }

  function JoinedRoom(rooms: map<string, Room>, id: Id, name: string): Room {
    if name !in rooms then Room(name, map[id := Member(false, true)])
    else if id in rooms[name].members then rooms[name]
    else rooms[name].(members := rooms[name].members[id := Member(false, false)])
  }

  function JoinChan(s: State, id: Id, name: string): State
    requires id in s.infos
  {
    var room := JoinedRoom(s.rooms, id, name);
    s.(rooms := s.rooms[name := room], infos := s.infos[id := s.infos[id].(joined := Some(room.name))])
  }

  function SetMember(s: State, name: string, id: Id, m: Member): State
    requires name in s.rooms
  {
    s.(rooms := s.rooms[name := s.rooms[name].(members := s.rooms[name].members[id := m])])
  }

  function SetInfo(s: State, id: Id, info: ConnInfo): State {
    s.(infos := s.infos[id := info])
  }

  function Detached(s: State, id: Id): State
    requires id in s.infos
  {
    SetInfo(s, id, s.infos[id].(joined := None))
  }

  function ClosedAt(peers: map<Id, Peer>, id: Id): map<Id, Peer>
    requires id in peers
  {
    peers[id := peers[id].(connected := false)]
  }

  function HungUp(s: State, id: Id): State
    requires id in s.peers
  {
    s.(peers := ClosedAt(s.peers, id))
  }

  // ---------------------------------------------------------------- lookups

  predicate NickUsed(infos: map<Id, ConnInfo>, nick: string) {
    exists id | id in infos :: infos[id].nick == Some(nick)
  }

  ghost function FindNick(infos: map<Id, ConnInfo>, nick: string): (r: Option<Id>)
    ensures r.Some? ==> r.value in infos && infos[r.value].nick == Some(nick)
    ensures r.None? <==> !NickUsed(infos, nick)
  {
    if NickUsed(infos, nick) then var id :| id in infos && infos[id].nick == Some(nick); Some(id) else None
  }

  function GetChanName(param: string, info: ConnInfo): Option<string> {
    if param == "---" then info.joined else Some(param)
  }

  predicate ChannelName(name: string) {
    0 < |name| <= 200 && (name[0] == '#' || name[0] == '&') && ',' !in name
  }

  // ---------------------------------------------------------------- one message

  ghost function HandleNick(s: State, id: Id, ps: seq<string>): Outcome
    requires id in s.infos && id in s.peers
  {
    if |ps| < 1 then Ok(Reply(s, id, NeedMoreParams(Nick)), [])
    else if |ps[0]| > 50 then Ok(Reply(s, id, ERRONEUS_NICKNAME), [])
    else if NickUsed(s.infos, ps[0]) then Ok(Reply(s, id, NICKNAME_IN_USE), [])
    else
      var info := s.infos[id];
      var state := if info.state == Init then RegisteredNick else info.state;
      Ok(SetInfo(s, id, info.(nick := Some(ps[0]), state := state)), [])
  }

  ghost function HandleUser(s: State, id: Id, ps: seq<string>): Outcome
    requires id in s.infos && id in s.peers
  {
    if |ps| < 4 then Ok(Reply(s, id, NeedMoreParams(User)), [])
    else if s.infos[id].state == RegisteredUser then Ok(Reply(s, id, ALREADY_REGISTERED), [])
    else Ok(SetInfo(s, id, s.infos[id].(username := Some(ps[0]), realname := Some(ps[3]), state := RegisteredUser)), [])
  }

  ghost function HandleJoin(s: State, id: Id, ps: seq<string>, pick: Id): Outcome
    requires id in s.infos && id in s.peers
  {
    if |ps| < 1 then Ok(Reply(s, id, NeedMoreParams(Join)), [])
    else if !ChannelName(ps[0]) then Ok(Reply(s, id, NO_SUCH_CHANNEL), [])
    else Moved(s, id, ps[0], pick)
  }

  /** Out of the old channel, if any, and into the new one, even when they are the same. */
  ghost function Moved(s: State, id: Id, name: string, pick: Id): Outcome
    requires id in s.infos && id in s.peers
  {
    var joined := s.infos[id].joined;
    var quit := if joined.Some? then QuitChan(s, id, joined.value, pick) else Refused;
    if quit.Broken? then Abort
    else
      var q := if quit.Gone? then quit.state else s;
      if q.infos[id].nick.None? then Abort
      else Ok(Entered(q, id, name),
              (if quit.Gone? then [Leave(id, id, HeirOf(s, id, joined.value, pick))] else []) + [Enter(id, name)])
  }

  /** `join_chan`, and the announcement of who joined. */
  function Entered(s: State, id: Id, name: string): State
    requires id in s.infos && s.infos[id].nick.Some?
  {
    var t := JoinChan(s, id, name);
    Broadcast(t, name, JoinMessage(t, id, name))
  }

  function JoinMessage(s: State, id: Id, name: string): Message
    requires id in s.infos && s.infos[id].nick.Some? && name in s.rooms && id in s.rooms[name].members
  {
    System(name, JoinText(s.infos[id].nick.value, name, s.rooms[name].members[id].isOperator))
  }

  function JoinText(nick: string, name: string, isOperator: bool): string {
    nick + " joined " + name + if isOperator then " as moderator" else ""
  }

  /** What the checks of a command come to. */
  datatype Verdict = Throws | Says(message: Message) | Goes(name: string, target: Id)

  /** The sender must operate the channel, and the nick must be somebody's. */
  ghost function ModeratorVerdict(s: State, id: Id, name: string, nick: string): (v: Verdict)
    requires name in s.rooms
    ensures v.Goes? ==> v.name in s.rooms && v.target in s.infos
  {
    var members := s.rooms[name].members;
    if id !in members then Throws
    else if !members[id].isOperator then Says(CHAN_OP_PRIV_NEEDED)
    else
      var target := FindNick(s.infos, nick);
      if target.None? then Says(NO_SUCH_NICK) else Goes(name, target.value)
  }

  ghost function ModeVerdict(s: State, id: Id, ps: seq<string>): (v: Verdict)
    requires id in s.infos
    ensures v.Goes? ==> |ps| >= 3 && v.name in s.rooms && v.target in s.infos
  {
    if |ps| < 3 then Says(NeedMoreParams(Mode))
    else
      var name := GetChanName(ps[0], s.infos[id]);
      if name.None? then Says(NOT_ON_CHANNEL)
      else if name.value !in s.rooms then Says(NO_SUCH_CHANNEL)
      else ModeratorVerdict(s, id, name.value, ps[2])
  }

  ghost function HandleMode(s: State, id: Id, ps: seq<string>): Outcome
    requires id in s.infos && id in s.peers
  {
    match ModeVerdict(s, id, ps)
    case Throws => Abort
    case Says(m) => Ok(Reply(s, id, m), [])
    case Goes(name, target) => Voiced(s, id, name, target, ps[1])
  }

  /** What the modifiers of a `MODE` do to the target. */
  function Voiced(s: State, id: Id, name: string, target: Id, modifiers: string): Outcome
    requires name in s.rooms
  {
    if !Occurs("+v", modifiers) && !Occurs("-v", modifiers) then Ok(s, [])
    else if target !in s.rooms[name].members then Abort
    else
      var muted := !Occurs("+v", modifiers);
      Ok(SetMember(s, name, target, s.rooms[name].members[target].(isMuted := muted)), [SetMute(id, target, muted)])
  }

  function DottedQuad(ip: nat): string {
    Digits(ip / 0x100_0000 % 256) + "." + Digits(ip / 0x1_0000 % 256)
    + "." + Digits(ip / 0x100 % 256) + "." + Digits(ip % 256)
  }

  function OrUnknown(field: Option<string>): string {
    if field.Some? then field.value else "uknown"
  }

  function WhoisReply(info: ConnInfo): Message {
    Message(None, Numeric(311), [OrUnknown(info.username), DottedQuad(info.ipv4), "*", OrUnknown(info.realname)])
  }

  ghost function HandleWhois(s: State, id: Id, ps: seq<string>): Outcome
    requires id in s.infos && id in s.peers
  {
    if |ps| < 1 then Ok(Reply(s, id, NeedMoreParams(Whois)), [])
    else if s.infos[id].joined.None? then Ok(Reply(s, id, NOT_ON_CHANNEL), [])
    else
      var name := s.infos[id].joined.value;
      if name !in s.rooms || id !in s.rooms[name].members then Abort
      else if !s.rooms[name].members[id].isOperator then Ok(Reply(s, id, CHAN_OP_PRIV_NEEDED), [])
      else
        var target := FindNick(s.infos, ps[0]);
        Ok(Reply(s, id, if target.None? then NO_SUCH_NICK else WhoisReply(s.infos[target.value])), [])
  }

  function PrivateMessage(nick: string, params: seq<string>): Message {
    Message(Some(nick), Cmd(Privmsg), params)
  }

  ghost function HandlePrivmsg(s: State, id: Id, ps: seq<string>): Outcome
    requires id in s.infos && id in s.peers
  {
    if |ps| < 2 then Ok(Reply(s, id, NeedMoreParams(Privmsg)), [])
    else
      var name := GetChanName(ps[0], s.infos[id]);
      if name.None? then Ok(Reply(s, id, NOT_ON_CHANNEL), [])
      else if name.value !in s.rooms then Ok(Reply(s, id, NO_SUCH_CHANNEL), [])
      else
        var members := s.rooms[name.value].members;
        if id !in members then Abort
        else if members[id].isMuted then Ok(Reply(s, id, CANNOT_SEND_TO_CHAN), [])
        else if s.infos[id].nick.None? then Abort
        else Ok(Broadcast(s, name.value, PrivateMessage(s.infos[id].nick.value, [name.value, ps[|ps| - 1]])), [])
  }

  ghost function HandleQuit(s: State, id: Id, ps: seq<string>, pick: Id): Outcome
    requires id in s.infos && id in s.peers
  {
    if s.infos[id].nick.None? || |ps| == 1 then Abort
    else
      var nick, joined := s.infos[id].nick.value, s.infos[id].joined;
      var text := if |ps| == 0 then nick + " quit" else ps[1];
      if joined.None? then Ok(HungUp(s, id), [])
      else if joined.value !in s.rooms then Abort
      else
        match Farewell(s, id, joined.value, PrivateMessage(nick, [text]), pick)
        case Abort => Abort
        case Ok(t, acts) => Ok(HungUp(Detached(t, id), id), acts)
  }

  /** A last message to the channel, then `quit_chan`. */
  ghost function Farewell(s: State, id: Id, name: string, m: Message, pick: Id): (o: Outcome)
    requires name in s.rooms
    ensures o.Ok? ==> o.state.infos == s.infos && o.state.peers.Keys == s.peers.Keys
  {
    var t := Broadcast(s, name, m);
    match QuitChan(t, id, name, pick)
    case Broken => Abort
    case Refused => Ok(t, [])
    case Gone(u) => Ok(u, [Leave(id, id, HeirOf(s, id, name, pick))])
  }

  ghost function KickVerdict(s: State, id: Id, ps: seq<string>): (v: Verdict)
    requires id in s.infos
    ensures v.Goes? ==> v.name in s.rooms && v.target in s.infos
  {
    if |ps| < 2 then Says(NeedMoreParams(Kick))
    else
      var name := GetChanName(ps[0], s.infos[id]);
      if name.None? || name.value !in s.rooms then Says(NOT_ON_CHANNEL)
      else ModeratorVerdict(s, id, name.value, ps[1])
  }

  ghost function HandleKick(s: State, id: Id, ps: seq<string>, pick: Id): Outcome
    requires id in s.infos && id in s.peers
  {
    match KickVerdict(s, id, ps)
    case Throws => Abort
    case Says(m) => Ok(Reply(s, id, m), [])
    case Goes(name, target) => Kicked(s, id, name, target, pick)
  }

  ghost function Kicked(s: State, id: Id, name: string, target: Id, pick: Id): Outcome
    requires name in s.rooms && target in s.infos && id in s.peers
  {
    match QuitChan(s, target, name, pick)
    case Broken => Abort
    case Refused => Ok(Reply(s, id, NOT_ON_CHANNEL), [])
    case Gone(t) => Ok(Detached(t, target), [Leave(id, target, HeirOf(s, target, name, pick))])
  }

  /** Before `NICK` and then `USER`, anything else is dropped. */
  predicate Expected(state: ConnState, cmd: Command) {
    (state == Init ==> cmd == Nick) && (state == RegisteredNick ==> cmd == User)
  }

  ghost function HandleCommand(s: State, id: Id, cmd: Command, ps: seq<string>, pick: Id): Outcome
    requires id in s.infos && id in s.peers
  {
    match cmd
    case Pong => Ok(s, [])
    case Nick => HandleNick(s, id, ps)
    case User => HandleUser(s, id, ps)
    case Ping => Ok(Reply(s, id, PONG), [])
    case Join => HandleJoin(s, id, ps, pick)
    case Mode => HandleMode(s, id, ps)
    case Whois => HandleWhois(s, id, ps)
    case Privmsg => HandlePrivmsg(s, id, ps)
    case Quit => HandleQuit(s, id, ps, pick)
    case Kick => HandleKick(s, id, ps, pick)
  }

  ghost function HandleMessage(s: State, id: Id, text: string, pick: Id): Outcome
    requires id in s.infos && id in s.peers
  {
    match Decode(text)
    case ParseError => Ok(s, [])
    case OutOfRange => Abort
    case Parsed(m) =>
      if m.verb.Numeric? then Abort
      else if !Expected(s.infos[id].state, m.verb.cmd) then Ok(s, [])
      else HandleCommand(s, id, m.verb.cmd, m.params, pick)
  }

  // ---------------------------------------------------------------- accept and reap

  function Admitted(s: State, ipv4: nat): State {
    State(s.rooms, s.infos[s.nextId := ConnInfo(None, None, None, None, Init, ipv4)],
          s.peers[s.nextId := Peer(true, [])], s.nextId + 1)
  }

  function Removed(s: State, id: Id): State {
    s.(infos := s.infos - {id}, peers := s.peers - {id})
  }

  /** One turn of the loop that clears closed connections. */
  ghost function Reap(s: State, id: Id, pick: Id): Outcome
    requires id in s.peers
  {
    if s.peers[id].connected then Ok(s, [])
    else
      match Goodbye(s, id, pick)
      case Abort => Abort
      case Ok(t, acts) => Ok(Removed(t, id), acts)
  }

  function ClearingMessage(name: string, nick: string): Message {
    PrivateMessage(nick, [name, nick + " quit"])
  }

  /** What the loop does for a closed connection before it erases it. */
  ghost function Goodbye(s: State, id: Id, pick: Id): Outcome {
    if id !in s.infos then Abort
    else if s.infos[id].joined.None? then Ok(s, [])
    else
      var name, nick := s.infos[id].joined.value, s.infos[id].nick;
      if name !in s.rooms || nick.None? then Abort
      else Farewell(s, id, name, ClearingMessage(name, nick.value), pick)
  }

  // ---------------------------------------------------------------- runs

  /** What can happen next: a client connects, a connected one sends a message or goes away,
      or the loop clears a connection. */
  datatype Event =
    | Connects(ipv4: nat)
    | Sends(id: Id, text: string, pick: Id)
    | GoesAway(id: Id)
    | IsReaped(id: Id, pick: Id)

  predicate Enabled(s: State, e: Event) {
    match e
    case Connects(_) => true
    case Sends(id, text, _) => id in s.infos && id in s.peers && s.peers[id].connected && text != ""
    case GoesAway(id) => id in s.peers && s.peers[id].connected
    case IsReaped(id, _) => id in s.peers && !s.peers[id].connected
  }

  ghost function Step(s: State, e: Event): Outcome
    requires Enabled(s, e)
  {
    match e
    case Connects(ipv4) => Ok(Admitted(s, ipv4), [])
    case Sends(id, text, pick) => HandleMessage(s, id, text, pick)
    case GoesAway(id) => Ok(HungUp(s, id), [])
    case IsReaped(id, pick) => Reap(s, id, pick)
  }

  /** Every event is possible in its turn and none of them aborts. */
  ghost predicate Legal(s: State, es: seq<Event>)
    decreases |es|
  {
    es == [] || (Enabled(s, es[0]) && Step(s, es[0]).Ok? && Legal(Step(s, es[0]).state, es[1..]))
  }

  ghost function Run(s: State, es: seq<Event>): State
    requires Legal(s, es)
    decreases |es|
  {
    if es == [] then s else Run(Step(s, es[0]).state, es[1..])
  }

  ghost function Acts(s: State, es: seq<Event>): seq<Act>
    requires Legal(s, es)
    decreases |es|
  {
    if es == [] then [] else Step(s, es[0]).acts + Acts(Step(s, es[0]).state, es[1..])
  }

  ghost predicate Reachable(s: State) {
    exists es :: Legal(EMPTY, es) && Run(EMPTY, es) == s
  }

  lemma {:induction false} RunConcat(s: State, es: seq<Event>, more: seq<Event>)
    requires Legal(s, es) && Legal(Run(s, es), more)
    ensures Legal(s, es + more) && Run(s, es + more) == Run(Run(s, es), more)
    decreases |es|
  {
    if es == [] {
      assert es + more == more;
    } else {
      assert (es + more)[1..] == es[1..] + more;
      RunConcat(Step(s, es[0]).state, es[1..], more);
    }
  }

  lemma RunOne(s: State, e: Event)
    requires Enabled(s, e) && Step(s, e).Ok?
    ensures Legal(s, [e]) && Run(s, [e]) == Step(s, e).state
  {
    assert [e][1..] == [];
  }
}
