/** What each command does, to whom: the whole state after it, and what every connection is
    sent, in terms of who is in which channel. */
module Effects {
  import opened Text
  import opened Message
  import opened Logs
  import opened ServerSpec
  import opened Invariant
  import opened Runs

  // ---------------------------------------------------------------- who is told what

  /** A message to channel `c` reaches `y`. */
  predicate Hears(s: State, c: string, y: Id) {
    IsMember(s, c, y) && y in s.peers && s.peers[y].connected
  }

  function Copy(heard: bool, m: Message): seq<Posted> {
    if heard then [Posted(m, true)] else []
  }

  /** Nothing changes but the log of `id`, which gets `m`. */
  predicate Answered(s: State, t: State, id: Id, m: Message) {
    && id in s.peers && t.rooms == s.rooms && t.infos == s.infos && t.nextId == s.nextId
    && t.peers == s.peers[id := Peer(s.peers[id].connected, s.peers[id].log + [Posted(m, false)])]
  }

  /** The server's numbered replies. */
  function Numbered(n: nat, params: seq<string>): Message {
    Message(Some("server"), Numeric(n), params)
  }

  predicate Told(s: State, o: Outcome, id: Id, n: nat, params: seq<string>) {
    o.Ok? && Answered(s, o.state, id, Numbered(n, params))
  }

  function Private(nick: string, params: seq<string>): Message {
    Message(Some(nick), Cmd(Privmsg), params)
  }

  function Notice(c: string, text: string): Message {
    Message(Some("system"), Cmd(Privmsg), [c, text])
  }

  /** The channel that a parameter names. */
  predicate Names(s: State, id: Id, param: string, c: string)
    requires id in s.infos
  {
    if param == "---" then s.infos[id].joined == Some(c) else param == c
  }

  lemma NamesIs(s: State, id: Id, param: string, c: string)
    requires id in s.infos && Names(s, id, param, c)
    ensures GetChanName(param, s.infos[id]) == Some(c)
  {
  }

  // ---------------------------------------------------------------- before the commands

  /** Only `NICK` counts before a nick is known, and only `USER` before the rest is; what
      cannot be parsed is ignored; a numeric throws. */
  lemma MessageEffect(s: State, id: Id, text: string, pick: Id)
    requires id in s.infos && id in s.peers
    ensures var o, state := HandleMessage(s, id, text, pick), s.infos[id].state;
            match Decode(text)
            case ParseError => o.Ok? && o.state == s
            case OutOfRange => o.Abort?
            case Parsed(Message(_, Numeric(_), _)) => o.Abort?
            case Parsed(Message(_, Cmd(cmd), ps)) =>
              if (state == Init && cmd != Nick) || (state == RegisteredNick && cmd != User) then o.Ok? && o.state == s
              else o == HandleCommand(s, id, cmd, ps, pick)
  {
  }

  lemma PingEffect(s: State, id: Id, ps: seq<string>, pick: Id)
    requires id in s.infos && id in s.peers
    ensures HandleCommand(s, id, Pong, ps, pick).Ok? && HandleCommand(s, id, Pong, ps, pick).state == s
    ensures var o := HandleCommand(s, id, Ping, ps, pick);
            o.Ok? && Answered(s, o.state, id, Message(None, Cmd(Pong), []))
  {
  }

  // ---------------------------------------------------------------- registration

  /** Nothing changes but the registration data of `id`. */
  predicate Rewrites(s: State, t: State, id: Id) {
    && t.rooms == s.rooms && t.peers == s.peers && t.nextId == s.nextId && t.infos.Keys == s.infos.Keys
    && forall y | y in s.infos && y != id :: t.infos[y] == s.infos[y]
  }

  lemma NickEffect(s: State, id: Id, ps: seq<string>, pick: Id)
    requires id in s.infos && id in s.peers
    ensures var o := HandleCommand(s, id, Nick, ps, pick);
            if |ps| == 0 then Told(s, o, id, 461, ["NICK", "Not enough parameters"])
            else if |ps[0]| > 50 then Told(s, o, id, 432, ["Erroneus nickname"])
            else if exists x :: x in s.infos && s.infos[x].nick == Some(ps[0]) then
              Told(s, o, id, 433, ["Nickname is already in use"])
            else
              && o.Ok? && Rewrites(s, o.state, id)
              && var x, y := s.infos[id], o.state.infos[id];
                 && y.nick == Some(ps[0]) && y.joined == x.joined && y.ipv4 == x.ipv4
                 && y.username == x.username && y.realname == x.realname
                 && y.state == if x.state == Init then RegisteredNick else x.state
  {
  }

  lemma UserEffect(s: State, id: Id, ps: seq<string>, pick: Id)
    requires id in s.infos && id in s.peers
    ensures var o := HandleCommand(s, id, User, ps, pick);
            if |ps| < 4 then Told(s, o, id, 461, ["USER", "Not enough parameters"])
            else if s.infos[id].state == RegisteredUser then Told(s, o, id, 462, ["You may not reregister"])
            else
              && o.Ok? && Rewrites(s, o.state, id)
              && var x, y := s.infos[id], o.state.infos[id];
                 && y.username == Some(ps[0]) && y.realname == Some(ps[3]) && y.state == RegisteredUser
                 && y.nick == x.nick && y.joined == x.joined && y.ipv4 == x.ipv4
  {
  }

  // ---------------------------------------------------------------- speaking

  /** Exactly one copy to every connected member of `c`, the sender included, and nothing to
      anybody else; nothing else changes. */
  predicate Spoken(s: State, t: State, c: string, m: Message) {
    && t.rooms == s.rooms && t.infos == s.infos && t.nextId == s.nextId && t.peers.Keys == s.peers.Keys
    && forall y | y in s.peers ::
         t.peers[y] == Peer(s.peers[y].connected, s.peers[y].log + Copy(Hears(s, c, y), m))
  }

  lemma BroadcastSpeaks(s: State, c: string, m: Message)
    requires c in s.rooms
    ensures Spoken(s, Broadcast(s, c, m), c, m)
  {
    var t := Broadcast(s, c, m);
    forall y | y in s.peers
      ensures t.peers[y] == Peer(s.peers[y].connected, s.peers[y].log + Copy(Hears(s, c, y), m))
    {
      assert s.peers[y].log + [] == s.peers[y].log;
    }
  }

  lemma PrivmsgEffect(s: State, id: Id, ps: seq<string>, pick: Id)
    requires Inv(s) && id in s.infos && s.infos[id].state == RegisteredUser
    ensures var o := HandleCommand(s, id, Privmsg, ps, pick);
            && (|ps| < 2 ==> Told(s, o, id, 461, ["PRIVMSG", "Not enough parameters"]))
            && (|ps| >= 2 && ps[0] == "---" && s.infos[id].joined.None? ==>
                  Told(s, o, id, 442, ["You're not on that channel"]))
            && forall c | |ps| >= 2 && Names(s, id, ps[0], c) :: ChannelSpeech(s, o, id, c, ps[|ps| - 1])
  {
    if |ps| >= 2 {
      forall c | Names(s, id, ps[0], c)
        ensures ChannelSpeech(s, HandlePrivmsg(s, id, ps), id, c, ps[|ps| - 1])
      {
        NamesIs(s, id, ps[0], c);
        PrivmsgTo(s, id, ps, c);
      }
    }
  }

  /** A missing channel, an outsider, a muted member, and a member that may speak. */
  ghost predicate ChannelSpeech(s: State, o: Outcome, id: Id, c: string, text: string)
    requires id in s.infos
  {
    if c !in s.rooms then Told(s, o, id, 403, ["No such channel"])
    else if s.infos[id].joined != Some(c) then o.Abort?
    else if IsMuted(s, c, id) then Told(s, o, id, 404, ["Cannot send to channel"])
    else o.Ok? && s.infos[id].nick.Some? && Spoken(s, o.state, c, Private(s.infos[id].nick.value, [c, text]))
  }

  lemma PrivmsgTo(s: State, id: Id, ps: seq<string>, c: string)
    requires Inv(s) && id in s.infos && s.infos[id].state == RegisteredUser
    requires |ps| >= 2 && GetChanName(ps[0], s.infos[id]) == Some(c)
    ensures ChannelSpeech(s, HandlePrivmsg(s, id, ps), id, c, ps[|ps| - 1])
  {
    assert IsMember(s, c, id) <==> HasJoined(s, c, id);
    if c in s.rooms {
      BroadcastSpeaks(s, c, PrivateMessage(s.infos[id].nick.value, [c, ps[|ps| - 1]]));
    }
  }

  // ---------------------------------------------------------------- what an operator asks

  lemma WhoisEffect(s: State, id: Id, ps: seq<string>, pick: Id)
    requires Inv(s) && id in s.infos && s.infos[id].state == RegisteredUser
    ensures var o := HandleCommand(s, id, Whois, ps, pick);
            if |ps| == 0 then Told(s, o, id, 461, ["WHOIS", "Not enough parameters"])
            else if s.infos[id].joined.None? then Told(s, o, id, 442, ["You're not on that channel"])
            else if !IsOperator(s, s.infos[id].joined.value, id) then
              Told(s, o, id, 482, ["You're not channel operator"])
            else Described(s, o, id, ps[0])
  {
    if |ps| > 0 && s.infos[id].joined.Some? {
      var c := s.infos[id].joined.value;
      assert HasJoined(s, c, id);
      assert IsMember(s, c, id);
      if IsOperator(s, c, id) {
        WhoisAnswers(s, id, ps, c);
      }
    }
  }

  /** The holder of the nick is described to the asker, or there is none. */
  ghost predicate Described(s: State, o: Outcome, id: Id, nick: string) {
    && ((forall x | x in s.infos :: s.infos[x].nick != Some(nick)) ==>
          Told(s, o, id, 401, ["No such nick/channel"]))
    && forall x | x in s.infos && s.infos[x].nick == Some(nick) :: DescribedTo(s, o, id, s.infos[x])
  }

  ghost predicate DescribedTo(s: State, o: Outcome, id: Id, info: ConnInfo) {
    o.Ok? && exists quad :: Dotted(quad, info.ipv4) && Answered(s, o.state, id, Description(info, quad))
  }

  lemma WhoisAnswers(s: State, id: Id, ps: seq<string>, c: string)
    requires Inv(s) && id in s.infos && |ps| > 0 && s.infos[id].joined == Some(c) && IsOperator(s, c, id)
    ensures Described(s, HandleWhois(s, id, ps), id, ps[0])
  {
    forall x | x in s.infos && s.infos[x].nick == Some(ps[0])
      ensures DescribedTo(s, HandleWhois(s, id, ps), id, s.infos[x])
    {
      QuadIsDotted(s.infos[x].ipv4);
      FoundNick(s, ps[0], x);
      WhoisReplyIs(s.infos[x]);
    }
  }

  lemma WhoisReplyIs(info: ConnInfo)
    ensures WhoisReply(info) == Description(info, DottedQuad(info.ipv4))
  {
  }

  /** User name, address and real name of the one asked about. */
  function Description(info: ConnInfo, quad: string): Message {
    var user := if info.username.Some? then info.username.value else "uknown";
    var name := if info.realname.Some? then info.realname.value else "uknown";
    Message(None, Numeric(311), [user, quad, "*", name])
  }

  /** Four decimal bytes, the highest first. */
  predicate QuadOf(quad: string, ip: nat, a: nat, b: nat, c: nat, d: nat) {
    && a < 256 && b < 256 && c < 256 && d < 256
    && ip % 0x1_0000_0000 == a * 0x100_0000 + b * 0x1_0000 + c * 0x100 + d
    && quad == Digits(a) + "." + Digits(b) + "." + Digits(c) + "." + Digits(d)
  }

  ghost predicate Dotted(quad: string, ip: nat) {
    exists a: nat, b: nat, c: nat, d: nat :: QuadOf(quad, ip, a, b, c, d)
  }

  lemma QuadIsDotted(ip: nat)
    ensures Dotted(DottedQuad(ip), ip)
  {
    var a, b, c, d := ip / 0x100_0000 % 256, ip / 0x1_0000 % 256, ip / 0x100 % 256, ip % 256;
    FourBytes(ip);
    assert QuadOf(DottedQuad(ip), ip, a, b, c, d);
  }

  lemma FourBytes(ip: nat)
    ensures ip % 0x1_0000_0000
            == (ip / 0x100_0000 % 256) * 0x100_0000 + (ip / 0x1_0000 % 256) * 0x1_0000
               + (ip / 0x100 % 256) * 0x100 + ip % 256
  {
    var p, q, r := ip / 0x100, ip / 0x1_0000, ip / 0x100_0000;
    TwoBytes(ip);
    ThreeBytes(ip);
    assert r == 256 * (r / 256) + r % 256;
    AllBytes(ip, r / 256, r % 256 * 0x100_0000 + q % 256 * 0x1_0000 + p % 256 * 0x100 + ip % 256);
  }

  lemma TwoBytes(ip: nat)
    ensures ip == ip / 0x1_0000 * 0x1_0000 + ip / 0x100 % 256 * 0x100 + ip % 256
  {
    var p := ip / 0x100;
    assert ip == p * 0x100 + ip % 256 && p == p / 256 * 256 + p % 256;
  }

  lemma ThreeBytes(ip: nat)
    ensures ip / 0x1_0000 == ip / 0x100_0000 * 0x100 + ip / 0x1_0000 % 256
  {
  }

  lemma AllBytes(ip: nat, high: nat, low: nat)
    requires ip == high * 0x1_0000_0000 + low && low < 0x1_0000_0000
    ensures ip % 0x1_0000_0000 == low
  {
  }

  /** `modifiers` holds the sign and then a `v`. */
  predicate Has(modifiers: string, sign: char) {
    exists i :: 0 <= i < |modifiers| - 1 && modifiers[i] == sign && modifiers[i + 1] == 'v'
  }

  lemma HasIsOccurs(modifiers: string, sign: char)
    ensures Has(modifiers, sign) <==> Occurs([sign, 'v'], modifiers)
  {
    if Has(modifiers, sign) {
      var i :| 0 <= i < |modifiers| - 1 && modifiers[i] == sign && modifiers[i + 1] == 'v';
      assert modifiers[i..i + 2] == [sign, 'v'];
    }
    if Occurs([sign, 'v'], modifiers) {
      var i, j :| 0 <= i <= j <= |modifiers| && modifiers[i..j] == [sign, 'v'];
      assert modifiers[i] == modifiers[i..j][0] && modifiers[i + 1] == modifiers[i..j][1];
    }
  }

  /** The mute flag of `x` in `c` is `muted`, and nothing else changes. */
  ghost predicate Flagged(s: State, t: State, c: string, x: Id, muted: bool) {
    && t.infos == s.infos && t.peers == s.peers && t.nextId == s.nextId && t.rooms.Keys == s.rooms.Keys
    && (forall d, y :: IsMember(t, d, y) <==> IsMember(s, d, y))
    && (forall d, y :: IsOperator(t, d, y) <==> IsOperator(s, d, y))
    && (forall d, y :: IsMuted(t, d, y) <==> if d == c && y == x then muted else IsMuted(s, d, y))
  }

  lemma ModeEffect(s: State, id: Id, ps: seq<string>, pick: Id)
    requires Inv(s) && id in s.infos && s.infos[id].state == RegisteredUser
    ensures var o := HandleCommand(s, id, Mode, ps, pick);
            && (|ps| < 3 ==> Told(s, o, id, 461, ["MODE", "Not enough parameters"]))
            && (|ps| >= 3 && ps[0] == "---" && s.infos[id].joined.None? ==>
                  Told(s, o, id, 442, ["You're not on that channel"]))
            && forall c | |ps| >= 3 && Names(s, id, ps[0], c) :: ModeOn(s, o, id, c, ps[1], ps[2])
  {
    if |ps| >= 3 {
      forall c | Names(s, id, ps[0], c)
        ensures ModeOn(s, HandleMode(s, id, ps), id, c, ps[1], ps[2])
      {
        NamesIs(s, id, ps[0], c);
        ModeOf(s, id, ps, c);
      }
    }
  }

  /** A missing channel, an outsider, a plain member, and the operator; then a nick nobody has
      and the holder of the nick. */
  ghost predicate ModeOn(s: State, o: Outcome, id: Id, c: string, modifiers: string, nick: string)
    requires id in s.infos
  {
    if c !in s.rooms then Told(s, o, id, 403, ["No such channel"])
    else if s.infos[id].joined != Some(c) then o.Abort?
    else if !IsOperator(s, c, id) then Told(s, o, id, 482, ["You're not channel operator"])
    else
      && ((forall x | x in s.infos :: s.infos[x].nick != Some(nick)) ==>
            Told(s, o, id, 401, ["No such nick/channel"]))
      && forall x | x in s.infos && s.infos[x].nick == Some(nick) :: Voices(s, o, c, modifiers, x)
  }

  ghost predicate Voices(s: State, o: Outcome, c: string, modifiers: string, x: Id) {
    if !Has(modifiers, '+') && !Has(modifiers, '-') then o.Ok? && o.state == s
    else if !IsMember(s, c, x) then o.Abort?
    else o.Ok? && Flagged(s, o.state, c, x, !Has(modifiers, '+'))
  }

  lemma ModeOf(s: State, id: Id, ps: seq<string>, c: string)
    requires Inv(s) && id in s.infos && s.infos[id].state == RegisteredUser
    requires |ps| >= 3 && GetChanName(ps[0], s.infos[id]) == Some(c)
    ensures ModeOn(s, HandleMode(s, id, ps), id, c, ps[1], ps[2])
  {
    assert IsMember(s, c, id) <==> HasJoined(s, c, id);
    if IsOperator(s, c, id) {
      forall x | x in s.infos && s.infos[x].nick == Some(ps[2])
        ensures Voices(s, HandleMode(s, id, ps), c, ps[1], x)
      {
        FoundNick(s, ps[2], x);
        VoicedEffect(s, id, c, x, ps[1]);
      }
    }
  }

  lemma VoicedEffect(s: State, id: Id, c: string, x: Id, modifiers: string)
    requires c in s.rooms
    ensures Voices(s, Voiced(s, id, c, x, modifiers), c, modifiers, x)
  {
    HasIsOccurs(modifiers, '+');
    HasIsOccurs(modifiers, '-');
    assert ['+', 'v'] == "+v" && ['-', 'v'] == "-v";
  }

  // ---------------------------------------------------------------- leaving a channel

  /** Who becomes operator when `id` leaves `c`: nobody, unless `id` was it and others stay;
      then one of those, the one that the hash table puts first. */
  ghost predicate HeirOk(s: State, c: string, id: Id, pick: Id, heir: Option<Id>) {
    if heir.Some? then
      && IsOperator(s, c, id) && heir.value != id && IsMember(s, c, heir.value)
      && (IsMember(s, c, pick) && pick != id ==> heir.value == pick)
    else IsOperator(s, c, id) ==> forall y :: IsMember(s, c, y) ==> y == id
  }

  /** Those who stay in `c` are told who operates it now. */
  ghost function Promotion(s: State, c: string, id: Id, heir: Option<Id>, y: Id): seq<Posted> {
    if heir.Some? && heir.value in s.infos && s.infos[heir.value].nick.Some? then
      Copy(Hears(s, c, y) && y != id, Notice(c, s.infos[heir.value].nick.value + " promoted to operator"))
    else []
  }

  /** The channels without `id` in `c`, the heir operating it. */
  ghost predicate RoomsWithout(s: State, t: State, c: string, id: Id, heir: Option<Id>) {
    && (forall d, y :: IsMember(t, d, y) <==> IsMember(s, d, y) && !(d == c && y == id))
    && (forall d, y: Id | IsMember(t, d, y) ::
          && (IsMuted(t, d, y) <==> IsMuted(s, d, y))
          && (IsOperator(t, d, y) <==> IsOperator(s, d, y) || (d == c && heir == Some(y))))
  }

  lemma SameRoomsWithout(s: State, q: State, t: State, c: string, id: Id, heir: Option<Id>)
    requires RoomsWithout(s, q, c, id, heir) && t.rooms == q.rooms
    ensures RoomsWithout(s, t, c, id, heir)
  {
    assert forall d, y :: IsMember(t, d, y) <==> IsMember(q, d, y);
    assert forall d, y :: IsOperator(t, d, y) <==> IsOperator(q, d, y);
    assert forall d, y :: IsMuted(t, d, y) <==> IsMuted(q, d, y);
  }

  /** `quit_chan` on a member. */
  ghost predicate Departs(s: State, t: State, c: string, id: Id, heir: Option<Id>) {
    && RoomsWithout(s, t, c, id, heir)
    && t.infos == s.infos && t.nextId == s.nextId && t.peers.Keys == s.peers.Keys
    && forall y | y in s.peers ::
         t.peers[y] == Peer(s.peers[y].connected, s.peers[y].log + Promotion(s, c, id, heir, y))
  }

  lemma DepartEffect(s: State, id: Id, c: string, pick: Id) returns (heir: Option<Id>)
    requires Inv(s) && IsMember(s, c, id)
    ensures QuitChan(s, id, c, pick).Gone?
    ensures HeirOk(s, c, id, pick, heir) && Departs(s, QuitChan(s, id, c, pick).state, c, id, heir)
  {
    var left, boss := s.rooms[c].members - {id}, Boss(s.rooms[c].members);
    QuitEffect(s, id, c, boss, pick);
    heir := Heir(left, pick);
    if left.Keys == {} {
      assert forall y :: IsMember(s, c, y) ==> y in left.Keys + {id};
      DepartsAlone(s, id, c, pick);
    } else {
      PromotedMembers(s.rooms[c].members, id, boss, pick);
      HeirFacts(s, id, c, pick, boss);
      DepartsOthers(s, id, c, pick, heir);
    }
  }

  lemma DepartsAlone(s: State, id: Id, c: string, pick: Id)
    requires IsMember(s, c, id) && (s.rooms[c].members - {id}).Keys == {}
    ensures QuitChan(s, id, c, pick).Gone? && Departs(s, QuitChan(s, id, c, pick).state, c, id, None)
  {
    assert forall y :: IsMember(s, c, y) ==> y in (s.rooms[c].members - {id}).Keys + {id};
    forall y | y in s.peers
      ensures s.peers[y] == Peer(s.peers[y].connected, s.peers[y].log + Promotion(s, c, id, None, y))
    {
      assert s.peers[y].log + [] == s.peers[y].log;
    }
  }

  lemma HeirFacts(s: State, id: Id, c: string, pick: Id, boss: Id)
    requires Inv(s) && IsMember(s, c, id) && IsBoss(s.rooms[c].members, boss) && (s.rooms[c].members - {id}).Keys != {}
    ensures HeirOk(s, c, id, pick, Heir(s.rooms[c].members - {id}, pick))
    ensures var heir := Heir(s.rooms[c].members - {id}, pick);
            heir.Some? ==> heir.value in s.infos && s.infos[heir.value].nick.Some?
  {
    var left := s.rooms[c].members - {id};
    PromotedMembers(s.rooms[c].members, id, boss, pick);
    var heir := Heir(left, pick);
    if heir.Some? {
      assert IsMember(s, c, heir.value);
      assert HasJoined(s, c, heir.value);
      assert IsMember(s, c, pick) && pick != id ==> pick in left;
    }
  }

  lemma DepartsOthers(s: State, id: Id, c: string, pick: Id, heir: Option<Id>)
    requires IsMember(s, c, id) && (s.rooms[c].members - {id}).Keys != {}
    requires heir == Heir(s.rooms[c].members - {id}, pick)
    requires heir.Some? ==> heir.value in s.infos && s.infos[heir.value].nick.Some?
    ensures QuitChan(s, id, c, pick).Gone? && Departs(s, QuitChan(s, id, c, pick).state, c, id, heir)
  {
    var left := s.rooms[c].members - {id};
    var t := s.(rooms := s.rooms[c := s.rooms[c].(members := Promoted(left, pick))]);
    if heir.Some? {
      var m := Notice(c, s.infos[heir.value].nick.value + " promoted to operator");
      BroadcastSpeaks(t, c, m);
      forall y
        ensures Hears(t, c, y) <==> Hears(s, c, y) && y != id
      {
      }
    } else {
      forall y | y in s.peers
        ensures s.peers[y] == Peer(s.peers[y].connected, s.peers[y].log + Promotion(s, c, id, heir, y))
      {
        assert s.peers[y].log + [] == s.peers[y].log;
      }
    }
  }

  // ---------------------------------------------------------------- kicking

  lemma KickEffect(s: State, id: Id, ps: seq<string>, pick: Id)
    requires Inv(s) && id in s.infos && s.infos[id].state == RegisteredUser
    ensures var o := HandleCommand(s, id, Kick, ps, pick);
            && (|ps| < 2 ==> Told(s, o, id, 461, ["KICK", "Not enough parameters"]))
            && (|ps| >= 2 && ps[0] == "---" && s.infos[id].joined.None? ==>
                  Told(s, o, id, 442, ["You're not on that channel"]))
            && forall c | |ps| >= 2 && Names(s, id, ps[0], c) :: KickFrom(s, o, id, c, ps[1], pick)
  {
    if |ps| >= 2 {
      forall c | Names(s, id, ps[0], c)
        ensures KickFrom(s, HandleKick(s, id, ps, pick), id, c, ps[1], pick)
      {
        NamesIs(s, id, ps[0], c);
        KickOf(s, id, ps, c, pick);
      }
    }
  }

  /** A missing channel, an outsider, a plain member, and the operator; then a nick nobody has
      and the holder of the nick. */
  ghost predicate KickFrom(s: State, o: Outcome, id: Id, c: string, nick: string, pick: Id)
    requires id in s.infos
  {
    if c !in s.rooms then Told(s, o, id, 442, ["You're not on that channel"])
    else if s.infos[id].joined != Some(c) then o.Abort?
    else if !IsOperator(s, c, id) then Told(s, o, id, 482, ["You're not channel operator"])
    else
      && ((forall x | x in s.infos :: s.infos[x].nick != Some(nick)) ==>
            Told(s, o, id, 401, ["No such nick/channel"]))
      && forall x | x in s.infos && s.infos[x].nick == Some(nick) :: Expels(s, o, id, c, x, pick)
  }

  /** The one who holds the nick is out of the channel and of nothing else; if it is not in the
      channel, the operator is told so. */
  ghost predicate Expels(s: State, o: Outcome, id: Id, c: string, x: Id, pick: Id) {
    if !IsMember(s, c, x) then Told(s, o, id, 442, ["You're not on that channel"])
    else o.Ok? && exists heir :: HeirOk(s, c, x, pick, heir) && Expelled(s, o.state, c, x, heir)
  }

  ghost predicate Expelled(s: State, t: State, c: string, x: Id, heir: Option<Id>) {
    && x in s.infos && t.infos == s.infos[x := s.infos[x].(joined := None)] && t.nextId == s.nextId
    && RoomsWithout(s, t, c, x, heir) && t.peers.Keys == s.peers.Keys
    && forall y | y in s.peers ::
         t.peers[y] == Peer(s.peers[y].connected, s.peers[y].log + Promotion(s, c, x, heir, y))
  }

  lemma KickOf(s: State, id: Id, ps: seq<string>, c: string, pick: Id)
    requires Inv(s) && id in s.infos && s.infos[id].state == RegisteredUser
    requires |ps| >= 2 && GetChanName(ps[0], s.infos[id]) == Some(c)
    ensures KickFrom(s, HandleKick(s, id, ps, pick), id, c, ps[1], pick)
  {
    assert IsMember(s, c, id) <==> HasJoined(s, c, id);
    if IsOperator(s, c, id) {
      forall x | x in s.infos && s.infos[x].nick == Some(ps[1])
        ensures Expels(s, HandleKick(s, id, ps, pick), id, c, x, pick)
      {
        FoundNick(s, ps[1], x);
        KickedEffect(s, id, c, x, pick);
      }
    }
  }

  lemma KickedEffect(s: State, id: Id, c: string, x: Id, pick: Id)
    requires Inv(s) && id in s.peers && c in s.rooms && x in s.infos
    ensures Expels(s, Kicked(s, id, c, x, pick), id, c, x, pick)
  {
    if IsMember(s, c, x) {
      var heir := DepartEffect(s, x, c, pick);
      DetachedRooms(QuitChan(s, x, c, pick).state, x);
      SameRoomsWithout(s, QuitChan(s, x, c, pick).state, Kicked(s, id, c, x, pick).state, c, x, heir);
      assert Expelled(s, Kicked(s, id, c, x, pick).state, c, x, heir);
    }
  }

  lemma DetachedRooms(q: State, x: Id)
    requires x in q.infos
    ensures Detached(q, x).rooms == q.rooms && Detached(q, x).peers == q.peers
    ensures Detached(q, x).infos == q.infos[x := q.infos[x].(joined := None)]
    ensures Detached(q, x).nextId == q.nextId
  {
  }

  // ---------------------------------------------------------------- joining

  predicate ValidName(c: string) {
    1 <= |c| <= 200 && (c[0] == '#' || c[0] == '&') && forall i | 0 <= i < |c| :: c[i] != ','
  }

  lemma JoinEffect(s: State, id: Id, ps: seq<string>, pick: Id)
    requires Inv(s) && id in s.infos && s.infos[id].state == RegisteredUser
    ensures var o := HandleCommand(s, id, Join, ps, pick);
            if |ps| == 0 then Told(s, o, id, 461, ["JOIN", "Not enough parameters"])
            else if !ValidName(ps[0]) then Told(s, o, id, 403, ["No such channel"])
            else o.Ok? && HasJoinedBy(s, o.state, id, ps[0], pick)
  {
    if |ps| > 0 && ValidName(ps[0]) {
      assert ChannelName(ps[0]);
      if s.infos[id].joined.None? {
        FirstJoin(s, id, ps[0], pick);
      } else {
        NextJoin(s, id, s.infos[id].joined.value, ps[0], pick);
      }
    }
  }

  /** Whom `id` leaves to operate the channel it was in, if it was in one. */
  ghost predicate HeirLeft(s: State, id: Id, pick: Id, heir: Option<Id>)
    requires id in s.infos
  {
    if s.infos[id].joined.None? then heir.None? else HeirOk(s, s.infos[id].joined.value, id, pick, heir)
  }

  /** What those hear whom `id` leaves. */
  ghost function Parting(s: State, id: Id, heir: Option<Id>, y: Id): seq<Posted>
    requires id in s.infos
  {
    if s.infos[id].joined.None? then [] else Promotion(s, s.infos[id].joined.value, id, heir, y)
  }

  ghost predicate HasJoinedBy(s: State, t: State, id: Id, c: string, pick: Id)
    requires id in s.infos
  {
    exists heir :: HeirLeft(s, id, pick, heir) && JoinedBy(s, t, id, c, heir)
  }

  /** `id` is in `c` and nowhere else, not muted, and operates it exactly if it is alone there;
      the others are where they were. Those in the channel it left hear of the heir, and then
      everybody in `c`, `id` included, hears who joined. */
  ghost predicate JoinedBy(s: State, t: State, id: Id, c: string, heir: Option<Id>)
    requires id in s.infos
  {
    && t.infos == s.infos[id := s.infos[id].(joined := Some(c))] && t.nextId == s.nextId
    && JoinedRooms(s, t, id, c, heir)
    && t.peers.Keys == s.peers.Keys && s.infos[id].nick.Some?
    && forall y | y in s.peers ::
         t.peers[y] == Peer(s.peers[y].connected,
                            s.peers[y].log + Parting(s, id, heir, y) + Copy(Hears(t, c, y), Welcome(s, t, id, c)))
  }

  ghost predicate JoinedRooms(s: State, t: State, id: Id, c: string, heir: Option<Id>)
    requires id in s.infos
  {
    && (forall d, y :: IsMember(t, d, y) <==> if y == id then d == c else IsMember(s, d, y))
    && !IsMuted(t, c, id)
    && (IsOperator(t, c, id) <==> forall y :: IsMember(s, c, y) ==> y == id)
    && (forall d, y: Id | IsMember(t, d, y) && y != id ::
          && (IsMuted(t, d, y) <==> IsMuted(s, d, y))
          && (IsOperator(t, d, y) <==> IsOperator(s, d, y) || (s.infos[id].joined == Some(d) && heir == Some(y))))
  }

  ghost function Welcome(s: State, t: State, id: Id, c: string): Message
    requires id in s.infos && s.infos[id].nick.Some?
  {
    Notice(c, s.infos[id].nick.value + " joined " + c + if IsOperator(t, c, id) then " as moderator" else "")
  }

  /** `join_chan` on a connection that is nowhere, and its announcement. */
  ghost predicate Arrives(s: State, t: State, id: Id, c: string)
    requires id in s.infos && s.infos[id].nick.Some?
  {
    && t.infos == s.infos[id := s.infos[id].(joined := Some(c))] && t.nextId == s.nextId && t.peers.Keys == s.peers.Keys
    && (forall d, y :: IsMember(t, d, y) <==> IsMember(s, d, y) || (d == c && y == id))
    && !IsMuted(t, c, id) && (IsOperator(t, c, id) <==> forall y :: !IsMember(s, c, y))
    && (forall d, y: Id | IsMember(s, d, y) ::
          (IsMuted(t, d, y) <==> IsMuted(s, d, y)) && (IsOperator(t, d, y) <==> IsOperator(s, d, y)))
    && forall y | y in s.peers ::
         t.peers[y] == Peer(s.peers[y].connected, s.peers[y].log + Copy(Hears(t, c, y), Welcome(s, t, id, c)))
  }

  /** The room has members, and its name is its key. */
  predicate RoomKept(s: State, c: string) {
    c in s.rooms ==> s.rooms[c].name == c && s.rooms[c].members.Keys != {}
  }

  lemma EnteredEffect(s: State, id: Id, c: string)
    requires id in s.infos && s.infos[id].nick.Some? && !IsMember(s, c, id) && RoomKept(s, c)
    ensures Arrives(s, Entered(s, id, c), id, c)
  {
    var j := JoinChan(s, id, c);
    if c in s.rooms {
      var y :| y in s.rooms[c].members.Keys;
      assert IsMember(s, c, y);
    }
    BroadcastSpeaks(j, c, JoinMessage(j, id, c));
    assert forall y :: Hears(Entered(s, id, c), c, y) <==> Hears(j, c, y);
    WelcomeIs(s, j, id, c);
  }

  lemma WelcomeIs(s: State, j: State, id: Id, c: string)
    requires id in s.infos && s.infos[id].nick.Some? && j == JoinChan(s, id, c)
    ensures JoinMessage(j, id, c) == Welcome(s, Broadcast(j, c, JoinMessage(j, id, c)), id, c)
  {
  }

  lemma FirstJoin(s: State, id: Id, c: string, pick: Id)
    requires Inv(s) && id in s.infos && s.infos[id].state == RegisteredUser && s.infos[id].joined.None?
    ensures Moved(s, id, c, pick).Ok? && HasJoinedBy(s, Moved(s, id, c, pick).state, id, c, pick)
  {
    assert forall d :: IsMember(s, d, id) <==> HasJoined(s, d, id);
    RoomsAreKept(s, c);
    MovedFirst(s, id, c, pick);
    EnteredEffect(s, id, c);
    JoinedFirst(s, Entered(s, id, c), id, c);
  }

  lemma RoomsAreKept(s: State, c: string)
    requires Inv(s)
    ensures RoomKept(s, c)
  {
    if c in s.rooms {
      var o :| IsBoss(s.rooms[c].members, o);
      assert o in s.rooms[c].members.Keys;
    }
  }

  lemma JoinedFirst(s: State, t: State, id: Id, c: string)
    requires id in s.infos && s.infos[id].nick.Some? && s.infos[id].joined.None? && Arrives(s, t, id, c)
    requires forall d :: !IsMember(s, d, id)
    ensures JoinedBy(s, t, id, c, None)
  {
    forall y | y in s.peers
      ensures s.peers[y].log + Parting(s, id, None, y) == s.peers[y].log
    {
    }
  }

  lemma NextJoin(s: State, id: Id, b: string, c: string, pick: Id)
    requires Inv(s) && id in s.infos && s.infos[id].state == RegisteredUser && s.infos[id].joined == Some(b)
    ensures Moved(s, id, c, pick).Ok? && HasJoinedBy(s, Moved(s, id, c, pick).state, id, c, pick)
  {
    JoinedIn(s, Model(s), id);
    var heir := DepartEffect(s, id, b, pick);
    var q := QuitChan(s, id, b, pick).state;
    MovedAs(s, id, b, c, pick);
    LeaveKeeps(s, Model(s), id, id, b, pick);
    RoomsAreKept(Detached(q, id), c);
    DetachedRooms(q, id);
    EnteredEffect(q, id, c);
    NowhereElse(s, id, b);
    JoinedNext(s, q, Entered(q, id, c), id, b, c, heir);
  }

  lemma NowhereElse(s: State, id: Id, b: string)
    requires Inv(s) && id in s.infos && s.infos[id].joined == Some(b)
    ensures forall d :: IsMember(s, d, id) <==> d == b
  {
    assert forall d :: IsMember(s, d, id) <==> HasJoined(s, d, id);
  }

  lemma JoinedNext(s: State, q: State, t: State, id: Id, b: string, c: string, heir: Option<Id>)
    requires id in s.infos && s.infos[id].joined == Some(b) && s.infos[id].nick.Some?
    requires Departs(s, q, b, id, heir) && Arrives(q, t, id, c) && forall d :: IsMember(s, d, id) <==> d == b
    ensures JoinedBy(s, t, id, c, heir)
  {
    assert JoinedRooms(s, t, id, c, heir);
    assert Welcome(q, t, id, c) == Welcome(s, t, id, c);
  }

  // ---------------------------------------------------------------- going away

  /** A last message to the channel, and then the departure. */
  ghost predicate BidsFarewell(s: State, t: State, id: Id, c: string, m: Message, heir: Option<Id>) {
    && RoomsWithout(s, t, c, id, heir)
    && t.infos == s.infos && t.nextId == s.nextId && t.peers.Keys == s.peers.Keys
    && forall y | y in s.peers ::
         t.peers[y] == Peer(s.peers[y].connected,
                            s.peers[y].log + Copy(Hears(s, c, y), m) + Promotion(s, c, id, heir, y))
  }

  lemma FarewellTells(s: State, id: Id, c: string, m: Message, pick: Id) returns (heir: Option<Id>)
    requires Inv(s) && IsMember(s, c, id)
    ensures Farewell(s, id, c, m, pick).Ok? && HeirOk(s, c, id, pick, heir)
    ensures BidsFarewell(s, Farewell(s, id, c, m, pick).state, id, c, m, heir)
  {
    var t := Broadcast(s, c, m);
    AfterSpeech(s, id, c, m);
    heir := DepartEffect(t, id, c, pick);
    FarewellIsBoth(s, t, QuitChan(t, id, c, pick).state, id, c, m, pick, heir);
    FarewellOf(s, id, c, m, pick);
  }

  lemma AfterSpeech(s: State, id: Id, c: string, m: Message)
    requires Inv(s) && IsMember(s, c, id)
    ensures Spoken(s, Broadcast(s, c, m), c, m) && Inv(Broadcast(s, c, m)) && IsMember(Broadcast(s, c, m), c, id)
  {
    BroadcastSpeaks(s, c, m);
    BroadcastFollows(s, Model(s), c, m);
  }

  lemma FarewellOf(s: State, id: Id, c: string, m: Message, pick: Id)
    requires c in s.rooms && QuitChan(Broadcast(s, c, m), id, c, pick).Gone?
    ensures Farewell(s, id, c, m, pick).Ok?
    ensures Farewell(s, id, c, m, pick).state == QuitChan(Broadcast(s, c, m), id, c, pick).state
  {
  }

  lemma FarewellIsBoth(s: State, t: State, q: State, id: Id, c: string, m: Message, pick: Id, heir: Option<Id>)
    requires Spoken(s, t, c, m) && Departs(t, q, c, id, heir) && HeirOk(t, c, id, pick, heir)
    ensures BidsFarewell(s, q, id, c, m, heir) && HeirOk(s, c, id, pick, heir)
  {
    assert forall d, y :: IsMember(t, d, y) <==> IsMember(s, d, y);
    assert forall d, y :: IsOperator(t, d, y) <==> IsOperator(s, d, y);
    assert forall d, y :: IsMuted(t, d, y) <==> IsMuted(s, d, y);
    forall y | y in s.peers
      ensures Promotion(t, c, id, heir, y) == Promotion(s, c, id, heir, y)
    {
    }
  }

  /** The connection closes; if it was in a channel, everybody there hears the text, itself
      included, and it is out of it. */
  lemma QuitterEffect(s: State, id: Id, ps: seq<string>, pick: Id)
    requires Inv(s) && id in s.infos && s.infos[id].state == RegisteredUser
    ensures var o := HandleCommand(s, id, Quit, ps, pick);
            if |ps| == 1 then o.Abort?
            else
              && o.Ok? && s.infos[id].nick.Some?
              && Quits(s, o.state, id, if |ps| == 0 then s.infos[id].nick.value + " quit" else ps[1], pick)
  {
    if |ps| != 1 && s.infos[id].joined.Some? {
      QuitsChannel(s, id, ps, s.infos[id].joined.value, pick);
    }
  }

  lemma QuitsChannel(s: State, id: Id, ps: seq<string>, c: string, pick: Id)
    requires Inv(s) && id in s.infos && s.infos[id].state == RegisteredUser && s.infos[id].joined == Some(c)
    requires |ps| != 1 && s.infos[id].nick.Some?
    ensures HandleQuit(s, id, ps, pick).Ok?
    ensures Quits(s, HandleQuit(s, id, ps, pick).state, id,
                  if |ps| == 0 then s.infos[id].nick.value + " quit" else ps[1], pick)
  {
    var nick := s.infos[id].nick.value;
    var text := if |ps| == 0 then nick + " quit" else ps[1];
    JoinedIn(s, Model(s), id);
    var heir := FarewellTells(s, id, c, PrivateMessage(nick, [text]), pick);
    var q := Farewell(s, id, c, PrivateMessage(nick, [text]), pick).state;
    FarewellQuits(s, q, id, c, text, heir);
    QuitOf(s, id, ps, c, text, pick);
  }

  lemma FarewellQuits(s: State, q: State, id: Id, c: string, text: string, heir: Option<Id>)
    requires id in s.infos && id in s.peers && s.infos[id].nick.Some?
    requires BidsFarewell(s, q, id, c, Private(s.infos[id].nick.value, [text]), heir)
    ensures QuitsFrom(s, HungUp(Detached(q, id), id), id, c, text, heir)
  {
    DetachedRooms(q, id);
    SameRoomsWithout(s, q, HungUp(Detached(q, id), id), c, id, heir);
  }

  lemma QuitOf(s: State, id: Id, ps: seq<string>, c: string, text: string, pick: Id)
    requires id in s.infos && id in s.peers && s.infos[id].joined == Some(c) && c in s.rooms && s.infos[id].nick.Some?
    requires |ps| != 1 && text == if |ps| == 0 then s.infos[id].nick.value + " quit" else ps[1]
    requires Farewell(s, id, c, PrivateMessage(s.infos[id].nick.value, [text]), pick).Ok?
    ensures HandleQuit(s, id, ps, pick).Ok?
    ensures HandleQuit(s, id, ps, pick).state
            == HungUp(Detached(Farewell(s, id, c, PrivateMessage(s.infos[id].nick.value, [text]), pick).state, id), id)
  {
  }

  ghost predicate Quits(s: State, t: State, id: Id, text: string, pick: Id)
    requires id in s.infos
  {
    if s.infos[id].joined.None? then Closes(s, t, id)
    else exists heir ::
      HeirOk(s, s.infos[id].joined.value, id, pick, heir) && QuitsFrom(s, t, id, s.infos[id].joined.value, text, heir)
  }

  /** Nothing changes but that `id` is closed. */
  predicate Closes(s: State, t: State, id: Id) {
    && id in s.peers && t.rooms == s.rooms && t.infos == s.infos && t.nextId == s.nextId
    && t.peers == s.peers[id := Peer(false, s.peers[id].log)]
  }

  ghost predicate QuitsFrom(s: State, t: State, id: Id, c: string, text: string, heir: Option<Id>)
    requires id in s.infos
  {
    && s.infos[id].nick.Some? && RoomsWithout(s, t, c, id, heir)
    && t.infos == s.infos[id := s.infos[id].(joined := None)] && t.nextId == s.nextId && t.peers.Keys == s.peers.Keys
    && forall y | y in s.peers ::
         t.peers[y] == Peer(s.peers[y].connected && y != id,
                            s.peers[y].log + Copy(Hears(s, c, y), Private(s.infos[id].nick.value, [text]))
                            + Promotion(s, c, id, heir, y))
  }

  // ---------------------------------------------------------------- what is not a message

  lemma OtherEffects(s: State)
    ensures forall ipv4 :: var t := Step(s, Connects(ipv4)).state;
              && t.rooms == s.rooms && t.nextId == s.nextId + 1
              && t.infos == s.infos[s.nextId := ConnInfo(None, None, None, None, Init, ipv4)]
              && t.peers == s.peers[s.nextId := Peer(true, [])]
    ensures forall id | id in s.peers && s.peers[id].connected :: Closes(s, Step(s, GoesAway(id)).state, id)
  {
  }

  /** Clearing a closed connection: those it was in a channel with hear that it quit, and its
      data are gone. */
  lemma ClearingEffect(s: State, id: Id, pick: Id)
    requires Inv(s) && id in s.peers && !s.peers[id].connected
    ensures var o := Step(s, IsReaped(id, pick));
            && o.Ok? && id in s.infos
            && if s.infos[id].joined.None? then ErasesOnly(s, o.state, id)
               else exists heir ::
                 HeirOk(s, s.infos[id].joined.value, id, pick, heir)
                 && Erases(s, o.state, id, s.infos[id].joined.value, heir)
  {
    if s.infos[id].joined.Some? {
      ClearsChannel(s, id, s.infos[id].joined.value, pick);
    }
  }

  lemma ClearsChannel(s: State, id: Id, c: string, pick: Id)
    requires Inv(s) && id in s.infos && id in s.peers && !s.peers[id].connected && s.infos[id].joined == Some(c)
    ensures Reap(s, id, pick).Ok?
    ensures exists heir :: HeirOk(s, c, id, pick, heir) && Erases(s, Reap(s, id, pick).state, id, c, heir)
  {
    var m := ClearingMessage(c, s.infos[id].nick.value);
    JoinedIn(s, Model(s), id);
    var heir := FarewellTells(s, id, c, m, pick);
    FarewellErases(s, Farewell(s, id, c, m, pick).state, id, c, heir);
    ReapOf(s, id, c, pick);
  }

  lemma FarewellErases(s: State, q: State, id: Id, c: string, heir: Option<Id>)
    requires id in s.infos && id in s.peers && s.infos[id].nick.Some?
    requires BidsFarewell(s, q, id, c, ClearingMessage(c, s.infos[id].nick.value), heir)
    ensures Erases(s, Removed(q, id), id, c, heir)
  {
    SameRoomsWithout(s, q, Removed(q, id), c, id, heir);
  }

  lemma ReapOf(s: State, id: Id, c: string, pick: Id)
    requires id in s.infos && id in s.peers && !s.peers[id].connected && s.infos[id].joined == Some(c) && c in s.rooms
    requires s.infos[id].nick.Some? && Farewell(s, id, c, ClearingMessage(c, s.infos[id].nick.value), pick).Ok?
    ensures Reap(s, id, pick).Ok?
    ensures Reap(s, id, pick).state
            == Removed(Farewell(s, id, c, ClearingMessage(c, s.infos[id].nick.value), pick).state, id)
  {
  }

  predicate ErasesOnly(s: State, t: State, id: Id) {
    t.rooms == s.rooms && t.nextId == s.nextId && t.infos == s.infos - {id} && t.peers == s.peers - {id}
  }

  ghost predicate Erases(s: State, t: State, id: Id, c: string, heir: Option<Id>)
    requires id in s.infos
  {
    && s.infos[id].nick.Some? && RoomsWithout(s, t, c, id, heir)
    && t.nextId == s.nextId && t.infos == s.infos - {id} && t.peers.Keys == s.peers.Keys - {id}
    && var nick := s.infos[id].nick.value;
       forall y | y in t.peers ::
         t.peers[y] == Peer(s.peers[y].connected,
                            s.peers[y].log + Copy(Hears(s, c, y), Private(nick, [c, nick + " quit"]))
                            + Promotion(s, c, id, heir, y))
  }
}
