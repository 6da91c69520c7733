/** Inputs that meet each of the conditions under which the program does not do what its
    documentation says: reachable states, and texts and reads that clients can send. */
module Witness {
  import opened Text
  import opened Message
  import opened Framing
  import opened ServerSpec
  import opened Invariant
  import opened Plain

  // ---------------------------------------------------------------- reaching a state

  lemma Extends(s: State, e: Event)
    requires Reachable(s) && Enabled(s, e) && Step(s, e).Ok?
    ensures Reachable(Step(s, e).state)
  {
    var es :| Legal(ServerSpec.EMPTY, es) && Run(ServerSpec.EMPTY, es) == s;
    RunOne(s, e);
    RunConcat(ServerSpec.EMPTY, es, [e]);
  }

  /** What a client writes. */
  function Line(cmd: Command, ps: seq<string>): string {
    Encode(Message(None, Cmd(cmd), ps))
  }

  lemma LineIsHandled(s: State, id: Id, cmd: Command, ps: seq<string>, pick: Id)
    requires MiddlesOk(ps) && id in s.infos && id in s.peers && Expected(s.infos[id].state, cmd)
    ensures Line(cmd, ps) != "" && Decode(Line(cmd, ps)) == Parsed(Message(None, Cmd(cmd), ps))
    ensures HandleMessage(s, id, Line(cmd, ps), pick) == HandleCommand(s, id, cmd, ps, pick)
  {
    EncodeNonEmpty(Message(None, Cmd(cmd), ps));
    RoundTrip(Message(None, Cmd(cmd), ps));
  }

  lemma Writes(s: State, id: Id, cmd: Command, ps: seq<string>, pick: Id)
    requires Reachable(s) && MiddlesOk(ps) && id in s.infos && id in s.peers && s.peers[id].connected
    requires Expected(s.infos[id].state, cmd)
    requires HandleCommand(s, id, cmd, ps, pick).Ok?
    ensures Reachable(HandleCommand(s, id, cmd, ps, pick).state)
  {
    LineIsHandled(s, id, cmd, ps, pick);
    Extends(s, Sends(id, Line(cmd, ps), pick));
  }

  function Someone(nick: string): ConnInfo {
    ConnInfo(None, Some(nick), Some("r"), Some("u"), RegisteredUser, 0)
  }

  /** `s` with one more client, registered as `nick`. */
  function With(s: State, nick: string): State {
    State(s.rooms, s.infos[s.nextId := Someone(nick)], s.peers[s.nextId := Peer(true, [])], s.nextId + 1)
  }

  lemma Registers(s: State, nick: string)
    requires Reachable(s) && |nick| <= 50 && !NickUsed(s.infos, nick)
    ensures Reachable(With(s, nick))
  {
    var t := Admitted(s, 0);
    ReachableInv(s);
    Extends(s, Connects(0));
    FreshNick(s, t, nick);
    Writes(t, s.nextId, Nick, [nick], 0);
    var u := HandleNick(t, s.nextId, [nick]).state;
    assert u == SetInfo(t, s.nextId, ConnInfo(None, Some(nick), None, None, RegisteredNick, 0));
    GivesName(s, u, nick);
  }

  lemma GivesName(s: State, u: State, nick: string)
    requires Reachable(u)
    requires u == SetInfo(Admitted(s, 0), s.nextId, ConnInfo(None, Some(nick), None, None, RegisteredNick, 0))
    ensures Reachable(With(s, nick))
  {
    var ps := ["u", "h", "s", "r"];
    Writes(u, s.nextId, User, ps, 0);
    assert HandleUser(u, s.nextId, ps).state.infos == With(s, nick).infos;
  }

  lemma FreshNick(s: State, t: State, nick: string)
    requires !NickUsed(s.infos, nick) && s.nextId !in s.infos && t == Admitted(s, 0)
    ensures !NickUsed(t.infos, nick)
  {
  }

  // ---------------------------------------------------------------- messages that throw

  /** `a` operates `#x`; `b` is registered and in no channel. */
  function Apart(): State {
    Entered(With(With(ServerSpec.EMPTY, "a"), "b"), 0, "#x")
  }

  lemma ApartIsReachable()
    ensures Reachable(Apart())
    ensures 0 in Apart().infos && 1 in Apart().infos && Apart().peers.Keys == {0, 1}
    ensures Apart().infos[0].joined == Some("#x") && Apart().infos[1] == Someone("b")
    ensures Apart().infos[0].state == RegisteredUser
    ensures Apart().peers[0].connected && Apart().peers[1].connected
    ensures IsMember(Apart(), "#x", 0) && Apart().rooms["#x"].members == map[0 := Member(false, true)]
  {
    BothRegister();
    Joins(With(With(ServerSpec.EMPTY, "a"), "b"), 0, "#x");
  }

  lemma BothRegister()
    ensures Reachable(With(With(ServerSpec.EMPTY, "a"), "b"))
  {
    assert Legal(ServerSpec.EMPTY, []) && Run(ServerSpec.EMPTY, []) == ServerSpec.EMPTY;
    Registers(ServerSpec.EMPTY, "a");
    Registers(With(ServerSpec.EMPTY, "a"), "b");
  }

  lemma Joins(s: State, id: Id, c: string)
    requires Reachable(s) && id in s.infos && id in s.peers && s.peers[id].connected && ChannelName(c)
    requires s.infos[id].state == RegisteredUser && s.infos[id].joined.None? && s.infos[id].nick.Some?
    ensures Reachable(Entered(s, id, c))
  {
    MovedFirst(s, id, c, 0);
    Writes(s, id, Join, [c], 0);
  }

  /** The text reaches the handler and throws, whichever member a promotion would pick. */
  ghost predicate Aborts(s: State, id: Id, text: string) {
    forall pick :: Enabled(s, Sends(id, text, pick)) && Step(s, Sends(id, text, pick)).Abort?
  }

  lemma NotCompleted(s: State, id: Id, m: Message)
    requires Inv(s) && id in s.infos && s.peers[id].connected && !Completes(s, id, Encode(m))
    ensures Aborts(s, id, Encode(m))
  {
    EncodeNonEmpty(m);
    forall pick
      ensures Enabled(s, Sends(id, Encode(m), pick)) && Step(s, Sends(id, Encode(m), pick)).Abort?
    {
      HandlerCompletes(s, id, Encode(m), pick);
    }
  }

  /** `PRIVMSG`, `KICK` and `MODE` on an existing channel, from outside it. */
  lemma OutsidersAbort(text: string, nick: string, modifiers: string)
    requires MiddleOk(modifiers)
    ensures Reachable(Apart()) && Apart().infos[1].joined.None? && "#x" in Apart().rooms
    ensures Aborts(Apart(), 1, Line(Privmsg, ["#x", text]))
    ensures Aborts(Apart(), 1, Line(Kick, ["#x", nick]))
    ensures Aborts(Apart(), 1, Line(Mode, ["#x", modifiers, nick]))
  {
    ApartIsReachable();
    FromOutside(Privmsg, ["#x", text]);
    FromOutside(Kick, ["#x", nick]);
    FromOutside(Mode, ["#x", modifiers, nick]);
  }

  lemma FromOutside(cmd: Command, ps: seq<string>)
    requires MiddlesOk(ps) && |ps| >= 2 && ps[0] == "#x"
    requires (cmd == Privmsg || cmd == Kick || (cmd == Mode && |ps| >= 3))
    ensures Aborts(Apart(), 1, Line(cmd, ps))
  {
    ApartIsReachable();
    ReachableInv(Apart());
    LineIsHandled(Apart(), 1, cmd, ps, 0);
    assert Outside(Apart(), 1, "#x");
    NotCompleted(Apart(), 1, Message(None, Cmd(cmd), ps));
  }

  /** The operator sets or clears `v` for a known nick outside its channel. */
  lemma VoicingAnOutsiderAborts()
    ensures Aborts(Apart(), 0, Line(Mode, ["#x", "+v", "b"])) && Aborts(Apart(), 0, Line(Mode, ["#x", "-v", "b"]))
  {
    VoicesB("+v");
    VoicesB("-v");
  }

  lemma VoicesB(modifiers: string)
    requires modifiers == "+v" || modifiers == "-v"
    ensures Aborts(Apart(), 0, Line(Mode, ["#x", modifiers, "b"]))
  {
    ApartIsReachable();
    ReachableInv(Apart());
    assert modifiers[0..2] == modifiers;
    Misvoices(Apart(), ["#x", modifiers, "b"]);
  }

  lemma Misvoices(s: State, ps: seq<string>)
    requires Inv(s) && 0 in s.infos && 1 in s.infos && s.peers[0].connected && s.infos[0].state == RegisteredUser
    requires |ps| == 3 && MiddlesOk(ps) && (Occurs("+v", ps[1]) || Occurs("-v", ps[1]))
    requires ps[0] != "---" && IsMember(s, ps[0], 0) && s.rooms[ps[0]].members[0].isOperator
    requires s.infos[1].nick == Some(ps[2]) && s.infos[1].joined.None?
    ensures Aborts(s, 0, Line(Mode, ps))
  {
    LineIsHandled(s, 0, Mode, ps, 0);
    IsOutsider(s, ps);
    NotCompleted(s, 0, Message(None, Cmd(Mode), ps));
  }

  lemma IsOutsider(s: State, ps: seq<string>)
    requires 0 in s.infos && 1 in s.infos && |ps| == 3 && (Occurs("+v", ps[1]) || Occurs("-v", ps[1]))
    requires ps[0] != "---" && IsMember(s, ps[0], 0) && s.rooms[ps[0]].members[0].isOperator
    requires s.infos[1].nick == Some(ps[2]) && s.infos[1].joined.None?
    ensures ModesOutsider(s, 0, ps)
  {
  }

  /** `QUIT` with one parameter. */
  lemma QuitAborts(text: string)
    ensures Aborts(Apart(), 1, Line(Quit, [text]))
  {
    ApartIsReachable();
    ReachableInv(Apart());
    LineIsHandled(Apart(), 1, Quit, [text], 0);
    NotCompleted(Apart(), 1, Message(None, Cmd(Quit), [text]));
  }

  /** A numeric, whatever its parameters. */
  lemma NumericAborts(n: nat, params: seq<string>)
    requires 100 <= n <= 999
    ensures Aborts(Apart(), 1, Encode(Message(None, Numeric(n), params)))
  {
    ApartIsReachable();
    ReachableInv(Apart());
    NumericIsRead(n, params);
    NotCompleted(Apart(), 1, Message(None, Numeric(n), params));
  }

  lemma NumericIsRead(n: nat, params: seq<string>)
    requires 100 <= n <= 999
    ensures Decode(Encode(Message(None, Numeric(n), params))).Parsed?
    ensures Decode(Encode(Message(None, Numeric(n), params))).msg.verb == Numeric(n)
  {
    var rest := EncodeParams(params) + "\n";
    VerbRoundTrip(Numeric(n));
    WordOfConcat(Digits(n), rest);
    assert Encode(Message(None, Numeric(n), params)) == Digits(n) + " " + rest;
  }

  // ---------------------------------------------------------------- reads

  /** Two reads that bring three lines: one is delivered, and then two at once. */
  lemma DeliveriesAreNotLines(a: string, b: string, c: string)
    requires IsLine(a) && IsLine(b) && IsLine(c)
    ensures FeedAll("", [a + b, c]) == ([a, b + c], "")
    ensures Lines(Flatten([a + b, c])) == [a, b, c]
  {
    Delivers("", a, b);
    Delivers(b, c, "");
    assert "" + a == a && c + "" == c;
    TwoReads("", a + b, c);
    assert [a] + [b + c] == [a, b + c];
    ThreeLines(a, b, c);
    FlattenTwo(a, b, c);
  }

  lemma Delivers(live: string, line: string, tail: string)
    requires IsLine(line)
    ensures Feed(live, line + tail) == Fed(tail, Some(live + line))
    ensures Lines(line + tail) == [line] + Lines(tail)
  {
    var s, n := line + tail, |line| - 1;
    assert s[..n] == line[..n];
    FindIs(s, '\n', n);
    assert s[..n + 1] == line && s[n + 1..] == tail;
  }

  lemma TwoReads(live: string, x: string, y: string)
    ensures var f, g := Feed(live, x), Feed(Feed(live, x).live, y);
            FeedAll(live, [x, y]) == (AsSeq(f.delivered) + AsSeq(g.delivered), g.live)
  {
    FedOne(live, x);
    FedOne(Feed(live, x).live, y);
    FedConcat(live, [x], [y]);
    assert [x] + [y] == [x, y];
  }

  lemma FlattenTwo(a: string, b: string, c: string)
    ensures Flatten([a + b, c]) == a + (b + c)
  {
    assert [a + b, c][1..] == [c];
    FlattenOne(c);
    Assoc(a, b, c);
  }

  lemma LineThen(line: string, tail: string, rest: seq<string>)
    requires IsLine(line) && Lines(tail) == rest
    ensures Lines(line + tail) == [line] + rest
  {
    Delivers("", line, tail);
  }

  lemma TwoLines(a: string, b: string)
    requires IsLine(a) && IsLine(b)
    ensures Lines(a + b) == [a, b]
  {
    FirstLine("", "");
    LineThen(b, "", []);
    assert b + "" == b && [b] + [] == [b];
    LineThen(a, b, [b]);
  }

  lemma ThreeLines(a: string, b: string, c: string)
    requires IsLine(a) && IsLine(b) && IsLine(c)
    ensures Lines(a + (b + c)) == [a, b, c]
  {
    TwoLines(b, c);
    LineThen(a, b + c, [b, c]);
  }

  // ---------------------------------------------------------------- the wire format

  /** A numeric that is accepted and, printed again, is not. */
  lemma SmallNumericIsLost()
    ensures Decode("007 \n") == Parsed(Message(None, Numeric(7), []))
    ensures Encode(Message(None, Numeric(7), [])) == "7 \n" && Decode("7 \n") == ParseError
  {
    FindIs("007 \n", ' ', 3);
    var w := "007";
    assert "007 \n"[..3] == w && "007 \n"[4..] == "\n";
    assert w[..2] == "00" && "00"[..1] == "0" && "0"[..0] == "";
    assert Value("") == 0 && Value("0") == 0 && Value("00") == 0 && Value(w) == 7;
    assert Digits(7) == "7";
    FindIs("7 \n", ' ', 1);
    assert "7 \n"[..1] == "7" && "7 \n"[2..] == "\n";
  }

  /** A client can take a nick with a space in it, and no message from that nick is read back
      as it was posted. */
  lemma SpacedNickIsMisread(params: seq<string>)
    ensures Reachable(With(ServerSpec.EMPTY, "a b")) && !IsPlain(With(ServerSpec.EMPTY, "a b"))
    ensures var m := PrivateMessage("a b", params); Decode(Encode(m)) != Parsed(m)
  {
    assert Legal(ServerSpec.EMPTY, []) && Run(ServerSpec.EMPTY, []) == ServerSpec.EMPTY;
    Registers(ServerSpec.EMPTY, "a b");
    assert "a b"[1] == ' ';
    assert !InfoPlain(With(ServerSpec.EMPTY, "a b").infos[0]);
    RoundTrip(PrivateMessage("a b", params));
  }

  // ---------------------------------------------------------------- clearing

  /** `a` and `b` are in `#x`, and both are closed. */
  function Doomed(): State {
    HungUp(HungUp(Entered(Apart(), 1, "#x"), 0), 1)
  }

  lemma DoomedIsReachable()
    ensures Reachable(Doomed())
    ensures Doomed().peers.Keys == {0, 1} && !Doomed().peers[0].connected && !Doomed().peers[1].connected
    ensures HasJoined(Doomed(), "#x", 0)
    ensures Doomed().rooms["#x"].members == map[0 := Member(false, true), 1 := Member(false, false)]
  {
    ApartIsReachable();
    Joins(Apart(), 1, "#x");
    var t := Entered(Apart(), 1, "#x");
    Extends(t, GoesAway(0));
    Extends(HungUp(t, 0), GoesAway(1));
  }

  /** Clearing `a` promotes `b`, which is about to be cleared itself. */
  lemma HeirIsDoomed(pick: Id)
    ensures Reachable(Doomed()) && Reap(Doomed(), 0, pick).Ok?
    ensures var t := Reap(Doomed(), 0, pick).state;
            && "#x" in t.rooms && IsBoss(t.rooms["#x"].members, 1) && 1 in t.peers && !t.peers[1].connected
  {
    DoomedIsReachable();
    ReachableInv(Doomed());
    Succeeds(Doomed(), pick);
  }

  lemma Succeeds(s: State, pick: Id)
    requires Inv(s) && 0 in s.peers && 1 in s.peers && !s.peers[0].connected && HasJoined(s, "#x", 0) && "#x" in s.rooms
    requires s.rooms["#x"].members == map[0 := Member(false, true), 1 := Member(false, false)]
    ensures Reap(s, 0, pick).Ok?
    ensures var t := Reap(s, 0, pick).state;
            && "#x" in t.rooms && IsBoss(t.rooms["#x"].members, 1)
            && 1 in t.peers && t.peers[1].connected == s.peers[1].connected
  {
    var m := ClearingMessage("#x", s.infos[0].nick.value);
    GoodbyeFollows(s, Model(s), 0, "#x", m, pick);
    BroadcastFollows(s, Model(s), "#x", m);
    PromotesB(Broadcast(s, "#x", m), pick);
    ReapIs(s, pick);
  }

  lemma ReapIs(s: State, pick: Id)
    requires 0 in s.peers && 0 in s.infos && !s.peers[0].connected && s.infos[0].joined == Some("#x")
    requires s.infos[0].nick.Some?
    requires "#x" in s.rooms && Farewell(s, 0, "#x", ClearingMessage("#x", s.infos[0].nick.value), pick).Ok?
    ensures Reap(s, 0, pick).Ok?
    ensures Reap(s, 0, pick).state
            == Removed(Farewell(s, 0, "#x", ClearingMessage("#x", s.infos[0].nick.value), pick).state, 0)
  {
  }

  lemma PromotesB(s: State, pick: Id)
    requires Inv(s) && "#x" in s.rooms
    requires s.rooms["#x"].members == map[0 := Member(false, true), 1 := Member(false, false)]
    ensures var q := QuitChan(s, 0, "#x", pick);
            q.Gone? && "#x" in q.state.rooms && IsBoss(q.state.rooms["#x"].members, 1)
  {
    var left := s.rooms["#x"].members - {0};
    assert IsMember(s, "#x", 0) && IsBoss(s.rooms["#x"].members, 0);
    QuitEffect(s, 0, "#x", 0, pick);
    assert left == map[1 := Member(false, false)] && 1 in left.Keys;
    assert First(left, pick) == 1;
  }
}
