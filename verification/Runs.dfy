/** Properties of whole runs of the server, from any state that meets the invariant. */
module Runs {
  import opened Text
  import opened Message
  import opened Logs
  import opened ServerSpec
  import opened Rooms
  import opened Invariant

  // ---------------------------------------------------------------- the small model

  /** Acts that end a mute: leaving the room, or being unmuted. */
  predicate Frees(act: Act, t: Id) {
    (act.Leave? && act.id == t) || (act.SetMute? && act.id == t && !act.muted)
  }

  predicate Moves(act: Act, t: Id) {
    act.Leave? && act.id == t
  }

  predicate Touches(act: Act, t: Id) {
    (act.Leave? || act.SetMute?) && act.id == t
  }

  lemma PlaceStaysOnce(a: Rooms, act: Act, t: Id, c: string)
    requires RoomsOk(a) && Allowed(a, act) && In(a, t, c) && !Moves(act, t)
    ensures In(Do(a, act), t, c)
    ensures !Touches(act, t) ==> (t in Do(a, act).muted <==> t in a.muted)
    ensures !Frees(act, t) && t in a.muted ==> t in Do(a, act).muted
    ensures a.boss[c] == t ==> Do(a, act).boss[c] == t
  {
  }

  lemma {:induction false} PlaceStays(a: Rooms, acts: seq<Act>, t: Id, c: string)
    requires RoomsOk(a) && AllAllowed(a, acts) && In(a, t, c)
    requires forall act | act in acts :: !Moves(act, t)
    ensures RoomsOk(DoAll(a, acts)) && In(DoAll(a, acts), t, c)
    ensures (forall act | act in acts :: !Touches(act, t)) ==> (t in DoAll(a, acts).muted <==> t in a.muted)
    ensures (forall act | act in acts :: !Frees(act, t)) && t in a.muted ==> t in DoAll(a, acts).muted
    ensures a.boss[c] == t ==> DoAll(a, acts).boss[c] == t
    decreases |acts|
  {
    if acts != [] {
      DoKeepsOk(a, acts[0]);
      assert acts[0] in acts && forall act | act in acts[1..] :: act in acts;
      PlaceStaysOnce(a, acts[0], t, c);
      PlaceStays(Do(a, acts[0]), acts[1..], t, c);
    }
  }

  // ---------------------------------------------------------------- who acts

  /** In `s`, `actor` operates the channel that `id` is in. */
  ghost predicate Operates(s: State, actor: Id, id: Id) {
    exists c :: IsMember(s, c, id) && IsMember(s, c, actor) && s.rooms[c].members[actor].isOperator
  }

  /** An act is the work of the event: of its sender, which operates the channel when it
      acts on somebody else, or of the loop that clears a closed connection. */
  ghost predicate Authorised(s: State, e: Event, act: Act) {
    match act
    case Enter(id, _) => e.Sends? && e.id == id
    case SetMute(actor, id, _) => e.Sends? && e.id == actor && Operates(s, actor, id)
    case Leave(actor, id, _) =>
      || (e.Sends? && e.id == actor && (actor == id || Operates(s, actor, id)))
      || (e.IsReaped? && e.id == actor == id && id in s.peers && !s.peers[id].connected)
  }

  predicate NeedsNoAuthority(o: Outcome, id: Id) {
    o.Ok? ==> forall act | act in o.acts :: (act.Enter? && act.id == id) || (act.Leave? && act.actor == act.id == id)
  }

  lemma OwnActs(s: State, id: Id, ps: seq<string>, pick: Id)
    requires Inv(s) && id in s.infos
    ensures NeedsNoAuthority(HandleJoin(s, id, ps, pick), id)
    ensures NeedsNoAuthority(HandleQuit(s, id, ps, pick), id)
    ensures HandlePrivmsg(s, id, ps).Ok? ==> HandlePrivmsg(s, id, ps).acts == []
  {
  }

  ghost predicate OperatorActs(s: State, o: Outcome, id: Id) {
    o.Ok? ==> forall act | act in o.acts :: !act.Enter? && act.actor == id && Operates(s, id, act.id)
  }

  lemma ModeActs(s: State, id: Id, ps: seq<string>)
    requires Inv(s) && id in s.infos
    ensures OperatorActs(s, HandleMode(s, id, ps), id)
  {
    var o := HandleMode(s, id, ps);
    if o.Ok? && o.acts != [] {
      var c, t := GetChanName(ps[0], s.infos[id]).value, FindNick(s.infos, ps[2]).value;
      assert IsMember(s, c, t) && IsMember(s, c, id);
      assert Operates(s, id, t);
    }
  }

  lemma KickActs(s: State, id: Id, ps: seq<string>, pick: Id)
    requires Inv(s) && id in s.infos
    ensures OperatorActs(s, HandleKick(s, id, ps, pick), id)
  {
    var o := HandleKick(s, id, ps, pick);
    if o.Ok? && o.acts != [] {
      var c, t := GetChanName(ps[0], s.infos[id]).value, FindNick(s.infos, ps[1]).value;
      assert IsMember(s, c, t) && IsMember(s, c, id);
      assert Operates(s, id, t);
    }
  }

  lemma CommandAuthority(s: State, id: Id, cmd: Command, ps: seq<string>, pick: Id)
    requires Inv(s) && id in s.infos
    ensures NeedsNoAuthority(HandleCommand(s, id, cmd, ps, pick), id)
            || OperatorActs(s, HandleCommand(s, id, cmd, ps, pick), id)
  {
    match cmd
    case Join => OwnActs(s, id, ps, pick);
    case Quit => OwnActs(s, id, ps, pick);
    case Mode => ModeActs(s, id, ps);
    case Kick => KickActs(s, id, ps, pick);
    case Privmsg => OwnActs(s, id, ps, pick);
    case _ =>
  }

  /** Authority: nobody but the operator of a channel mutes, unmutes or removes another. */
  lemma StepAuthority(s: State, e: Event)
    requires Inv(s) && Enabled(s, e) && Step(s, e).Ok?
    ensures forall act | act in Step(s, e).acts :: Authorised(s, e, act)
  {
    if e.Sends? && Decode(e.text).Parsed? && Decode(e.text).msg.verb.Cmd? {
      var m := Decode(e.text).msg;
      CommandAuthority(s, e.id, m.verb.cmd, m.params, e.pick);
    }
  }

  ghost predicate IsOperator(s: State, c: string, id: Id) {
    IsMember(s, c, id) && s.rooms[c].members[id].isOperator
  }

  /** What a member loses, it loses by its own doing or by its operator's: who is not in
      `c` after a step was sending, cleared, or removed by the operator of `c`; and a mute
      flag changes by the operator's message, or by the member's own move. */
  lemma StepTakesOnlyByRight(s: State, e: Event, c: string, x: Id)
    requires Inv(s) && Enabled(s, e) && Step(s, e).Ok? && IsMember(s, c, x)
    ensures var t := Step(s, e).state;
            !IsMember(t, c, x) || (IsMuted(t, c, x) != IsMuted(s, c, x)) ==>
              || (e.Sends? && (e.id == x || IsOperator(s, c, e.id)))
              || (e.IsReaped? && e.id == x)
  {
    ModelOk(s, Model(s));
    StepFollows(s, Model(s), e);
    StepAuthority(s, e);
    LosesByRight(s, Model(s), Step(s, e), e, c, x);
  }

  lemma LosesByRight(s: State, a: Rooms, o: Outcome, e: Event, c: string, x: Id)
    requires Inv(s) && Shows(s, a) && RoomsOk(a) && Follows(s, a, o) && IsMember(s, c, x)
    requires forall act | act in o.acts :: Authorised(s, e, act)
    ensures !IsMember(o.state, c, x) || (IsMuted(o.state, c, x) != IsMuted(s, c, x)) ==>
              || (e.Sends? && (e.id == x || IsOperator(s, c, e.id)))
              || (e.IsReaped? && e.id == x)
  {
    assert HasJoined(s, c, x);
    assert In(a, x, c);
    if act :| act in o.acts && Touches(act, x) {
      assert Authorised(s, e, act);
      if e.Sends? && e.id != x {
        OperatesHere(s, e.id, x, c);
      }
    } else {
      StaysSame(s, a, o, c, x);
    }
  }

  lemma StaysSame(s: State, a: Rooms, o: Outcome, c: string, x: Id)
    requires Inv(s) && Shows(s, a) && RoomsOk(a) && Follows(s, a, o) && In(a, x, c)
    requires forall act | act in o.acts :: !Touches(act, x)
    ensures IsMember(o.state, c, x) && (IsMuted(o.state, c, x) <==> IsMuted(s, c, x))
  {
    PlaceStays(a, o.acts, x, c);
    var b := DoAll(a, o.acts);
    assert In(b, x, c);
    assert HasJoined(o.state, c, x);
    assert IsMember(o.state, c, x);
    assert IsMuted(s, a.room[x], x) <==> IsMuted(o.state, b.room[x], x);
  }

  lemma OperatesHere(s: State, actor: Id, x: Id, c: string)
    requires Inv(s) && IsMember(s, c, x) && Operates(s, actor, x)
    ensures IsOperator(s, c, actor)
  {
    var d :| IsMember(s, d, x) && IsMember(s, d, actor) && s.rooms[d].members[actor].isOperator;
    assert HasJoined(s, c, x) && HasJoined(s, d, x);
  }

  /** Continuity: over any run in which it does not leave its channel, an operator stays
      the operator and everybody nobody acts on keeps its place and its mute flag. */
  lemma OperatorContinues(s: State, es: seq<Event>, c: string, o: Id)
    requires Inv(s) && Legal(s, es) && IsOperator(s, c, o)
    requires forall act | act in Acts(s, es) :: !Moves(act, o)
    ensures IsOperator(Run(s, es), c, o)
  {
    var a := Model(s);
    ModelOk(s, a);
    RunFollows(s, a, es);
    assert HasJoined(s, c, o);
    assert In(a, o, c);
    assert IsBoss(s.rooms[c].members, a.boss[c]);
    PlaceStays(a, Acts(s, es), o, c);
    var t, b := Run(s, es), DoAll(a, Acts(s, es));
    assert In(b, o, c);
    assert HasJoined(t, c, o);
    assert IsMember(t, c, o);
    assert IsBoss(t.rooms[c].members, b.boss[c]);
  }

  lemma FlagContinues(s: State, es: seq<Event>, c: string, x: Id)
    requires Inv(s) && Legal(s, es) && IsMember(s, c, x)
    requires forall act | act in Acts(s, es) :: !Touches(act, x)
    ensures IsMember(Run(s, es), c, x) && (IsMuted(Run(s, es), c, x) <==> IsMuted(s, c, x))
  {
    var a := Model(s);
    ModelOk(s, a);
    RunFollows(s, a, es);
    assert HasJoined(s, c, x);
    assert In(a, x, c);
    PlaceStays(a, Acts(s, es), x, c);
    var t, b := Run(s, es), DoAll(a, Acts(s, es));
    assert In(b, x, c);
    assert HasJoined(t, c, x);
    assert IsMember(t, c, x);
    assert IsMuted(t, b.room[x], x) <==> IsMuted(s, a.room[x], x);
  }

  // ---------------------------------------------------------------- mute

  /** The messages a connection was sent through channels. */
  function Shared(log: seq<Posted>): seq<Message> {
    if log == [] then []
    else Shared(log[..|log| - 1]) + if log[|log| - 1].shared then [log[|log| - 1].m] else []
  }

  lemma SharedSnoc(log: seq<Posted>, p: Posted)
    ensures Shared(log + [p]) == Shared(log) + if p.shared then [p.m] else []
  {
    assert (log + [p])[..|log|] == log;
  }

  predicate IsPrivmsg(text: string) {
    Decode(text).Parsed? && Decode(text).msg.verb == Cmd(Privmsg)
  }

  /** The event is a `PRIVMSG` from `t` that some connection receives from a channel. */
  ghost predicate Speaks(s: State, e: Event, t: Id)
    requires Enabled(s, e)
  {
    && e.Sends? && e.id == t && IsPrivmsg(e.text)
    && Step(s, e).Ok?
    && exists x :: x in s.peers && x in Step(s, e).state.peers
                   && Shared(Step(s, e).state.peers[x].log) != Shared(s.peers[x].log)
  }

  /** No connection hears anything from a channel between `s` and `t`. */
  ghost predicate NothingShared(s: State, t: State) {
    forall x | x in s.peers && x in t.peers :: Shared(t.peers[x].log) == Shared(s.peers[x].log)
  }

  lemma ReplySharesNothing(s: State, id: Id, m: Message)
    requires id in s.peers
    ensures NothingShared(s, Reply(s, id, m))
  {
    SharedSnoc(s.peers[id].log, Posted(m, false));
  }

  lemma MutedPrivmsg(s: State, c: string, t: Id, ps: seq<string>)
    requires Inv(s) && IsMuted(s, c, t) && t in s.infos && t in s.peers
    ensures HandlePrivmsg(s, t, ps).Ok? ==> NothingShared(s, HandlePrivmsg(s, t, ps).state)
  {
    assert HasJoined(s, c, t);
    if |ps| < 2 {
      ReplySharesNothing(s, t, NeedMoreParams(Privmsg));
    } else {
      MutedSpeech(s, c, t, ps);
    }
  }

  lemma MutedSpeech(s: State, c: string, t: Id, ps: seq<string>)
    requires Inv(s) && IsMuted(s, c, t) && HasJoined(s, c, t) && t in s.peers && |ps| >= 2
    ensures HandlePrivmsg(s, t, ps).Ok? ==> NothingShared(s, HandlePrivmsg(s, t, ps).state)
  {
    var name := GetChanName(ps[0], s.infos[t]).value;
    if name !in s.rooms {
      ReplySharesNothing(s, t, NO_SUCH_CHANNEL);
    } else if IsMember(s, name, t) {
      assert HasJoined(s, name, t);
      ReplySharesNothing(s, t, CANNOT_SEND_TO_CHAN);
    }
  }

  lemma PrivmsgIsHandled(s: State, t: Id, text: string, pick: Id)
    requires t in s.infos && t in s.peers && s.infos[t].state == RegisteredUser && IsPrivmsg(text)
    ensures HandleMessage(s, t, text, pick) == HandlePrivmsg(s, t, Decode(text).msg.params)
  {
  }

  lemma MutedIsSilent(s: State, e: Event, c: string, t: Id)
    requires Inv(s) && Enabled(s, e) && IsMuted(s, c, t)
    ensures !Speaks(s, e, t)
  {
    if e.Sends? && e.id == t && IsPrivmsg(e.text) {
      assert HasJoined(s, c, t);
      PrivmsgIsHandled(s, t, e.text, e.pick);
      MutedPrivmsg(s, c, t, Decode(e.text).msg.params);
      NotSpoken(s, e, t);
    }
  }

  lemma NotSpoken(s: State, e: Event, t: Id)
    requires Enabled(s, e) && (Step(s, e).Ok? ==> NothingShared(s, Step(s, e).state))
    ensures !Speaks(s, e, t)
  {
  }

  ghost predicate Silent(s: State, es: seq<Event>, t: Id)
    requires Legal(s, es)
    decreases |es|
  {
    es == [] || (!Speaks(s, es[0], t) && Silent(Step(s, es[0]).state, es[1..], t))
  }

  /** Mute holds over runs: while a muted member is not unmuted and does not leave, it
      stays muted and nothing it says is broadcast. */
  lemma {:induction false} MuteHolds(s: State, es: seq<Event>, c: string, t: Id)
    requires Inv(s) && Legal(s, es) && IsMuted(s, c, t)
    requires forall act | act in Acts(s, es) :: !Frees(act, t)
    ensures IsMuted(Run(s, es), c, t) && Silent(s, es, t)
    decreases |es|
  {
    if es != [] {
      var o := Step(s, es[0]);
      assert forall act | act in o.acts :: act in Acts(s, es);
      assert forall act | act in Acts(o.state, es[1..]) :: act in Acts(s, es);
      MutedIsSilent(s, es[0], c, t);
      StepFollows(s, Model(s), es[0]);
      MutedStaysOnce(s, es[0], c, t);
      MuteHolds(o.state, es[1..], c, t);
    }
  }

  lemma MutedStaysOnce(s: State, e: Event, c: string, t: Id)
    requires Inv(s) && Enabled(s, e) && Step(s, e).Ok? && IsMuted(s, c, t)
    requires forall act | act in Step(s, e).acts :: !Frees(act, t)
    ensures IsMuted(Step(s, e).state, c, t)
  {
    var a, o := Model(s), Step(s, e);
    ModelOk(s, a);
    StepFollows(s, a, e);
    assert HasJoined(s, c, t);
    assert In(a, t, c);
    PlaceStays(a, o.acts, t, c);
    var b := DoAll(a, o.acts);
    assert In(b, t, c);
    assert IsMuted(o.state, b.room[t], t);
  }

  /** `+v` unmutes and `-v` mutes, and nothing else of the state changes. */
  lemma VoiceModes(s: State, id: Id, ps: seq<string>, c: string, x: Id)
    requires Inv(s) && IsOperator(s, c, id) && IsMember(s, c, x) && id in s.peers
    requires |ps| >= 3 && (ps[0] == c || ps[0] == "---") && (Occurs("+v", ps[1]) || Occurs("-v", ps[1]))
    requires x in s.infos && s.infos[x].nick == Some(ps[2])
    ensures HandleMode(s, id, ps).Ok?
    ensures var t := HandleMode(s, id, ps).state;
            && (IsMuted(t, c, x) <==> !Occurs("+v", ps[1]))
            && t.infos == s.infos && t.peers == s.peers
            && forall d, y | y != x :: IsMuted(t, d, y) <==> IsMuted(s, d, y)
  {
    assert HasJoined(s, c, id);
    FoundNick(s, ps[2], x);
  }
}
