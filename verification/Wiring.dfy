/** The poll registry and the connections together: no wakeup is lost and none is left over. */
module Wiring {
  import opened Text
  import opened Message
  import opened Polling
  import opened Connections
  import opened Logs
  import opened SendQueue
  import opened ServerSpec

  /** What must be registered: the listener, every connected connection for input, and for
      output those that hold a send token; each with its own descriptor. */
  predicate Wanted(links: map<Id, Link>, listener: Watch, w: Watch) {
    match w.cb
    case OnAccept => w == listener
    case OnReadable(id) =>
      && id in links && links[id].connected && links[id].recvTok == Some(w.tok)
      && w.fd == links[id].fd && w.events == POLLIN
    case OnWritable(id) =>
      && id in links && links[id].connected && links[id].sendTok == Some(w.tok)
      && w.fd == links[id].fd && w.events == POLLOUT
  }

  ghost predicate Wired(r: Registry, links: map<Id, Link>, listener: Watch) {
    RegistryOk(r) && forall w :: Watching(r, w) <==> Wanted(links, listener, w)
  }

  lemma WatchRegister(r: Registry, fd: int, events: Mask, cb: Callback)
    ensures forall w :: Watching(Register(r, fd, events, cb), w) <==>
            Watching(r, w) || w == Watch(r.next, cb, fd, events)
  {
    var e := Entry(PollFd(fd, events, {}), cb, r.next);
    var s := Register(r, fd, events, cb);
    forall x
      ensures x in s.entries <==> x in r.entries || x == e
    {
    }
    assert AsWatch(e) == Watch(r.next, cb, fd, events);
  }

  lemma StillWatched(r: Registry, tok: nat, e: Entry)
    requires RegistryOk(r) && e in Unregister(r, tok).entries
    ensures e in r.entries && e.tok != tok
  {
    UnregisterSorted(r, tok);
    var s, i := Unregister(r, tok), IndexOf(r.entries, tok);
    var j :| 0 <= j < |s.entries| && s.entries[j] == e;
    assert e == r.entries[if j < i then j else j + 1];
  }

  lemma NotErased(r: Registry, tok: nat, e: Entry)
    requires RegistryOk(r) && e in r.entries && e.tok != tok
    ensures e in Unregister(r, tok).entries
  {
    UnregisterSorted(r, tok);
    var s, i := Unregister(r, tok), IndexOf(r.entries, tok);
    var m :| 0 <= m < |r.entries| && r.entries[m] == e;
    assert s.entries[if m < i then m else m - 1] == e;
  }

  lemma WatchUnregister(r: Registry, tok: nat)
    requires RegistryOk(r)
    ensures forall w :: Watching(Unregister(r, tok), w) <==> Watching(r, w) && w.tok != tok
  {
    forall e | e in Unregister(r, tok).entries {
      StillWatched(r, tok, e);
    }
    forall e | e in r.entries && e.tok != tok {
      NotErased(r, tok, e);
    }
  }

  /** A token belongs to one registration. */
  lemma WatchUnique(r: Registry, v: Watch, w: Watch)
    requires RegistryOk(r) && Watching(r, v) && Watching(r, w) && v.tok == w.tok
    ensures v == w
  {
    var e :| e in r.entries && AsWatch(e) == v;
    var f :| f in r.entries && AsWatch(f) == w;
    var i :| 0 <= i < |r.entries| && r.entries[i] == e;
    var j :| 0 <= j < |r.entries| && r.entries[j] == f;
  }

  /** Wired, except that the callbacks in `lost` are not watched any more. */
  ghost predicate WiredBut(r: Registry, links: map<Id, Link>, listener: Watch, lost: set<Callback>) {
    RegistryOk(r) && forall w :: Watching(r, w) <==> Wanted(links, listener, w) && w.cb !in lost
  }

  lemma Unwatch(r: Registry, links: map<Id, Link>, listener: Watch, lost: set<Callback>, w: Watch)
    requires WiredBut(r, links, listener, lost) && Wanted(links, listener, w) && w.cb !in lost
    ensures WiredBut(Unregister(r, w.tok), links, listener, lost + {w.cb})
  {
    UnregisterEvolves(r, w.tok);
    WatchUnregister(r, w.tok);
    forall v | Watching(r, v) && v.tok == w.tok
      ensures v.cb == w.cb
    {
      WatchUnique(r, v, w);
    }
    forall v | Wanted(links, listener, v) && v.cb == w.cb
      ensures v.tok == w.tok
    {
    }
  }

  lemma WiredAccept(r: Registry, links: map<Id, Link>, listener: Watch, id: Id, fd: int)
    requires Wired(r, links, listener) && id !in links
    ensures Wired(Register(r, fd, POLLIN, OnReadable(id)), links[id := Link(fd, true, Some(r.next), None)], listener)
  {
    RegisterEvolves(r, fd, POLLIN, OnReadable(id));
    WatchRegister(r, fd, POLLIN, OnReadable(id));
  }

  lemma WiredSend(r: Registry, links: map<Id, Link>, listener: Watch, id: Id)
    requires Wired(r, links, listener) && id in links && links[id].connected && links[id].sendTok.None?
    ensures Wired(Register(r, links[id].fd, POLLOUT, OnWritable(id)),
            links[id := links[id].(sendTok := Some(r.next))], listener)
  {
    RegisterEvolves(r, links[id].fd, POLLOUT, OnWritable(id));
    WatchRegister(r, links[id].fd, POLLOUT, OnWritable(id));
  }

  lemma AfterSend(r: Registry, links: map<Id, Link>, listener: Watch, id: Id, s: Registry, l: Link)
    requires Wired(r, links, listener) && id in links && links[id].connected
    requires l.connected && l.recvTok == links[id].recvTok && l.fd == links[id].fd
    requires if links[id].sendTok.Some? then s == r && l.sendTok == links[id].sendTok
             else s == Register(r, l.fd, POLLOUT, OnWritable(id)) && l.sendTok == Some(r.next)
    ensures Wired(s, links[id := l], listener)
  {
    SameEntry(links, id);
    if links[id].sendTok.None? {
      WiredSend(r, links, listener, id);
    }
  }

  lemma WiredDrained(r: Registry, links: map<Id, Link>, listener: Watch, id: Id)
    requires Wired(r, links, listener) && id in links && links[id].connected && links[id].sendTok.Some?
    ensures Wired(Unregister(r, links[id].sendTok.value), links[id := links[id].(sendTok := None)], listener)
  {
    Unwatch(r, links, listener, {}, Watch(links[id].sendTok.value, OnWritable(id), links[id].fd, POLLOUT));
  }

  lemma WiredDisconnect(r: Registry, links: map<Id, Link>, listener: Watch, id: Id)
    requires Wired(r, links, listener) && id in links && links[id].recvTok.Some?
    ensures Wired(Unlinked(r, links[id]), links[id := links[id].(connected := false)], listener)
  {
    var l := links[id];
    if l.connected {
      Unwatch(r, links, listener, {}, Watch(l.recvTok.value, OnReadable(id), l.fd, POLLIN));
      var s := Unregister(r, l.recvTok.value);
      if l.sendTok.Some? {
        Unwatch(s, links, listener, {} + {OnReadable(id)}, Watch(l.sendTok.value, OnWritable(id), l.fd, POLLOUT));
        WiredUnlinked(Unregister(s, l.sendTok.value), links, listener, id, {} + {OnReadable(id)} + {OnWritable(id)});
      } else {
        WiredUnlinked(s, links, listener, id, {} + {OnReadable(id)});
      }
    } else {
      SameEntry(links, id);
    }
  }

  lemma AfterRead(r: Registry, links: map<Id, Link>, listener: Watch, id: Id, gone: bool, s: Registry, l: Link)
    requires Wired(r, links, listener) && id in links && links[id].recvTok.Some?
    requires l == if gone then links[id].(connected := false) else links[id]
    requires s == if gone then Unlinked(r, links[id]) else r
    ensures Wired(s, links[id := l], listener)
  {
    SameEntry(links, id);
    if gone {
      WiredDisconnect(r, links, listener, id);
    }
  }

  lemma AfterWrite(r: Registry, links: map<Id, Link>, listener: Watch, id: Id, end: End, s: Registry, l: Link)
    requires Wired(r, links, listener) && id in links && links[id].connected && links[id].recvTok.Some?
    requires links[id].sendTok.Some?
    requires l == links[id].(connected := end != Closed, sendTok := if end == Emptied then None else links[id].sendTok)
    requires s == AfterDrain(r, links[id], end)
    ensures Wired(s, links[id := l], listener)
  {
    SameEntry(links, id);
    if end == Emptied {
      WiredDrained(r, links, listener, id);
    } else if end == Closed {
      WiredDisconnect(r, links, listener, id);
    }
  }

  lemma WiredUnlinked(r: Registry, links: map<Id, Link>, listener: Watch, id: Id, lost: set<Callback>)
    requires id in links && WiredBut(r, links, listener, lost)
    requires OnReadable(id) in lost && lost <= {OnReadable(id), OnWritable(id)}
    requires links[id].sendTok.Some? ==> OnWritable(id) in lost
    ensures Wired(r, links[id := links[id].(connected := false)], listener)
  {
    var after := links[id := links[id].(connected := false)];
    forall w
      ensures Watching(r, w) <==> Wanted(after, listener, w)
    {
      assert Watching(r, w) <==> Wanted(links, listener, w) && w.cb !in lost;
    }
  }

  lemma WiredRemove(r: Registry, links: map<Id, Link>, listener: Watch, id: Id)
    requires Wired(r, links, listener) && id in links && !links[id].connected
    ensures Wired(r, links - {id}, listener)
  {
  }

  // ---------------------------------------------------------------- what a callback removes

  ghost predicate Watches(r: Registry, cb: Callback) {
    exists e :: e in r.entries && e.cb == cb
  }

  /** The callback is one of a connection in `who`. */
  predicate OnOneOf(cb: Callback, who: set<Id>) {
    !cb.OnAccept? && cb.id in who
  }

  /** Only registrations of the connections in `who` are removed, and none of those that are
      is made again. */
  ghost predicate Sheds(r: Registry, s: Registry, who: set<Id>) {
    Evolves(r, s) && forall e | e in r.entries && e !in s.entries :: OnOneOf(e.cb, who) && !Watches(s, e.cb)
  }

  /** `Sheds`, unfolded only where it is mentioned. */
  ghost predicate HasShed(r: Registry, s: Registry, who: set<Id>) {
    forall t {:trigger Sheds(r, t, who)} | t == s :: Sheds(r, t, who)
  }

  lemma ShedNothing(r: Registry)
    requires RegistryOk(r)
    ensures HasShed(r, r, {})
  {
    EvolvesReflexive(r);
  }

  lemma ShedThen(r: Registry, s: Registry, t: Registry, who: set<Id>)
    requires HasShed(r, s, {}) && HasShed(s, t, who)
    ensures HasShed(r, t, who)
  {
    assert Sheds(r, s, {}) && Sheds(s, t, who);
    EvolvesTransitive(r, s, t);
  }

  lemma ShedAtMost(r: Registry, s: Registry, who: set<Id>, more: set<Id>)
    requires HasShed(r, s, who) && who <= more
    ensures HasShed(r, s, more)
  {
    assert Sheds(r, s, who);
  }

  lemma ShedEvolves(r: Registry, s: Registry, who: set<Id>)
    requires HasShed(r, s, who)
    ensures Evolves(r, s)
  {
    assert Sheds(r, s, who);
  }

  /** What can happen to one connection's tokens: they are given up, or the output token is
      first handed out. */
  predicate Slackens(l: Link, m: Link) {
    && m.fd == l.fd && m.recvTok == l.recvTok && (m.connected ==> l.connected)
    && (l.sendTok.Some? ==> m.sendTok.None? || m.sendTok == l.sendTok)
  }

  /** It gives up none. */
  predicate Retains(l: Link, m: Link) {
    m.connected == l.connected && (l.sendTok.Some? ==> m.sendTok == l.sendTok)
  }

  lemma LostWatch(r: Registry, s: Registry, e: Entry)
    requires RegistryOk(r) && Evolves(r, s) && e in r.entries && e !in s.entries
    ensures Watching(r, AsWatch(e)) && !Watching(s, AsWatch(e))
  {
  }

  /** A change to the tokens of `id` alone removes registrations of `id` alone. */
  lemma WiredSheds(r: Registry, links: map<Id, Link>, s: Registry, id: Id, m: Link, listener: Watch, who: set<Id>)
    requires Wired(r, links, listener) && Wired(s, links[id := m], listener) && Evolves(r, s)
    requires id in links ==> Slackens(links[id], m) && (Retains(links[id], m) || id in who)
    ensures HasShed(r, s, who)
  {
    forall e | e in r.entries && e !in s.entries
      ensures OnOneOf(e.cb, who) && !Watches(s, e.cb)
    {
      LostWatch(r, s, e);
      assert Wanted(links, listener, AsWatch(e)) && !Wanted(links[id := m], listener, AsWatch(e));
      assert e.cb.id == id;
      if Watches(s, e.cb) {
        var f :| f in s.entries && f.cb == e.cb;
        assert Watching(s, AsWatch(f));
      }
    }
  }

  // ---------------------------------------------------------------- the objects

  /** The connection objects, the registry they share, and the listener's registration. */
  datatype Net = Net(conns: map<Id, Connection>, registry: PollRegistry, listener: Watch)

  ghost function Links(conns: map<Id, Connection>): map<Id, Link>
    reads conns.Values
  {
    map id | id in conns :: conns[id].View()
  }

  ghost function Peers(conns: map<Id, Connection>): map<Id, Peer>
    reads conns.Values
  {
    map id | id in conns :: Peer(conns[id].connected, conns[id].log)
  }

  ghost function Inputs(conns: map<Id, Connection>): map<Id, Intake>
    reads conns.Values
  {
    map id | id in conns :: conns[id].Input()
  }

  function PortsOf(inputs: map<Id, Intake>): map<Id, Port> {
    map id | id in inputs :: PortOf(inputs[id])
  }

  lemma PortsWith(inputs: map<Id, Intake>, id: Id, i: Intake)
    ensures PortsOf(inputs[id := i]) == PortsOf(inputs)[id := PortOf(i)]
  {
  }

  lemma PortsWithout(inputs: map<Id, Intake>, id: Id)
    ensures PortsOf(inputs - {id}) == PortsOf(inputs) - {id}
  {
  }

  ghost predicate ConnsOk(conns: map<Id, Connection>, registry: PollRegistry)
    reads conns.Values
  {
    && (forall id | id in conns :: conns[id].id == id && conns[id].registry == registry)
    && (forall id {:trigger conns[id].Valid()} | id in conns :: conns[id].Valid())
  }

  ghost predicate NetOk(net: Net)
    reads net.registry, net.conns.Values
  {
    && net.registry.Valid()
    && ConnsOk(net.conns, net.registry)
    && Wired(net.registry.view, Links(net.conns), net.listener)
  }

  /** What the rest sees of a change to one connection. */
  twostate lemma OneChanged(new conns: map<Id, Connection>, id: Id)
    requires old(allocated(conns))
    requires id in conns
    requires forall x | x in conns && x != id :: unchanged(conns[x])
    ensures Links(conns) == old(Links(conns))[id := conns[id].View()]
    ensures Peers(conns) == old(Peers(conns))[id := Peer(conns[id].connected, conns[id].log)]
    ensures Inputs(conns) == old(Inputs(conns))[id := conns[id].Input()]
  {
  }

  twostate lemma ConnsKept(new conns: map<Id, Connection>, new registry: PollRegistry)
    requires old(allocated(conns)) && old(allocated(registry))
    requires forall id | id in conns :: unchanged(conns[id])
    ensures Links(conns) == old(Links(conns)) && Peers(conns) == old(Peers(conns))
    ensures Inputs(conns) == old(Inputs(conns))
    ensures old(ConnsOk(conns, registry)) ==> ConnsOk(conns, registry)
  {
  }

  twostate lemma NoneChanged(new net: Net)
    requires old(allocated(net))
    requires forall id | id in net.conns :: unchanged(net.conns[id])
    requires unchanged(net.registry)
    ensures Peers(net.conns) == old(Peers(net.conns)) && Inputs(net.conns) == old(Inputs(net.conns))
    ensures old(NetOk(net)) ==> NetOk(net)
  {
    ConnsKept(net.conns, net.registry);
  }

  /** `send_message` on a connected connection of the net; `text` is `m`, printed. */
  method Send(conn: Connection, text: string, ghost m: Message, ghost id: Id, ghost shared: bool, ghost net: Net)
    requires NetOk(net) && id in net.conns && net.conns[id] == conn && conn.connected && text == Encode(m)
    modifies net.conns.Values, net.registry
    ensures NetOk(net) && HasShed(old(net.registry.view), net.registry.view, {})
    ensures Inputs(net.conns) == old(Inputs(net.conns))
    ensures Peers(net.conns) == PostedTo(old(Peers(net.conns)), id, m, shared)
  {
    ghost var links, inputs, r := Links(net.conns), Inputs(net.conns), net.registry.view;
    Ours(net, id);
    conn.SendText(text, m, shared);
    assert ConnsOk(net.conns, net.registry);
    OneChanged(net.conns, id);
    SameEntry(inputs, id);
    AfterSend(r, links, net.listener, conn.id, net.registry.view, conn.View());
    WiredSheds(r, links, net.registry.view, id, conn.View(), net.listener, {});
  }

  method HangUp(conn: Connection, ghost id: Id, ghost net: Net)
    requires NetOk(net) && id in net.conns && net.conns[id] == conn
    modifies net.conns.Values, net.registry
    ensures NetOk(net) && HasShed(old(net.registry.view), net.registry.view, {id})
    ensures Inputs(net.conns) == old(Inputs(net.conns))
    ensures Peers(net.conns) == ClosedAt(old(Peers(net.conns)), id)
  {
    ghost var links, inputs, r := Links(net.conns), Inputs(net.conns), net.registry.view;
    Ours(net, id);
    conn.Disconnect();
    assert ConnsOk(net.conns, net.registry);
    OneChanged(net.conns, id);
    SameEntry(inputs, id);
    WiredDisconnect(r, links, net.listener, conn.id);
    WiredSheds(r, links, net.registry.view, id, conn.View(), net.listener, {id});
  }

  lemma Ours(net: Net, id: Id)
    requires NetOk(net) && id in net.conns
    ensures net.conns[id] in net.conns.Values && net.conns[id].Valid()
    ensures net.conns[id].id == id && net.conns[id].registry == net.registry
  {
  }

  /** A read on a connection of the net: `Receive`. */
  method Read(conn: Connection, r: RecvResult, ghost id: Id, ghost net: Net)
    returns (msg: Option<string>, msgEnd: nat, threw: bool)
    requires NetOk(net) && id in net.conns && net.conns[id] == conn && conn.connected
    requires r.Data? ==> 0 < |r.bytes| <= BUF_SIZE
    modifies net.conns.Values, net.registry
    ensures NetOk(net)
    ensures HasShed(old(net.registry.view), net.registry.view, if r.EndOfStream? then {id} else {})
    ensures Peers(net.conns) == if r.EndOfStream? then ClosedAt(old(Peers(net.conns)), id) else old(Peers(net.conns))
    ensures threw == r.RecvFailed? && conn.connected == !r.EndOfStream?
    ensures Received(Reading(old(conn.Input()), r, conn.Input(), msg, msgEnd))
    ensures Inputs(net.conns) == old(Inputs(net.conns))[id := conn.Input()]
  {
    ghost var links, peers, reg := Links(net.conns), Peers(net.conns), net.registry.view;
    Ours(net, id);
    msg, msgEnd, threw := conn.Receive(r);
    assert ConnsOk(net.conns, net.registry);
    OneChanged(net.conns, id);
    SameEntry(peers, id);
    AfterRead(reg, links, net.listener, id, r.EndOfStream?, net.registry.view, conn.View());
    WiredSheds(reg, links, net.registry.view, id, conn.View(), net.listener, if r.EndOfStream? then {id} else {});
  }

  /** The handled message leaves the buffer: `Compact`. */
  method Trim(conn: Connection, msgEnd: nat, ghost id: Id, ghost net: Net)
    requires NetOk(net) && id in net.conns && net.conns[id] == conn && msgEnd < |conn.Live()|
    modifies net.conns.Values
    ensures NetOk(net) && Peers(net.conns) == old(Peers(net.conns))
    ensures Trimmed(old(conn.Input()), msgEnd, conn.Input())
    ensures Inputs(net.conns) == old(Inputs(net.conns))[id := conn.Input()]
  {
    ghost var links := Links(net.conns);
    Ours(net, id);
    conn.Compact(msgEnd);
    assert ConnsOk(net.conns, net.registry);
    OneChanged(net.conns, id);
    SameEntry(links, id);
  }

  /** A connection of the net is ready for output: `PollSend`. */
  method Write(conn: Connection, answers: nat -> SendResult, ghost id: Id, ghost net: Net) returns (threw: bool)
    requires NetOk(net) && id in net.conns && net.conns[id] == conn && conn.connected && conn.sendTok.Some?
    modifies net.conns.Values, net.registry
    ensures NetOk(net) && HasShed(old(net.registry.view), net.registry.view, {id})
    ensures var d := Drain(old(conn.Snd()), answers, 0);
            var taken := Sent(old(conn.Output()), old(conn.Snd()), d);
            && threw == (d.end == Threw)
            && Inputs(net.conns) == old(Inputs(net.conns))[id := old(conn.Input()).(taken := taken)]
            && Peers(net.conns)
               == if d.end == Closed then ClosedAt(old(Peers(net.conns)), id) else old(Peers(net.conns))
  {
    ghost var links, peers, reg, end :=
        Links(net.conns), Peers(net.conns), net.registry.view, Drain(conn.Snd(), answers, 0).end;
    Ours(net, id);
    threw := conn.PollSend(answers);
    assert ConnsOk(net.conns, net.registry);
    OneChanged(net.conns, id);
    SameEntry(peers, id);
    AfterWrite(reg, links, net.listener, id, end, net.registry.view, conn.View());
    WiredSheds(reg, links, net.registry.view, id, conn.View(), net.listener, {id});
  }

  /** A connection accepted under a new id. */
  method Open(fd: int, id: Id, ghost net: Net, registry: PollRegistry) returns (conn: Connection)
    requires NetOk(net) && id !in net.conns && registry == net.registry
    modifies registry
    ensures fresh(conn) && NetOk(net.(conns := net.conns[id := conn]))
    ensures Peers(net.conns[id := conn]) == old(Peers(net.conns))[id := Peer(true, [])]
    ensures PortsOf(Inputs(net.conns[id := conn])) == PortsOf(old(Inputs(net.conns)))[id := NEW_PORT]
    ensures HasShed(old(registry.view), registry.view, {})
  {
    ghost var links, r := Links(net.conns), registry.view;
    conn := new Connection(fd, id, registry);
    WiredAccept(r, links, net.listener, id, fd);
    ConnsKept(net.conns, registry);
    OneMore(net.conns, id, conn, registry);
    WiredSheds(r, links, registry.view, id, conn.View(), net.listener, {});
    PortsWith(Inputs(net.conns), id, conn.Input());
  }

  lemma OneMore(conns: map<Id, Connection>, id: Id, conn: Connection, registry: PollRegistry)
    requires ConnsOk(conns, registry) && id !in conns && conn.id == id && conn.registry == registry && conn.Valid()
    ensures ConnsOk(conns[id := conn], registry)
    ensures Links(conns[id := conn]) == Links(conns)[id := conn.View()]
    ensures Peers(conns[id := conn]) == Peers(conns)[id := Peer(conn.connected, conn.log)]
    ensures Inputs(conns[id := conn]) == Inputs(conns)[id := conn.Input()]
  {
  }

  /** The destructor: the connection is closed already, so nothing is watched for it. */
  lemma Forgotten(net: Net, id: Id)
    requires NetOk(net) && id in net.conns && !net.conns[id].connected
    ensures NetOk(net.(conns := net.conns - {id}))
    ensures Peers(net.conns - {id}) == Peers(net.conns) - {id}
    ensures Inputs(net.conns - {id}) == Inputs(net.conns) - {id}
  {
    WiredRemove(net.registry.view, Links(net.conns), net.listener, id);
    assert Links(net.conns - {id}) == Links(net.conns) - {id};
  }

  lemma WiredPolled(r: Registry, revents: nat -> Mask, links: map<Id, Link>, listener: Watch)
    requires Wired(r, links, listener)
    ensures Wired(Polled(r, revents), links, listener)
  {
    var s := Polled(r, revents);
    forall w
      ensures Watching(s, w) <==> Watching(r, w)
    {
      if Watching(r, w) {
        var e :| e in r.entries && AsWatch(e) == w;
        var i :| 0 <= i < |r.entries| && r.entries[i] == e;
        assert s.entries[i] in s.entries;
      }
      if Watching(s, w) {
        var e :| e in s.entries && AsWatch(e) == w;
        var i :| 0 <= i < |s.entries| && s.entries[i] == e;
        assert AsWatch(r.entries[i]) == w;
      }
    }
  }

  /** A callback that is called has a live, connected target. */
  lemma CalledIsLive(net: Net, i: nat)
    requires NetOk(net) && i < |net.registry.view.entries|
    ensures match net.registry.view.entries[i].cb
            case OnAccept => true
            case OnReadable(id) => id in net.conns && net.conns[id].connected
            case OnWritable(id) => id in net.conns && net.conns[id].connected && net.conns[id].sendTok.Some?
  {
    var e := net.registry.view.entries[i];
    assert Watching(net.registry.view, AsWatch(e));
    assert Wanted(Links(net.conns), net.listener, AsWatch(e));
  }

  /** No callback is registered twice. */
  ghost predicate OneEach(r: Registry) {
    forall e, f | e in r.entries && f in r.entries && e.cb == f.cb :: e == f
  }

  lemma WiredOneEach(net: Net)
    requires NetOk(net)
    ensures OneEach(net.registry.view)
  {
    var r := net.registry.view;
    forall e, f | e in r.entries && f in r.entries && e.cb == f.cb
      ensures e == f
    {
      assert Watching(r, AsWatch(e)) && Watching(r, AsWatch(f));
      assert Wanted(Links(net.conns), net.listener, AsWatch(e)) && Wanted(Links(net.conns), net.listener, AsWatch(f));
      assert e.tok == f.tok;
    }
  }

  // ---------------------------------------------------------------- what was removed

  /** The registrations of `r` that are gone from `s`. */
  ghost function Lost(r: Registry, s: Registry): set<Watch> {
    set e | e in r.entries && e !in s.entries :: AsWatch(e)
  }

  function WatchToks(ws: set<Watch>): set<nat> {
    set w | w in ws :: w.tok
  }

  lemma LostToks(r: Registry, s: Registry)
    requires RegistryOk(r) && Evolves(r, s)
    ensures WatchToks(Lost(r, s)) == Toks(r) - Toks(s)
  {
    forall t | t in Toks(r) - Toks(s)
      ensures t in WatchToks(Lost(r, s))
    {
      var e :| e in r.entries && e.tok == t;
      assert AsWatch(e) in Lost(r, s);
    }
    forall w | w in Lost(r, s)
      ensures w.tok in Toks(r) && w.tok !in Toks(s)
    {
      var e :| e in r.entries && e !in s.entries && AsWatch(e) == w;
      if w.tok in Toks(s) {
        var f :| f in s.entries && f.tok == w.tok;
        LostOnce(r, e, f);
      }
    }
  }

  lemma LostOnce(r: Registry, e: Entry, f: Entry)
    requires RegistryOk(r) && e in r.entries && f.tok == e.tok && (f.tok < r.next ==> f in r.entries)
    ensures e == f
  {
    var i :| 0 <= i < |r.entries| && r.entries[i] == e;
    var j :| 0 <= j < |r.entries| && r.entries[j] == f;
  }

  /** What a callback removes: registrations of its own connection, at most two. */
  ghost predicate OwnDrops(ws: set<Watch>, who: set<Id>) {
    |ws| <= 2 * |who| && forall w | w in ws :: OnOneOf(w.cb, who)
  }

  lemma LostAreOwn(r: Registry, s: Registry, who: set<Id>)
    requires OneEach(r) && HasShed(r, s, who) && |who| <= 1
    ensures OwnDrops(Lost(r, s), who)
  {
    assert Sheds(r, s, who);
    var ws := Lost(r, s);
    if ws != {} {
      var w :| w in ws;
      var id := w.cb.id;
      OneOnly(who, id);
      var cbs := set v | v in ws :: v.cb;
      forall u, v | u in ws && v in ws && u.cb == v.cb
        ensures u == v
      {
        var e :| e in r.entries && AsWatch(e) == u;
        var f :| f in r.entries && AsWatch(f) == v;
      }
      SameSize(ws, cbs);
      assert cbs <= {OnReadable(id), OnWritable(id)};
      FewerCallbacks(cbs, {OnReadable(id), OnWritable(id)});
    }
  }

  lemma OneOnly(who: set<Id>, id: Id)
    requires id in who && |who| <= 1
    ensures who == {id} && |who| == 1
  {
    assert |who - {id}| == |who| - 1;
  }

  lemma {:induction false} FewerCallbacks(a: set<Callback>, b: set<Callback>)
    requires a <= b
    ensures |a| <= |b|
  {
    if x :| x in a {
      FewerCallbacks(a - {x}, b - {x});
    }
  }

  /** Registrations with different callbacks are as many as their callbacks. */
  lemma {:induction false} SameSize(ws: set<Watch>, cbs: set<Callback>)
    requires forall u, v | u in ws && v in ws && u.cb == v.cb :: u == v
    requires cbs == set w | w in ws :: w.cb
    ensures |ws| == |cbs|
    decreases |ws|
  {
    if ws == {} {
      assert cbs == {};
    } else {
      var w :| w in ws;
      var rest := ws - {w};
      assert cbs - {w.cb} == set v | v in rest :: v.cb;
      SameSize(rest, cbs - {w.cb});
    }
  }

  twostate lemma InputKept(new conns: map<Id, Connection>, id: Id)
    requires old(allocated(conns))
    requires id in conns && Inputs(conns) == old(Inputs(conns))
    ensures conns[id].Input() == old(conns[id].Input())
  {
    assert Inputs(conns)[id] == old(Inputs(conns))[id];
  }
}
