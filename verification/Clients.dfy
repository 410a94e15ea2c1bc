/** `TcpClient` itself: its connector and its connection objects share one loop with a real `Epoller`.

    Methods return false where an assert of the source would stop the program. In the last two sections
    the client is driven from outside; false there means also that a destroyed connection is registered. */
module Clients {
  import opened Channels
  import opened Connectors
  import opened LiveConnections
  import opened Loops
  import opened Pollers
  import ConnectionOutput
  import ConnectorSteps
  import EpollSet
  import Registry
  import Steps = ClientSteps

  /** The connection object is what the state says of it; until it is destroyed the poller has its channel,
      which is not the connector's. */
  ghost predicate Matches(id: nat, c: Connection, l: Steps.Life, channels: map<nat, Channel>,
                          registry: Registry.Interests, connecting: Channel?)
    reads c, c.channel
  {
    && c.id == id == c.channel.holder && c.channel != connecting
    && c.state == l.state && c.ups == l.ups && c.downs == l.downs && c.channel.events == l.mask
    && (if l.added then Carried(c.channel, channels, registry) else c.channel.index == Epoller.NEW)
    && (l.added || l.state == ConnectionOutput.Disconnected)
  }

  ghost predicate Inside(c: Connection, repr: set<object>) { c in repr && c.channel in repr }

  ghost predicate Within(conns: map<nat, Connection>, repr: set<object>) {
    forall id {:trigger Inside(conns[id], repr)} :: id in conns ==> Inside(conns[id], repr)
  }

  ghost predicate MatchAll(
      conns: map<nat, Connection>, repr: set<object>, lives: map<nat, Steps.Life>, except: set<nat>,
      channels: map<nat, Channel>, registry: Registry.Interests, connecting: Channel?)
    requires lives.Keys <= conns.Keys && Within(conns, repr)
    reads repr
  {
    forall id {:trigger Matches(id, conns[id], lives[id], channels, registry, connecting)} ::
      id in lives && id !in except && Inside(conns[id], repr) ==>
        Matches(id, conns[id], lives[id], channels, registry, connecting)
  }

  /** It stays so if the poller keeps what it has but for the connector's channel, which may be replaced. */
  lemma {:induction false} KeptMatchAll(
      conns: map<nat, Connection>, repr: set<object>, lives: map<nat, Steps.Life>, except: set<nat>,
      channels: map<nat, Channel>, registry: Registry.Interests, connecting: Channel?, skip: Channel?,
      after: map<nat, Channel>, wanted: Registry.Interests, latest: Channel?)
    requires lives.Keys <= conns.Keys && Within(conns, repr)
    requires MatchAll(conns, repr, lives, except, channels, registry, connecting)
    requires Kept(channels, registry, skip, after, wanted)
    requires skip in {null, connecting}
    requires latest in {null, connecting} || forall id :: id in lives ==> conns[id].channel != latest
    ensures MatchAll(conns, repr, lives, except, after, wanted, latest)
  {
    forall id | id in lives && id !in except
      ensures Matches(id, conns[id], lives[id], after, wanted, latest)
    {
      assert Inside(conns[id], repr);
      assert Matches(id, conns[id], lives[id], channels, registry, connecting);
    }
  }

  lemma {:induction false} ExtendedMatchAll(
      conns: map<nat, Connection>, repr: set<object>, c: Connection, lives: map<nat, Steps.Life>, l: Steps.Life,
      channels: map<nat, Channel>, registry: Registry.Interests, connecting: Channel?)
    requires lives.Keys == conns.Keys && c.id !in conns && Within(conns, repr)
    requires MatchAll(conns, repr, lives, {}, channels, registry, connecting)
    requires Matches(c.id, c, l, channels, registry, connecting)
    ensures Within(conns[c.id := c], repr + {c, c.channel})
    ensures MatchAll(conns[c.id := c], repr + {c, c.channel}, lives[c.id := l], {}, channels, registry, connecting)
  {
    var after := conns[c.id := c];
    forall id | id in after
      ensures Inside(after[id], repr + {c, c.channel})
    {
      assert id != c.id ==> Inside(conns[id], repr);
    }
    forall id | id in lives
      ensures Matches(id, conns[id], lives[id], channels, registry, connecting)
    {
      assert Inside(conns[id], repr);
    }
  }

  /** The channel is the connector's or a connection's. */
  ghost predicate Ours(channel: Channel, conns: map<nat, Connection>, connecting: Channel?) {
    channel == connecting || (channel.holder in conns && conns[channel.holder].channel == channel)
  }

  ghost predicate Owned(conns: map<nat, Connection>, channels: map<nat, Channel>, connecting: Channel?) {
    forall fd {:trigger Ours(channels[fd], conns, connecting)} :: fd in channels ==>
      Ours(channels[fd], conns, connecting)
  }

  lemma {:induction false} OwnedAfter(conns: map<nat, Connection>, channels: map<nat, Channel>, gone: Channel?,
                                      after: map<nat, Channel>, latest: Channel?)
    requires Owned(conns, channels, gone) && AddsOnly(channels, gone, after, latest)
    ensures Owned(conns, after, latest)
  {
    forall fd | fd in after
      ensures Ours(after[fd], conns, latest)
    {
      assert fd in channels ==> Ours(channels[fd], conns, gone);
    }
  }

  lemma {:induction false} OwnedUpdate(conns: map<nat, Connection>, channels: map<nat, Channel>,
                                       connecting: Channel?, id: nat)
    requires Owned(conns, channels, connecting) && id in conns && conns[id].channel.holder == id
    ensures Owned(conns, channels[conns[id].channel.fd := conns[id].channel], connecting)
  {
    forall fd | fd in channels
      ensures Ours(channels[fd], conns, connecting)
    {
    }
  }

  lemma {:induction false} OwnedExtend(conns: map<nat, Connection>, channels: map<nat, Channel>,
                                       connecting: Channel?, c: Connection)
    requires Owned(conns, channels, connecting) && c.id == c.channel.holder && c.id !in conns
    ensures Owned(conns[c.id := c], channels[c.channel.fd := c.channel], connecting)
  {
    forall fd | fd in channels
      ensures Ours(channels[fd], conns[c.id := c], connecting)
    {
      assert Ours(channels[fd], conns, connecting);
    }
  }

  /** `connection_` */
  ghost predicate Current(conn: Connection?, conns: map<nat, Connection>, current: Steps.Option<nat>) {
    match current
    case None => conn == null
    case Some(id) => conn != null && id in conns && conn == conns[id]
  }

  class TcpClient {
    const loop: Loop
    const connector: Connector
    var retry: bool
    var wants: bool
    /** `connection_` */
    var conn: Connection?
    /** Every connection made, by number. */
    var conns: map<nat, Connection>
    var nextConnId: nat
    ghost var started: bool
    /** The connection objects and their channels. */
    ghost var repr: set<object>

    /** The fields, the objects and the poller are what `c` says. */
    ghost predicate Fits(c: Steps.Client)
      reads this, repr, connector, connector.channel, loop, loop.poller
      reads loop.poller.channels.Values`index
    {
      && connector.loop == loop && connector.Fits(c.cn) && !c.cn.handling
      && retry == c.retry && wants == c.wants && started == c.started && nextConnId == c.nextId
      && conns.Keys == c.lives.Keys && (forall id :: id in c.lives ==> id < c.nextId)
      && Within(conns, repr) && this !in repr
      && Current(conn, conns, c.conn)
      && MatchAll(conns, repr, c.lives, {}, loop.poller.channels, loop.registry, connector.channel)
      && Owned(conns, loop.poller.channels, connector.channel)
    }

    /** The connecting channel is the old one, gone, or a new one. */
    twostate predicate Renewed()
      reads connector
    {
      connector.channel == old(connector.channel) || connector.channel == null || fresh(connector.channel)
    }

    /** No object is used but old and new ones. */
    twostate predicate Grown()
      reads this, connector
    {
      Renewed() && fresh(repr - old(repr))
    }

    /** No object is used but the old ones and those of the current connection, which is new. */
    twostate predicate Joined()
      reads this, connector
    {
      && connector.channel == old(connector.channel)
      && (repr == old(repr) || (
            conn != null && fresh(conn) && fresh(conn.channel) && repr == old(repr) + {conn, conn.channel}))
    }

    constructor ()
      ensures Fits(Steps.INITIAL) && fresh(loop) && fresh(loop.poller) && fresh(connector)
    {
      var l := new Loop();
      loop := l;
      connector := new Connector(l);
      retry, wants, conn, conns, nextConnId, started := false, true, null, map[], 1, false;
      repr := {};
    }

    // ---------------------------------------------------------------- the connector at work

    /** The connector's work, done to what the poller had before, spares the connections. */
    lemma {:induction false} SparedFits(c: Steps.Client, cn: ConnectorSteps.Connector, channels: map<nat, Channel>,
                                        registry: Registry.Interests, connecting: Channel?)
      requires connector.loop == loop && connector.Fits(cn) && !cn.handling
      requires retry == c.retry && wants == c.wants && started == c.started && nextConnId == c.nextId
      requires conns.Keys == c.lives.Keys && (forall id :: id in c.lives ==> id < c.nextId)
      requires Within(conns, repr) && this !in repr
      requires Current(conn, conns, c.conn)
      requires MatchAll(conns, repr, c.lives, {}, channels, registry, connecting)
      requires Owned(conns, channels, connecting)
      requires Kept(channels, registry, connecting, loop.poller.channels, loop.registry)
      requires AddsOnly(channels, connecting, loop.poller.channels, connector.channel)
      requires connector.channel in {null, connecting}
        || forall id :: id in c.lives ==> conns[id].channel != connector.channel
      ensures Fits(c.(cn := cn))
    {
      KeptMatchAll(conns, repr, c.lives, {}, channels, registry, connecting,
        connecting, loop.poller.channels, loop.registry, connector.channel);
      OwnedAfter(conns, channels, connecting, loop.poller.channels, connector.channel);
    }

    /** The connector begins an attempt; it spares the connections. */
    method Begin(cause: Cause, errno: int, ghost c: Steps.Client) returns (ok: bool)
      requires Fits(c)
      modifies connector, loop, loop.poller
      ensures var cn := Begun(c.cn, cause, errno); if ok then Fits(c.(cn := cn)) else cn.failed
      ensures Renewed()
    {
      ok := connector.Begin(cause, errno, c.cn);
      if ok {
        SparedFits(c, Begun(c.cn, cause, errno),
          old(loop.poller.channels), old(loop.registry), old(connector.channel));
      }
    }

    /** A field of the client itself or the phase changes; no object does. */
    method Note(retry: bool, wants: bool, ghost started: bool, ghost phase: Steps.Phase, ghost c: Steps.Client)
      requires Fits(c)
      modifies this
      ensures conns == old(conns) && repr == old(repr) && conn == old(conn)
      ensures Fits(c.(retry := retry, wants := wants, started := started, phase := phase))
    {
      this.retry, this.wants, this.started := retry, wants, started;
      assert connector.Fits(c.cn);
      assert MatchAll(conns, repr, c.lives, {}, loop.poller.channels, loop.registry, connector.channel);
    }

    method Connect(errno: int, ghost c: Steps.Client) returns (ok: bool)
      requires Fits(c)
      modifies this, connector, loop, loop.poller
      ensures conns == old(conns) && repr == old(repr)
      ensures if ok then Fits(Steps.Connect(c, errno)) else Steps.Connect(c, errno).cn.failed
      ensures Renewed()
    {
      Note(retry, true, true, c.phase, c);
      ok := Begin(Started, errno, c.(wants := true, started := true));
    }

    /** No longer wanted; the retry timer goes, if the cancellation finds it. */
    method Stop(cancels: bool, ghost c: Steps.Client)
      requires Fits(c)
      modifies this, connector
      ensures conns == old(conns) && repr == old(repr) && conn == old(conn)
      ensures Fits(Steps.Stop(c, cancels))
      ensures connector.channel == old(connector.channel)
    {
      connector.Stop(cancels, c.cn);
      wants := false;
    }

    /** The objects are as `c` says except for one connection, and `d` says what that one now is. */
    lemma {:induction false} FitsAgain(id: nat, c: Steps.Client, d: Steps.Client)
      requires connector.loop == loop && connector.Fits(d.cn) && !d.cn.handling
      requires retry == d.retry && wants == d.wants && started == d.started && nextConnId == d.nextId
      requires conns.Keys == d.lives.Keys && (forall id :: id in d.lives ==> id < d.nextId)
      requires Within(conns, repr) && this !in repr && c.lives.Keys <= conns.Keys
      requires Current(conn, conns, d.conn)
      requires Owned(conns, loop.poller.channels, connector.channel)
      requires id in d.lives && d.lives == c.lives[id := d.lives[id]]
      requires Matches(id, conns[id], d.lives[id], loop.poller.channels, loop.registry, connector.channel)
      requires MatchAll(conns, repr, c.lives, {id}, loop.poller.channels, loop.registry, connector.channel)
      ensures Fits(d)
    {
      forall other | other in d.lives
        ensures Matches(other, conns[other], d.lives[other], loop.poller.channels, loop.registry, connector.channel)
      {
        assert other != id ==>
          Matches(other, conns[other], c.lives[other], loop.poller.channels, loop.registry, connector.channel);
      }
    }

    /** `TcpConnection::shutdown`, on any thread: the compare-exchange. */
    method Shutdown(id: nat, ghost c: Steps.Client)
      requires Fits(c) && id in conns
      modifies conns[id]
      ensures Fits(Steps.Shutdown(c, id)) && conns[id].state != ConnectionOutput.Connected
    {
      assert Matches(id, conns[id], c.lives[id], loop.poller.channels, loop.registry, connector.channel);
      if conns[id].state == ConnectionOutput.Connected {
        conns[id].state := ConnectionOutput.Disconnecting;
        forall other | other in c.lives && other != id
          ensures Matches(other, conns[other], c.lives[other], loop.poller.channels, loop.registry, connector.channel)
        {
          assert old(
            Matches(other, conns[other], c.lives[other], loop.poller.channels, loop.registry, connector.channel));
        }
        FitsAgain(id, c, Steps.Shutdown(c, id));
      }
    }

    method Disconnect(ghost c: Steps.Client)
      requires Fits(c)
      modifies this, conn
      ensures conns == old(conns) && repr == old(repr)
      ensures Fits(Steps.Disconnect(c)) && !wants
      ensures conn == old(conn) && (conn != null ==> conn.state != ConnectionOutput.Connected)
    {
      Note(retry, false, started, c.phase, c);
      if conn != null {
        ghost var id := c.conn.value;
        assert Matches(id, conns[id], c.lives[id], loop.poller.channels, loop.registry, connector.channel);
        Shutdown(conn.id, c.(wants := false));
      }
    }

    /** `Channel::update` of a connection's channel, down to the kernel set. */
    method Touch(id: nat, mask: Interest, ghost c: Steps.Client)
      requires Fits(c) && id in conns && loop.poller.Knows(conns[id].channel)
      modifies loop, loop.poller, conns[id].channel
      ensures connector.Fits(c.cn) && Owned(conns, loop.poller.channels, connector.channel)
      ensures MatchAll(conns, repr, c.lives, {id}, loop.poller.channels, loop.registry, connector.channel)
      ensures Matches(id, conns[id], c.lives[id].(mask := mask, added := true),
                      loop.poller.channels, loop.registry, connector.channel)
    {
      assert Matches(id, conns[id], c.lives[id], loop.poller.channels, loop.registry, connector.channel);
      OwnedUpdate(conns, loop.poller.channels, connector.channel, id);
      connector.MaskBeside(conns[id].channel, mask, c.cn);
      forall other | other in c.lives && other != id
        ensures Matches(other, conns[other], c.lives[other], loop.poller.channels, loop.registry, connector.channel)
      {
        assert old(
          Matches(other, conns[other], c.lives[other], loop.poller.channels, loop.registry, connector.channel));
      }
    }

    /** The poller's asserts on an update. For a channel it has they cannot fail; a destroyed connection's
        channel is new to it, and must have a free descriptor. */
    method Registrable(id: nat, ghost c: Steps.Client) returns (ok: bool)
      requires Fits(c) && id in conns
      ensures if ok then loop.poller.Knows(conns[id].channel) else !c.lives[id].added
    {
      assert Matches(id, conns[id], c.lives[id], loop.poller.channels, loop.registry, connector.channel);
      ok := conns[id].channel.index != Epoller.NEW || conns[id].channel.fd !in loop.poller.channels;
    }

    /** A mask change of a connection's channel. */
    method SetMask(id: nat, mask: Interest, ghost c: Steps.Client) returns (ok: bool)
      requires Fits(c) && id in conns
      modifies loop, loop.poller, conns[id].channel
      ensures if ok then Fits(Steps.SetMask(c, id, mask)) else !c.lives[id].added
    {
      ok := Registrable(id, c);
      if ok {
        Change(id, mask, c);
      }
    }

    method Change(id: nat, mask: Interest, ghost c: Steps.Client)
      requires Fits(c) && id in conns && loop.poller.Knows(conns[id].channel)
      modifies loop, loop.poller, conns[id].channel
      ensures Fits(Steps.SetMask(c, id, mask))
    {
      Touch(id, mask, c);
      FitsAgain(id, c, Steps.SetMask(c, id, mask));
    }

    method SendInLoop(id: nat, leftover: bool, ghost c: Steps.Client) returns (ok: bool)
      requires Fits(c) && id in conns
      modifies loop, loop.poller, conns[id].channel
      ensures if ok then Fits(Steps.SendInLoop(c, id, leftover)) else leftover && !c.lives[id].added
    {
      assert Matches(id, conns[id], c.lives[id], loop.poller.channels, loop.registry, connector.channel);
      ok := true;
      if leftover && !conns[id].channel.events.writing {
        ok := SetMask(id, EnableWriting(conns[id].channel.events), c);
      }
    }

    method Send(id: nat, leftover: bool, ghost c: Steps.Client)
      requires Fits(c) && id in conns
      modifies loop, loop.poller, conns[id].channel
      ensures Fits(Steps.Send(c, id, leftover))
    {
      assert Matches(id, conns[id], c.lives[id], loop.poller.channels, loop.registry, connector.channel);
      if conns[id].state == ConnectionOutput.Connected {
        var ok := SendInLoop(id, leftover, c);
      }
    }

    method HandleWrite(id: nat, drained: bool, ghost c: Steps.Client)
      requires Fits(c) && id in conns && c.lives[id].added
      modifies loop, loop.poller, conns[id].channel
      ensures Fits(Steps.HandleWrite(c, id, drained))
    {
      assert Matches(id, conns[id], c.lives[id], loop.poller.channels, loop.registry, connector.channel);
      if conns[id].channel.events.writing && drained {
        var ok := SetMask(id, DisableWriting(conns[id].channel.events), c);
      }
    }

    /** A functor is queued in the loop, and the client may let go of its connection. */
    method Enqueue(f: ConnectorSteps.Functor, release: bool, ghost c: Steps.Client)
      requires Fits(c)
      modifies this, connector
      ensures conns == old(conns) && repr == old(repr) && connector.channel == old(connector.channel)
      ensures Fits(Steps.Queue(c, f).(conn := if release then Steps.None else c.conn))
    {
      if release {
        conn := null;
      }
      connector.pending := connector.pending + [f];
      assert connector.Fits(Steps.Queue(c, f).cn);
      assert MatchAll(conns, repr, c.lives, {}, loop.poller.channels, loop.registry, connector.channel);
    }

    /** `remove_connection`, which asserts that the connection is the current one. */
    method RemoveConnection(id: nat, errno: int, ghost c: Steps.Client) returns (ok: bool)
      requires Fits(c) && id in conns
      modifies this, connector, loop, loop.poller
      ensures conns == old(conns) && repr == old(repr)
      ensures var d := Steps.RemoveConnection(c, id, errno); if ok then Fits(d) else d.cn.failed
      ensures Renewed()
    {
      assert Matches(id, conns[id], c.lives[id], loop.poller.channels, loop.registry, connector.channel);
      if c.conn.Some? {
        ghost var current := c.conn.value;
        assert Matches(current, conn, c.lives[current], loop.poller.channels, loop.registry, connector.channel);
      }
      ghost var d := Steps.Queue(c, ConnectorSteps.Destroy(id)).(conn := Steps.None);
      ghost var e := if c.retry && c.wants then d.(cn := Begun(d.cn, Restarted, errno)) else d;
      assert c.conn == Steps.Some(id) ==> Steps.RemoveConnection(c, id, errno) == e;
      ok := conn == conns[id];
      if ok {
        Enqueue(ConnectorSteps.Destroy(id), true, c);
        if retry && wants {
          ok := Begin(Restarted, errno, d);
        }
      }
    }

    /** `handle_close` of a connection */
    method HandleClose(id: nat, errno: int, ghost c: Steps.Client) returns (ok: bool)
      requires Fits(c) && id in conns
      modifies this, connector, loop, loop.poller, conns[id].channel
      ensures conns == old(conns) && repr == old(repr)
      ensures var d := Steps.HandleClose(c, id, errno); if ok then Fits(d) else d.cn.failed
      ensures Renewed()
    {
      assert Matches(id, conns[id], c.lives[id], loop.poller.channels, loop.registry, connector.channel);
      ok := conns[id].Open();
      if ok {
        var known := SetMask(id, NONE, c);
        ok := RemoveConnection(id, errno, Steps.SetMask(c, id, NONE));
      }
    }

    method HandleRead(id: nat, o: Offer, errno: int, ghost c: Steps.Client) returns (ok: bool)
      requires Fits(c) && id in conns
      modifies this, connector, loop, loop.poller, conns[id].channel
      ensures conns == old(conns) && repr == old(repr)
      ensures var d := Steps.HandleRead(c, id, o, errno); if ok then Fits(d) else d.cn.failed
      ensures Renewed()
    {
      ok := true;
      if o.n == 0 {
        ok := HandleClose(id, errno, c);
      } else if o.n > 0 && o.reply {
        Send(id, true, c);
      }
    }

    method HandleIncoming(id: nat, r: Revents, o: Offer, errno: int, ghost c: Steps.Client) returns (ok: bool)
      requires Fits(c) && id in conns
      modifies this, connector, loop, loop.poller, conns[id].channel
      ensures conns == old(conns) && repr == old(repr)
      ensures var d := Steps.Incoming(c, id, r, o, errno); if ok then Fits(d) else d.cn.failed
      ensures Renewed()
    {
      ghost var d := if Closes(r) then Steps.Answer(c, id, CloseCallback, o, errno) else c;
      ok := true;
      if Closes(r) {
        ok := HandleClose(id, errno, c);
      }
      if ok && Reads(r) {
        ok := HandleRead(id, o, errno, d);
      }
    }

    /** `Channel::handle_event` with the callbacks of a connection. */
    method HandleEvent(id: nat, r: Revents, o: Offer, errno: int, ghost c: Steps.Client) returns (ok: bool)
      requires Fits(c) && id in conns && c.lives[id].added
      modifies this, connector, loop, loop.poller, conns[id].channel
      ensures conns == old(conns) && repr == old(repr)
      ensures var d := Steps.Flagged(c, id, r, o, errno); if ok then Fits(d) else d.cn.failed
      ensures Renewed()
    {
      ok := HandleIncoming(id, r, o, errno, c);
      if ok && Channels.Writes(r) {
        HandleWrite(id, o.drained, Steps.Incoming(c, id, r, o, errno));
      }
    }

    /** The connection object's `connect_destoryed`: its channel leaves the poller. */
    method Destroy(id: nat, ghost c: Steps.Client)
      requires Fits(c) && id in conns && Steps.Open(c.lives[id])
      modifies loop, loop.poller, conns[id], conns[id].channel
      ensures connector.Fits(c.cn) && Owned(conns, loop.poller.channels, connector.channel)
      ensures MatchAll(conns, repr, c.lives, {id}, loop.poller.channels, loop.registry, connector.channel)
      ensures Matches(id, conns[id], Steps.Gone(c.lives[id]),
                      loop.poller.channels, loop.registry, connector.channel)
    {
      assert Matches(id, conns[id], c.lives[id], loop.poller.channels, loop.registry, connector.channel);
      connector.DestroyBeside(conns[id], c.cn);
      OwnedAfter(conns, old(loop.poller.channels), connector.channel, loop.poller.channels, connector.channel);
      forall other | other in c.lives && other != id
        ensures Matches(other, conns[other], c.lives[other], loop.poller.channels, loop.registry, connector.channel)
      {
        assert old(
          Matches(other, conns[other], c.lives[other], loop.poller.channels, loop.registry, connector.channel));
      }
    }

    /** `connect_destoryed` asserts that the connection is open. */
    method DestroyConnection(id: nat, ghost c: Steps.Client) returns (ok: bool)
      requires Fits(c) && id in conns
      modifies loop, loop.poller, conns[id], conns[id].channel
      ensures var d := Steps.DestroyConnection(c, id); if ok then Fits(d) else d.cn.failed
    {
      assert Matches(id, conns[id], c.lives[id], loop.poller.channels, loop.registry, connector.channel);
      ok := conns[id].Open();
      if ok {
        Destroy(id, c);
        FitsAgain(id, c, Steps.DestroyConnection(c, id));
      }
    }

    /** A new connection object for a socket that is not in the poller, established. */
    method Establish(fd: nat, ghost c: Steps.Client) returns (next: Connection)
      requires Fits(c) && fd !in loop.poller.channels
      modifies loop, loop.poller
      ensures fresh(next) && fresh(next.channel)
      ensures Matches(c.nextId, next, Steps.ESTABLISHED, loop.poller.channels, loop.registry, connector.channel)
      ensures loop.poller.channels == old(loop.poller.channels)[next.channel.fd := next.channel]
      ensures connector.Fits(c.cn)
      ensures MatchAll(conns, repr, c.lives, {}, loop.poller.channels, loop.registry, connector.channel)
    {
      next := connector.EstablishBeside(nextConnId, fd, c.cn);
      KeptMatchAll(conns, repr, c.lives, {}, old(loop.poller.channels), old(loop.registry), old(connector.channel),
        null, loop.poller.channels, loop.registry, connector.channel);
    }

    /** It becomes the current connection. */
    method Adopt(next: Connection, ghost cn: ConnectorSteps.Connector, ghost lives: map<nat, Steps.Life>)
      requires connector.Fits(cn) && this !in repr
      requires lives.Keys <= conns.Keys + {nextConnId}
      requires Within(conns[nextConnId := next], repr + {next, next.channel})
      requires MatchAll(conns[nextConnId := next], repr + {next, next.channel}, lives, {},
                        loop.poller.channels, loop.registry, connector.channel)
      modifies this
      ensures connector.Fits(cn) && conns == old(conns)[old(nextConnId) := next] && conn == next
      ensures nextConnId == old(nextConnId) + 1 && repr == old(repr) + {next, next.channel} && this !in repr
      ensures Within(conns, repr)
      ensures MatchAll(conns, repr, lives, {}, loop.poller.channels, loop.registry, connector.channel)
      ensures retry == old(retry) && wants == old(wants) && started == old(started)
    {
      conns, conn, nextConnId := conns[nextConnId := next], next, nextConnId + 1;
      repr := repr + {next, next.channel};
    }

    /** `new_connection`; `unusable` is a failed test poll. */
    method NewConnection(fd: nat, unusable: bool, ghost c: Steps.Client)
      requires Fits(c) && fd !in loop.poller.channels
      modifies this, loop, loop.poller
      ensures Joined()
      ensures Fits(Steps.NewConnection(c, unusable))
    {
      if !unusable {
        var next := Establish(fd, c);
        ghost var l := Steps.ESTABLISHED;
        OwnedExtend(conns, old(loop.poller.channels), connector.channel, next);
        ExtendedMatchAll(conns, repr, next, c.lives, l, loop.poller.channels, loop.registry, connector.channel);
        Adopt(next, c.cn, c.lives[c.nextId := l]);
      }
    }

    /** An event on the connecting channel, up to the new-connection callback. */
    method ConnectorEvent(r: Revents, refused: bool, ghost c: Steps.Client) returns (ok: bool, taken: bool)
      requires Fits(c) && Steps.Connects(c)
      modifies connector, loop, loop.poller, connector.channel
      ensures ok && Fits(c.(cn := ConnectorSteps.Resolved(c.cn, r, refused)))
      ensures taken <==> ConnectorSteps.Taken(c.cn, r, refused)
      ensures connector.channel == old(connector.channel) && connector.channel != null
      ensures taken ==> connector.channel.fd !in loop.poller.channels
    {
      ok, taken := connector.HandleEvent(r, refused, c.cn);
      forall id | id in c.lives
        ensures Matches(id, conns[id], c.lives[id], old(loop.poller.channels), old(loop.registry), connector.channel)
      {
        assert old(Matches(id, conns[id], c.lives[id], loop.poller.channels, loop.registry, connector.channel));
      }
      SparedFits(c, ConnectorSteps.Resolved(c.cn, r, refused),
        old(loop.poller.channels), old(loop.registry), old(connector.channel));
    }

    /** A socket handed over becomes a connection at once. */
    method ConnectingEvent(r: Revents, refused: bool, unusable: bool, ghost c: Steps.Client) returns (ok: bool)
      requires Fits(c) && Steps.Connects(c)
      modifies this, connector, loop, loop.poller, connector.channel
      ensures Joined()
      ensures ok && Fits(Steps.Settle(c, r, refused, unusable))
    {
      ghost var d := c.(cn := ConnectorSteps.Resolved(c.cn, r, refused));
      var taken;
      ok, taken := ConnectorEvent(r, refused, c);
      Receive(taken, unusable, d);
    }

    /** The new-connection callback, if the connector calls it. */
    method Receive(taken: bool, unusable: bool, ghost c: Steps.Client)
      requires Fits(c) && (taken ==> connector.channel != null && connector.channel.fd !in loop.poller.channels)
      modifies this, loop, loop.poller
      ensures Joined()
      ensures Fits(if taken then Steps.NewConnection(c, unusable) else c)
    {
      if taken {
        NewConnection(connector.channel.fd, unusable, c);
      }
    }

    /** The functor at the head is taken off the queue. */
    method Pop(ghost c: Steps.Client)
      requires Fits(c) && connector.pending != []
      modifies connector
      ensures Fits(c.(cn := c.cn.(pending := c.cn.pending[1..])))
      ensures connector.channel == old(connector.channel)
    {
      connector.pending := connector.pending[1..];
      assert connector.Fits(c.cn.(pending := c.cn.pending[1..]));
    }

    /** `reset_channel`, for a channel that is out of the poller. */
    method Reset(ghost c: Steps.Client) returns (ok: bool)
      requires Fits(c) && ConnectorSteps.Stale(c.cn)
      modifies connector
      ensures ok && Fits(c.(cn := ConnectorSteps.DestroyChannel(c.cn)))
      ensures Renewed()
    {
      assert forall fd :: fd in loop.poller.channels ==> loop.poller.channels[fd] != connector.channel;
      ok := connector.ResetChannel(c.cn);
      KeptMatchAll(conns, repr, c.lives, {}, old(loop.poller.channels), old(loop.registry), old(connector.channel),
        null, loop.poller.channels, loop.registry, connector.channel);
      OwnedAfter(conns, loop.poller.channels, old(connector.channel), loop.poller.channels, null);
    }

    /** One functor of the batch in `do_pending_functors`. */
    method RunFunctor(ghost c: Steps.Client) returns (ok: bool)
      requires Fits(c) && Steps.Due(c)
      modifies connector, loop, loop.poller, repr
      ensures if ok then Fits(Steps.RunFunctor(c)) else Steps.RunFunctor(c).cn.failed || Steps.Late(c, c.cn.pending[0])
      ensures Renewed()
    {
      var next := connector.pending[0];
      Pop(c);
      ghost var d := c.(cn := c.cn.(pending := c.cn.pending[1..]));
      match next {
        case ResetChannel => ok := Reset(d);
        case Destroy(id) =>
          assert Inside(conns[id], repr);
          ok := DestroyConnection(id, d);
        case QueuedSend(id, leftover) =>
          assert Inside(conns[id], repr);
          assert Matches(id, conns[id], c.lives[id], loop.poller.channels, loop.registry, connector.channel);
          ok := SendInLoop(id, leftover, d);
      }
    }

    // ---------------------------------------------------------------- whole runs

    lemma {:induction false} PhaseFits(c: Steps.Client, phase: Steps.Phase)
      requires Fits(c)
      ensures Fits(c.(phase := phase))
    {
    }

    /** The turn of the connecting channel in the loop over the active channels. */
    method OnConnecting(r: Revents, refused: bool, unusable: bool, ghost c: Steps.Client) returns (ok: bool)
      requires Fits(c) && Steps.Connects(c) && Steps.Enabled(c, Steps.OnConnecting(r, refused, unusable))
      modifies this, connector, connector.channel, loop, loop.poller
      ensures Grown() && ok && Fits(Steps.Step(c, Steps.OnConnecting(r, refused, unusable)))
    {
      ghost var d := Steps.Done(c, Steps.ConnectingChannel);
      Steps.ConnectingEventEffect(d, r, refused, unusable);
      PhaseFits(c, d.phase);
      ok := ConnectingEvent(r, refused, unusable, d);
      assert conn != null ==> forall x :: x in repr && x !in old(repr) ==> x == conn || x == conn.channel;
    }

    /** The turn of the current connection. */
    method OnConn(id: nat, r: Revents, o: Offer, errno: int, ghost c: Steps.Client) returns (ok: bool)
      requires Fits(c) && Steps.Enabled(c, Steps.OnConn(id, r, o, errno)) && c.lives[id].added
      modifies this, connector, loop, loop.poller, conns[id].channel
      ensures Grown()
      ensures var d := Steps.Step(c, Steps.OnConn(id, r, o, errno)); if ok then Fits(d) else d.cn.failed
    {
      ghost var d := Steps.Done(c, Steps.ConnChannel(id));
      Steps.EventByFlags(d, id, r, o, errno);
      PhaseFits(c, d.phase);
      ok := HandleEvent(id, r, o, errno, d);
    }

    /** The turn of the timer queue. */
    method OnTimer(errno: int, ghost c: Steps.Client) returns (ok: bool)
      requires Fits(c) && Steps.Enabled(c, Steps.OnTimer(errno))
      modifies connector, loop, loop.poller
      ensures Grown()
      ensures var d := Steps.Step(c, Steps.OnTimer(errno)); if ok then Fits(d) else d.cn.failed
    {
      ghost var d := Steps.Done(c, Steps.RetryTimer);
      PhaseFits(c, d.phase);
      ok := Begin(TimerExpired, errno, d);
    }

    /** The turn of a functor. */
    method NextFunctor(ghost c: Steps.Client) returns (ok: bool)
      requires Fits(c) && Steps.Due(c) && Steps.Enabled(c, Steps.NextFunctor)
      modifies connector, loop, loop.poller, repr
      ensures Grown()
      ensures var d := Steps.Step(c, Steps.NextFunctor);
        if ok then Fits(d) else d.cn.failed || Steps.Breaks(c, Steps.NextFunctor)
    {
      ghost var d := c.(phase := Steps.Functors(c.phase.due - 1));
      PhaseFits(c, d.phase);
      assert Steps.Step(c, Steps.NextFunctor) == Steps.RunFunctor(d);
      assert Steps.Late(d, d.cn.pending[0]) ==> Steps.Breaks(c, Steps.NextFunctor);
      ok := RunFunctor(d);
    }

    /** A call on a connection object. */
    method OnUse(a: Steps.Action, ghost c: Steps.Client)
      requires Fits(c) && Steps.Enabled(c, a) && (a.UserSend? || a.UserSendElsewhere? || a.UserShutdown?)
      modifies this, connector, loop, loop.poller, repr
      ensures Grown() && Fits(Steps.Step(c, a))
    {
      if a.id !in conns {
        return;
      }
      assert Inside(conns[a.id], repr);
      assert Matches(a.id, conns[a.id], c.lives[a.id], loop.poller.channels, loop.registry, connector.channel);
      match a {
        case UserSend(id, leftover) => Send(id, leftover, c);
        case UserSendElsewhere(id, leftover) =>
          if conns[id].state == ConnectionOutput.Connected {
            Enqueue(ConnectorSteps.QueuedSend(id, leftover), false, c);
          }
        case UserShutdown(id) => Shutdown(id, c);
      }
    }

    /** A call on the client. */
    method OnCall(a: Steps.Action, ghost c: Steps.Client) returns (ok: bool)
      requires Fits(c) && Steps.Enabled(c, a)
      requires a.ConnectCall? || a.EnableRetry? || a.DisconnectCall? || a.StopCall? || a.FreshTimer?
      modifies this, connector, loop, loop.poller, repr
      ensures Grown()
      ensures if ok then Fits(Steps.Step(c, a)) else Steps.Step(c, a).cn.failed
    {
      ok := true;
      match a {
        case ConnectCall(errno) => ok := Connect(errno, c);
        case EnableRetry => Note(true, wants, started, c.phase, c);
        case DisconnectCall =>
          assert conn != null ==> Inside(conns[c.conn.value], repr);
          Disconnect(c);
        case StopCall(cancels) => Stop(cancels, c);
        case FreshTimer(errno) => ok := Begin(TimerExpired, errno, c);
      }
    }

    /** The loop polls, goes on to its functors, or back to poll. */
    lemma {:induction false} TurnFits(a: Steps.Action, c: Steps.Client)
      requires Fits(c) && Steps.Enabled(c, a) && (a.Poll? || a.BeginFunctors? || a.EndFunctors?)
      ensures Fits(Steps.Step(c, a))
    {
      PhaseFits(c, Steps.Step(c, a).phase);
    }

    /** One action: the objects follow the step. Where a poller's assert fails for a destroyed connection, the
        step lets it be registered. */
    method Follow(a: Steps.Action, ghost c: Steps.Client) returns (ok: bool)
      requires Fits(c) && Steps.Enabled(c, a) && (a.OnConnecting? ==> Steps.Connects(c))
      requires (a.NextFunctor? ==> Steps.Due(c)) && (a.OnConn? ==> c.lives[a.id].added)
      modifies this, connector, connector.channel, loop, loop.poller, repr
      ensures Grown()
      ensures if ok then Fits(Steps.Step(c, a)) else Steps.Step(c, a).cn.failed || Steps.Breaks(c, a)
    {
      ok := true;
      match a {
        case OnConnecting(r, refused, unusable) => ok := OnConnecting(r, refused, unusable, c);
        case OnConn(id, r, o, errno) =>
          assert Inside(conns[id], repr);
          ok := OnConn(id, r, o, errno, c);
        case OnTimer(errno) => ok := OnTimer(errno, c);
        case NextFunctor => ok := NextFunctor(c);
        case Poll(_) => TurnFits(a, c);
        case BeginFunctors => TurnFits(a, c);
        case EndFunctors => TurnFits(a, c);
        case UserSend(_, _) => OnUse(a, c);
        case UserSendElsewhere(_, _) => OnUse(a, c);
        case UserShutdown(_) => OnUse(a, c);
        case _ => ok := OnCall(a, c);
      }
    }

    /** Whether the poller has the channel of a destroyed connection. */
    method Haunted(ghost c: Steps.Client) returns (yes: bool)
      requires Fits(c)
      ensures yes <==> Steps.Haunted(c)
    {
      forall id | id in conns
        ensures Matches(id, conns[id], c.lives[id], loop.poller.channels, loop.registry, connector.channel)
      {
        assert Inside(conns[id], repr);
      }
      yes := exists id | id in conns ::
        conns[id].state == ConnectionOutput.Disconnected && conns[id].channel.index != Epoller.NEW;
    }

    /** One action: false if an assert fails or a destroyed connection is registered. */
    method Watch(a: Steps.Action, ghost c: Steps.Client) returns (ok: bool)
      requires Fits(c) && Steps.Enabled(c, a) && (a.OnConnecting? ==> Steps.Connects(c))
      requires (a.NextFunctor? ==> Steps.Due(c)) && (a.OnConn? ==> c.lives[a.id].added)
      modifies this, connector, connector.channel, loop, loop.poller, repr
      ensures Grown() && (ok ==> Fits(Steps.Step(c, a)) && !Steps.Haunted(Steps.Step(c, a)))
      ensures !ok ==> Steps.Step(c, a).cn.failed || Steps.Haunted(Steps.Step(c, a)) || Steps.Breaks(c, a)
    {
      ok := Follow(a, c);
      if ok {
        var dead := Haunted(Steps.Step(c, a));
        ok := !dead;
      }
    }

    /** One action of a client in order: an assert fails, or a destroyed connection is registered, exactly if
        the action breaks the client. */
    method Perform(a: Steps.Action, ghost c: Steps.Client) returns (ok: bool)
      requires Fits(c) && Steps.Inv(c) && Steps.Enabled(c, a)
      modifies this, connector, connector.channel, loop, loop.poller, repr
      ensures Grown() && (ok <==> !Steps.Breaks(c, a))
      ensures ok ==> Fits(Steps.Step(c, a)) && Steps.Inv(Steps.Step(c, a))
    {
      Steps.StepBreaksIff(c, a);
      Steps.IsReady(c, a);
      ok := Watch(a, c);
    }

    /** Nothing is queued but other threads' sends; every connection object was reported up once and, unless
        it is the current one, down once; and the poller has, and epoll watches, no more than one channel:
        the connecting one for writing, or the current connection's for reading and what else it wants. */
    ghost predicate Settled()
      reads this, connector, connector.channel, loop, loop.poller, repr, conns.Values
      reads if conn == null then {} else {conn.channel}
    {
      && (forall f :: f in connector.pending ==> f.QueuedSend?)
      && loop.poller.failures == 0 && (connector.channel == null || conn == null)
      && (forall id :: id in conns ==> conns[id].ups == 1 && conns[id].downs == (if conns[id] == conn then 0 else 1))
      && (forall fd :: fd in loop.poller.channels ==>
            loop.poller.channels[fd] == if conn == null then connector.channel else conn.channel)
      && (conn != null ==> conn.channel.events.reading)
      && EpollSet.Watched(loop.poller.epoll) ==
         if connector.channel != null then {(connector.channel.fd, WRITING)}
         else if conn != null then {(conn.channel.fd, conn.channel.events)}
         else {}
    }

    lemma {:induction false} SettledWhilePolling(c: Steps.Client)
      requires Fits(c) && Steps.Inv(c) && c.phase.Polling?
      ensures Settled()
    {
      Steps.NotStaleWhilePolling(c);
      Steps.GoneWhilePolling(c);
      forall id | id in conns
        ensures Matches(id, conns[id], c.lives[id], loop.poller.channels, loop.registry, connector.channel)
        ensures Steps.LifeOk(c, id)
      {
        assert Inside(conns[id], repr);
      }
      forall fd | fd in loop.poller.channels
        ensures loop.poller.channels[fd] == if conn == null then connector.channel else conn.channel
      {
        assert Ours(loop.poller.channels[fd], conns, connector.channel);
      }
      EpollSet.LoggedRepresents(loop.calls, loop.registry, loop.poller.epoll);
      EpollSet.WatchesWanted(loop.poller.epoll, loop.registry);
    }

    /** The client driven through any list of actions, from any state it can be in: an assert fails, or a
        destroyed connection is registered, exactly if a breaking event occurs; otherwise everything is
        settled whenever the loop polls, and the client wants to be connected if its user does. */
    method Drive(acts: seq<Steps.Action>, ghost c: Steps.Client) returns (ok: bool)
      requires Fits(c) && Steps.Inv(c) && Steps.EnabledRun(c, acts)
      modifies this, connector, connector.channel, loop, loop.poller, repr
      ensures ok <==> Steps.NeverBreaks(c, acts)
      ensures ok ==> Fits(Steps.Run(c, acts)) && (Steps.Run(c, acts).phase.Polling? ==> Settled())
      ensures ok ==> wants == Steps.WantsAfter(old(wants), acts)
      decreases |acts|
    {
      if Steps.NeverBreaks(c, acts) {
        Steps.WantsFollowsCalls(c, acts);
      }
      ok := true;
      if acts != [] {
        ok := Perform(acts[0], c);
        if ok {
          ok := Drive(acts[1..], Steps.Step(c, acts[0]));
        }
      } else if c.phase.Polling? {
        SettledWhilePolling(c);
      }
    }
  }
}
