/** `TcpServer` itself, holding connection objects with their channels, on a loop with a real `Epoller`.

    No method takes the poller's asserts as a precondition: that they hold, and that the epoll set is
    what the connections want, follows from the server's own invariant. A method returns false where an
    assert of the source would stop the program. */
module Servers {
  import opened Channels
  import opened ConnectionOutput
  import opened LiveConnections
  import opened Loops
  import opened Pollers
  import EpollSet
  import Registry
  import Steps = ServerSteps

  /** The poller has, for each registered descriptor, the channel of the connection that owns it. */
  ghost predicate Wired(conns: map<nat, Connection>, channels: map<nat, Channel>, owner: map<nat, nat>) {
    && owner.Keys == channels.Keys
    && forall fd {:trigger channels[fd]} :: fd in channels ==>
      owner[fd] in conns && conns[owner[fd]].channel == channels[fd]
  }

  lemma {:induction false} WiredUpdate(conns: map<nat, Connection>, channels: map<nat, Channel>,
                                       owner: map<nat, nat>, id: nat, fd: nat)
    requires Wired(conns, channels, owner) && id in conns
    ensures Wired(conns, channels[fd := conns[id].channel], owner[fd := id])
  {
  }

  lemma {:induction false} WiredRemove(conns: map<nat, Connection>, channels: map<nat, Channel>,
                                       owner: map<nat, nat>, fd: nat)
    requires Wired(conns, channels, owner)
    ensures Wired(conns, channels - {fd}, owner - {fd})
  {
  }

  /** An open connection's channel is in the poller, which has it for its descriptor. */
  ghost predicate Placed(s: Steps.Server, id: nat)
    requires id in s.lives
  {
    (Steps.Open(s.lives[id]) ==> s.lives[id].added) && (s.lives[id].added ==> Steps.Owns(s, id))
  }

  ghost predicate Sound(s: Steps.Server) {
    && s.owner.Keys == s.registry.Keys
    && (forall id :: id in s.lives ==> id < s.nextId)
    && (forall id {:trigger Placed(s, id)} :: id in s.lives ==> Placed(s, id))
  }

  /** The same server except for one connection. */
  ghost predicate Alike(s: Steps.Server, t: Steps.Server, id: nat) {
    && id in t.lives && t.lives == s.lives[id := t.lives[id]]
    && t.table == s.table && t.nextId == s.nextId && t.pending == s.pending && !t.failed && !s.failed
    && t.owner.Keys == t.registry.Keys
    && (Steps.Open(t.lives[id]) ==> t.lives[id].added)
  }

  lemma {:induction false} SoundUpdate(s: Steps.Server, t: Steps.Server, id: nat)
    requires Sound(s) && Alike(s, t, id) && id in s.lives && t.owner == s.owner[t.lives[id].fd := id]
    requires t.lives[id].fd == s.lives[id].fd && (s.lives[id].added || s.lives[id].fd !in s.owner)
    ensures Sound(t)
  {
    assert Placed(s, id);
    forall other | other in t.lives
      ensures Placed(t, other)
    {
      assert other in s.lives ==> Placed(s, other);
    }
  }

  lemma {:induction false} SoundRemove(s: Steps.Server, t: Steps.Server, id: nat)
    requires Sound(s) && Alike(s, t, id) && id in s.lives && t.owner == s.owner - {s.lives[id].fd}
    requires s.lives[id].added && !t.lives[id].added
    ensures Sound(t)
  {
    assert Placed(s, id);
    forall other | other in t.lives
      ensures Placed(t, other)
    {
      assert other in s.lives ==> Placed(s, other);
    }
  }

  lemma {:induction false} SoundRecord(s: Steps.Server, id: nat, l: Steps.Life)
    requires Sound(s) && id in s.lives && l.fd == s.lives[id].fd && l.added == s.lives[id].added
    requires Steps.Open(l) ==> l.added
    ensures Sound(Steps.Update(s, id, l))
  {
    var t := Steps.Update(s, id, l);
    forall other | other in t.lives
      ensures Placed(t, other)
    {
      assert other in s.lives ==> Placed(s, other);
    }
  }

  lemma {:induction false} SoundMade(s: Steps.Server, fd: nat)
    requires Sound(s)
    ensures Sound(Steps.Made(s, fd)) && s.nextId !in s.lives
  {
    var t := Steps.Made(s, fd);
    forall other | other in t.lives
      ensures Placed(t, other)
    {
      assert other in s.lives ==> Placed(s, other);
    }
  }

  lemma {:induction false} SoundNoted(s: Steps.Server, t: Steps.Server)
    requires Sound(s) && t == s.(table := t.table, pending := t.pending, phase := t.phase)
    ensures Sound(t)
  {
    forall id | id in t.lives
      ensures Placed(t, id)
    {
      assert id in s.lives ==> Placed(s, id);
    }
  }

  /** What becomes of one connection when its mask changes, it is established, or destroyed. */
  lemma {:induction false} MaskEffect(s: Steps.Server, id: nat, mask: Interest)
    requires Sound(s) && !s.failed && id in s.lives
    ensures var l, t := s.lives[id], Steps.SetMask(s, id, mask);
      if l.added || l.fd !in s.owner then
        && Alike(s, t, id) && t.lives[id] == l.(mask := mask, added := true)
        && t.owner == s.owner[l.fd := id] && t.calls == s.calls + [Registry.Update(l.fd, mask)]
      else t.failed
  {
    assert Placed(s, id);
  }

  lemma {:induction false} EstablishEffect(s: Steps.Server, id: nat)
    requires Sound(s) && !s.failed && id in s.lives && s.lives[id].state == Connecting
    ensures var l, t := s.lives[id], Steps.Established(s, id);
      if l.added || l.fd !in s.owner then
        && Alike(s, t, id)
        && t.lives[id] == l.(state := Connected, mask := EnableReading(l.mask), added := true, ups := l.ups + 1)
        && t.owner == s.owner[l.fd := id] && t.calls == s.calls + [Registry.Update(l.fd, EnableReading(l.mask))]
      else t.failed
  {
    assert Placed(s, id);
  }

  lemma {:induction false} DestroyEffect(s: Steps.Server, id: nat)
    requires Sound(s) && !s.failed && id in s.lives && Steps.Open(s.lives[id])
    ensures var l, t := s.lives[id], Steps.Destroyed(s, id);
      && Alike(s, t, id) && l.added && t.owner == s.owner - {l.fd}
      && t.lives[id] == l.(state := Disconnected, mask := NONE, added := false, downs := l.downs + 1)
      && t.calls == s.calls + [Registry.Update(l.fd, NONE)] + [Registry.Remove(l.fd)]
  {
    assert Placed(s, id);
  }

  class TcpServer {
    const loop: Loop
    /** Every connection made, by number; whoever refers to one keeps it alive. */
    var conns: map<nat, Connection>
    /** `connections_` */
    var connections: set<nat>
    var nextConnId: nat
    var pending: seq<Steps.Functor>

    ghost function Objects(): set<object>
      reads this`conns
    {
      (set id | id in conns :: conns[id]) + (set id | id in conns :: conns[id].channel)
    }

    /** The connection object is what the state says of it. */
    static ghost predicate Matches(id: nat, c: Connection, l: Steps.Life)
      reads c, c.channel
    {
      && c.id == id == c.channel.holder
      && c.state == l.state && c.ups == l.ups && c.downs == l.downs && c.erased == l.erased
      && c.channel.fd == l.fd && c.channel.events == l.mask && (l.added <==> c.channel.index != Epoller.NEW)
    }

    ghost predicate MatchAll(lives: map<nat, Steps.Life>, except: set<nat>)
      requires lives.Keys <= conns.Keys
      reads this`conns, Objects()
    {
      forall id {:trigger Matches(id, conns[id], lives[id])} :: id in lives && id !in except ==>
        Matches(id, conns[id], lives[id])
    }

    /** The fields and the poller's map are what `s` says. */
    ghost predicate Frame(s: Steps.Server)
      reads this`conns, this`connections, this`nextConnId, this`pending
      reads loop, loop.poller, loop.poller.channels.Values`index
    {
      && loop.Valid() && loop.calls == s.calls && !s.failed
      && connections == s.table && nextConnId == s.nextId && pending == s.pending
      && conns.Keys == s.lives.Keys && Wired(conns, loop.poller.channels, s.owner) && Sound(s)
    }

    /** The fields, the connection objects and the poller's map are what `s` says. */
    ghost predicate Fits(s: Steps.Server)
      reads this`conns, this`connections, this`nextConnId, this`pending
      reads loop, loop.poller, loop.poller.channels.Values`index, Objects()
    {
      Frame(s) && MatchAll(s.lives, {})
    }

    lemma {:induction false} FitsAgain(id: nat, s: Steps.Server, t: Steps.Server)
      requires s.lives.Keys <= conns.Keys && MatchAll(s.lives, {id}) && Frame(t)
      requires id in t.lives && t.lives == s.lives[id := t.lives[id]] && Matches(id, conns[id], t.lives[id])
      ensures Fits(t)
    {
      forall other | other in t.lives
        ensures Matches(other, conns[other], t.lives[other])
      {
        assert other != id ==> Matches(other, conns[other], s.lives[other]);
      }
    }

    /** No connection object is replaced, and those that were not there before are new. */
    twostate predicate Grown()
      reads this`conns
    {
      && (forall id :: id in old(conns) ==> id in conns && conns[id] == old(conns)[id])
      && (forall id :: id in conns && id !in old(conns) ==> fresh(conns[id]) && fresh(conns[id].channel))
    }

    constructor ()
      ensures Fits(Steps.INITIAL) && fresh(loop) && fresh(loop.poller)
    {
      loop := new Loop();
      conns, connections, nextConnId, pending := map[], {}, 1, [];
    }

    // ---------------------------------------------------------------- one connection at a time

    /** The objects are as `s` says except for one connection, and `t` says what that one now is. */
    ghost predicate Moved(id: nat, s: Steps.Server, t: Steps.Server)
      reads this`conns, this`connections, this`nextConnId, this`pending
      reads loop, loop.poller, loop.poller.channels.Values`index, Objects()
    {
      && Alike(s, t, id) && id in s.lives && t.lives[id].fd == s.lives[id].fd
      && connections == s.table && nextConnId == s.nextId && pending == s.pending && conns.Keys == s.lives.Keys
      && loop.Valid() && loop.calls == t.calls
      && Matches(id, conns[id], t.lives[id]) && MatchAll(s.lives, {id})
    }

    lemma {:induction false} UpdatedFits(id: nat, s: Steps.Server, t: Steps.Server, before: map<nat, Channel>)
      requires Moved(id, s, t) && Sound(s) && Wired(conns, before, s.owner)
      requires s.lives[id].added || s.lives[id].fd !in s.owner
      requires t.owner == s.owner[s.lives[id].fd := id]
      requires loop.poller.channels == before[s.lives[id].fd := conns[id].channel]
      ensures Fits(t)
    {
      SoundUpdate(s, t, id);
      WiredUpdate(conns, before, s.owner, id, s.lives[id].fd);
      FitsAgain(id, s, t);
    }

    lemma {:induction false} RemovedFits(id: nat, s: Steps.Server, t: Steps.Server, before: map<nat, Channel>)
      requires Moved(id, s, t) && Sound(s) && Wired(conns, before, s.owner)
      requires s.lives[id].added && !t.lives[id].added && t.owner == s.owner - {s.lives[id].fd}
      requires loop.poller.channels == before - {s.lives[id].fd}
      ensures Fits(t)
    {
      SoundRemove(s, t, id);
      WiredRemove(conns, before, s.owner, s.lives[id].fd);
      FitsAgain(id, s, t);
    }

    /** The poller's asserts on an update: a new channel must have a descriptor that is not there, and
        any other one, as it turns out, is there. */
    method Registrable(id: nat, ghost s: Steps.Server) returns (ok: bool)
      requires Fits(s) && id in conns
      ensures ok <==> s.lives[id].added || s.lives[id].fd !in s.owner
      ensures ok ==> loop.poller.Knows(conns[id].channel)
    {
      assert Matches(id, conns[id], s.lives[id]);
      assert Placed(s, id);
      ok := conns[id].channel.index != Epoller.NEW || conns[id].channel.fd !in loop.poller.channels;
    }

    /** `Channel::update`, down to the kernel set; the other connections are not touched. */
    method Touch(id: nat, mask: Interest, ghost s: Steps.Server)
      requires Fits(s) && id in conns && (s.lives[id].added || s.lives[id].fd !in s.owner)
      requires loop.poller.Knows(conns[id].channel)
      modifies loop, loop.poller, conns[id].channel
      ensures loop.poller.channels == old(loop.poller.channels)[s.lives[id].fd := conns[id].channel]
      ensures loop.Valid() && loop.calls == old(loop.calls) + [Registry.Update(s.lives[id].fd, mask)]
      ensures Matches(id, conns[id], s.lives[id].(mask := mask, added := true)) && MatchAll(s.lives, {id})
    {
      assert Matches(id, conns[id], s.lives[id]);
      assert Placed(s, id);
      loop.SetMask(conns[id].channel, mask);
      forall other | other in s.lives && other != id
        ensures Matches(other, conns[other], s.lives[other])
      {
        assert old(Matches(other, conns[other], s.lives[other]));
        assert conns[other] != conns[id] && conns[other].channel != conns[id].channel;
      }
    }

    /** A mask change of a connection's channel. */
    method SetMask(id: nat, mask: Interest, ghost s: Steps.Server) returns (ok: bool)
      requires Fits(s) && id in conns
      modifies loop, loop.poller, conns[id].channel
      ensures if ok then Fits(Steps.SetMask(s, id, mask)) else Steps.SetMask(s, id, mask).failed
    {
      MaskEffect(s, id, mask);
      ok := Registrable(id, s);
      if ok {
        ghost var before := loop.poller.channels;
        Touch(id, mask, s);
        UpdatedFits(id, s, Steps.SetMask(s, id, mask), before);
      }
    }

    method Establish(id: nat, ghost s: Steps.Server)
      requires Fits(s) && id in conns && (s.lives[id].added || s.lives[id].fd !in s.owner)
      requires loop.poller.Knows(conns[id].channel) && s.lives[id].state == Connecting
      modifies loop, loop.poller, conns[id], conns[id].channel
      ensures loop.poller.channels == old(loop.poller.channels)[s.lives[id].fd := conns[id].channel]
      ensures loop.Valid()
      ensures loop.calls == old(loop.calls) + [Registry.Update(s.lives[id].fd, EnableReading(s.lives[id].mask))]
      ensures var l := s.lives[id]; Matches(id, conns[id],
        l.(state := Connected, mask := EnableReading(l.mask), added := true, ups := l.ups + 1))
      ensures MatchAll(s.lives, {id})
    {
      assert Matches(id, conns[id], s.lives[id]);
      assert Placed(s, id);
      conns[id].ConnectEstablished(loop);
      forall other | other in s.lives && other != id
        ensures Matches(other, conns[other], s.lives[other])
      {
        assert old(Matches(other, conns[other], s.lives[other]));
        assert conns[other] != conns[id] && conns[other].channel != conns[id].channel;
      }
    }

    method ConnectEstablished(id: nat, ghost s: Steps.Server) returns (ok: bool)
      requires Fits(s) && id in conns
      modifies loop, loop.poller, conns[id], conns[id].channel
      ensures if ok then Fits(Steps.Established(s, id)) else Steps.Established(s, id).failed
    {
      assert Matches(id, conns[id], s.lives[id]);
      if conns[id].state != Connecting {
        return false;
      }
      EstablishEffect(s, id);
      ok := Registrable(id, s);
      if ok {
        ghost var before := loop.poller.channels;
        Establish(id, s);
        UpdatedFits(id, s, Steps.Established(s, id), before);
      }
    }

    method Destroy(id: nat, ghost s: Steps.Server)
      requires Fits(s) && id in conns && Steps.Open(s.lives[id])
      modifies loop, loop.poller, conns[id], conns[id].channel
      ensures loop.poller.channels == old(loop.poller.channels) - {s.lives[id].fd}
      ensures var l := s.lives[id];
        && loop.Valid() && loop.calls == old(loop.calls) + [Registry.Update(l.fd, NONE)] + [Registry.Remove(l.fd)]
        && Matches(id, conns[id], l.(state := Disconnected, mask := NONE, added := false, downs := l.downs + 1))
      ensures MatchAll(s.lives, {id})
    {
      assert Matches(id, conns[id], s.lives[id]);
      assert Placed(s, id);
      conns[id].ConnectDestroyed(loop);
      forall other | other in s.lives && other != id
        ensures Matches(other, conns[other], s.lives[other])
      {
        assert old(Matches(other, conns[other], s.lives[other]));
        assert conns[other] != conns[id] && conns[other].channel != conns[id].channel;
      }
    }

    /** `connect_destoryed` */
    method ConnectDestroyed(id: nat, ghost s: Steps.Server) returns (ok: bool)
      requires Fits(s) && id in conns
      modifies loop, loop.poller, conns[id], conns[id].channel
      ensures if ok then Fits(Steps.Destroyed(s, id)) else Steps.Destroyed(s, id).failed
    {
      assert Matches(id, conns[id], s.lives[id]);
      ok := conns[id].Open();
      if ok {
        DestroyEffect(s, id);
        ghost var before := loop.poller.channels;
        Destroy(id, s);
        RemovedFits(id, s, Steps.Destroyed(s, id), before);
      }
    }

    method Store(id: nat, state: State, ghost erased: nat, ghost s: Steps.Server)
      requires Fits(s) && id in conns
      modifies conns[id]
      ensures loop.Valid() && MatchAll(s.lives, {id})
      ensures Matches(id, conns[id], s.lives[id].(state := state, erased := erased))
    {
      var c := conns[id];
      assert Matches(id, c, s.lives[id]);
      c.state, c.erased := state, erased;
      forall other | other in s.lives && other != id
        ensures Matches(other, conns[other], s.lives[other])
      {
        assert old(Matches(other, conns[other], s.lives[other]));
        assert conns[other] != conns[id] && conns[other].channel != conns[id].channel;
      }
    }

    /** The fields of a connection object change; its channel does not. */
    method Record(id: nat, state: State, ghost l: Steps.Life, ghost s: Steps.Server)
      requires Fits(s) && id in conns && (Steps.Open(l) ==> l.added)
      requires l == s.lives[id].(state := state, erased := l.erased)
      modifies conns[id]
      ensures Fits(Steps.Update(s, id, l))
    {
      Store(id, state, l.erased, s);
      SoundRecord(s, id, l);
      FitsAgain(id, s, Steps.Update(s, id, l));
    }

    /** A new connection object, placed in the map. */
    method Enter(fd: nat, ghost s: Steps.Server) returns (id: nat)
      requires Fits(s) && s.nextId !in s.lives
      modifies this
      ensures id == s.nextId && nextConnId == id + 1 && connections == s.table + {id} && pending == s.pending
      ensures id in conns && fresh(conns[id]) && fresh(conns[id].channel) && conns == old(conns)[id := conns[id]]
      ensures Matches(id, conns[id], Steps.Life(fd, Connecting, NONE, false, 0, 0, 0))
      ensures loop.Valid() && MatchAll(s.lives, {id})
    {
      id := nextConnId;
      var c := new Connection(id, fd);
      assert MatchAll(s.lives, {});
      nextConnId := nextConnId + 1;
      conns := conns[id := c];
      connections := connections + {id};
    }

    /** The first half of `new_connection`: the object and its place in the map. */
    method MakeConnection(fd: nat, ghost s: Steps.Server) returns (id: nat)
      requires Fits(s)
      modifies this
      ensures id == s.nextId && id in conns && fresh(conns[id]) && fresh(conns[id].channel)
      ensures conns == old(conns)[id := conns[id]]
      ensures Fits(Steps.Made(s, fd))
    {
      SoundMade(s, fd);
      id := Enter(fd, s);
      FitsAgain(id, s, Steps.Made(s, fd));
    }

    method NewConnection(fd: nat, ghost s: Steps.Server) returns (ok: bool)
      requires Fits(s)
      modifies loop, loop.poller, this
      ensures Grown()
      ensures if ok then Fits(Steps.NewConnection(s, fd)) else Steps.NewConnection(s, fd).failed
    {
      SoundMade(s, fd);
      var id := MakeConnection(fd, s);
      ok := ConnectEstablished(id, Steps.Made(s, fd));
    }

    // ---------------------------------------------------------------- handlers

    /** The map, the functor queue and the phase change; no object does. */
    method Note(table: set<nat>, pending: seq<Steps.Functor>, ghost phase: Steps.Phase, ghost s: Steps.Server)
      requires Fits(s)
      modifies this
      ensures conns == old(conns)
      ensures Fits(s.(table := table, pending := pending, phase := phase))
    {
      connections, this.pending := table, pending;
      SoundNoted(s, s.(table := table, pending := pending, phase := phase));
    }

    method RemoveConnection(id: nat, ghost s: Steps.Server) returns (ok: bool)
      requires Fits(s) && id in conns
      modifies this, conns[id]
      ensures conns == old(conns)
      ensures if ok then Fits(Steps.RemoveConnection(s, id)) else Steps.RemoveConnection(s, id).failed
    {
      ok := id in connections;
      if ok {
        assert Matches(id, conns[id], s.lives[id]);
        assert Placed(s, id);
        assert Matches(id, conns[id], s.lives[id]);
        ghost var l := s.lives[id].(erased := s.lives[id].erased + 1);
        Record(id, conns[id].state, l, s);
        ghost var t := Steps.Update(s, id, l);
        assert Steps.RemoveConnection(s, id)
            == t.(table := s.table - {id}, pending := s.pending + [Steps.Destroy(id)], phase := s.phase);
        Note(connections - {id}, pending + [Steps.Destroy(id)], s.phase, t);
        assert Fits(Steps.RemoveConnection(s, id));
      }
    }

    method HandleClose(id: nat, ghost s: Steps.Server) returns (ok: bool)
      requires Fits(s) && id in conns
      modifies this, loop, loop.poller, conns[id], conns[id].channel
      ensures conns == old(conns)
      ensures if ok then Fits(Steps.HandleClose(s, id)) else Steps.HandleClose(s, id).failed
    {
      assert Matches(id, conns[id], s.lives[id]);
      if !conns[id].Open() {
        return false;
      }
      ok := SetMask(id, NONE, s);
      if ok {
        ok := RemoveConnection(id, Steps.SetMask(s, id, NONE));
      }
    }

    method HandleWrite(id: nat, drained: bool, ghost s: Steps.Server) returns (ok: bool)
      requires Fits(s) && id in conns
      modifies loop, loop.poller, conns[id].channel
      ensures if ok then Fits(Steps.HandleWrite(s, id, drained)) else Steps.HandleWrite(s, id, drained).failed
    {
      assert Matches(id, conns[id], s.lives[id]);
      ok := true;
      if conns[id].channel.events.writing && drained {
        ok := SetMask(id, DisableWriting(conns[id].channel.events), s);
      }
    }

    method SendInLoop(id: nat, leftover: bool, ghost s: Steps.Server) returns (ok: bool)
      requires Fits(s) && id in conns
      modifies loop, loop.poller, conns[id].channel
      ensures if ok then Fits(Steps.SendInLoop(s, id, leftover)) else Steps.SendInLoop(s, id, leftover).failed
    {
      assert Matches(id, conns[id], s.lives[id]);
      ok := true;
      if leftover && !conns[id].channel.events.writing {
        ok := SetMask(id, EnableWriting(conns[id].channel.events), s);
      }
    }

    method Send(id: nat, leftover: bool, ghost s: Steps.Server) returns (ok: bool)
      requires Fits(s) && id in conns
      modifies loop, loop.poller, conns[id].channel
      ensures if ok then Fits(Steps.Send(s, id, leftover)) else Steps.Send(s, id, leftover).failed
    {
      assert Matches(id, conns[id], s.lives[id]);
      ok := true;
      if conns[id].state == Connected {
        ok := SendInLoop(id, leftover, s);
      }
    }

    method HandleRead(id: nat, o: Offer, ghost s: Steps.Server) returns (ok: bool)
      requires Fits(s) && id in conns
      modifies this, loop, loop.poller, conns[id], conns[id].channel
      ensures conns == old(conns)
      ensures if ok then Fits(Steps.HandleRead(s, id, o)) else Steps.HandleRead(s, id, o).failed
    {
      ok := true;
      if o.n == 0 {
        ok := HandleClose(id, s);
      } else if o.n > 0 && o.reply {
        ok := Send(id, true, s);
      }
    }

    method HandleIncoming(id: nat, r: Revents, o: Offer, ghost s: Steps.Server) returns (ok: bool)
      requires Fits(s) && id in conns
      modifies this, loop, loop.poller, conns[id], conns[id].channel
      ensures conns == old(conns)
      ensures if ok then Fits(Steps.Incoming(s, id, r, o)) else Steps.Incoming(s, id, r, o).failed
    {
      ghost var t := if Closes(r) then Steps.Answer(s, id, CloseCallback, o) else s;
      ok := true;
      if Closes(r) {
        ok := HandleClose(id, s);
      }
      if ok && Reads(r) {
        ok := HandleRead(id, o, t);
      }
    }

    /** `Channel::handle_event` with the callbacks of a connection. */
    method HandleEvent(id: nat, r: Revents, o: Offer, ghost s: Steps.Server) returns (ok: bool)
      requires Fits(s) && id in conns
      modifies this, loop, loop.poller, conns[id], conns[id].channel
      ensures conns == old(conns)
      ensures if ok then Fits(Steps.ConnEvent(s, id, r, o)) else Steps.ConnEvent(s, id, r, o).failed
    {
      Steps.EventByFlags(s, id, r, o);
      ok := HandleIncoming(id, r, o, s);
      if ok && Channels.Writes(r) {
        ok := HandleWrite(id, o.drained, Steps.Incoming(s, id, r, o));
      }
    }

    /** One functor of the batch in `do_pending_functors`. */
    method RunFunctor(ghost s: Steps.Server) returns (ok: bool)
      requires Fits(s) && pending != [] && pending[0].id in conns
      modifies this, loop, loop.poller
      modifies conns[pending[0].id], conns[pending[0].id].channel
      ensures conns == old(conns)
      ensures if ok then Fits(Steps.RunFunctor(s)) else Steps.RunFunctor(s).failed
    {
      var next := pending[0];
      Note(connections, pending[1..], s.phase, s);
      ghost var t := s.(pending := s.pending[1..]);
      match next {
        case Destroy(id) => ok := ConnectDestroyed(id, t);
        case QueuedSend(id, leftover) => ok := SendInLoop(id, leftover, t);
      }
    }

    // ---------------------------------------------------------------- whole runs

    /** `shutdown`, on any thread: the compare-exchange. */
    method Shutdown(id: nat, ghost s: Steps.Server)
      requires Fits(s) && id in conns
      modifies conns[id]
      ensures Fits(if s.lives[id].state == Connected
                   then Steps.Update(s, id, s.lives[id].(state := Disconnecting)) else s)
    {
      assert Matches(id, conns[id], s.lives[id]);
      assert Placed(s, id);
      if conns[id].state == Connected {
        Record(id, Disconnecting, s.lives[id].(state := Disconnecting), s);
      }
    }

    /** `send` on another thread queues the rest of it. */
    method SendElsewhere(id: nat, leftover: bool, ghost s: Steps.Server)
      requires Fits(s) && id in conns
      modifies this
      ensures Grown()
      ensures Fits(if s.lives[id].state == Connected
                   then s.(pending := s.pending + [Steps.QueuedSend(id, leftover)]) else s)
    {
      assert Matches(id, conns[id], s.lives[id]);
      if conns[id].state == Connected {
        Note(connections, pending + [Steps.QueuedSend(id, leftover)], s.phase, s);
      }
    }

    /** The connection's turn in the loop over the active channels. */
    method OnConn(id: nat, r: Revents, o: Offer, ghost s: Steps.Server) returns (ok: bool)
      requires Fits(s) && Steps.Enabled(s, Steps.OnConn(id, r, o))
      modifies this, loop, loop.poller, conns[id], conns[id].channel
      ensures Grown()
      ensures if ok then Fits(Steps.Step(s, Steps.OnConn(id, r, o))) else Steps.Step(s, Steps.OnConn(id, r, o)).failed
    {
      ghost var t := s.(phase := Steps.Events(s.phase.active - {id}));
      Note(connections, pending, t.phase, s);
      ok := HandleEvent(id, r, o, t);
    }

    /** The next turn in the loop over the batch of functors. */
    method NextFunctor(ghost s: Steps.Server) returns (ok: bool)
      requires Fits(s) && Steps.Enabled(s, Steps.NextFunctor)
      modifies this, loop, loop.poller, conns[pending[0].id], conns[pending[0].id].channel
      ensures Grown()
      ensures if ok then Fits(Steps.Step(s, Steps.NextFunctor)) else Steps.Step(s, Steps.NextFunctor).failed
    {
      ok := RunFunctor(s);
      if ok {
        Note(connections, pending, Steps.Functors(s.phase.due - 1), Steps.RunFunctor(s));
      }
    }

    /** The loop polls, or goes on to its functors, or back. */
    method Turn(a: Steps.Action, ghost s: Steps.Server)
      requires Fits(s) && Steps.Enabled(s, a) && (a.Poll? || a.BeginFunctors? || a.EndFunctors?)
      modifies this
      ensures Grown() && Fits(Steps.Step(s, a))
    {
      Note(connections, pending, Steps.Step(s, a).phase, s);
    }

    /** One action: the objects follow the step, and an assert fails exactly where the step says so. */
    method Perform(a: Steps.Action, ghost s: Steps.Server) returns (ok: bool)
      requires Fits(s) && Steps.Enabled(s, a)
      modifies this, loop, loop.poller, Objects()
      ensures Grown()
      ensures if ok then Fits(Steps.Step(s, a)) else Steps.Step(s, a).failed
    {
      ok := true;
      match a {
        case Accept(fd) => ok := NewConnection(fd, s);
        case OnConn(id, r, o) => ok := OnConn(id, r, o, s);
        case UserSend(id, leftover) => ok := Send(id, leftover, s);
        case UserSendElsewhere(id, leftover) => SendElsewhere(id, leftover, s);
        case UserShutdown(id) => Shutdown(id, s);
        case NextFunctor => ok := NextFunctor(s);
        case _ => Turn(a, s);
      }
    }

    /** Every connection object was reported up once; those in the map are exactly what the poller has
        and, with their own masks, what epoll watches; the others were erased once and reported down
        once; and no epoll_ctl call was ever refused. */
    ghost predicate Settled()
      requires connections <= conns.Keys
      reads this, loop, loop.poller, Objects()
    {
      && (forall id :: id in conns ==>
            conns[id].ups == 1 && conns[id].erased == conns[id].downs == (if id in connections then 0 else 1))
      && loop.poller.channels.Values == (set id | id in connections :: conns[id].channel)
      && EpollSet.Watched(loop.poller.epoll)
         == (set id | id in connections :: (conns[id].channel.fd, conns[id].channel.events))
      && loop.poller.failures == 0
    }

    lemma {:induction false} SettledWhilePolling(s: Steps.Server)
      requires Fits(s) && Steps.Inv(s) && Steps.Booked(s) && s.phase.Polling?
      ensures connections <= conns.Keys && Settled()
    {
      EpollSet.LoggedRepresents(s.calls, loop.registry, loop.poller.epoll);
      EpollSet.WatchesWanted(loop.poller.epoll, s.registry);
      Steps.WantedAtPoll(s);
      forall id | id in conns
        ensures Matches(id, conns[id], s.lives[id]) && Steps.LifeOk(s, id) && Steps.Destroy(id) !in s.pending
      {
      }
    }

    /** The server driven through any list of actions: an assert fails exactly where the steps say so. */
    method Drive(acts: seq<Steps.Action>, ghost s: Steps.Server) returns (ok: bool)
      requires Fits(s) && Steps.EnabledRun(s, acts)
      modifies this, loop, loop.poller, Objects()
      ensures if ok then Fits(Steps.Run(s, acts)) else Steps.Run(s, acts).failed
      decreases |acts|
    {
      ok := true;
      if acts != [] {
        ok := Perform(acts[0], s);
        if ok {
          ok := Drive(acts[1..], Steps.Step(s, acts[0]));
        }
      }
    }

    /** If no breaking event occurs, no assert fails, and whenever the loop polls everything is settled. */
    method Serve(acts: seq<Steps.Action>, ghost s: Steps.Server) returns (ok: bool)
      requires Fits(s) && Steps.Inv(s) && Steps.Booked(s) && Steps.EnabledRun(s, acts)
      modifies this, loop, loop.poller, Objects()
      ensures if ok then Fits(Steps.Run(s, acts)) else Steps.Run(s, acts).failed
      ensures Steps.NeverBreaks(s, acts) ==> ok
      ensures Steps.NeverBreaks(s, acts) && Steps.Run(s, acts).phase.Polling? ==>
        connections <= conns.Keys && Settled()
    {
      Steps.AlwaysHealthyIff(s, acts);
      ok := Drive(acts, s);
      if ok && Steps.NeverBreaks(s, acts) && Steps.Run(s, acts).phase.Polling? {
        SettledWhilePolling(Steps.Run(s, acts));
      }
    }
  }
}
