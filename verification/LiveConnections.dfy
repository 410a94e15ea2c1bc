/** The life cycle of a `TcpConnection` object: it owns a channel, and its steps go through the loop to
    the poller. Servers and clients hold such objects; what they send is the subject of `Connections`. */
module LiveConnections {
  import opened Channels
  import opened ConnectionOutput
  import opened Loops
  import opened Pollers
  import Registry

  class Connection {
    const id: nat
    const channel: Channel
    var state: State
    // how often the connection callback reported it up and down, and its owner's map lost it
    var ups: nat
    var downs: nat
    ghost var erased: nat

    constructor (id: nat, fd: nat)
      ensures this.id == id == channel.holder && fresh(channel) && channel.fd == fd && channel.index == Epoller.NEW
      ensures channel.events == NONE && state == Connecting && ups == 0 && downs == 0 && erased == 0
    {
      this.id := id;
      channel := new Channel(fd, id);
      state, ups, downs, erased := Connecting, 0, 0, 0;
    }

    predicate Open()
      reads this
    {
      state in {Connected, Disconnecting}
    }

    method ConnectEstablished(loop: Loop)
      requires loop.Valid() && loop.poller.Knows(channel) && state == Connecting
      modifies this, loop, loop.poller, channel
      ensures loop.Valid() && channel.index != Epoller.NEW
      ensures state == Connected && ups == old(ups) + 1 && downs == old(downs) && erased == old(erased)
      ensures channel.events == EnableReading(old(channel.events))
      ensures loop.poller.channels == old(loop.poller.channels)[channel.fd := channel]
      ensures loop.calls == old(loop.calls) + [Registry.Update(channel.fd, channel.events)]
      ensures loop.registry == Registry.Apply(old(loop.registry), Registry.Update(channel.fd, channel.events))
    {
      state := Connected;
      loop.SetMask(channel, EnableReading(channel.events));
      ups := ups + 1;
    }

    method ConnectDestroyed(loop: Loop)
      requires loop.Valid() && loop.poller.Knows(channel) && channel.index != Epoller.NEW && Open()
      modifies this, loop, loop.poller, channel
      ensures loop.Valid() && channel.index == Epoller.NEW && channel.events == NONE
      ensures state == Disconnected && downs == old(downs) + 1 && ups == old(ups) && erased == old(erased)
      ensures loop.poller.channels == old(loop.poller.channels) - {channel.fd}
      ensures loop.calls == old(loop.calls) + [Registry.Update(channel.fd, NONE)] + [Registry.Remove(channel.fd)]
      ensures loop.registry == old(loop.registry) - {channel.fd}
    {
      state := Disconnected;
      downs := downs + 1;
      loop.Retire(channel);
    }
  }

  /** A new connection for a socket that is not in the poller, established at once. */
  method NewEstablished(id: nat, fd: nat, loop: Loop) returns (c: Connection)
    requires loop.Valid() && fd !in loop.poller.channels
    modifies loop, loop.poller
    ensures fresh(c) && fresh(c.channel) && c.id == id == c.channel.holder && c.channel.fd == fd
    ensures c.state == Connected && c.ups == 1 && c.downs == 0
    ensures loop.Valid() && loop.Carries(c.channel) && c.channel.events == EnableReading(NONE)
    ensures loop.poller.channels == old(loop.poller.channels)[fd := c.channel]
    ensures loop.registry == old(loop.registry)[fd := Registry.Entry(c.channel.events, false)]
  {
    c := new Connection(id, fd);
    c.ConnectEstablished(loop);
  }
}
