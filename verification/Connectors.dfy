/** `Connector` itself, with a real connecting channel on a loop with a real `Epoller`.

    Each method follows the step of the same name in `ConnectorSteps`, or returns false where an assert
    of the source would stop the program. No method takes the poller's asserts as a precondition: they
    follow from the channel being in the poller exactly when the state says so. */
module Connectors {
  import opened Channels
  import opened LiveConnections
  import opened Loops
  import opened Pollers
  import ConnectionOutput
  import Registry
  import Steps = ConnectorSteps

  const WRITING: Interest := EnableWriting(NONE)

  /** What makes the connector begin an attempt: `start`, `restart`, or its timer. */
  datatype Cause = Started | Restarted | TimerExpired

  function Begun(c: Steps.Connector, cause: Cause, errno: int): Steps.Connector {
    match cause
    case Started => Steps.Start(c, errno)
    case Restarted => Steps.Restart(c, errno)
    case TimerExpired => Steps.TimerFires(c, errno)
  }

  class Connector {
    const loop: Loop
    var state: Steps.State
    var wants: bool
    var channel: Channel?
    var retryDelay: nat
    // the loop's timers and functors
    var timers: nat
    var pending: seq<Steps.Functor>
    // the sockets made so far and what became of them
    var made: nat
    ghost var closed: multiset<nat>
    ghost var handed: multiset<nat>

    /** The fields, the channel and the poller are what `c` says; in the poller the channel waits to become
        writable. */
    ghost predicate Fits(c: Steps.Connector)
      reads this, loop, loop.poller, loop.poller.channels.Values`index, channel
    {
      && loop.Valid() && !c.failed && c.handling == (channel != null && channel.handling)
      && c == Steps.Connector(state, wants, c.channel, c.handling, timers, retryDelay,
                              made, closed, handed, pending, false)
      && (channel == null <==> c.channel.NoChannel?)
      && (channel != null ==>
            && channel.holder == c.channel.sock
            && if c.channel.registered then
                 Carried(channel, loop.poller.channels, loop.registry) && channel.events == WRITING
               else channel.index == Epoller.NEW)
    }

    /** The poller's other channels are left alone, and it gets no channel but the connector's. */
    twostate predicate Spares()
      reads this, loop, loop.poller
    {
      && (channel == old(channel) || channel == null || fresh(channel))
      && Kept(old(loop.poller.channels), old(loop.registry), old(channel), loop.poller.channels, loop.registry)
      && AddsOnly(old(loop.poller.channels), old(channel), loop.poller.channels, channel)
    }

    constructor (loop: Loop)
      requires loop.Valid()
      ensures this.loop == loop && Fits(Steps.INITIAL)
    {
      this.loop := loop;
      state, wants, channel := Steps.Disconnected, false, null;
      timers, pending, made, closed, handed := 0, [], 0, multiset{}, multiset{};
      retryDelay := Steps.INIT_RETRY_DELAY_MS;
    }

    /** Closes the socket and sets the timer, if a connection is still wanted. */
    method Retry(ghost sock: nat, ghost c: Steps.Connector)
      requires Fits(c)
      modifies this
      ensures Fits(Steps.Retry(c, sock)) && channel == old(channel)
    {
      assert Steps.Retry(c, sock) == c.(
        closed := closed + multiset{sock}, state := Steps.Disconnected,
        timers := if wants then timers + 1 else timers,
        retryDelay := if wants && Steps.MAX_RETRY_DELAY_MS <= retryDelay then Steps.MAX_RETRY_DELAY_MS else retryDelay);
      closed := closed + multiset{sock};
      state := Steps.Disconnected;
      if wants {
        timers := timers + 1;
        retryDelay := if retryDelay < Steps.MAX_RETRY_DELAY_MS then retryDelay else Steps.MAX_RETRY_DELAY_MS;
      }
    }

    /** `connecting`: a new channel, registered for writing. */
    method StartConnecting(fd: nat, sock: nat, ghost c: Steps.Connector) returns (ok: bool)
      requires Fits(c) && !c.handling && fd !in loop.poller.channels
      modifies this, loop, loop.poller
      ensures if ok then Fits(Steps.StartConnecting(c, sock)) else Steps.StartConnecting(c, sock).failed
      ensures Spares()
    {
      state := Steps.Connecting;
      ok := channel == null;
      if ok {
        channel := new Channel(fd, sock);
        loop.SetMask(channel, EnableWriting(channel.events));
      }
    }

    /** `connect`: a socket, and what errno says to do with it. A socket that is connecting gets a new channel,
        which is in the poller; otherwise it is closed, and a timer set for a later attempt or not. */
    method Connect(errno: int, ghost c: Steps.Connector) returns (ok: bool)
      requires Fits(c) && !c.handling
      modifies this, loop, loop.poller
      ensures if ok then Fits(Steps.Connect(c, errno)) else Steps.Connect(c, errno).failed
      ensures Spares()
      ensures ok <==> errno !in {0, 4, 106, 115} || old(channel) == null
      ensures ok && errno in {0, 4, 106, 115} ==>
        state == Steps.Connecting && channel != null && loop.Carries(channel) && closed == old(closed)
      ensures errno !in {0, 4, 106, 115} ==> channel == old(channel) && closed == old(closed) + multiset{old(made)}
      ensures ok ==> timers == old(timers) + (if errno in {11, 98, 99, 101, 111} && wants then 1 else 0)
    {
      Steps.ConnectByErrno(c, errno);
      var fd := loop.NewSocket();
      var sock := made;
      made := made + 1;
      ghost var d := c.(made := c.made + 1);
      ok := true;
      match Steps.Classify(errno) {
        case Proceed => ok := StartConnecting(fd, sock, d);
        case TryLater => Retry(sock, d);
        case GiveUp => closed := closed + multiset{sock};
      }
    }

    method StartInLoop(errno: int, ghost c: Steps.Connector) returns (ok: bool)
      requires Fits(c) && !c.handling
      modifies this, loop, loop.poller
      ensures if ok then Fits(Steps.StartInLoop(c, errno)) else Steps.StartInLoop(c, errno).failed
      ensures Spares()
    {
      ok := state == Steps.Disconnected;
      if ok && wants {
        ok := Connect(errno, c);
      }
    }

    method Start(errno: int, ghost c: Steps.Connector) returns (ok: bool)
      requires Fits(c) && !c.handling
      modifies this, loop, loop.poller
      ensures if ok then Fits(Steps.Start(c, errno)) else Steps.Start(c, errno).failed
      ensures Spares()
    {
      wants := true;
      ok := StartInLoop(errno, c.(wants := true));
    }

    method Restart(errno: int, ghost c: Steps.Connector) returns (ok: bool)
      requires Fits(c) && !c.handling
      modifies this, loop, loop.poller
      ensures if ok then Fits(Steps.Restart(c, errno)) else Steps.Restart(c, errno).failed
      ensures Spares()
    {
      state := Steps.Disconnected;
      retryDelay := Steps.INIT_RETRY_DELAY_MS;
      wants := true;
      ok := StartInLoop(errno, c.(state := Steps.Disconnected, retryDelay := Steps.INIT_RETRY_DELAY_MS, wants := true));
    }

    method Begin(cause: Cause, errno: int, ghost c: Steps.Connector) returns (ok: bool)
      requires Fits(c) && !c.handling
      modifies this, loop, loop.poller
      ensures if ok then Fits(Begun(c, cause, errno)) else Begun(c, cause, errno).failed
      ensures Spares()
    {
      match cause {
        case Started => ok := Start(errno, c);
        case Restarted => ok := Restart(errno, c);
        case TimerExpired => ok := TimerFires(errno, c);
      }
    }

    /** Whether the cancellation finds the timer is up to the timer queue. */
    method Stop(cancels: bool, ghost c: Steps.Connector)
      requires Fits(c)
      modifies this
      ensures Fits(Steps.Stop(c, cancels)) && channel == old(channel)
    {
      wants := false;
      if cancels && timers > 0 {
        timers := timers - 1;
      }
    }

    method TimerFires(errno: int, ghost c: Steps.Connector) returns (ok: bool)
      requires Fits(c) && !c.handling
      modifies this, loop, loop.poller
      ensures if ok then Fits(Steps.TimerFires(c, errno)) else Steps.TimerFires(c, errno).failed
      ensures Spares()
    {
      ok := true;
      if timers > 0 {
        timers := timers - 1;
        ok := StartInLoop(errno, c.(timers := c.timers - 1));
      }
    }

    /** `remove_and_reset_channel`: out of the poller and the kernel set at once, destroyed later. */
    method RemoveAndResetChannel(ghost c: Steps.Connector)
      requires Fits(c) && c.channel.Handle? && c.channel.registered
      modifies this, loop, loop.poller, channel
      ensures Fits(Steps.RemoveChannel(c)) && Spares() && channel == old(channel)
      ensures loop.poller.channels == old(loop.poller.channels) - {channel.fd}
    {
      loop.Retire(channel);
      pending := pending + [Steps.ResetChannel];
    }

    /** `reset_channel`: ~Channel asserts that the channel is not handling an event. */
    method ResetChannel(ghost c: Steps.Connector) returns (ok: bool)
      requires Fits(c)
      modifies this
      ensures if ok then Fits(Steps.DestroyChannel(c)) && channel == null else Steps.DestroyChannel(c).failed
    {
      ok := channel == null || !channel.handling;
      if ok {
        channel := null;
      }
    }

    /** While connecting, the channel is in the poller. */
    ghost predicate Waiting(c: Steps.Connector) {
      c.channel.Handle? && (c.state == Steps.Connecting ==> c.channel.registered)
    }

    method HandleError(ghost c: Steps.Connector) returns (ok: bool)
      requires Fits(c) && Waiting(c)
      modifies this, loop, loop.poller, channel
      ensures if ok then Fits(Steps.HandleError(c)) else Steps.HandleError(c).failed
      ensures Spares() && channel == old(channel) && (ok ==> channel.fd !in loop.poller.channels)
    {
      ok := state == Steps.Connecting;
      if ok {
        RemoveAndResetChannel(c);
        Retry(channel.holder, Steps.RemoveChannel(c));
      }
    }

    /** The socket goes back to a retry, to the callback, or is closed. */
    method HandOver(refused: bool, ghost c: Steps.Connector) returns (taken: bool)
      requires Fits(c) && c.channel.Handle?
      modifies this
      ensures channel == old(channel) && (taken <==> !refused && c.wants)
      ensures Fits(Steps.HandOver(c, refused))
    {
      taken := false;
      if refused {
        Retry(channel.holder, c);
      } else {
        state := Steps.Connected;
        if wants {
          handed := handed + multiset{channel.holder};
          taken := true;
        } else {
          closed := closed + multiset{channel.holder};
        }
      }
    }

    /** `taken` tells whether the socket went to the new-connection callback. */
    method HandleWrite(refused: bool, ghost c: Steps.Connector) returns (ok: bool, taken: bool)
      requires Fits(c) && Waiting(c)
      modifies this, loop, loop.poller, channel
      ensures if ok then Fits(Steps.HandleWrite(c, refused)) else Steps.HandleWrite(c, refused).failed
      ensures Spares() && channel == old(channel)
      ensures taken <==> c.state == Steps.Connecting && !refused && c.wants
      ensures taken ==> channel.fd !in loop.poller.channels
    {
      ok, taken := true, false;
      if state == Steps.Connecting {
        RemoveAndResetChannel(c);
        taken := HandOver(refused, Steps.RemoveChannel(c));
      } else {
        ok := state == Steps.Disconnected;
      }
    }

    method Mark(handling: bool, ghost c: Steps.Connector)
      requires Fits(c) && channel != null
      modifies channel
      ensures Fits(c.(handling := handling))
    {
      channel.handling := handling;
    }

    /** The error callback, then the write callback. */
    method Answer(r: Revents, refused: bool, ghost c: Steps.Connector) returns (ok: bool, taken: bool)
      requires Fits(c) && c.state == Steps.Connecting && c.channel.Handle? && c.channel.registered
      modifies this, loop, loop.poller, channel
      ensures ok && Fits(Steps.Resolved(c, r, refused)) && (taken <==> Steps.Taken(c, r, refused))
      ensures Spares() && channel == old(channel) && (taken ==> channel.fd !in loop.poller.channels)
    {
      ok, taken := true, false;
      ghost var d := c;
      if Errs(r) {
        ok := HandleError(c);
        d := Steps.HandleError(c);
      }
      if ok && Writes(r) {
        ok, taken := HandleWrite(refused, d);
      }
    }

    /** `Channel::handle_event` of the connecting channel, which has only these two callbacks. While
        connecting no assert fails in it. */
    method HandleEvent(r: Revents, refused: bool, ghost c: Steps.Connector) returns (ok: bool, taken: bool)
      requires Fits(c) && c.state == Steps.Connecting && c.channel.Handle? && c.channel.registered && !c.handling
      modifies this, loop, loop.poller, channel
      ensures ok && Fits(Steps.Resolved(c, r, refused)) && (taken <==> Steps.Taken(c, r, refused))
      ensures Spares() && channel == old(channel) && (taken ==> channel.fd !in loop.poller.channels)
    {
      ghost var d := Steps.Resolved(c.(handling := true), r, refused);
      assert d.(handling := false) == Steps.Resolved(c, r, refused);
      Mark(true, c);
      ok, taken := Answer(r, refused, c.(handling := true));
      Mark(false, d);
    }

    // ---------------------------------------------------------------- connections on the same loop

    /** A connection is established; the connector is not touched. */
    method EstablishBeside(id: nat, fd: nat, ghost c: Steps.Connector) returns (conn: Connection)
      requires Fits(c) && fd !in loop.poller.channels
      modifies loop, loop.poller
      ensures fresh(conn) && fresh(conn.channel) && conn.id == id == conn.channel.holder && conn.channel.fd == fd
      ensures conn.state == ConnectionOutput.Connected && conn.ups == 1 && conn.downs == 0
      ensures Fits(c) && loop.Carries(conn.channel) && conn.channel.events == EnableReading(NONE)
      ensures loop.poller.channels == old(loop.poller.channels)[fd := conn.channel]
      ensures loop.registry == old(loop.registry)[fd := Registry.Entry(conn.channel.events, false)]
    {
      conn := NewEstablished(id, fd, loop);
    }

    /** A connection's mask changes. */
    method MaskBeside(other: Channel, mask: Interest, ghost c: Steps.Connector)
      requires Fits(c) && loop.poller.Knows(other) && other != channel
      modifies loop, loop.poller, other
      ensures Fits(c) && loop.Carries(other) && other.events == mask
      ensures loop.poller.channels == old(loop.poller.channels)[other.fd := other]
      ensures loop.registry == old(loop.registry)[other.fd := loop.registry[other.fd]]
    {
      loop.SetMask(other, mask);
    }

    /** A connection is destroyed. */
    method DestroyBeside(conn: Connection, ghost c: Steps.Connector)
      requires Fits(c) && loop.Carries(conn.channel) && conn.channel != channel && conn.Open()
      modifies loop, loop.poller, conn, conn.channel
      ensures Fits(c) && conn.channel.index == Epoller.NEW && conn.channel.events == NONE
      ensures conn.state == ConnectionOutput.Disconnected
      ensures conn.downs == old(conn.downs) + 1 && conn.ups == old(conn.ups)
      ensures loop.poller.channels == old(loop.poller.channels) - {conn.channel.fd}
      ensures loop.registry == old(loop.registry) - {conn.channel.fd}
    {
      conn.ConnectDestroyed(loop);
    }
  }
}
