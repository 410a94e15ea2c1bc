/** `TcpConnection` itself, sending through a real `Buffer`. Each method is proved against the step
    of the same name in `ConnectionOutput`. */
module Connections {
  import BufferLayout
  import opened Buffers
  import opened ConnectionOutput

  class TcpConnection {
    var state: State
    var writing: bool
    const output: Buffer
    // the socket
    var wire: seq<BufferLayout.Byte>
    var shuts: nat
    // the loop's pending functors that belong to this connection
    var completions: nat
    var queued: seq<Task>
    ghost var wins: nat

    ghost predicate Valid()
      reads this, output
    {
      output.Valid()
    }

    ghost function View(): Conn
      requires Valid()
      reads this, output, output.data
    {
      Conn(state, writing, output.View().content, wire, shuts, wins, completions, queued)
    }

    constructor ()
      ensures Valid() && fresh(output) && fresh(output.data) && View() == FRESH
    {
      output := new Buffer();
      state, writing, wire, shuts, wins, completions, queued := Connecting, false, [], 0, 0, 0, [];
    }

    /** `r` is what the direct write returns. */
    method SendInLoop(message: seq<BufferLayout.Byte>, r: int)
      requires Valid() && r <= |message|
      modifies this, output, output.data
      ensures Valid() && (output.data == old(output.data) || fresh(output.data))
      ensures View() == ConnectionOutput.SendInLoop(old(View()), message, r)
    {
      var wrote := WriteDirectly(message, r);
      ghost var content := output.View().content;
      if wrote < |message| {
        output.Append(message[wrote..]);
        if !writing {
          writing := true;
        }
      }
      assert output.View().content == content + message[wrote..];
    }

    /** `send_in_loop` up to its assert: the direct write, if nothing is waiting. */
    method WriteDirectly(message: seq<BufferLayout.Byte>, r: int) returns (wrote: nat)
      requires Valid() && r <= |message|
      modifies this
      ensures Valid() && wrote == (if !old(writing) && output.View().content == [] && 0 <= r then r else 0)
      ensures View() == old(View()).(wire := old(wire) + message[..wrote], completions := old(completions) +
        if !old(writing) && output.View().content == [] && r == |message| then 1 else 0)
    {
      wrote := 0;
      if !writing && output.ReadableBytes() == 0 {
        if 0 <= r {
          wrote := r;
          wire := wire + message[..wrote];
          if wrote == |message| {
            completions := completions + 1;
          }
        }
      }
    }

    method Send(message: seq<BufferLayout.Byte>, r: int)
      requires Valid() && r <= |message|
      modifies this, output, output.data
      ensures Valid() && (output.data == old(output.data) || fresh(output.data))
      ensures View() == ConnectionOutput.Apply(old(View()), ConnectionOutput.Send(message, r))
    {
      if state == Connected {
        SendInLoop(message, r);
      }
    }

    method ShutdownInLoop()
      requires Valid()
      modifies this`shuts
      ensures Valid() && View() == ConnectionOutput.ShutdownInLoop(old(View()))
    {
      if !writing {
        shuts := shuts + 1;
      }
    }

    method CompareExchange(expected: State) returns (won: bool)
      requires Valid() && expected == Connected
      modifies this`state, this`wins
      ensures Valid() && View() == ConnectionOutput.CompareExchange(old(View()))
      ensures won <==> old(state) == Connected
    {
      won := state == expected;
      if won {
        state := Disconnecting;
        wins := wins + 1;
      }
    }

    /** The source loops as long as the exchange succeeds; the second round always fails. */
    method Shutdown()
      requires Valid()
      modifies this`state, this`wins, this`shuts
      ensures Valid() && View() == ConnectionOutput.Shutdown(old(View()))
    {
      var won := CompareExchange(Connected);
      while won
        invariant Valid() && (won ==> state == Disconnecting)
        invariant if won then View() == ConnectionOutput.CompareExchange(old(View())) && old(state) == Connected
                  else View() == ConnectionOutput.Shutdown(old(View()))
        decreases won
      {
        ShutdownInLoop();
        won := CompareExchange(Connected);
      }
    }

    /** `r` is what writing the whole readable part returns. */
    method HandleWrite(r: int)
      requires Valid() && r <= output.ReadableBytes()
      modifies this, output
      ensures Valid() && output.data == old(output.data)
      ensures View() == ConnectionOutput.HandleWrite(old(View()), r)
      ensures old(writing) && 0 < r ==>
        wire == old(wire) + old(output.Readable())[..r] && output.Readable() == old(output.Readable())[r..]
    {
      if writing {
        if r > 0 {
          wire := wire + output.Readable()[..r];
          output.Retrieve(r);
          if output.ReadableBytes() == 0 {
            writing := false;
            completions := completions + 1;
            if state == Disconnecting {
              ShutdownInLoop();
            }
          }
        }
      }
    }

    method ConnectEstablished()
      requires Valid() && state == Connecting
      modifies this`state
      ensures Valid() && View() == ConnectionOutput.Apply(old(View()), Establish)
    {
      state := Connected;
    }

    /** `handle_close`, as far as sending goes: all interest off, the state stays. */
    method HandleClose()
      requires Valid() && state in {Connected, Disconnecting}
      modifies this`writing
      ensures Valid() && View() == ConnectionOutput.Apply(old(View()), Close)
    {
      writing := false;
    }

    method ConnectDestroyed()
      requires Valid() && state in {Connected, Disconnecting}
      modifies this`state, this`writing
      ensures Valid() && View() == ConnectionOutput.Apply(old(View()), Teardown)
    {
      state := Disconnected;
      writing := false;
    }

    /** `send` and `shutdown` on another thread: the check or exchange at once, the rest as a functor. */
    method SendElsewhere(message: seq<BufferLayout.Byte>)
      requires Valid()
      modifies this`queued
      ensures Valid() && View() == ConnectionOutput.Apply(old(View()), ConnectionOutput.SendElsewhere(message))
    {
      if state == Connected {
        queued := queued + [SendTask(message)];
      }
    }

    method ShutdownElsewhere()
      requires Valid()
      modifies this`state, this`wins, this`queued
      ensures Valid() && View() == ConnectionOutput.Apply(old(View()), ShutElsewhere)
    {
      var won := CompareExchange(Connected);
      if won {
        queued := queued + [ShutdownTask];
      }
    }

    method RunQueued(r: int)
      requires Valid() && Allowed(View(), RunTask(r))
      modifies this, output, output.data
      ensures Valid() && (output.data == old(output.data) || fresh(output.data))
      ensures View() == ConnectionOutput.Apply(old(View()), RunTask(r))
    {
      var task := queued[0];
      queued := queued[1..];
      match task {
        case SendTask(message) => SendInLoop(message, r);
        case ShutdownTask => ShutdownInLoop();
      }
    }

    method Perform(e: Event)
      requires Valid() && Allowed(View(), e)
      modifies this, output, output.data
      ensures Valid() && (output.data == old(output.data) || fresh(output.data))
      ensures View() == ConnectionOutput.Apply(old(View()), e)
    {
      match e {
        case Establish => ConnectEstablished();
        case Send(message, r) => Send(message, r);
        case Shut => Shutdown();
        case WriteReady(r) => HandleWrite(r);
        case Close => HandleClose();
        case Teardown => ConnectDestroyed();
        case SendElsewhere(message) => SendElsewhere(message);
        case ShutElsewhere => ShutdownElsewhere();
        case RunTask(r) => RunQueued(r);
      }
    }

    method PerformAll(es: seq<Event>)
      requires Valid() && AllowedRun(View(), es)
      modifies this, output, output.data
      ensures Valid() && (output.data == old(output.data) || fresh(output.data))
      ensures View() == Run(old(View()), es)
      decreases |es|
    {
      if es != [] {
        Perform(es[0]);
        PerformAll(es[1..]);
      }
    }

    /** Any allowed run of calls and events, from any threads, on a real connection: what the socket took,
        followed by what is readable in the output buffer's array, is what both held before followed by
        the messages in the order of the calls; the socket took exactly what each write returned; and the
        functors not yet run are queued in call order. If no functor breaks the close, a connection that
        has issued SHUT_WR has nothing left to write. */
    method Drive(es: seq<Event>)
      requires Valid() && AllowedRun(View(), es)
      modifies this, output, output.data
      ensures Valid()
      ensures wire + output.data[output.reader..output.writer]
           == old(wire) + old(output.data[output.reader..output.writer])
              + Received(old(state), old(queued) + Handed(old(state), es), es)
      ensures wire == old(wire) + TakenBy(old(View()), es) && state == StateAfter(old(state), es)
      ensures Runs(es) <= |old(queued) + Handed(old(state), es)|
        && queued == (old(queued) + Handed(old(state), es))[Runs(es)..]
      ensures old(Steady(View())) && NeverBreaks(old(View()), es) && (forall e :: e in es ==> BeforeClose(e))
        ==> shuts <= 1 && (shuts == 1 ==> output.reader == output.writer)
    {
      StreamIsInCallOrder(View(), es);
      WireIsWhatTheKernelTook(View(), es);
      StateFollowsCalls(View(), es);
      FunctorsInCallOrder(View(), es);
      if Steady(View()) && forall e :: e in es ==> BeforeClose(e) {
        AlwaysQuietIff(View(), es);
      }
      PerformAll(es);
    }
  }
}
