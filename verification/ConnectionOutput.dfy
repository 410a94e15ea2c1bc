/** The sending side of tcp/TcpConnection.cpp as a state machine: direct writes, the output buffer,
    write-ready events, and the graceful close on top of them.

    The kernel is an adversary: every `::write` returns any value up to the number of bytes offered,
    negative for an error. Calls made on another thread are split as the source splits them: the
    state check or compare-exchange happens at once, the rest runs later as a queued task. */
module ConnectionOutput {
  import opened BufferLayout

  datatype State = Connecting | Connected | Disconnected | Disconnecting

  datatype Task = SendTask(message: seq<Byte>) | ShutdownTask

  /** `writing` is the channel's write interest, `out` the readable bytes of the output buffer,
      `wire` what the socket has taken, `shuts` how often SHUT_WR was issued, `wins` how many
      compare-exchanges succeeded, `completions` how many write-complete calls were queued, and
      `queued` the tasks that other threads handed to the loop. */
  datatype Conn = Conn(state: State, writing: bool, out: seq<Byte>, wire: seq<Byte>,
                       shuts: nat, wins: nat, completions: nat, queued: seq<Task>)

  const FRESH: Conn := Conn(Connecting, false, [], [], 0, 0, 0, [])

  /** `send_in_loop`; `r` is what the direct `::write` returns if it is made. */
  function SendInLoop(c: Conn, message: seq<Byte>, r: int): Conn
    requires r <= |message|
  {
    var direct := !c.writing && c.out == [];
    var n := if direct && 0 <= r then r else 0;
    var done := direct && r == |message|;
    Conn(c.state, c.writing || n < |message|, c.out + message[n..], c.wire + message[..n],
         c.shuts, c.wins, if done then c.completions + 1 else c.completions, c.queued)
  }

  function ShutdownInLoop(c: Conn): Conn {
    if c.writing then c else c.(shuts := c.shuts + 1)
  }

  /** One compare-exchange from Connected to Disconnecting. */
  function CompareExchange(c: Conn): Conn {
    if c.state == Connected then c.(state := Disconnecting, wins := c.wins + 1) else c
  }

  /** `shutdown` on the loop thread: `run_in_loop` calls straight through. */
  function Shutdown(c: Conn): Conn {
    if c.state == Connected then ShutdownInLoop(CompareExchange(c)) else c
  }

  /** `handle_write`; `r` is what `::write` of the whole buffer returns. */
  function HandleWrite(c: Conn, r: int): Conn
    requires r <= |c.out|
  {
    if !c.writing || r <= 0 then c
    else
      var d := c.(wire := c.wire + c.out[..r], out := c.out[r..]);
      if d.out != [] then d
      else
        var e := d.(writing := false, completions := d.completions + 1);
        if e.state == Disconnecting then ShutdownInLoop(e) else e
  }

  datatype Event =
    | Establish
    | Send(message: seq<Byte>, r: int)
    | Shut
    | WriteReady(r: int)
    | Close                               // handle_close: all interest off
    | Teardown                            // connect_destoryed
    | SendElsewhere(message: seq<Byte>)   // send on another thread
    | ShutElsewhere                       // shutdown on another thread
    | RunTask(r: int)                     // the loop runs the oldest queued task

  /** The source's asserts, and what the kernel may return. */
  predicate Allowed(c: Conn, e: Event) {
    match e
    case Establish => c.state == Connecting
    case Send(message, r) => r <= |message|
    case WriteReady(r) => r <= |c.out|
    case Close => c.state in {Connected, Disconnecting}
    case Teardown => c.state in {Connected, Disconnecting}
    case RunTask(r) => c.queued != [] && (c.queued[0].SendTask? ==> r <= |c.queued[0].message|)
    case _ => true
  }

  function Apply(c: Conn, e: Event): Conn
    requires Allowed(c, e)
  {
    match e
    case Establish => c.(state := Connected)
    case Send(message, r) => if c.state == Connected then SendInLoop(c, message, r) else c
    case Shut => Shutdown(c)
    case WriteReady(r) => HandleWrite(c, r)
    case Close => c.(writing := false)
    case Teardown => c.(state := Disconnected, writing := false)
    case SendElsewhere(message) =>
      if c.state == Connected then c.(queued := c.queued + [SendTask(message)]) else c
    case ShutElsewhere =>
      if c.state == Connected then CompareExchange(c).(queued := c.queued + [ShutdownTask]) else c
    case RunTask(r) =>
      var d := c.(queued := c.queued[1..]);
      match c.queued[0]
      case SendTask(message) => SendInLoop(d, message, r)
      case ShutdownTask => ShutdownInLoop(d)
  }

  /** The message, if any, that `e` brings to `send_in_loop`. */
  function Reaching(c: Conn, e: Event): seq<Byte>
    requires Allowed(c, e)
  {
    match e
    case Send(message, _) => if c.state == Connected then message else []
    case RunTask(_) => if c.queued[0].SendTask? then c.queued[0].message else []
    case _ => []
  }

  predicate AllowedRun(c: Conn, es: seq<Event>)
    decreases |es|
  {
    es == [] || (Allowed(c, es[0]) && AllowedRun(Apply(c, es[0]), es[1..]))
  }

  function Run(c: Conn, es: seq<Event>): Conn
    requires AllowedRun(c, es)
    decreases |es|
  {
    if es == [] then c else Run(Apply(c, es[0]), es[1..])
  }

  /** All messages that reached `send_in_loop`, in that order. */
  function Accepted(c: Conn, es: seq<Event>): seq<Byte>
    requires AllowedRun(c, es)
    decreases |es|
  {
    if es == [] then [] else Reaching(c, es[0]) + Accepted(Apply(c, es[0]), es[1..])
  }

  // ---------------------------------------------------------------- the byte stream

  /** Nothing waits to be written, so a message goes to `::write` directly. */
  predicate Direct(c: Conn) { !c.writing && c.out == [] }

  /** What the step offers to `::write`, if it calls it, and what the call returns. */
  function Offered(c: Conn, e: Event): seq<Byte>
    requires Allowed(c, e)
  {
    match e
    case Send(message, _) => if c.state == Connected && Direct(c) then message else []
    case RunTask(_) => if c.queued[0].SendTask? && Direct(c) then c.queued[0].message else []
    case WriteReady(_) => if c.writing then c.out else []
    case _ => []
  }

  function Returned(e: Event): int {
    match e
    case Send(_, r) => r
    case RunTask(r) => r
    case WriteReady(r) => r
    case _ => 0
  }

  /** The kernel takes as many of the bytes offered as it returns. */
  function Taken(c: Conn, e: Event): seq<Byte>
    requires Allowed(c, e)
  {
    if 0 < Returned(e) <= |Offered(c, e)| then Offered(c, e)[..Returned(e)] else []
  }

  /** A direct write takes a whole message, or a write-ready event drains the buffer. */
  predicate Completes(c: Conn, e: Event)
    requires Allowed(c, e)
  {
    match e
    case Send(message, r) => c.state == Connected && Direct(c) && r == |message|
    case RunTask(r) => c.queued[0].SendTask? && Direct(c) && r == |c.queued[0].message|
    case WriteReady(r) => c.writing && 0 < r == |c.out|
    case _ => false
  }

  /** One step: the socket gets what the kernel takes, and the rest stays buffered. A write-complete call is
      queued exactly when a direct write takes a whole message or a write-ready event drains the
      buffer, so only once every accepted byte is on the wire. */
  lemma {:induction false} StepConservesStream(c: Conn, e: Event)
    requires Allowed(c, e)
    ensures var d := Apply(c, e);
      d.wire + d.out == c.wire + c.out + Reaching(c, e) && d.wire == c.wire + Taken(c, e)
    ensures e.WriteReady? && c.writing && 0 < e.r ==>
      Apply(c, e).wire == c.wire + c.out[..e.r] && Apply(c, e).out == c.out[e.r..]
    ensures Apply(c, e).completions == c.completions + (if Completes(c, e) then 1 else 0)
    ensures Completes(c, e) ==> Apply(c, e).out == []
  {
    if e.RunTask? && c.queued[0].SendTask? {
      SendConservesStream(c.(queued := c.queued[1..]), c.queued[0].message, e.r);
    } else if e.Send? && c.state == Connected {
      SendConservesStream(c, e.message, e.r);
    } else if e.WriteReady? && e.r > 0 {
      assert c.out == c.out[..e.r] + c.out[e.r..];
    }
  }

  lemma {:induction false} SendConservesStream(c: Conn, message: seq<Byte>, r: int)
    requires r <= |message|
    ensures var d := SendInLoop(c, message, r); d.wire + d.out == c.wire + c.out + message
  {
  }

  /** For every run, with any partial, zero or failed write and any thread calling: the socket's
      bytes followed by the buffered ones are the accepted messages, in order; nothing is lost,
      repeated or reordered. */
  lemma {:induction false} StreamIsConserved(c: Conn, es: seq<Event>)
    requires AllowedRun(c, es)
    ensures var d := Run(c, es); d.wire + d.out == c.wire + c.out + Accepted(c, es)
    ensures c.wire <= Run(c, es).wire
    decreases |es|
  {
    if es != [] {
      var d := Apply(c, es[0]);
      StepConservesStream(c, es[0]);
      StreamIsConserved(d, es[1..]);
      assert (c.wire + c.out) + (Reaching(c, es[0]) + Accepted(d, es[1..]))
          == (d.wire + d.out) + Accepted(d, es[1..]);
    }
  }

  /** What the kernel takes over a run. */
  function TakenBy(c: Conn, es: seq<Event>): seq<Byte>
    requires AllowedRun(c, es)
    decreases |es|
  {
    if es == [] then [] else Taken(c, es[0]) + TakenBy(Apply(c, es[0]), es[1..])
  }

  /** For every run: the socket has what the kernel took, one write after the other, and nothing else. */
  lemma {:induction false} WireIsWhatTheKernelTook(c: Conn, es: seq<Event>)
    requires AllowedRun(c, es)
    ensures Run(c, es).wire == c.wire + TakenBy(c, es)
    decreases |es|
  {
    if es != [] {
      StepConservesStream(c, es[0]);
      WireIsWhatTheKernelTook(Apply(c, es[0]), es[1..]);
      TakenNext(c, es);
    }
  }

  lemma {:induction false} TakenNext(c: Conn, es: seq<Event>)
    requires es != [] && AllowedRun(c, es)
    ensures c.wire + Taken(c, es[0]) + TakenBy(Apply(c, es[0]), es[1..]) == c.wire + TakenBy(c, es)
  {
    var now, later := Taken(c, es[0]), TakenBy(Apply(c, es[0]), es[1..]);
    assert TakenBy(c, es) == now + later;
    assert c.wire + now + later == c.wire + (now + later);
  }

  // ---------------------------------------------------------------- calls in order

  /** The state of a connection, told by the calls alone. */
  function Next(s: State, e: Event): State {
    match e
    case Establish => Connected
    case Teardown => Disconnected
    case Shut => if s == Connected then Disconnecting else s
    case ShutElsewhere => if s == Connected then Disconnecting else s
    case _ => s
  }

  function StateAfter(s: State, es: seq<Event>): State
    decreases |es|
  {
    if es == [] then s else StateAfter(Next(s, es[0]), es[1..])
  }

  /** Whatever the kernel does, the state is what the calls make it: only a shutdown while connected
      reaches Disconnecting, and nothing leads back. */
  lemma {:induction false} StateFollowsCalls(c: Conn, es: seq<Event>)
    requires AllowedRun(c, es)
    ensures Run(c, es).state == StateAfter(c.state, es)
    decreases |es|
  {
    if es != [] {
      StateFollowsCalls(Apply(c, es[0]), es[1..]);
    }
  }

  /** The functor that a call on another thread hands over; it does if it finds the connection connected. */
  function Hands(s: State, e: Event): seq<Task> {
    match e
    case SendElsewhere(message) => if s == Connected then [SendTask(message)] else []
    case ShutElsewhere => if s == Connected then [ShutdownTask] else []
    case _ => []
  }

  /** All of them, in call order. */
  function Handed(s: State, es: seq<Event>): seq<Task>
    decreases |es|
  {
    if es == [] then [] else Hands(s, es[0]) + Handed(Next(s, es[0]), es[1..])
  }

  /** How many functors are run. */
  function Runs(es: seq<Event>): nat {
    if es == [] then 0 else (if es[0].RunTask? then 1 else 0) + Runs(es[1..])
  }

  /** What an event brings to `send_in_loop`, given the functors that are still to run: a message sent on the
      loop thread while connected, or the first functor's. */
  function Brings(s: State, tasks: seq<Task>, e: Event): seq<Byte> {
    match e
    case Send(message, _) => if s == Connected then message else []
    case RunTask(_) => if tasks != [] && tasks[0].SendTask? then tasks[0].message else []
    case _ => []
  }

  function Left(tasks: seq<Task>, e: Event): seq<Task> {
    if e.RunTask? && tasks != [] then tasks[1..] else tasks
  }

  /** All that is to reach it, told by the calls alone. */
  function Received(s: State, tasks: seq<Task>, es: seq<Event>): seq<Byte>
    decreases |es|
  {
    if es == [] then [] else Brings(s, tasks, es[0]) + Received(Next(s, es[0]), Left(tasks, es[0]), es[1..])
  }

  lemma {:induction false} StepQueues(c: Conn, e: Event)
    requires Allowed(c, e)
    ensures var d := Apply(c, e);
      d.state == Next(c.state, e)
      && d.queued == (if e.RunTask? then c.queued[1..] else c.queued) + Hands(c.state, e)
  {
  }

  /** The functors queued now and those still to come are the same after a step, but for the one it runs. */
  lemma {:induction false} StepKeepsCallOrder(c: Conn, e: Event, es: seq<Event>)
    requires Allowed(c, e)
    ensures var tasks, d := c.queued + (Hands(c.state, e) + Handed(Next(c.state, e), es)), Apply(c, e);
      && d.state == Next(c.state, e) && d.queued + Handed(d.state, es) == Left(tasks, e)
      && (e.RunTask? ==> tasks != [])
  {
    StepQueues(c, e);
    Joined(c.queued, Hands(c.state, e), Handed(Next(c.state, e), es));
  }

  lemma {:induction false} Joined(queued: seq<Task>, now: seq<Task>, later: seq<Task>)
    ensures queued + now + later == queued + (now + later)
    ensures queued != [] ==> queued[1..] + now + later == (queued + (now + later))[1..]
  {
  }

  lemma {:induction false} ReachingIsBrought(c: Conn, e: Event, later: seq<Task>)
    requires Allowed(c, e)
    ensures Reaching(c, e) == Brings(c.state, c.queued + later, e)
  {
  }

  /** For every run: the functors run are the first of those queued or handed over, the others are still
      queued, all in call order. */
  lemma {:induction false} FunctorsInCallOrder(c: Conn, es: seq<Event>)
    requires AllowedRun(c, es)
    ensures var tasks := c.queued + Handed(c.state, es);
      Runs(es) <= |tasks| && Run(c, es).queued == tasks[Runs(es)..]
    decreases |es|
  {
    if es != [] {
      StepKeepsCallOrder(c, es[0], es[1..]);
      FunctorsInCallOrder(Apply(c, es[0]), es[1..]);
    }
  }

  lemma {:induction false} AcceptedInCallOrder(c: Conn, es: seq<Event>)
    requires AllowedRun(c, es)
    ensures Accepted(c, es) == Received(c.state, c.queued + Handed(c.state, es), es)
    decreases |es|
  {
    if es != [] {
      StepKeepsCallOrder(c, es[0], es[1..]);
      ReachingIsBrought(c, es[0], Handed(c.state, es));
      AcceptedInCallOrder(Apply(c, es[0]), es[1..]);
    }
  }

  /** So for every run the bytes on the wire and in the buffer are those of the calls: the loop thread's
      where it made them, those of other threads where their functors ran, in the order of the calls. */
  lemma {:induction false} StreamIsInCallOrder(c: Conn, es: seq<Event>)
    requires AllowedRun(c, es)
    ensures var d := Run(c, es);
      d.wire + d.out == c.wire + c.out + Received(c.state, c.queued + Handed(c.state, es), es)
  {
    StreamIsConserved(c, es);
    AcceptedInCallOrder(c, es);
  }

  // ---------------------------------------------------------------- compare-exchange

  /** SHUT_WR is issued: by `shutdown` or its functor with nothing to write, or by the drain that
      a pending shutdown waits for. */
  predicate Shuts(c: Conn, e: Event)
    requires Allowed(c, e)
  {
    match e
    case Shut => c.state == Connected && !c.writing
    case RunTask(_) => c.queued[0].ShutdownTask? && !c.writing
    case WriteReady(r) => c.writing && 0 < r == |c.out| && c.state == Disconnecting
    case _ => false
  }

  lemma {:induction false} StepShutsIff(c: Conn, e: Event)
    requires Allowed(c, e)
    ensures Apply(c, e).shuts == c.shuts + (if Shuts(c, e) then 1 else 0)
    ensures Apply(c, e).wins == c.wins + (if c.state == Connected && (e.Shut? || e.ShutElsewhere?) then 1 else 0)
  {
  }

  /** Once `handle_close` or the teardown has switched writing off, nothing is written until a message
      arrives, whatever is still buffered. */
  lemma {:induction false} NothingAfterClose(c: Conn, off: Event, es: seq<Event>)
    requires (off.Close? || off.Teardown?) && Allowed(c, off) && AllowedRun(Apply(c, off), es)
    requires forall e :: e in es ==> !e.Send? && !e.RunTask?
    ensures var d := Run(Apply(c, off), es); !d.writing && d.wire == c.wire && d.out == c.out
  {
    StaysMuted(Apply(c, off), es);
  }

  lemma {:induction false} StaysMuted(c: Conn, es: seq<Event>)
    requires !c.writing && AllowedRun(c, es)
    requires forall e :: e in es ==> !e.Send? && !e.RunTask?
    ensures var d := Run(c, es); !d.writing && d.wire == c.wire && d.out == c.out
    decreases |es|
  {
    if es != [] {
      StaysMuted(Apply(c, es[0]), es[1..]);
    }
  }

  /** From every thread and at every time, the compare-exchange succeeds at most once in a
      connection's life; so at most one shutdown is ever scheduled. */
  lemma {:induction false} AtMostOneShutdownScheduled(c: Conn, es: seq<Event>)
    requires AllowedRun(c, es)
    requires c.wins <= if c.state in {Connecting, Connected} then 0 else 1
    ensures Run(c, es).wins <= 1
    decreases |es|
  {
    if es != [] {
      AtMostOneShutdownScheduled(Apply(c, es[0]), es[1..]);
    }
  }

  // ---------------------------------------------------------------- graceful close

  /** Calls made on the loop thread, before `handle_close`. */
  predicate OnLoopBeforeClose(e: Event) {
    e.Establish? || e.Send? || e.Shut? || e.WriteReady?
  }

  /** Writing is enabled exactly while bytes are buffered, and SHUT_WR has been issued exactly when
      the connection is disconnecting and drained. */
  predicate Graceful(c: Conn) {
    && (c.writing <==> c.out != [])
    && c.shuts == (if c.state == Disconnecting && c.out == [] then 1 else 0)
    && c.state != Disconnected
    && c.queued == []
  }

  lemma {:induction false} StepIsGraceful(c: Conn, e: Event)
    requires Graceful(c) && Allowed(c, e) && OnLoopBeforeClose(e)
    ensures Graceful(Apply(c, e))
    ensures c.shuts == 1 ==> Apply(c, e) == c
  {
  }

  /** Over every loop-thread run up to `handle_close`: SHUT_WR is issued at most once and exactly
      when the connection is disconnecting with every accepted byte on the wire. */
  lemma {:induction false} GracefulClose(c: Conn, es: seq<Event>)
    requires Graceful(c) && AllowedRun(c, es)
    requires forall e :: e in es ==> OnLoopBeforeClose(e)
    ensures Graceful(Run(c, es))
    ensures Run(c, es).shuts > 0 <==>
      Run(c, es).state == Disconnecting && Run(c, es).wire == c.wire + c.out + Accepted(c, es)
    decreases |es|
  {
    StreamIsConserved(c, es);
    var d := Run(c, es);
    if es != [] {
      StepIsGraceful(c, es[0]);
      GracefulClose(Apply(c, es[0]), es[1..]);
    }
    assert d.wire == d.wire + d.out <==> d.out == [] by {
      assert |d.wire + d.out| == |d.wire| + |d.out|;
    }
  }

  /** After SHUT_WR nothing changes any more: no byte is written and no second SHUT_WR issued. */
  lemma {:induction false} NothingAfterShutdown(c: Conn, es: seq<Event>)
    requires Graceful(c) && c.shuts == 1 && AllowedRun(c, es)
    requires forall e :: e in es ==> OnLoopBeforeClose(e)
    ensures Run(c, es) == c
    decreases |es|
  {
    if es != [] {
      StepIsGraceful(c, es[0]);
      NothingAfterShutdown(c, es[1..]);
    }
  }

  // ---------------------------------------------------------------- other threads

  /** Any call on any thread, before `handle_close`. */
  predicate BeforeClose(e: Event) { !e.Close? && !e.Teardown? }

  /** What all of them keep: writing is enabled exactly while bytes are buffered; SHUT_WR is issued at most
      once, only when disconnecting and drained, and then for certain once no shutdown is still queued. */
  predicate Steady(c: Conn) {
    && (c.writing <==> c.out != [])
    && c.state != Disconnected
    && (ShutdownTask in c.queued ==> c.state == Disconnecting)
    && c.shuts <= 1
    && (c.shuts == 1 ==> c.state == Disconnecting && c.out == [])
    && (c.state == Disconnecting && c.out == [] && ShutdownTask !in c.queued ==> c.shuts == 1)
  }

  /** A queued functor that comes after SHUT_WR: a second shutdown, or a message that is not empty. */
  predicate Breaks(c: Conn, e: Event) {
    e.RunTask? && c.shuts > 0 && c.queued != [] && (c.queued[0].ShutdownTask? || c.queued[0].message != [])
  }

  /** Once SHUT_WR has been issued, the step writes nothing, buffers nothing and issues none again. */
  predicate Quiet(c: Conn, d: Conn) {
    c.shuts > 0 ==> d.wire == c.wire && d.out == c.out && d.shuts == c.shuts
  }

  lemma {:induction false} StepIsQuietIff(c: Conn, e: Event)
    requires Steady(c) && Allowed(c, e) && BeforeClose(e)
    ensures Quiet(c, Apply(c, e)) <==> !Breaks(c, e)
    ensures !Breaks(c, e) ==> Steady(Apply(c, e))
  {
    if e.RunTask? {
      assert c.queued == [c.queued[0]] + c.queued[1..];
      if c.queued[0].SendTask? {
        SendExtends(c.(queued := c.queued[1..]), c.queued[0].message, e.r);
      }
    } else if e.Send? && c.state == Connected {
      SendExtends(c, e.message, e.r);
    }
  }

  /** A send leaves the wire and the buffer alone exactly when the message is empty. */
  lemma {:induction false} SendExtends(c: Conn, message: seq<Byte>, r: int)
    requires r <= |message| && (c.writing <==> c.out != [])
    ensures var d := SendInLoop(c, message, r);
      && (d.writing <==> d.out != [])
      && (d.wire == c.wire && d.out == c.out <==> message == [])
      && (d.out == [] ==> c.out == [])
  {
    var d := SendInLoop(c, message, r);
    SendConservesStream(c, message, r);
    assert |d.wire + d.out| == |c.wire + c.out + message|;
  }

  predicate AlwaysQuiet(c: Conn, es: seq<Event>)
    requires AllowedRun(c, es)
    decreases |es|
  {
    es == [] || (Quiet(c, Apply(c, es[0])) && AlwaysQuiet(Apply(c, es[0]), es[1..]))
  }

  predicate NeverBreaks(c: Conn, es: seq<Event>)
    requires AllowedRun(c, es)
    decreases |es|
  {
    es == [] || (!Breaks(c, es[0]) && NeverBreaks(Apply(c, es[0]), es[1..]))
  }

  /** Over every run of calls from any threads up to `handle_close`: nothing is written, buffered or shut
      down again after SHUT_WR, if and only if no functor of another thread's `shutdown`, nor one of
      another thread's `send` with bytes in it, is run after SHUT_WR. And in such a run SHUT_WR is
      issued at most once, with every accepted byte on the wire, and for certain once the connection is
      disconnecting and drained with no shutdown queued. */
  lemma {:induction false} AlwaysQuietIff(c: Conn, es: seq<Event>)
    requires Steady(c) && AllowedRun(c, es)
    requires forall e :: e in es ==> BeforeClose(e)
    ensures AlwaysQuiet(c, es) <==> NeverBreaks(c, es)
    ensures NeverBreaks(c, es) ==> Steady(Run(c, es))
    ensures NeverBreaks(c, es) && Run(c, es).shuts > 0 ==>
      Run(c, es).wire == c.wire + c.out + Accepted(c, es)
    decreases |es|
  {
    StreamIsConserved(c, es);
    if es != [] {
      StepIsQuietIff(c, es[0]);
      if !Breaks(c, es[0]) {
        AlwaysQuietIff(Apply(c, es[0]), es[1..]);
      }
    }
    var d := Run(c, es);
    assert d.out == [] ==> d.wire + d.out == d.wire;
  }

  /** A run from the fresh connection that breaks at its last event, which runs a queued functor. */
  ghost predicate BreaksLast(es: seq<Event>, r: int) {
    && AllowedRun(FRESH, es) && NeverBreaks(FRESH, es) && AllowedRun(FRESH, es + [RunTask(r)])
    && Breaks(Run(FRESH, es), RunTask(r))
  }

  lemma {:induction false} After(c: Conn, es: seq<Event>, e: Event)
    requires AllowedRun(c, es) && Allowed(Run(c, es), e)
    ensures AllowedRun(c, es + [e]) && Run(c, es + [e]) == Apply(Run(c, es), e)
    ensures NeverBreaks(c, es + [e]) <==> NeverBreaks(c, es) && !Breaks(Run(c, es), e)
    decreases |es|
  {
    if es == [] {
      assert [] + [e] == [e] && [e][1..] == [];
    } else {
      assert (es + [e])[1..] == es[1..] + [e];
      After(Apply(c, es[0]), es[1..], e);
    }
  }

  /** The start of each of the following runs. */
  lemma {:induction false} AfterEstablish()
    ensures AllowedRun(FRESH, [Establish]) && NeverBreaks(FRESH, [Establish])
    ensures Run(FRESH, [Establish]) == FRESH.(state := Connected)
  {
    assert [] + [Establish] == [Establish];
    After(FRESH, [], Establish);
  }

  /** `shutdown` on another thread while bytes are buffered, a drain, and then the functor: two SHUT_WR. */
  lemma {:induction false} ShutdownElsewhereShutsTwice(a: Byte, b: Byte)
    ensures BreaksLast([Establish] + [Send([a, b], 1)] + [ShutElsewhere] + [WriteReady(1)], 0)
  {
    AfterEstablish();
    var e1 := [Establish] + [Send([a, b], 1)];
    var e2 := e1 + [ShutElsewhere];
    After(FRESH, [Establish], Send([a, b], 1));
    assert Run(FRESH, e1).out == [b];
    After(FRESH, e1, ShutElsewhere);
    assert Run(FRESH, e2).queued == [ShutdownTask];
    After(FRESH, e2, WriteReady(1));
    After(FRESH, e2 + [WriteReady(1)], RunTask(0));
  }

  /** `shutdown` on another thread with nothing buffered, but behind a queued send: two SHUT_WR. */
  lemma {:induction false} ShutdownBehindSendShutsTwice(m: Byte, n: Byte)
    ensures BreaksLast([Establish] + [SendElsewhere([m, n])] + [ShutElsewhere] + [RunTask(1)] + [WriteReady(1)], 0)
  {
    AfterEstablish();
    var e1 := [Establish] + [SendElsewhere([m, n])];
    var e2 := e1 + [ShutElsewhere];
    var e3 := e2 + [RunTask(1)];
    After(FRESH, [Establish], SendElsewhere([m, n]));
    assert Run(FRESH, e1).queued == [SendTask([m, n])];
    After(FRESH, e1, ShutElsewhere);
    assert Run(FRESH, e2).queued == [SendTask([m, n]), ShutdownTask];
    After(FRESH, e2, RunTask(1));
    assert Run(FRESH, e3).queued == [ShutdownTask] && Run(FRESH, e3).out == [n];
    After(FRESH, e3, WriteReady(1));
    After(FRESH, e3 + [WriteReady(1)], RunTask(0));
  }

  /** A queued send that runs after bytes buffered at the shutdown have drained: written after SHUT_WR. */
  lemma {:induction false} SendBehindDrainIsLate(a: Byte, b: Byte, m: Byte)
    ensures BreaksLast([Establish] + [Send([a, b], 1)] + [SendElsewhere([m])] + [Shut] + [WriteReady(1)], 1)
  {
    AfterEstablish();
    var e1 := [Establish] + [Send([a, b], 1)];
    var e2 := e1 + [SendElsewhere([m])];
    var e3 := e2 + [Shut];
    After(FRESH, [Establish], Send([a, b], 1));
    assert Run(FRESH, e1).out == [b];
    After(FRESH, e1, SendElsewhere([m]));
    assert Run(FRESH, e2).queued == [SendTask([m])];
    After(FRESH, e2, Shut);
    After(FRESH, e3, WriteReady(1));
    After(FRESH, e3 + [WriteReady(1)], RunTask(1));
  }

  /** A queued send that the kernel refuses after SHUT_WR: the byte is buffered and goes out at the next
      write-ready event, which issues SHUT_WR once more. */
  lemma {:induction false} RefusedSendShutsTwice(m: Byte)
    ensures var es := [Establish] + [SendElsewhere([m])] + [Shut];
      && BreaksLast(es, -1)
      && AllowedRun(FRESH, es + [RunTask(-1)] + [WriteReady(1)])
      && Run(FRESH, es + [RunTask(-1)] + [WriteReady(1)]).shuts == 2
      && Run(FRESH, es + [RunTask(-1)] + [WriteReady(1)]).wire == [m]
  {
    AfterEstablish();
    var e1 := [Establish] + [SendElsewhere([m])];
    var es := e1 + [Shut];
    After(FRESH, [Establish], SendElsewhere([m]));
    assert Run(FRESH, e1).queued == [SendTask([m])];
    After(FRESH, e1, Shut);
    After(FRESH, es, RunTask(-1));
    assert Run(FRESH, es + [RunTask(-1)]).out == [m];
    After(FRESH, es + [RunTask(-1)], WriteReady(1));
  }

  // Two shapes of run in which the condition is read off the state at the call.

  /** Write-ready events only. */
  function WriteEvents(rs: seq<int>): seq<Event> {
    seq(|rs|, i requires 0 <= i < |rs| => WriteReady(rs[i]))
  }

  lemma {:induction false} WritesWhileDisconnecting(c: Conn, rs: seq<int>)
    requires c.state == Disconnecting && (c.writing <==> c.out != [])
    requires AllowedRun(c, WriteEvents(rs))
    ensures var d := Run(c, WriteEvents(rs));
      d.state == Disconnecting && (d.writing <==> d.out != []) && d.queued == c.queued
      && d.shuts == c.shuts + (if c.out != [] && d.out == [] then 1 else 0)
      && (c.out == [] ==> d.out == [])
    decreases |rs|
  {
    if rs != [] {
      assert WriteEvents(rs)[1..] == WriteEvents(rs[1..]);
      WritesWhileDisconnecting(Apply(c, WriteReady(rs[0])), rs[1..]);
    }
  }

  /** In a run of exactly this shape (nothing queued at the call, then `shutdown` on another thread, only
      write-ready events, and the functor), SHUT_WR is issued twice if and only if bytes were buffered at
      the call and drained before the functor. */
  lemma {:induction false} ShutdownElsewhereShutsTwiceIff(c: Conn, rs: seq<int>)
    requires Graceful(c) && c.state == Connected
    requires AllowedRun(Apply(c, ShutElsewhere), WriteEvents(rs))
    ensures var d := Run(Apply(c, ShutElsewhere), WriteEvents(rs));
      Allowed(d, RunTask(0))
      && (Apply(d, RunTask(0)).shuts == 2 <==> c.out != [] && d.out == [])
      && (Apply(d, RunTask(0)).shuts == 0 <==> d.out != [])
  {
    var s := Apply(c, ShutElsewhere);
    assert s.queued == [ShutdownTask];
    WritesWhileDisconnecting(s, rs);
  }

  /** In a run of exactly this shape (nothing queued, a message sent on another thread, `shutdown` on the
      loop thread, and the functor at once), the functor writes after SHUT_WR if and only if nothing was
      buffered and the kernel takes a byte. */
  lemma {:induction false} SendElsewhereWritesAfterShutdownIff(c: Conn, message: seq<Byte>, r: int)
    requires Graceful(c) && c.state == Connected && r <= |message|
    ensures var d := Apply(Apply(c, SendElsewhere(message)), Shut);
      Allowed(d, RunTask(r))
      && (d.shuts > 0 && Apply(d, RunTask(r)).wire != d.wire <==> c.out == [] && r > 0)
  {
  }
}
