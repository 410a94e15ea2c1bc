/** tcp/Connector.cpp as steps on a record: connecting, retrying, handing the socket over, and the
    deferred destruction of the connecting channel.

    Sockets are numbered in the order `connect` makes them, so that a reused descriptor is not
    confused with the socket that had it before. A failed assert sets `failed` and ends the run. */
module ConnectorSteps {
  import opened Channels

  datatype State = Disconnected | Connecting | Connected

  /** The connecting channel: none, or one for a socket, in the poller or already out of it. */
  datatype Handle = NoChannel | Handle(sock: nat, registered: bool)

  /** Functors queued in the loop: the connector's own, and for a client's connections a teardown, or a
      send handed over by another thread, which leaves bytes unwritten or not. */
  datatype Functor = ResetChannel | Destroy(id: nat) | QueuedSend(id: nat, leftover: bool)

  /** `handling` is the channel's `event_handling_`; `timers` counts pending retry timers; `closed` and
      `handed` record how often each socket was closed or given to the callback. */
  datatype Connector = Connector(
    state: State, wants: bool, channel: Handle, handling: bool, timers: nat, retryDelay: nat,
    made: nat, closed: multiset<nat>, handed: multiset<nat>, pending: seq<Functor>, failed: bool)

  const INIT_RETRY_DELAY_MS: nat := 500
  const MAX_RETRY_DELAY_MS: nat := 30_000

  const INITIAL: Connector := Connector(Disconnected, false, NoChannel, false, 0, INIT_RETRY_DELAY_MS,
    0, multiset{}, multiset{}, [], false)

  // ---------------------------------------------------------------- the switch on errno

  const EINTR := 4
  const EAGAIN := 11
  const EADDRINUSE := 98
  const EADDRNOTAVAIL := 99
  const ENETUNREACH := 101
  const EISCONN := 106
  const ECONNREFUSED := 111
  const EINPROGRESS := 115

  datatype Outcome = Proceed | TryLater | GiveUp

  function Classify(errno: int): Outcome {
    if errno in {0, EINPROGRESS, EINTR, EISCONN} then Proceed
    else if errno in {EAGAIN, EADDRINUSE, EADDRNOTAVAIL, ECONNREFUSED, ENETUNREACH} then TryLater
    else GiveUp
  }

  // ---------------------------------------------------------------- steps

  function Close(c: Connector, sock: nat): Connector {
    c.(closed := c.closed + multiset{sock})
  }

  /** `retry` */
  function Retry(c: Connector, sock: nat): Connector {
    var d := Close(c, sock).(state := Disconnected);
    if !d.wants then d
    else d.(timers := d.timers + 1,
            retryDelay := if d.retryDelay < MAX_RETRY_DELAY_MS then d.retryDelay else MAX_RETRY_DELAY_MS)
  }

  /** `connecting` asserts that there is no channel. */
  function StartConnecting(c: Connector, sock: nat): Connector {
    if c.channel != NoChannel then c.(state := Connecting, failed := true)
    else c.(state := Connecting, channel := Handle(sock, true))
  }

  /** `connect` */
  function Connect(c: Connector, errno: int): Connector {
    var d := c.(made := c.made + 1);
    match Classify(errno)
    case Proceed => StartConnecting(d, c.made)
    case TryLater => Retry(d, c.made)
    case GiveUp => Close(d, c.made)
  }

  /** `start_in_loop` */
  function StartInLoop(c: Connector, errno: int): Connector {
    if c.state != Disconnected then c.(failed := true)
    else if c.wants then Connect(c, errno)
    else c
  }

  function Start(c: Connector, errno: int): Connector {
    StartInLoop(c.(wants := true), errno)
  }

  function Restart(c: Connector, errno: int): Connector {
    StartInLoop(c.(state := Disconnected, retryDelay := INIT_RETRY_DELAY_MS, wants := true), errno)
  }

  /** `stop`; the cancellation may come too late for a timer whose batch is being run. */
  function Stop(c: Connector, cancels: bool): Connector {
    c.(wants := false, timers := if cancels && c.timers > 0 then c.timers - 1 else c.timers)
  }

  /** The retry timer runs `start_in_loop`. */
  function TimerFires(c: Connector, errno: int): Connector {
    if c.timers == 0 then c else StartInLoop(c.(timers := c.timers - 1), errno)
  }

  /** `remove_and_reset_channel`: out of the poller now, destroyed by a functor later. */
  function RemoveChannel(c: Connector): Connector
    requires c.channel.Handle?
  {
    c.(channel := c.channel.(registered := false), pending := c.pending + [ResetChannel])
  }

  /** `reset_channel`. A channel must not be destroyed inside its own `handle_event`; that it is not rests
      on `remove_and_reset_channel` queueing this step, and functors running between events only. */
  function DestroyChannel(c: Connector): Connector {
    if c.channel.Handle? && c.handling then c.(failed := true) else c.(channel := NoChannel)
  }

  function HandleError(c: Connector): Connector
    requires c.channel.Handle?
  {
    if c.state != Connecting then c.(failed := true) else Retry(RemoveChannel(c), c.channel.sock)
  }

  /** Where the socket goes whose channel is out of the poller. */
  function HandOver(c: Connector, refused: bool): Connector
    requires c.channel.Handle?
  {
    var sock := c.channel.sock;
    if refused then Retry(c, sock)
    else if c.wants then c.(state := Connected, handed := c.handed + multiset{sock})
    else Close(c.(state := Connected), sock)
  }

  /** `handle_write`: `refused` is a pending socket error or a self connection. */
  function HandleWrite(c: Connector, refused: bool): Connector
    requires c.channel.Handle?
  {
    if c.state == Connecting then HandOver(RemoveChannel(c), refused)
    else c.(failed := c.failed || c.state != Disconnected)
  }

  /** The connecting channel has an error and a write callback only. */
  function Answer(c: Connector, cb: Callback, refused: bool): (d: Connector)
    requires c.channel.Handle?
    ensures d.channel.Handle?
  {
    if c.failed then c
    else match cb
      case ErrorCallback => HandleError(c)
      case WriteCallback => HandleWrite(c, refused)
      case _ => c
  }

  function AnswerAll(c: Connector, cbs: seq<Callback>, refused: bool): (d: Connector)
    requires c.channel.Handle?
    ensures d.channel.Handle?
    decreases |cbs|
  {
    if cbs == [] then c else AnswerAll(Answer(c, cbs[0], refused), cbs[1..], refused)
  }

  /** `handle_event` on the connecting channel. */
  function ChannelEvent(c: Connector, r: Revents, refused: bool): Connector
    requires c.channel.Handle?
  {
    AnswerAll(c.(handling := true), Dispatch(r), refused).(handling := false)
  }

  lemma {:induction false} AnswerConcat(c: Connector, a: seq<Callback>, b: seq<Callback>, refused: bool)
    requires c.channel.Handle?
    ensures AnswerAll(c, a + b, refused) == AnswerAll(AnswerAll(c, a, refused), b, refused)
    decreases |a|
  {
    if a == [] {
      assert a + b == b;
    } else {
      assert (a + b)[1..] == a[1..] + b;
      AnswerConcat(Answer(c, a[0], refused), a[1..], b, refused);
    }
  }

  lemma {:induction false} AnswerMaybe(c: Connector, made: bool, cb: Callback, refused: bool)
    requires c.channel.Handle?
    ensures AnswerAll(c, if made then [cb] else [], refused) == if made then Answer(c, cb, refused) else c
  {
  }

  function Answered(c: Connector, r: Revents, refused: bool): Connector
    requires c.channel.Handle?
  {
    var d := if Errs(r) then Answer(c, ErrorCallback, refused) else c;
    if Writes(r) then Answer(d, WriteCallback, refused) else d
  }

  /** The error callback comes first and the write callback second, if both come. */
  lemma {:induction false} EventByFlags(c: Connector, r: Revents, refused: bool)
    requires c.channel.Handle?
    ensures ChannelEvent(c, r, refused) == Answered(c.(handling := true), r, refused).(handling := false)
  {
    DispatchMatchesFlags(r);
    var d := c.(handling := true);
    var close := if Closes(r) then [CloseCallback] else [];
    var error := if Errs(r) then [ErrorCallback] else [];
    var read := if Reads(r) then [ReadCallback] else [];
    var write := if Writes(r) then [WriteCallback] else [];
    AnswerConcat(d, close + error + read, write, refused);
    AnswerConcat(d, close + error, read, refused);
    AnswerConcat(d, close, error, refused);
    var e := if Errs(r) then Answer(d, ErrorCallback, refused) else d;
    AnswerMaybe(d, Closes(r), CloseCallback, refused);
    AnswerMaybe(d, Errs(r), ErrorCallback, refused);
    AnswerMaybe(e, Reads(r), ReadCallback, refused);
    AnswerMaybe(e, Writes(r), WriteCallback, refused);
    assert Answer(d, CloseCallback, refused) == d && Answer(e, ReadCallback, refused) == e;
  }

  /** When the asserts of the callbacks and of ~Channel fail; `AttemptIff` and `ConnectByErrno` say so of the
      other two. */
  lemma {:induction false} AssertsFailIff(c: Connector, refused: bool)
    requires !c.failed && c.channel.Handle?
    ensures HandleError(c).failed <==> c.state != Connecting
    ensures HandleWrite(c, refused).failed <==> c.state == Connected
    ensures DestroyChannel(c).failed <==> c.handling
  {
  }

  // ---------------------------------------------------------------- runs of a connector alone

  datatype Action =
    | StartCall(errno: int)
    | RestartCall(errno: int)
    | StopCall(cancels: bool)
    | TimerExpires(errno: int)
    | Event(r: Revents, refused: bool)
    | RunFunctor

  /** `restart` is called, by the client, only for a connection that was handed over; events come only
      for a channel in the poller. Otherwise anything may happen in any order. */
  predicate Enabled(c: Connector, a: Action) {
    && !c.failed
    && match a
       case RestartCall(_) => c.state == Connected
       case TimerExpires(_) => c.timers > 0
       case Event(_, _) => c.channel.Handle? && c.channel.registered
       case RunFunctor => c.pending != [] && c.pending[0] == ResetChannel
       case _ => true
  }

  function Step(c: Connector, a: Action): Connector
    requires Enabled(c, a)
  {
    match a
    case StartCall(errno) => Start(c, errno)
    case RestartCall(errno) => Restart(c, errno)
    case StopCall(cancels) => Stop(c, cancels)
    case TimerExpires(errno) => TimerFires(c, errno)
    case Event(r, refused) => ChannelEvent(c, r, refused)
    case RunFunctor => DestroyChannel(c.(pending := c.pending[1..]))
  }

  predicate EnabledRun(c: Connector, acts: seq<Action>)
    decreases |acts|
  {
    acts == [] || (Enabled(c, acts[0]) && EnabledRun(Step(c, acts[0]), acts[1..]))
  }

  function Run(c: Connector, acts: seq<Action>): Connector
    requires EnabledRun(c, acts)
    decreases |acts|
  {
    if acts == [] then c else Run(Step(c, acts[0]), acts[1..])
  }

  /** How many owners a socket has or had: closed, handed over, or held by the registered channel. */
  function Uses(c: Connector, sock: nat): nat {
    c.closed[sock] + c.handed[sock] + if c.channel == Handle(sock, true) then 1 else 0
  }

  /** The channel object is out of the poller and waits to be destroyed. */
  predicate Stale(c: Connector) { c.channel.Handle? && !c.channel.registered }

  /** Every socket ever made has exactly one owner, and the channel is in the poller exactly while
      the state is Connecting. After a failed assert, still no socket has two. */
  ghost predicate Linear(c: Connector) {
    && (forall s: nat :: Uses(c, s) <= if s < c.made then 1 else 0)
    && !c.handling
    && (!c.failed ==>
      && (forall s: nat :: s < c.made ==> Uses(c, s) == 1)
      && (c.state == Connecting <==> c.channel.Handle? && c.channel.registered)
      && multiset(c.pending)[ResetChannel] == (if Stale(c) then 1 else 0))
  }

  /** What `connect` does, by errno: 0, EINTR, EISCONN and EINPROGRESS leave the socket connecting, in a new
      channel; after EAGAIN, EADDRINUSE, EADDRNOTAVAIL, ENETUNREACH and ECONNREFUSED it is closed and tried
      again later if still wanted; after anything else it is closed and that is all. */
  lemma {:induction false} ConnectByErrno(c: Connector, errno: int)
    ensures var d, sock := Connect(c, errno), c.made;
      && d.made == c.made + 1 && d.wants == c.wants && d.handling == c.handling
      && d.handed == c.handed && d.pending == c.pending
      && if errno in {0, 4, 106, 115} then
           && d.state == Connecting && d.closed == c.closed && d.timers == c.timers
           && (c.channel == NoChannel ==> d.channel == Handle(sock, true) && d.failed == c.failed)
           && (c.channel != NoChannel ==> d.channel == c.channel && d.failed)
         else
           && d.closed == c.closed + multiset{sock} && d.channel == c.channel && d.failed == c.failed
           && if errno in {11, 98, 99, 101, 111}
              then d.state == Disconnected && d.timers == c.timers + (if c.wants then 1 else 0)
              else d.state == c.state && d.timers == c.timers
  {
  }

  lemma {:induction false} ConnectIsLinear(c: Connector, errno: int)
    requires Linear(c) && !c.failed && c.state == Disconnected
    ensures Linear(Connect(c, errno))
    ensures Connect(c, errno).state == Connecting <==> errno in {0, 4, 106, 115}
    ensures Connect(c, errno).timers == c.timers + (if errno in {11, 98, 99, 101, 111} && c.wants then 1 else 0)
  {
    var d := Connect(c, errno);
    forall s: nat
      ensures Uses(d, s) <= (if s < d.made then 1 else 0) && (s < d.made && !d.failed ==> Uses(d, s) == 1)
    {
      assert Uses(c, s) <= if s < c.made then 1 else 0;
    }
  }

  /** The event hands the socket over. */
  predicate Taken(c: Connector, r: Revents, refused: bool) { !Errs(r) && Writes(r) && !refused && c.wants }

  function Resolved(c: Connector, r: Revents, refused: bool): Connector
    requires c.channel.Handle?
  {
    if !Errs(r) && !Writes(r) then c else HandOver(RemoveChannel(c), Errs(r) || refused)
  }

  lemma {:induction false} ErrorIsAnswered(c: Connector, refused: bool)
    requires !c.failed && c.state == Connecting && c.channel.Handle?
    ensures var d := Answer(c, ErrorCallback, refused);
      d == HandOver(RemoveChannel(c), true) && !d.failed && d.state == Disconnected
  {
  }

  lemma {:induction false} AnsweredIsResolved(c: Connector, r: Revents, refused: bool)
    requires !c.failed && c.state == Connecting && c.channel.Handle?
    ensures Answered(c, r, refused) == Resolved(c, r, refused)
  {
    if Errs(r) {
      ErrorIsAnswered(c, refused);
      var d := Answer(c, ErrorCallback, refused);
      assert Answer(d, WriteCallback, refused) == d;
    } else if Writes(r) {
      assert Answer(c, WriteCallback, refused) == HandOver(RemoveChannel(c), refused);
    }
  }

  /** While connecting no assert fails in an event, and the write callback finds nothing to do after the
      error callback. */
  lemma {:induction false} EventIsResolved(c: Connector, r: Revents, refused: bool)
    requires !c.failed && !c.handling && c.state == Connecting && c.channel.Handle?
    ensures ChannelEvent(c, r, refused) == Resolved(c, r, refused)
    ensures Resolved(c, r, refused).handed != c.handed <==> Taken(c, r, refused)
  {
    EventByFlags(c, r, refused);
    AnsweredIsResolved(c.(handling := true), r, refused);
    FlagIsKept(c, r, refused);
    HandOverShows(RemoveChannel(c), Errs(r) || refused);
  }

  lemma {:induction false} FlagIsKept(c: Connector, r: Revents, refused: bool)
    requires c.channel.Handle? && !c.handling
    ensures Resolved(c.(handling := true), r, refused).(handling := false) == Resolved(c, r, refused)
  {
  }

  lemma {:induction false} HandOverShows(c: Connector, refused: bool)
    requires c.channel.Handle?
    ensures HandOver(c, refused).handed != c.handed <==> !refused && c.wants
  {
    assert (c.handed + multiset{c.channel.sock})[c.channel.sock] == c.handed[c.channel.sock] + 1;
  }

  /** What one event on the connecting channel does: nothing; or out of the poller, with a retry if it
      brought an error or the socket is refused, and otherwise the socket handed over, or closed if it
      is no longer wanted. */
  lemma {:induction false} ChannelEventEffect(c: Connector, r: Revents, refused: bool)
    requires !c.failed && !c.handling && c.state == Connecting && c.channel.Handle?
    ensures var d, sock := ChannelEvent(c, r, refused), c.channel.sock;
      if !Errs(r) && !Writes(r) then d == c
      else
        && !d.handling && d.made == c.made && d.wants == c.wants && !d.failed
        && d.channel == c.channel.(registered := false) && d.pending == c.pending + [ResetChannel]
        && if Errs(r) || refused then
             && d.state == Disconnected && d.handed == c.handed && d.closed == c.closed + multiset{sock}
             && d.timers == c.timers + (if d.wants then 1 else 0)
           else
             && d.state == Connected && d.timers == c.timers
             && if d.wants then d.handed == c.handed + multiset{sock} && d.closed == c.closed
                else d.handed == c.handed && d.closed == c.closed + multiset{sock}
  {
    EventIsResolved(c, r, refused);
  }

  lemma {:induction false} ChannelEventIsLinear(c: Connector, r: Revents, refused: bool)
    requires Linear(c) && !c.failed && c.channel.Handle? && c.channel.registered
    ensures Linear(ChannelEvent(c, r, refused)) && !ChannelEvent(c, r, refused).failed
  {
    ChannelEventEffect(c, r, refused);
    ConsumedIsLinear(c, ChannelEvent(c, r, refused));
  }

  /** The socket of the registered channel goes to exactly one place. */
  lemma {:induction false} ConsumedIsLinear(c: Connector, d: Connector)
    requires Linear(c) && !c.failed && c.channel.Handle? && c.channel.registered
    requires d == c || (
      && !d.failed && !d.handling && d.made == c.made && d.state != Connecting
      && d.channel == c.channel.(registered := false) && d.pending == c.pending + [ResetChannel]
      && d.closed + d.handed == c.closed + c.handed + multiset{c.channel.sock})
    ensures Linear(d)
  {
    forall s: nat
      ensures Uses(d, s) <= (if s < d.made then 1 else 0) && (s < d.made ==> Uses(d, s) == 1)
    {
      assert Uses(c, s) <= if s < c.made then 1 else 0;
      assert (d.closed + d.handed)[s] == d.closed[s] + d.handed[s];
      assert (c.closed + c.handed + multiset{c.channel.sock})[s]
          == c.closed[s] + c.handed[s] + if s == c.channel.sock then 1 else 0;
    }
  }

  /** Steps that touch neither sockets nor the channel, nor leave or reach Connecting. */
  lemma {:induction false} AlikeIsLinear(c: Connector, d: Connector)
    requires Linear(c) && !c.failed && !d.handling && d.pending == c.pending && d.channel == c.channel
    requires d.closed == c.closed && d.handed == c.handed && d.made == c.made
    requires d.state == Connecting <==> c.state == Connecting
    ensures Linear(d)
  {
    SameUses(c, d);
  }

  lemma {:induction false} StartInLoopIsLinear(c: Connector, errno: int)
    requires Linear(c) && !c.failed
    ensures Linear(StartInLoop(c, errno))
  {
    if c.state == Disconnected && c.wants {
      ConnectIsLinear(c, errno);
    } else {
      AlikeIsLinear(c, StartInLoop(c, errno));
    }
  }

  lemma {:induction false} ResetIsLinear(c: Connector)
    requires Linear(c) && Enabled(c, RunFunctor)
    ensures Linear(Step(c, RunFunctor))
  {
    assert c.pending == [c.pending[0]] + c.pending[1..];
    SameUses(c, Step(c, RunFunctor));
  }

  lemma {:induction false} StepIsLinear(c: Connector, a: Action)
    requires Linear(c) && Enabled(c, a)
    ensures Linear(Step(c, a))
  {
    match a
    case StartCall(errno) =>
      AlikeIsLinear(c, c.(wants := true));
      StartInLoopIsLinear(c.(wants := true), errno);
    case RestartCall(errno) =>
      var d := c.(state := Disconnected, retryDelay := INIT_RETRY_DELAY_MS, wants := true);
      AlikeIsLinear(c, d);
      StartInLoopIsLinear(d, errno);
    case StopCall(cancels) => AlikeIsLinear(c, Step(c, a));
    case TimerExpires(errno) =>
      AlikeIsLinear(c, c.(timers := c.timers - 1));
      StartInLoopIsLinear(c.(timers := c.timers - 1), errno);
    case Event(r, refused) => ChannelEventIsLinear(c, r, refused);
    case RunFunctor => ResetIsLinear(c);
  }

  /** Steps that touch neither sockets nor the registered channel. */
  lemma {:induction false} SameUses(c: Connector, d: Connector)
    requires c.closed == d.closed && c.handed == d.handed && c.made == d.made
    requires forall s: nat :: c.channel == Handle(s, true) <==> d.channel == Handle(s, true)
    ensures forall s: nat :: Uses(d, s) == Uses(c, s)
  {
  }

  /** Over every run of starts, restarts, stops, timers, events and functors in any order: no socket is
      closed twice, handed over twice, or both; until an assert fails none is lost either; and the
      channel is registered exactly while connecting, even when one event brings error and then write. */
  lemma {:induction false} SocketsAreLinear(c: Connector, acts: seq<Action>)
    requires Linear(c) && EnabledRun(c, acts)
    ensures Linear(Run(c, acts))
    ensures forall s: nat :: Run(c, acts).closed[s] + Run(c, acts).handed[s] <= 1
    decreases |acts|
  {
    if acts != [] {
      StepIsLinear(c, acts[0]);
      SocketsAreLinear(Step(c, acts[0]), acts[1..]);
    }
    var d := Run(c, acts);
    assert Linear(d);
    forall s: nat
      ensures d.closed[s] + d.handed[s] <= 1
    {
      assert Uses(d, s) <= 1;
    }
  }

  // ---------------------------------------------------------------- wanting a connection

  /** Whether a connection is wanted, told by the calls alone. */
  function WantsAfter(wants: bool, acts: seq<Action>): bool
    decreases |acts|
  {
    if acts == [] then wants
    else
      WantsAfter(if acts[0].StartCall? || acts[0].RestartCall? then true
                 else if acts[0].StopCall? then false else wants, acts[1..])
  }

  /** The attempt that `start`, `restart` or the retry timer makes: none unless a connection is wanted,
      and an assert fails unless the connector is disconnected. */
  lemma {:induction false} AttemptIff(c: Connector, errno: int)
    requires !c.failed
    ensures var d := StartInLoop(c, errno);
      if c.state != Disconnected then d.failed && d.made == c.made
      else if c.wants then d == Connect(c, errno) && d.made == c.made + 1
      else d == c
    ensures var d := Start(c, errno); d.wants && d.made == c.made + (if c.state == Disconnected then 1 else 0)
    ensures var d := Restart(c, errno);
      d.wants && d.made == c.made + 1 && d.retryDelay == 500
    ensures c.timers > 0 && c.state == Disconnected ==>
      var d := TimerFires(c, errno);
      && d.made == c.made + (if c.wants then 1 else 0)
      && d.timers == c.timers - 1 + (if c.wants && errno in {11, 98, 99, 101, 111} then 1 else 0)
    ensures c.timers == 0 ==> TimerFires(c, errno) == c
  {
    ConnectByErrno(c, errno);
    ConnectByErrno(c.(wants := true), errno);
    ConnectByErrno(c.(state := Disconnected, retryDelay := INIT_RETRY_DELAY_MS, wants := true), errno);
    if c.timers > 0 {
      ConnectByErrno(c.(timers := c.timers - 1), errno);
    }
  }

  /** `stop` cancels the pending timer, unless it comes too late for that. */
  lemma {:induction false} StopCancels(c: Connector, cancels: bool)
    ensures var d := Stop(c, cancels);
      && !d.wants && d.state == c.state && d.channel == c.channel
      && d.timers == (if cancels && c.timers > 0 then c.timers - 1 else c.timers)
  {
  }

  lemma {:induction false} StepFollowsCalls(c: Connector, a: Action)
    requires Linear(c) && Enabled(c, a)
    ensures Step(c, a).wants == WantsAfter(c.wants, [a])
    ensures !c.wants && !a.StartCall? && !a.RestartCall? ==>
      var d := Step(c, a); d.made == c.made && d.handed == c.handed && d.timers <= c.timers
  {
    assert [a][1..] == [];
    match a
    case StartCall(errno) => AttemptIff(c, errno);
    case RestartCall(errno) => AttemptIff(c, errno);
    case StopCall(cancels) => StopCancels(c, cancels);
    case TimerExpires(errno) => AttemptIff(c, errno);
    case Event(r, refused) => ChannelEventEffect(c, r, refused);
    case RunFunctor =>
  }

  /** Over every run: a connection is wanted from a `start` or `restart` to the next `stop`; and while it is
      not, no socket is made, none is handed over, and no retry timer is set. */
  lemma {:induction false} WantsFollowsCalls(c: Connector, acts: seq<Action>)
    requires Linear(c) && EnabledRun(c, acts)
    ensures Run(c, acts).wants == WantsAfter(c.wants, acts)
    ensures !c.wants && (forall a :: a in acts ==> !a.StartCall? && !a.RestartCall?) ==>
      var d := Run(c, acts); d.made == c.made && d.handed == c.handed && d.timers <= c.timers && !d.wants
    decreases |acts|
  {
    if acts != [] {
      StepFollowsCalls(c, acts[0]);
      StepIsLinear(c, acts[0]);
      assert acts[0] in acts && [acts[0]][1..] == [];
      WantsFollowsCalls(Step(c, acts[0]), acts[1..]);
    }
  }

  // ---------------------------------------------------------------- the retry delay

  lemma {:induction false} EventKeepsDelay(c: Connector, r: Revents, refused: bool)
    requires c.channel.Handle? && c.retryDelay <= MAX_RETRY_DELAY_MS
    ensures Answered(c, r, refused).retryDelay == c.retryDelay
  {
  }

  /** The retry delay never grows: the source takes the smaller of the delay and the limit without
      doubling it. */
  lemma {:induction false} RetryDelayNeverGrows(c: Connector, acts: seq<Action>)
    requires EnabledRun(c, acts) && c.retryDelay == INIT_RETRY_DELAY_MS
    ensures Run(c, acts).retryDelay == INIT_RETRY_DELAY_MS
    decreases |acts|
  {
    if acts != [] {
      assert Step(c, acts[0]).retryDelay == INIT_RETRY_DELAY_MS by {
        if acts[0].Event? {
          EventByFlags(c, acts[0].r, acts[0].refused);
          EventKeepsDelay(c.(handling := true), acts[0].r, acts[0].refused);
        }
      }
      RetryDelayNeverGrows(Step(c, acts[0]), acts[1..]);
    }
  }
}
