/** tcp/TcpClient.cpp over its connector, one loop iteration at a time: poll reports some of the ready
    sources, their handlers run, then the functors queued so far run, then the loop polls again.

    `connect` is called once, as the source expects of its user. Everything else is adversarial: errno
    values, socket errors, returned events, read counts, and when the user, on any thread, sends, shuts
    connections down, disconnects or stops. */
module ClientSteps {
  import opened Channels
  import opened ConnectorSteps
  import ConnectionOutput

  /** A connection made by the client. `mask` is its channel's interest, `added` whether its channel has
      been given to the poller and not taken back; `ups` and `downs` count its callback's reports. */
  datatype Life = Life(state: ConnectionOutput.State, mask: Interest, added: bool, ups: nat, downs: nat)

  /** A connection just established, and a destroyed one. */
  const ESTABLISHED: Life := Life(ConnectionOutput.Connected, EnableReading(NONE), true, 1, 0)

  function Gone(l: Life): Life { Life(ConnectionOutput.Disconnected, NONE, false, l.ups, l.downs + 1) }

  datatype Option<T> = None | Some(value: T)

  /** What poll can report for this client. */
  datatype Source = ConnectingChannel | RetryTimer | ConnChannel(id: nat)

  /** In `Functors(due)` the first `due` queued functors are the batch being run. */
  datatype Phase = Polling | Events(active: set<Source>) | Functors(due: nat)

  datatype Client = Client(
    cn: Connector, retry: bool, wants: bool, started: bool,
    conn: Option<nat>, lives: map<nat, Life>, nextId: nat, phase: Phase)

  const INITIAL: Client := Client(ConnectorSteps.INITIAL, false, true, false, None, map[], 1, Polling)

  // ---------------------------------------------------------------- steps

  /** The user's calls `connect`, `disconnect` and `stop`. */
  function Connect(c: Client, errno: int): Client {
    c.(started := true, wants := true, cn := Start(c.cn, errno))
  }

  /** `TcpConnection::shutdown`, on any thread. */
  function Shutdown(c: Client, id: nat): Client {
    if id in c.lives && c.lives[id].state == ConnectionOutput.Connected
    then c.(lives := c.lives[id := c.lives[id].(state := ConnectionOutput.Disconnecting)])
    else c
  }

  function Disconnect(c: Client): Client {
    var d := c.(wants := false);
    if c.conn.Some? then Shutdown(d, c.conn.value) else d
  }

  function Stop(c: Client, cancels: bool): Client {
    c.(wants := false, cn := ConnectorSteps.Stop(c.cn, cancels))
  }

  function Fail(c: Client): Client { c.(cn := c.cn.(failed := true)) }

  /** `new_connection`; `unusable` is a failed test poll, after which the source returns and leaks the
      socket. Otherwise the connection is established and its callback reports it up. */
  function NewConnection(c: Client, unusable: bool): Client {
    if unusable then c
    else c.(conn := Some(c.nextId), nextId := c.nextId + 1,
            lives := c.lives[c.nextId := ESTABLISHED])
  }

  /** One event on the connecting channel, with `new_connection` called from inside it. */
  function ConnectingEvent(c: Client, r: Revents, refused: bool, unusable: bool): Client
    requires c.cn.channel.Handle?
  {
    var cn := ChannelEvent(c.cn, r, refused);
    var d := c.(cn := cn);
    if cn.handed != c.cn.handed then NewConnection(d, unusable) else d
  }

  /** `update_channel` of a connection's channel. A channel that comes back after its removal takes its
      descriptor with it; if another channel has that by then, an assert of the poller fails. */
  function SetMask(c: Client, id: nat, mask: Interest): (d: Client)
    requires id in c.lives
    ensures id in d.lives
    ensures c.lives[id].added ==> d.lives[id].added
  {
    c.(lives := c.lives[id := c.lives[id].(mask := mask, added := true)])
  }

  /** `remove_connection` asserts that the connection removed is the current one. */
  function RemoveConnection(c: Client, id: nat, errno: int): (d: Client)
    ensures d.lives == c.lives
  {
    if c.conn != Some(id) then Fail(c)
    else
      var d := c.(conn := None, cn := c.cn.(pending := c.cn.pending + [Destroy(id)]));
      if d.retry && d.wants then d.(cn := Restart(d.cn, errno)) else d
  }

  predicate Open(l: Life) {
    l.state in {ConnectionOutput.Connected, ConnectionOutput.Disconnecting}
  }

  /** `TcpConnection::handle_close` */
  function HandleClose(c: Client, id: nat, errno: int): (d: Client)
    requires id in c.lives
    ensures id in d.lives
    ensures c.lives[id].added ==> d.lives[id].added
  {
    if Open(c.lives[id]) then RemoveConnection(SetMask(c, id, NONE), id, errno) else Fail(c)
  }

  /** `send_in_loop` and `handle_write` as far as interest goes. */
  function SendInLoop(c: Client, id: nat, leftover: bool): (d: Client)
    requires id in c.lives
    ensures id in d.lives
    ensures c.lives[id].added ==> d.lives[id].added
  {
    if leftover && !c.lives[id].mask.writing then SetMask(c, id, EnableWriting(c.lives[id].mask)) else c
  }

  function HandleWrite(c: Client, id: nat, drained: bool): (d: Client)
    requires id in c.lives
    ensures id in d.lives
    ensures c.lives[id].added ==> d.lives[id].added
  {
    if c.lives[id].mask.writing && drained then SetMask(c, id, DisableWriting(c.lives[id].mask)) else c
  }

  /** `send`, on the loop thread */
  function Send(c: Client, id: nat, leftover: bool): (d: Client)
    requires id in c.lives
    ensures id in d.lives
    ensures c.lives[id].added ==> d.lives[id].added
  {
    if c.lives[id].state == ConnectionOutput.Connected then SendInLoop(c, id, leftover) else c
  }

  /** `handle_read` */
  function HandleRead(c: Client, id: nat, o: Offer, errno: int): (d: Client)
    requires id in c.lives
    ensures id in d.lives
    ensures c.lives[id].added ==> d.lives[id].added
  {
    if o.n == 0 then HandleClose(c, id, errno)
    else if o.n > 0 && o.reply then Send(c, id, true)
    else c
  }

  /** A connection's callbacks; errors are only logged. */
  function Answer(c: Client, id: nat, cb: Callback, o: Offer, errno: int): (d: Client)
    requires id in c.lives
    ensures id in d.lives
    ensures c.lives[id].added ==> d.lives[id].added
  {
    if c.cn.failed then c
    else match cb
      case CloseCallback => HandleClose(c, id, errno)
      case ErrorCallback => c
      case ReadCallback => HandleRead(c, id, o, errno)
      case WriteCallback => HandleWrite(c, id, o.drained)
  }

  function AnswerAll(c: Client, id: nat, cbs: seq<Callback>, o: Offer, errno: int): (d: Client)
    requires id in c.lives
    ensures id in d.lives
    decreases |cbs|
  {
    if cbs == [] then c else AnswerAll(Answer(c, id, cbs[0], o, errno), id, cbs[1..], o, errno)
  }

  /** `handle_event` on the connection's channel. */
  function ConnEvent(c: Client, id: nat, r: Revents, o: Offer, errno: int): (d: Client)
    requires id in c.lives
    ensures id in d.lives
  {
    AnswerAll(c, id, Dispatch(r), o, errno)
  }

  lemma {:induction false} AnswerConcat(
      c: Client, id: nat, a: seq<Callback>, b: seq<Callback>, o: Offer, errno: int)
    requires id in c.lives
    ensures AnswerAll(c, id, a + b, o, errno) == AnswerAll(AnswerAll(c, id, a, o, errno), id, b, o, errno)
    decreases |a|
  {
    if a == [] {
      assert a + b == b;
    } else {
      assert (a + b)[1..] == a[1..] + b;
      AnswerConcat(Answer(c, id, a[0], o, errno), id, a[1..], b, o, errno);
    }
  }

  lemma {:induction false} AnswerMaybe(c: Client, id: nat, made: bool, cb: Callback, o: Offer, errno: int)
    requires id in c.lives
    ensures AnswerAll(c, id, if made then [cb] else [], o, errno) == if made then Answer(c, id, cb, o, errno) else c
  {
  }

  function Incoming(c: Client, id: nat, r: Revents, o: Offer, errno: int): (d: Client)
    requires id in c.lives
    ensures id in d.lives
    ensures c.lives[id].added ==> d.lives[id].added
  {
    var d := if Closes(r) then Answer(c, id, CloseCallback, o, errno) else c;
    if Reads(r) then Answer(d, id, ReadCallback, o, errno) else d
  }

  function Flagged(c: Client, id: nat, r: Revents, o: Offer, errno: int): Client
    requires id in c.lives
  {
    var d := Incoming(c, id, r, o, errno);
    if Channels.Writes(r) then Answer(d, id, WriteCallback, o, errno) else d
  }

  /** The close callback comes first, then read, then write. */
  lemma {:induction false} EventByFlags(c: Client, id: nat, r: Revents, o: Offer, errno: int)
    requires id in c.lives
    ensures ConnEvent(c, id, r, o, errno) == Flagged(c, id, r, o, errno)
  {
    DispatchMatchesFlags(r);
    var close := if Closes(r) then [CloseCallback] else [];
    var error := if Errs(r) then [ErrorCallback] else [];
    var read := if Reads(r) then [ReadCallback] else [];
    var write := if Channels.Writes(r) then [WriteCallback] else [];
    AnswerConcat(c, id, close + error + read, write, o, errno);
    AnswerConcat(c, id, close + error, read, o, errno);
    AnswerConcat(c, id, close, error, o, errno);
    var d := if Closes(r) then Answer(c, id, CloseCallback, o, errno) else c;
    AnswerMaybe(c, id, Closes(r), CloseCallback, o, errno);
    AnswerMaybe(d, id, Errs(r), ErrorCallback, o, errno);
    AnswerMaybe(d, id, Reads(r), ReadCallback, o, errno);
    AnswerMaybe(Incoming(c, id, r, o, errno), id, Channels.Writes(r), WriteCallback, o, errno);
  }

  /** `TcpConnection::connect_destoryed` */
  function DestroyConnection(c: Client, id: nat): Client {
    if id !in c.lives || !Open(c.lives[id]) then Fail(c)
    else c.(lives := c.lives[id := Gone(c.lives[id])])
  }

  /** What a functor does once it is off the queue. */
  function Called(c: Client, f: Functor): Client {
    match f
    case ResetChannel => c.(cn := DestroyChannel(c.cn))
    case Destroy(id) => DestroyConnection(c, id)
    case QueuedSend(id, leftover) => if id in c.lives then SendInLoop(c, id, leftover) else c
  }

  function RunFunctor(c: Client): Client
    requires c.cn.pending != []
  {
    Called(c.(cn := c.cn.(pending := c.cn.pending[1..])), c.cn.pending[0])
  }

  datatype Action =
    | ConnectCall(errno: int)
    | EnableRetry
    | DisconnectCall
    | StopCall(cancels: bool)
    | Poll(active: set<Source>)
    | OnConnecting(r: Revents, refused: bool, unusable: bool)
    | OnTimer(errno: int)
    | OnConn(id: nat, r: Revents, o: Offer, errno: int)
    | FreshTimer(errno: int)   // a retry timer fires in the iteration that armed it
    | BeginFunctors
    | NextFunctor
    | EndFunctors
    | UserSend(id: nat, leftover: bool)            // on the loop thread
    | UserSendElsewhere(id: nat, leftover: bool)   // on another one
    | UserShutdown(id: nat)                        // on any thread

  /** What is registered with the poller or the timer queue now. */
  predicate Ready(c: Client, s: Source) {
    match s
    case ConnectingChannel => c.cn.channel.Handle? && c.cn.channel.registered
    case RetryTimer => c.cn.timers > 0
    case ConnChannel(id) => id in c.lives && c.lives[id].added
  }

  predicate Active(c: Client, s: Source) { c.phase.Events? && s in c.phase.active }

  ghost predicate Enabled(c: Client, a: Action) {
    && !c.cn.failed
    && match a
       case ConnectCall(_) => !c.started
       case Poll(active) => c.phase.Polling? && forall s :: s in active ==> Ready(c, s)
       case OnConnecting(_, _, _) => Active(c, ConnectingChannel) && c.cn.channel.Handle?
       case OnTimer(_) => Active(c, RetryTimer)
       case OnConn(id, _, _, _) => Active(c, ConnChannel(id)) && id in c.lives
       case FreshTimer(_) => c.phase.Events? && c.cn.timers > 0
       case BeginFunctors => c.phase == Events({})
       case NextFunctor => c.phase.Functors? && c.phase.due > 0 && c.cn.pending != []
       case EndFunctors => c.phase == Functors(0)
       case UserSend(id, _) => !c.phase.Polling? && id in c.lives
       case UserSendElsewhere(id, _) => id in c.lives
       case _ => true
  }

  function Done(c: Client, s: Source): Client
    requires c.phase.Events?
  {
    c.(phase := Events(c.phase.active - {s}))
  }

  function Queue(c: Client, f: Functor): Client { c.(cn := c.cn.(pending := c.cn.pending + [f])) }

  ghost function Step(c: Client, a: Action): Client
    requires Enabled(c, a)
  {
    match a
    case ConnectCall(errno) => Connect(c, errno)
    case EnableRetry => c.(retry := true)
    case DisconnectCall => Disconnect(c)
    case StopCall(cancels) => Stop(c, cancels)
    case Poll(active) => c.(phase := Events(active))
    case OnConnecting(r, refused, unusable) => ConnectingEvent(Done(c, ConnectingChannel), r, refused, unusable)
    case OnTimer(errno) => var d := Done(c, RetryTimer); d.(cn := TimerFires(d.cn, errno))
    case OnConn(id, r, o, errno) => ConnEvent(Done(c, ConnChannel(id)), id, r, o, errno)
    case FreshTimer(errno) => c.(cn := TimerFires(c.cn, errno))
    case BeginFunctors => c.(phase := Functors(|c.cn.pending|))
    case NextFunctor => RunFunctor(c.(phase := Functors(c.phase.due - 1)))
    case EndFunctors => c.(phase := Polling)
    case UserSend(id, leftover) => Send(c, id, leftover)
    case UserSendElsewhere(id, leftover) =>
      if c.lives[id].state == ConnectionOutput.Connected then Queue(c, QueuedSend(id, leftover)) else c
    case UserShutdown(id) => Shutdown(c, id)
  }

  /** When the asserts of a connection and of `remove_connection` fail. */
  lemma {:induction false} AssertsFailIff(c: Client, id: nat, errno: int)
    requires !c.cn.failed && id in c.lives
    ensures DestroyConnection(c, id).cn.failed <==> !Open(c.lives[id])
    ensures c.conn != Some(id) ==> RemoveConnection(c, id, errno).cn.failed
    ensures !Open(c.lives[id]) || c.conn != Some(id) ==> HandleClose(c, id, errno).cn.failed
  {
  }

  // ---------------------------------------------------------------- what is to hold

  /** How many of: a registered connecting channel, a pending retry timer, a live connection. */
  function Live(c: Client): nat {
    (if Ready(c, ConnectingChannel) then 1 else 0) + c.cn.timers + (if c.conn.Some? then 1 else 0)
  }

  /** No assert has failed: among them that `channel_` is null on each entry to `connecting`, that no
      channel is destroyed inside its own `handle_event`, that the removed connection is the current
      one; the client is doing at most one thing; and the poller knows no destroyed connection. */
  ghost predicate Healthy(c: Client) { !c.cn.failed && Live(c) <= 1 && !Haunted(c) }

  /** A destroyed connection is registered. */
  ghost predicate Haunted(c: Client) {
    exists id :: id in c.lives && c.lives[id].added && c.lives[id].state == ConnectionOutput.Disconnected
  }

  /** The three ways to break it: an event that hangs up and reads to the end at once, closing the
      connection twice; a retry timer that fires before the functors of its own iteration have destroyed
      the old channel, and gets as far as connecting; and a send from another thread that runs after
      the connection was destroyed and leaves bytes over, which registers the dead connection again. */
  predicate Breaks(c: Client, a: Action) {
    match a
    case OnConn(_, r, o, _) => HangsUpAndReads(r) && o.n == 0
    case FreshTimer(errno) => Stale(c.cn) && c.cn.wants && errno in {0, EINTR, EISCONN, EINPROGRESS}
    case NextFunctor => c.cn.pending != [] && Late(c, c.cn.pending[0])
    case _ => false
  }

  predicate Late(c: Client, f: Functor) {
    f.QueuedSend? && f.leftover && f.id in c.lives && c.lives[f.id].state == ConnectionOutput.Disconnected
  }

  /** Where a connection is: current and reading, closing with one teardown queued, or gone. */
  ghost predicate LifeOk(c: Client, id: nat)
    requires id in c.lives
  {
    var l, teardowns := c.lives[id], multiset(c.cn.pending)[Destroy(id)];
    && id < c.nextId && l.ups == 1
    && if Open(l) then
         l.downs == 0 && l.added && (if c.conn == Some(id) then teardowns == 0 && l.mask.reading else teardowns == 1)
       else
         && l.state == ConnectionOutput.Disconnected && !l.added && l.mask == NONE && l.downs == 1
         && c.conn != Some(id) && teardowns == 0
  }

  /** What is queued later than the batch being run are sends of other threads. */
  ghost predicate SendsFrom(pending: seq<Functor>, k: nat) {
    forall i :: k <= i < |pending| ==> pending[i].QueuedSend?
  }

  ghost predicate Inv(c: Client) {
    && Linear(c.cn) && !c.cn.failed
    && (c.cn.timers > 0 ==> c.cn.timers == 1 && c.cn.state == Disconnected && c.conn == None)
    && (c.conn.Some? ==> c.cn.state == Connected && c.conn.value in c.lives)
    && (!c.started ==> c.cn.state == Disconnected && c.cn.timers == 0 && c.cn.channel == NoChannel)
    && (forall id {:trigger LifeOk(c, id)} :: id in c.lives ==> LifeOk(c, id))
    && (forall f :: f in c.cn.pending ==> f == ResetChannel || f.id in c.lives)
    && match c.phase
       case Polling => SendsFrom(c.cn.pending, 0)
       case Events(active) =>
         && (Stale(c.cn) ==> active == {})
         && (forall s :: s in active ==> active == {s} && (s != RetryTimer ==> Ready(c, s))
                                         && (s.ConnChannel? ==> c.conn == Some(s.id)))
       case Functors(due) => due <= |c.cn.pending| && SendsFrom(c.cn.pending, due)
  }

  /** No channel is left over when the loop polls. */
  lemma {:induction false} NotStaleWhilePolling(c: Client)
    requires Inv(c) && c.phase.Polling?
    ensures !Stale(c.cn)
  {
  }

  /** The connector waits for its registered channel. */
  predicate Connects(c: Client) {
    c.cn.state == Connecting && c.cn.channel.Handle? && c.cn.channel.registered && !c.cn.failed && !c.cn.handling
  }

  function Settle(c: Client, r: Revents, refused: bool, unusable: bool): Client
    requires c.cn.channel.Handle?
  {
    var d := c.(cn := Resolved(c.cn, r, refused));
    if Taken(c.cn, r, refused) then NewConnection(d, unusable) else d
  }

  lemma {:induction false} ConnectingEventEffect(c: Client, r: Revents, refused: bool, unusable: bool)
    requires Connects(c)
    ensures ConnectingEvent(c, r, refused, unusable) == Settle(c, r, refused, unusable)
  {
    EventIsResolved(c.cn, r, refused);
  }

  /** The functor at the head of the queue is due: the channel to be destroyed is out of the poller, the
      connection to be torn down is no longer the current one. */
  predicate Due(c: Client) {
    c.cn.pending != [] && match c.cn.pending[0]
      case ResetChannel => Stale(c.cn)
      case Destroy(id) => id in c.lives && c.conn != Some(id)
      case QueuedSend(id, _) => id in c.lives
  }

  lemma {:induction false} HeadIsDue(c: Client)
    requires Inv(c) && c.cn.pending != []
    ensures Due(c)
  {
    var f := c.cn.pending[0];
    assert f in c.cn.pending;
    if f.Destroy? {
      assert LifeOk(c, f.id);
    }
  }

  /** What the class needs to know of an action before it happens. */
  lemma {:induction false} IsReady(c: Client, a: Action)
    requires Inv(c) && Enabled(c, a)
    ensures a.OnConnecting? ==> Connects(c)
    ensures a.NextFunctor? ==> Due(c)
    ensures a.OnConn? ==> c.lives[a.id].added
  {
    if a.NextFunctor? {
      HeadIsDue(c);
    }
  }

  lemma {:induction false} PollKeepsInv(c: Client, active: set<Source>)
    requires Inv(c) && Enabled(c, Poll(active))
    ensures Inv(Step(c, Poll(active)))
  {
    LivesAlike(c, c.(phase := Events(active)));
    forall s | s in active && s.ConnChannel?
      ensures c.conn == Some(s.id)
    {
      GoneWhilePolling(c);
    }
  }

  /** Starting to connect, from any of its callers. */
  lemma {:induction false} StartKeepsInv(c: Client, errno: int)
    requires Inv(c) && c.started && c.cn.state == Disconnected && c.cn.timers == 0 && c.conn == None
    requires Stale(c.cn) && c.cn.wants ==> Classify(errno) != Proceed
    ensures Inv(c.(cn := StartInLoop(c.cn, errno)))
  {
    if c.cn.wants {
      ConnectIsLinear(c.cn, errno);
    }
    var d := c.(cn := StartInLoop(c.cn, errno));
    assert d.cn.pending == c.cn.pending by {
      ConnectByErrno(c.cn, errno);
    }
    LivesAlike(c, d);
  }

  lemma {:induction false} ConnectingEventKeepsInv(c: Client, r: Revents, refused: bool, unusable: bool)
    requires Inv(c) && Enabled(c, OnConnecting(r, refused, unusable))
    ensures Inv(Step(c, OnConnecting(r, refused, unusable)))
  {
    assert Ready(c, ConnectingChannel);
    var cn := ChannelEvent(c.cn, r, refused);
    ChannelEventIsLinear(c.cn, r, refused);
    ChannelEventEffect(c.cn, r, refused);
    var d := Done(c, ConnectingChannel).(cn := cn);
    assert d.phase.active == {};
    LivesAlike(c, d);
    assert Inv(d);
    if cn.handed != c.cn.handed {
      EstablishKeepsInv(d, unusable);
    }
  }

  lemma {:induction false} EstablishKeepsInv(c: Client, unusable: bool)
    requires Inv(c) && c.cn.state == Connected && c.conn == None && c.started && c.phase == Events({})
    ensures Inv(NewConnection(c, unusable))
  {
    var d := NewConnection(c, unusable);
    forall id | id in d.lives
      ensures LifeOk(d, id)
    {
      assert id in c.lives ==> LifeOk(c, id);
    }
  }

  /** Connections are where they were if neither they nor their teardowns changed. */
  lemma {:induction false} LivesAlike(c: Client, d: Client)
    requires d.lives == c.lives && d.conn == c.conn && d.nextId == c.nextId
    requires d.cn.pending == c.cn.pending || d.cn.pending == c.cn.pending + [ResetChannel]
    ensures forall id :: id in d.lives ==> (LifeOk(d, id) <==> LifeOk(c, id))
  {
  }

  /** The interest of an open connection may change; the current one must keep reading. */
  lemma {:induction false} MaskKeepsInv(c: Client, id: nat, mask: Interest)
    requires Inv(c) && id in c.lives && Open(c.lives[id]) && (c.conn == Some(id) ==> mask.reading)
    ensures Inv(SetMask(c, id, mask))
  {
    var d := SetMask(c, id, mask);
    forall other | other in d.lives
      ensures LifeOk(d, other)
    {
      assert LifeOk(c, other);
    }
  }

  lemma {:induction false} SendKeepsInv(c: Client, id: nat, leftover: bool)
    requires Inv(c) && id in c.lives && (Open(c.lives[id]) || !leftover)
    ensures Inv(SendInLoop(c, id, leftover))
  {
    assert LifeOk(c, id);
    if leftover && !c.lives[id].mask.writing {
      MaskKeepsInv(c, id, EnableWriting(c.lives[id].mask));
    }
  }

  /** The current connection muted, let go of, and its teardown queued. */
  function Dropped(c: Client, id: nat): Client
    requires id in c.lives
  {
    Queue(SetMask(c, id, NONE), Destroy(id)).(conn := None)
  }

  lemma {:induction false} DropKeepsInv(c: Client, id: nat)
    requires Inv(c) && c.conn == Some(id) && c.phase == Events({})
    ensures Inv(Dropped(c, id)) && Open(c.lives[id])
  {
    assert LifeOk(c, id);
    var d := Dropped(c, id);
    SameUses(c.cn, d.cn);
    forall other | other in d.lives
      ensures LifeOk(d, other)
    {
      assert LifeOk(c, other);
    }
  }

  lemma {:induction false} CloseKeepsInv(c: Client, id: nat, errno: int)
    requires Inv(c) && c.conn == Some(id) && !Stale(c.cn) && c.phase == Events({})
    ensures var d := HandleClose(c, id, errno);
      Inv(d) && d.conn == None && d.phase == c.phase && Open(d.lives[id])
  {
    DropKeepsInv(c, id);
    var d := Dropped(c, id);
    if d.retry && d.wants {
      var e := d.(cn := d.cn.(state := Disconnected, retryDelay := INIT_RETRY_DELAY_MS, wants := true));
      SameUses(d.cn, e.cn);
      assert forall other :: other in e.lives ==> LifeOk(d, other);
      StartKeepsInv(e, errno);
    }
  }

  /** Losing the current connection starts one new attempt if the client retries and still wants to be
      connected, which is then under way or scheduled unless errno says to give up; else none. */
  lemma {:induction false} ReconnectsIff(c: Client, id: nat, errno: int)
    requires Inv(c) && c.conn == Some(id) && !Stale(c.cn) && c.phase == Events({})
    ensures var d := HandleClose(c, id, errno);
      && d.cn.made == c.cn.made + (if c.retry && c.wants then 1 else 0)
      && Destroy(id) in d.cn.pending
      && Live(d) == (if c.retry && c.wants && errno in {0, 4, 11, 98, 99, 101, 106, 111, 115} then 1 else 0)
  {
    DropKeepsInv(c, id);
    var e := Dropped(c, id).cn.(state := Disconnected, retryDelay := INIT_RETRY_DELAY_MS, wants := true);
    SameUses(c.cn, e);
    ConnectIsLinear(e, errno);
  }

  lemma {:induction false} DoubleCloseFails(c: Client, id: nat, r: Revents, o: Offer, errno: int)
    requires Inv(c) && c.conn == Some(id) && !Stale(c.cn) && c.phase == Events({})
    requires HangsUpAndReads(r) && o.n == 0
    ensures ConnEvent(c, id, r, o, errno).cn.failed
  {
    CloseKeepsInv(c, id, errno);
    EventByFlags(c, id, r, o, errno);
    var d := HandleClose(c, id, errno);
    AssertsFailIff(d, id, errno);
    assert Incoming(c, id, r, o, errno) == HandleClose(d, id, errno);
  }

  /** While a connection's event is being handled. */
  ghost predicate InEvent(c: Client, id: nat) {
    Inv(c) && id in c.lives && Open(c.lives[id]) && c.phase == Events({})
  }

  lemma {:induction false} ReadInEvent(c: Client, id: nat, o: Offer, errno: int)
    requires InEvent(c, id) && (o.n == 0 ==> c.conn == Some(id) && !Stale(c.cn))
    ensures InEvent(Answer(c, id, ReadCallback, o, errno), id)
  {
    if o.n == 0 {
      CloseKeepsInv(c, id, errno);
    } else {
      SendKeepsInv(c, id, true);
    }
  }

  lemma {:induction false} WriteInEvent(c: Client, id: nat, o: Offer, errno: int)
    requires InEvent(c, id)
    ensures InEvent(Answer(c, id, WriteCallback, o, errno), id)
  {
    assert LifeOk(c, id);
    if c.lives[id].mask.writing && o.drained {
      MaskKeepsInv(c, id, DisableWriting(c.lives[id].mask));
    }
  }

  lemma {:induction false} ConnEventKeepsInv(c: Client, id: nat, r: Revents, o: Offer, errno: int)
    requires Inv(c) && c.conn == Some(id) && !Stale(c.cn) && c.phase == Events({})
    requires !(HangsUpAndReads(r) && o.n == 0)
    ensures Inv(ConnEvent(c, id, r, o, errno))
  {
    EventByFlags(c, id, r, o, errno);
    assert LifeOk(c, id);
    var d := if Closes(r) then Answer(c, id, CloseCallback, o, errno) else c;
    if Closes(r) {
      CloseKeepsInv(c, id, errno);
    }
    if Reads(r) {
      ReadInEvent(d, id, o, errno);
    }
    WriteInEvent(Incoming(c, id, r, o, errno), id, o, errno);
  }

  /** Taking the only active source off the list. */
  lemma {:induction false} DoneKeepsInv(c: Client, s: Source)
    requires Inv(c) && Active(c, s)
    ensures Inv(Done(c, s)) && Done(c, s).phase == Events({})
  {
    LivesAlike(c, Done(c, s));
  }

  /** The batch goes on with one functor less. */
  lemma {:induction false} PopKeepsTail(pending: seq<Functor>, due: nat)
    requires 0 < due <= |pending| && SendsFrom(pending, due)
    ensures SendsFrom(pending[1..], due - 1)
    ensures forall f :: multiset(pending[1..])[f] == multiset(pending)[f] - (if f == pending[0] then 1 else 0)
    ensures forall f :: f in pending[1..] ==> f in pending
  {
    assert pending == [pending[0]] + pending[1..];
  }

  /** The functor at the head of the batch is off the queue. */
  function Popped(c: Client): Client
    requires c.cn.pending != [] && c.phase.Functors? && c.phase.due > 0
  {
    c.(cn := c.cn.(pending := c.cn.pending[1..]), phase := Functors(c.phase.due - 1))
  }

  lemma {:induction false} ResetKeepsInv(c: Client)
    requires Inv(c) && Enabled(c, NextFunctor) && c.cn.pending[0] == ResetChannel
    ensures Inv(Step(c, NextFunctor))
  {
    StepIsReset(c);
    PopKeepsTail(c.cn.pending, c.phase.due);
    ResetIsLinear(c.cn);
    var d := Popped(c).(cn := ConnectorSteps.Step(c.cn, ConnectorSteps.Action.RunFunctor));
    forall id | id in d.lives
      ensures LifeOk(d, id)
    {
      assert LifeOk(c, id);
    }
  }

  lemma {:induction false} StepIsReset(c: Client)
    requires Enabled(c, NextFunctor) && c.cn.pending[0] == ResetChannel
    ensures Step(c, NextFunctor) == Popped(c).(cn := ConnectorSteps.Step(c.cn, ConnectorSteps.Action.RunFunctor))
  {
  }

  lemma {:induction false} TeardownKeepsInv(c: Client, id: nat)
    requires Inv(c) && Enabled(c, NextFunctor) && c.cn.pending[0] == Destroy(id)
    ensures Inv(Step(c, NextFunctor))
  {
    PopKeepsTail(c.cn.pending, c.phase.due);
    assert Destroy(id) in c.cn.pending && LifeOk(c, id);
    var d := Step(c, NextFunctor);
    SameUses(c.cn, d.cn);
    forall other | other in d.lives
      ensures LifeOk(d, other)
    {
      assert LifeOk(c, other);
    }
  }

  lemma {:induction false} PopSendKeepsInv(c: Client)
    requires Inv(c) && Enabled(c, NextFunctor) && c.cn.pending[0].QueuedSend?
    ensures Inv(Popped(c))
  {
    PopKeepsTail(c.cn.pending, c.phase.due);
    var d := Popped(c);
    SameUses(c.cn, d.cn);
    forall id | id in d.lives
      ensures LifeOk(d, id)
    {
      assert LifeOk(c, id);
    }
  }

  /** A queued send with bytes left over puts a destroyed connection back into the poller. */
  lemma {:induction false} LateSendBreaks(c: Client, id: nat)
    requires Inv(c) && id in c.lives && c.lives[id].state == ConnectionOutput.Disconnected
    ensures Haunted(SendInLoop(c, id, true))
  {
    assert LifeOk(c, id);
    var d := SendInLoop(c, id, true);
    assert d.lives[id].added && d.lives[id].state == ConnectionOutput.Disconnected;
  }

  lemma {:induction false} QueuedSendKeepsInvIff(c: Client)
    requires Inv(c) && Enabled(c, NextFunctor) && c.cn.pending[0].QueuedSend?
    ensures if Breaks(c, NextFunctor) then Haunted(Step(c, NextFunctor)) else Inv(Step(c, NextFunctor))
  {
    var f := c.cn.pending[0];
    PopSendKeepsInv(c);
    var d := Popped(c);
    assert f in c.cn.pending && LifeOk(d, f.id);
    assert SendInLoop(d, f.id, f.leftover) == Step(c, NextFunctor);
    if Breaks(c, NextFunctor) {
      LateSendBreaks(d, f.id);
    } else {
      SendKeepsInv(d, f.id, f.leftover);
    }
  }

  lemma {:induction false} QuietKeepsInv(c: Client, a: Action)
    requires Inv(c) && Enabled(c, a)
    requires a.EnableRetry? || a.StopCall? || a.BeginFunctors? || a.EndFunctors?
    ensures Inv(Step(c, a))
  {
    var d := Step(c, a);
    SameUses(c.cn, d.cn);
    LivesAlike(c, d);
  }

  lemma {:induction false} ShutdownKeepsInv(c: Client, id: nat)
    requires Inv(c)
    ensures Inv(Shutdown(c, id))
  {
    var d := Shutdown(c, id);
    forall other | other in d.lives
      ensures LifeOk(d, other)
    {
      assert LifeOk(c, other);
    }
  }

  lemma {:induction false} DisconnectKeepsInv(c: Client)
    requires Inv(c)
    ensures Inv(Disconnect(c))
  {
    var d := c.(wants := false);
    LivesAlike(c, d);
    if c.conn.Some? {
      ShutdownKeepsInv(d, c.conn.value);
    }
  }

  lemma {:induction false} QueueKeepsInv(c: Client, id: nat, leftover: bool)
    requires Inv(c) && id in c.lives
    ensures Inv(Queue(c, QueuedSend(id, leftover)))
  {
    var d := Queue(c, QueuedSend(id, leftover));
    SameUses(c.cn, d.cn);
    forall other | other in d.lives
      ensures LifeOk(d, other)
    {
      assert LifeOk(c, other);
    }
  }

  lemma {:induction false} ConnectCallKeepsInv(c: Client, errno: int)
    requires Inv(c) && Enabled(c, ConnectCall(errno))
    ensures Inv(Step(c, ConnectCall(errno)))
  {
    var d := c.(started := true, wants := true, cn := c.cn.(wants := true));
    SameUses(c.cn, d.cn);
    LivesAlike(c, d);
    StartKeepsInv(d, errno);
  }

  lemma {:induction false} StepKeepsInvIff(c: Client, a: Action)
    requires Inv(c) && Enabled(c, a)
    ensures if Breaks(c, a) then Step(c, a).cn.failed || Haunted(Step(c, a)) else Inv(Step(c, a))
  {
    if a.OnConn? || a.OnConnecting? || a.OnTimer? || a.FreshTimer? {
      EventKeepsInvIff(c, a);
    } else if a.NextFunctor? {
      FunctorKeepsInvIff(c);
    } else {
      CallKeepsInv(c, a);
    }
  }

  /** The turn of an active source. */
  lemma {:induction false} EventKeepsInvIff(c: Client, a: Action)
    requires Inv(c) && Enabled(c, a) && (a.OnConn? || a.OnConnecting? || a.OnTimer? || a.FreshTimer?)
    ensures if Breaks(c, a) then Step(c, a).cn.failed else Inv(Step(c, a))
  {
    match a
    case OnConnecting(r, refused, unusable) => ConnectingEventKeepsInv(c, r, refused, unusable);
    case OnConn(id, r, o, errno) =>
      DoneKeepsInv(c, ConnChannel(id));
      var d := Done(c, ConnChannel(id));
      if HangsUpAndReads(r) && o.n == 0 {
        DoubleCloseFails(d, id, r, o, errno);
      } else {
        ConnEventKeepsInv(d, id, r, o, errno);
      }
    case OnTimer(errno) =>
      DoneKeepsInv(c, RetryTimer);
      TimerKeepsInvIff(Done(c, RetryTimer), errno);
    case FreshTimer(errno) => TimerKeepsInvIff(c, errno);
  }

  lemma {:induction false} FunctorKeepsInvIff(c: Client)
    requires Inv(c) && Enabled(c, NextFunctor)
    ensures if Breaks(c, NextFunctor) then Haunted(Step(c, NextFunctor)) else Inv(Step(c, NextFunctor))
  {
    match c.cn.pending[0]
    case ResetChannel => ResetKeepsInv(c);
    case Destroy(id) => TeardownKeepsInv(c, id);
    case QueuedSend(_, _) => QueuedSendKeepsInvIff(c);
  }

  /** The user's calls, and the loop's moves between its phases. */
  lemma {:induction false} CallKeepsInv(c: Client, a: Action)
    requires Inv(c) && Enabled(c, a)
    requires !(a.OnConn? || a.OnConnecting? || a.OnTimer? || a.FreshTimer? || a.NextFunctor?)
    ensures Inv(Step(c, a))
  {
    match a
    case Poll(active) => PollKeepsInv(c, active);
    case ConnectCall(errno) => ConnectCallKeepsInv(c, errno);
    case DisconnectCall => DisconnectKeepsInv(c);
    case UserSend(id, leftover) =>
      if c.lives[id].state == ConnectionOutput.Connected {
        SendKeepsInv(c, id, leftover);
      }
    case UserSendElsewhere(id, leftover) => QueueKeepsInv(c, id, leftover);
    case UserShutdown(id) => ShutdownKeepsInv(c, id);
    case _ => QuietKeepsInv(c, a);
  }

  /** An action breaks the client, by a failed assert or a dead connection registered, or keeps it in order. */
  lemma {:induction false} StepBreaksIff(c: Client, a: Action)
    requires Inv(c) && Enabled(c, a)
    ensures Breaks(c, a) <==> Step(c, a).cn.failed || Haunted(Step(c, a))
    ensures !Breaks(c, a) ==> Inv(Step(c, a))
  {
    StepKeepsInvIff(c, a);
    if !Breaks(c, a) {
      NotHaunted(Step(c, a));
    }
  }

  lemma {:induction false} NotHaunted(c: Client)
    requires Inv(c)
    ensures !Haunted(c)
  {
    assert forall id :: id in c.lives ==> LifeOk(c, id);
  }

  /** The retry timer's callback. */
  lemma {:induction false} TimerKeepsInvIff(c: Client, errno: int)
    requires Inv(c) && c.phase.Events?
    ensures if c.cn.timers > 0 && Stale(c.cn) && c.cn.wants && Classify(errno) == Proceed
            then TimerFires(c.cn, errno).failed else Inv(c.(cn := TimerFires(c.cn, errno)))
  {
    if c.cn.timers > 0 {
      var d := c.(cn := c.cn.(timers := 0));
      SameUses(c.cn, d.cn);
      LivesAlike(c, d);
      assert Inv(d);
      if !(Stale(d.cn) && d.cn.wants && Classify(errno) == Proceed) {
        StartKeepsInv(d, errno);
      }
    }
  }

  // ---------------------------------------------------------------- every run

  ghost predicate EnabledRun(c: Client, acts: seq<Action>)
    decreases |acts|
  {
    acts == [] || c.cn.failed || (Enabled(c, acts[0]) && EnabledRun(Step(c, acts[0]), acts[1..]))
  }

  ghost predicate AlwaysHealthy(c: Client, acts: seq<Action>)
    requires EnabledRun(c, acts)
    decreases |acts|
  {
    Healthy(c) && (acts == [] || AlwaysHealthy(Step(c, acts[0]), acts[1..]))
  }

  ghost predicate NeverBreaks(c: Client, acts: seq<Action>)
    requires EnabledRun(c, acts)
    decreases |acts|
  {
    c.cn.failed || acts == [] || (!Breaks(c, acts[0]) && NeverBreaks(Step(c, acts[0]), acts[1..]))
  }

  /** In every run of a client whose `connect` is called once: no assert fails, it never has two of
      {registered connecting channel, pending retry timer, live connection}, and the poller never has a
      destroyed connection, if and only if none of the three breaking events occurs. */
  lemma {:induction false} AlwaysHealthyIff(c: Client, acts: seq<Action>)
    requires Inv(c) && EnabledRun(c, acts)
    ensures AlwaysHealthy(c, acts) <==> NeverBreaks(c, acts)
    decreases |acts|
  {
    NotHaunted(c);
    if acts != [] {
      StepKeepsInvIff(c, acts[0]);
      if !Breaks(c, acts[0]) {
        AlwaysHealthyIff(Step(c, acts[0]), acts[1..]);
      }
    }
  }

  ghost function Run(c: Client, acts: seq<Action>): Client
    requires EnabledRun(c, acts)
    decreases |acts|
  {
    if acts == [] || c.cn.failed then c else Run(Step(c, acts[0]), acts[1..])
  }

  lemma {:induction false} RunKeepsInv(c: Client, acts: seq<Action>)
    requires Inv(c) && EnabledRun(c, acts) && NeverBreaks(c, acts)
    ensures Inv(Run(c, acts))
    decreases |acts|
  {
    if acts != [] {
      StepKeepsInvIff(c, acts[0]);
      RunKeepsInv(Step(c, acts[0]), acts[1..]);
    }
  }

  // ---------------------------------------------------------------- what the calls mean

  /** Whether the client wants to be connected, told by the calls alone. */
  predicate Wish(wants: bool, a: Action) {
    a.ConnectCall? || (wants && !a.DisconnectCall? && !a.StopCall?)
  }

  predicate WantsAfter(wants: bool, acts: seq<Action>)
    decreases |acts|
  {
    if acts == [] then wants else WantsAfter(Wish(wants, acts[0]), acts[1..])
  }

  /** What a connection's events leave alone; sockets are made only for a client that reconnects. */
  predicate Spares(c: Client, d: Client) {
    && d.wants == c.wants && d.retry == c.retry && d.nextId == c.nextId
    && (!c.wants ==> d.cn.made == c.cn.made && d.cn.wants == c.cn.wants && d.cn.timers == c.cn.timers)
    && c.cn.pending <= d.cn.pending && Onward(c.lives, d.lives)
  }

  /** Connected, then Disconnecting, then Disconnected. */
  function Rank(s: ConnectionOutput.State): nat {
    match s
    case Connecting => 0
    case Connected => 1
    case Disconnecting => 2
    case Disconnected => 3
  }

  /** No connection goes back to an earlier state. */
  predicate Onward(lives: map<nat, Life>, later: map<nat, Life>) {
    forall id :: id in lives ==> id in later && Rank(lives[id].state) <= Rank(later[id].state)
  }

  lemma {:induction false} AnswerSpares(c: Client, id: nat, cb: Callback, o: Offer, errno: int)
    requires id in c.lives
    ensures Spares(c, Answer(c, id, cb, o, errno))
  {
    CloseSpares(c, id, errno);
    SendSpares(c, id, true);
    MaskSpares(c, id, DisableWriting(c.lives[id].mask));
  }

  lemma {:induction false} MaskSpares(c: Client, id: nat, mask: Interest)
    requires id in c.lives
    ensures Spares(c, SetMask(c, id, mask))
  {
  }

  lemma {:induction false} CloseSpares(c: Client, id: nat, errno: int)
    requires id in c.lives
    ensures Spares(c, HandleClose(c, id, errno))
  {
    RemoveSpares(SetMask(c, id, NONE), id, errno);
  }

  lemma {:induction false} RemoveSpares(c: Client, id: nat, errno: int)
    ensures Spares(c, RemoveConnection(c, id, errno))
  {
    ConnectByErrno(c.cn.(pending := c.cn.pending + [Destroy(id)], state := Disconnected,
                         retryDelay := INIT_RETRY_DELAY_MS, wants := true), errno);
  }

  lemma {:induction false} AnswersSpare(c: Client, id: nat, cbs: seq<Callback>, o: Offer, errno: int)
    requires id in c.lives
    ensures Spares(c, AnswerAll(c, id, cbs, o, errno))
    decreases |cbs|
  {
    if cbs != [] {
      AnswerSpares(c, id, cbs[0], o, errno);
      AnswersSpare(Answer(c, id, cbs[0], o, errno), id, cbs[1..], o, errno);
    }
  }

  lemma {:induction false} SendSpares(c: Client, id: nat, leftover: bool)
    requires id in c.lives
    ensures Send(c, id, leftover).cn == c.cn && Spares(c, Send(c, id, leftover))
  {
  }

  lemma {:induction false} CalledSpares(c: Client, f: Functor)
    ensures Spares(c, Called(c, f)) && Called(c, f).cn.wants == c.cn.wants
  {
    if f.Destroy? {
      DestroySpares(c, f.id);
    }
  }

  lemma {:induction false} FunctorSpares(c: Client)
    requires Enabled(c, NextFunctor)
    ensures Spares(Popped(c), Step(c, NextFunctor)) && Step(c, NextFunctor).cn.wants == c.cn.wants
  {
    CalledSpares(Popped(c), c.cn.pending[0]);
  }

  lemma {:induction false} DestroySpares(c: Client, id: nat)
    ensures Spares(c, DestroyConnection(c, id)) && DestroyConnection(c, id).cn.wants == c.cn.wants
  {
  }

  /** No socket, connection or timer is made. */
  predicate NothingMade(c: Client, d: Client) {
    !d.cn.wants && d.cn.made == c.cn.made && d.nextId == c.nextId && d.cn.timers <= c.cn.timers
  }

  /** What every step does to wishes, queue and states: the wishes are those of the calls; what is queued stays
      where it is, but for the functor that is run; no connection goes back; losing one makes a socket
      only for a client that wants to be connected; and a stopped client makes nothing. */
  predicate Follows(c: Client, a: Action, d: Client) {
    && d.wants == Wish(c.wants, a) && d.retry == (c.retry || a.EnableRetry?)
    && (if a.NextFunctor? && c.cn.pending != [] then c.cn.pending[1..] else c.cn.pending) <= d.cn.pending
    && Onward(c.lives, d.lives)
    && (a.OnConn? && !c.wants ==> d.cn.made == c.cn.made)
    && (!c.wants && !c.cn.wants && !a.ConnectCall? ==> NothingMade(c, d))
  }

  lemma {:induction false} StepFollows(c: Client, a: Action)
    requires Inv(c) && Enabled(c, a)
    ensures Follows(c, a, Step(c, a))
  {
    if a.OnConnecting? {
      ConnectingFollows(c, a);
    } else if a.OnConn? || a.OnTimer? || a.FreshTimer? || a.NextFunctor? {
      EventFollows(c, a);
    } else {
      CallFollows(c, a);
    }
  }

  lemma {:induction false} ConnectingFollows(c: Client, a: Action)
    requires Inv(c) && Enabled(c, a) && a.OnConnecting?
    ensures Follows(c, a, Step(c, a))
  {
    assert c.nextId in c.lives ==> LifeOk(c, c.nextId);
    IsReady(c, a);
    HandOverConnects(Done(c, ConnectingChannel), a.r, a.refused, a.unusable);
  }

  /** The turn of a connection, of the retry timer, or of a functor. */
  lemma {:induction false} EventFollows(c: Client, a: Action)
    requires Enabled(c, a) && (a.OnConn? || a.OnTimer? || a.FreshTimer? || a.NextFunctor?)
    ensures Follows(c, a, Step(c, a))
  {
    match a
    case OnConn(id, r, o, errno) => AnswersSpare(Done(c, ConnChannel(id)), id, Dispatch(r), o, errno);
    case OnTimer(errno) => AttemptFollows(c, errno);
    case FreshTimer(errno) => AttemptFollows(c, errno);
    case NextFunctor => FunctorSpares(c);
  }

  lemma {:induction false} AttemptFollows(c: Client, errno: int)
    ensures var d := TimerFires(c.cn, errno);
      && d.pending == c.cn.pending && d.wants == c.cn.wants
      && (!d.wants ==> d.made == c.cn.made && d.timers <= c.cn.timers)
  {
    ConnectByErrno(c.cn.(timers := if c.cn.timers > 0 then c.cn.timers - 1 else 0), errno);
  }

  /** The user's calls, and the loop's moves between its phases. */
  lemma {:induction false} CallFollows(c: Client, a: Action)
    requires Enabled(c, a)
    requires !(a.OnConn? || a.OnConnecting? || a.OnTimer? || a.FreshTimer? || a.NextFunctor?)
    ensures Follows(c, a, Step(c, a))
  {
    match a
    case ConnectCall(errno) => ConnectFollows(c, errno);
    case DisconnectCall => if c.conn.Some? { ShutdownSpares(c.(wants := false), c.conn.value); }
    case UserShutdown(id) => ShutdownSpares(c, id);
    case UserSend(id, leftover) => SendSpares(c, id, leftover);
    case _ =>
  }

  lemma {:induction false} ConnectFollows(c: Client, errno: int)
    ensures Follows(c, ConnectCall(errno), Connect(c, errno))
  {
    assert Start(c.cn, errno).pending == c.cn.pending by {
      ConnectByErrno(c.cn.(wants := true), errno);
    }
  }

  lemma {:induction false} ShutdownSpares(c: Client, id: nat)
    ensures Shutdown(c, id).cn == c.cn && Spares(c, Shutdown(c, id))
  {
  }

  /** An event on the connecting channel makes a connection, the next one, if it brings no error and the socket
      is wanted and usable; else it leaves the connections alone. */
  lemma {:induction false} HandOverConnects(c: Client, r: Revents, refused: bool, unusable: bool)
    requires Connects(c)
    ensures var d := ConnectingEvent(c, r, refused, unusable);
      && c.cn.pending <= d.cn.pending
      && if r.out && !r.err && !r.nval && !refused && c.cn.wants && !unusable then
           && d.conn == Some(c.nextId) && d.nextId == c.nextId + 1
           && d.lives == c.lives[c.nextId := Life(ConnectionOutput.Connected, Interest(true, false), true, 1, 0)]
         else d.conn == c.conn && d.nextId == c.nextId && d.lives == c.lives
    ensures var d := ConnectingEvent(c, r, refused, unusable);
      && d.wants == c.wants && d.retry == c.retry && d.cn.wants == c.cn.wants && d.cn.made == c.cn.made
      && (!c.cn.wants ==> d.cn.timers == c.cn.timers)
  {
    ConnectingEventEffect(c, r, refused, unusable);
  }

  function Turns(acts: seq<Action>): nat {
    if acts == [] then 0 else (if acts[0].NextFunctor? then 1 else 0) + Turns(acts[1..])
  }

  /** Over every unbroken run: what is queued runs in that order and before anything queued later; and a
      connection goes from Connected to Disconnecting to Disconnected and never back. */
  lemma {:induction false} RunGoesOn(c: Client, acts: seq<Action>)
    requires Inv(c) && EnabledRun(c, acts) && NeverBreaks(c, acts)
    ensures Turns(acts) <= |c.cn.pending| ==> c.cn.pending[Turns(acts)..] <= Run(c, acts).cn.pending
    ensures Onward(c.lives, Run(c, acts).lives)
    decreases |acts|
  {
    if acts != [] {
      var d := Step(c, acts[0]);
      StepFollows(c, acts[0]);
      StepKeepsInvIff(c, acts[0]);
      RunGoesOn(d, acts[1..]);
      var n := if acts[0].NextFunctor? then 1 else 0;
      assert c.cn.pending[n..] <= d.cn.pending;
      GoesOn(c, n, Turns(acts[1..]), d, Run(d, acts[1..]));
    }
  }

  lemma {:induction false} GoesOn(c: Client, n: nat, more: nat, d: Client, e: Client)
    requires Onward(c.lives, d.lives) && Onward(d.lives, e.lives)
    requires n <= |c.cn.pending| && c.cn.pending[n..] <= d.cn.pending
    requires more <= |d.cn.pending| ==> d.cn.pending[more..] <= e.cn.pending
    ensures Onward(c.lives, e.lives)
    ensures n + more <= |c.cn.pending| ==> c.cn.pending[n + more..] <= e.cn.pending
  {
    if n + more <= |c.cn.pending| {
      assert c.cn.pending[n + more..] == c.cn.pending[n..][more..];
    }
  }

  /** `shutdown` takes a connected connection to Disconnecting, and no other; after it, whatever comes, no send
      on that connection has any effect, from whichever thread. */
  lemma {:induction false} ShutdownRefusesSends(c: Client, id: nat, acts: seq<Action>, leftover: bool)
    requires Inv(c) && id in c.lives
    requires EnabledRun(Shutdown(c, id), acts) && NeverBreaks(Shutdown(c, id), acts)
    ensures Shutdown(c, id) ==
      if c.lives[id].state == ConnectionOutput.Connected
      then c.(lives := c.lives[id := c.lives[id].(state := ConnectionOutput.Disconnecting)]) else c
    ensures var d := Run(Shutdown(c, id), acts);
      && id in d.lives && d.lives[id].state != ConnectionOutput.Connected
      && (Enabled(d, UserSend(id, leftover)) ==> Step(d, UserSend(id, leftover)) == d)
      && (Enabled(d, UserSendElsewhere(id, leftover)) ==> Step(d, UserSendElsewhere(id, leftover)) == d)
  {
    ShutsDown(c, id);
    ShutdownKeepsInv(c, id);
    RunGoesOn(Shutdown(c, id), acts);
    SendRefused(Run(Shutdown(c, id), acts), id, leftover);
  }

  lemma {:induction false} ShutsDown(c: Client, id: nat)
    requires Inv(c) && id in c.lives
    ensures id in Shutdown(c, id).lives && Rank(Shutdown(c, id).lives[id].state) >= 2
    ensures Shutdown(c, id) ==
      if c.lives[id].state == ConnectionOutput.Connected
      then c.(lives := c.lives[id := c.lives[id].(state := ConnectionOutput.Disconnecting)]) else c
  {
    assert LifeOk(c, id);
  }

  lemma {:induction false} SendRefused(c: Client, id: nat, leftover: bool)
    requires id in c.lives && c.lives[id].state != ConnectionOutput.Connected
    ensures Enabled(c, UserSend(id, leftover)) ==> Step(c, UserSend(id, leftover)) == c
    ensures Enabled(c, UserSendElsewhere(id, leftover)) ==> Step(c, UserSendElsewhere(id, leftover)) == c
  {
  }

  /** Over every unbroken run: the client wants to be connected from a `connect` to the next `disconnect` or
      `stop`. While it does not, losing a connection makes no socket. */
  lemma {:induction false} WantsFollowsCalls(c: Client, acts: seq<Action>)
    requires Inv(c) && EnabledRun(c, acts) && NeverBreaks(c, acts)
    ensures Run(c, acts).wants == WantsAfter(c.wants, acts)
    decreases |acts|
  {
    if acts != [] {
      StepFollows(c, acts[0]);
      StepKeepsInvIff(c, acts[0]);
      WantsFollowsCalls(Step(c, acts[0]), acts[1..]);
    }
  }

  /** After `disconnect` or `stop`, and until `connect` is called, no event on a connection makes a socket:
      the client does not reconnect, whether it retries or not. */
  lemma {:induction false} StaysAway(c: Client, acts: seq<Action>, a: Action)
    requires Inv(c) && acts != [] && EnabledRun(c, acts) && NeverBreaks(c, acts)
    requires acts[0].DisconnectCall? || acts[0].StopCall?
    requires forall b :: b in acts ==> !b.ConnectCall?
    requires Enabled(Run(c, acts), a) && a.OnConn?
    ensures Step(Run(c, acts), a).cn.made == Run(c, acts).cn.made
  {
    WantsFollowsCalls(c, acts);
    RunKeepsInv(c, acts);
    NotWanted(acts[1..]);
    StepFollows(Run(c, acts), a);
  }

  lemma {:induction false} NotWanted(acts: seq<Action>)
    requires forall a :: a in acts ==> !a.ConnectCall?
    ensures !WantsAfter(false, acts)
    decreases |acts|
  {
    if acts != [] {
      assert acts[0] in acts;
      NotWanted(acts[1..]);
    }
  }

  /** A stopped client makes no socket and no connection at all, and sets no timer. */
  lemma {:induction false} StoppedMakesNothing(c: Client, acts: seq<Action>)
    requires Inv(c) && !c.wants && !c.cn.wants && EnabledRun(c, acts) && NeverBreaks(c, acts)
    requires forall a :: a in acts ==> !a.ConnectCall?
    ensures NothingMade(c, Run(c, acts))
    decreases |acts|
  {
    if acts != [] {
      assert acts[0] in acts;
      StepFollows(c, acts[0]);
      StepKeepsInvIff(c, acts[0]);
      StoppedMakesNothing(Step(c, acts[0]), acts[1..]);
    }
  }

  /** `stop` reaches the connector, whose timer it cancels if it is not too late; `disconnect` shuts the
      current connection down, and no other one. */
  lemma {:induction false} StopAndDisconnect(c: Client, cancels: bool)
    requires Inv(c)
    ensures var d := Stop(c, cancels); !d.wants && !d.cn.wants && (cancels ==> d.cn.timers == 0) && d.lives == c.lives
    ensures var d := Disconnect(c);
      && !d.wants && d.lives.Keys == c.lives.Keys && d.cn == c.cn
      && (forall id :: id in c.lives && c.conn != Some(id) ==> d.lives[id] == c.lives[id])
      && (c.conn.Some? ==>
            var l := c.lives[c.conn.value];
            d.lives[c.conn.value] ==
              if l.state == ConnectionOutput.Connected then l.(state := ConnectionOutput.Disconnecting) else l)
  {
  }

  // ---------------------------------------------------------------- what an event means

  /** Losing the current connection: it is muted, let go of, and its one teardown queued. */
  lemma {:induction false} CloseEffect(c: Client, id: nat, errno: int)
    requires c.conn == Some(id) && id in c.lives && Open(c.lives[id])
    ensures var d := HandleClose(c, id, errno);
      && d.conn == None && d.cn.pending == c.cn.pending + [Destroy(id)]
      && d.lives == c.lives[id := c.lives[id].(mask := NONE, added := true)]
  {
  }

  /** What the read callback does if it does not find the end, and what the write callback does. */
  lemma {:induction false} ReadAndWriteEffect(c: Client, id: nat, o: Offer, errno: int)
    requires id in c.lives && c.lives[id].added && !c.cn.failed
    ensures var l := c.lives[id];
      o.n != 0 ==> Answer(c, id, ReadCallback, o, errno) == c.(lives := c.lives[id := l.(mask := Interest(
        l.mask.reading, l.mask.writing || (o.n > 0 && o.reply && l.state == ConnectionOutput.Connected)))])
    ensures var l := c.lives[id];
      Answer(c, id, WriteCallback, o, errno) ==
        c.(lives := c.lives[id := l.(mask := Interest(l.mask.reading, l.mask.writing && !o.drained))])
  {
    assert c.lives == c.lives[id := c.lives[id]];
  }

  /** What the close and the read callback of one event have done to the current connection. */
  predicate Came(c: Client, d: Client, id: nat, r: Revents, o: Offer)
    requires id in c.lives
  {
    var l, gone := c.lives[id], Closes(r) || (Reads(r) && o.n == 0);
    var replies := Reads(r) && o.n > 0 && o.reply && l.state == ConnectionOutput.Connected;
    && !d.cn.failed && d.conn == (if gone then None else Some(id))
    && d.cn.pending == c.cn.pending + (if gone then [Destroy(id)] else [])
    && d.lives == c.lives[id := l.(mask := Interest(l.mask.reading && !gone, (l.mask.writing && !gone) || replies))]
  }

  lemma {:induction false} IncomingEffect(c: Client, id: nat, r: Revents, o: Offer, errno: int)
    requires Inv(c) && c.conn == Some(id) && !Stale(c.cn) && c.phase == Events({})
    requires !(HangsUpAndReads(r) && o.n == 0)
    ensures Came(c, Incoming(c, id, r, o, errno), id, r, o)
  {
    assert LifeOk(c, id) && c.lives == c.lives[id := c.lives[id]];
    CloseEffect(c, id, errno);
    CloseKeepsInv(c, id, errno);
    if Closes(r) {
      ReadAndWriteEffect(HandleClose(c, id, errno), id, o, errno);
    } else {
      ReadAndWriteEffect(c, id, o, errno);
    }
  }

  lemma {:induction false} WrittenEffect(c: Client, id: nat, r: Revents, o: Offer, errno: int)
    requires id in c.lives && c.lives[id].added && !c.cn.failed
    ensures var l := c.lives[id];
      (if Channels.Writes(r) then Answer(c, id, WriteCallback, o, errno) else c) ==
        c.(lives := c.lives[id := l.(mask := Interest(l.mask.reading, l.mask.writing && !(r.out && o.drained)))])
  {
    assert c.lives == c.lives[id := c.lives[id]];
    ReadAndWriteEffect(c, id, o, errno);
  }

  /** The current connection after an event. */
  predicate Happened(c: Client, d: Client, id: nat, r: Revents, o: Offer)
    requires id in c.lives
  {
    var was, hangsUp, comesIn := c.lives[id], r.hup && !r.pollIn, r.pollIn || r.pri || r.rdhup;
    var ends := comesIn && o.n == 0;
    var replies := comesIn && o.n > 0 && o.reply && was.state == ConnectionOutput.Connected;
    && d.conn == (if hangsUp || ends then None else Some(id))
    && d.cn.pending == c.cn.pending + (if hangsUp || ends then [Destroy(id)] else [])
    && d.lives == c.lives[id := was.(mask := Interest(
         was.mask.reading && !hangsUp && !ends,
         ((was.mask.writing && !hangsUp) || replies) && !ends && !(r.out && o.drained)))]
  }

  lemma {:induction false} FlaggedEffect(c: Client, id: nat, r: Revents, o: Offer, errno: int)
    requires id in c.lives && c.lives[id].added && !(HangsUpAndReads(r) && o.n == 0)
    requires Came(c, Incoming(c, id, r, o, errno), id, r, o)
    ensures Happened(c, Flagged(c, id, r, o, errno), id, r, o)
  {
    var d := Incoming(c, id, r, o, errno);
    WrittenEffect(d, id, r, o, errno);
    var e := Flagged(c, id, r, o, errno);
    assert c.lives[id := d.lives[id]][id := e.lives[id]] == c.lives[id := e.lives[id]];
  }

  /** What an event does to the current connection: it is let go of, once, if the event hangs up or its read
      finds the end of the stream; its interest follows the reply left over and the buffer drained. */
  lemma {:induction false} EventEffect(c: Client, id: nat, r: Revents, o: Offer, errno: int)
    requires Inv(c) && c.conn == Some(id) && !Stale(c.cn) && c.phase == Events({})
    requires !(HangsUpAndReads(r) && o.n == 0)
    ensures Happened(c, ConnEvent(c, id, r, o, errno), id, r, o)
  {
    assert LifeOk(c, id);
    EventByFlags(c, id, r, o, errno);
    IncomingEffect(c, id, r, o, errno);
    FlaggedEffect(c, id, r, o, errno);
  }

  /** A send on an open connection makes it wait for writing if bytes are left over; on the loop thread and
      when it is queued it counts only while connected. */
  lemma {:induction false} SendEffect(c: Client, id: nat, leftover: bool)
    requires id in c.lives && Open(c.lives[id])
    ensures SendInLoop(c, id, leftover).lives[id].mask.writing == (c.lives[id].mask.writing || leftover)
    ensures Enabled(c, UserSend(id, leftover)) ==>
      Step(c, UserSend(id, leftover)) ==
        if c.lives[id].state == ConnectionOutput.Connected then SendInLoop(c, id, leftover) else c
    ensures Enabled(c, UserSendElsewhere(id, leftover)) ==>
      Step(c, UserSendElsewhere(id, leftover)).cn.pending ==
        c.cn.pending + (if c.lives[id].state == ConnectionOutput.Connected then [QueuedSend(id, leftover)] else [])
  {
  }

  /** Whenever an unbroken client is back in poll: nothing is queued but other threads' sends, and no
      destroyed channel lingers. Its connection, if any, is registered for reading and was reported up
      once; every earlier one is out of the poller and was reported up once and down once. */
  lemma {:induction false} SettledAtPoll(acts: seq<Action>)
    requires EnabledRun(INITIAL, acts) && NeverBreaks(INITIAL, acts) && Run(INITIAL, acts).phase.Polling?
    ensures var c := Run(INITIAL, acts);
      && SendsFrom(c.cn.pending, 0) && !Stale(c.cn) && Live(c) <= 1
      && forall id :: id in c.lives ==>
        var l := c.lives[id];
        && l.ups == 1 && l.downs == (if c.conn == Some(id) then 0 else 1)
        && (l.added <==> c.conn == Some(id)) && (l.added ==> l.mask.reading)
  {
    assert Inv(INITIAL);
    RunKeepsInv(INITIAL, acts);
    NotStaleWhilePolling(Run(INITIAL, acts));
    GoneWhilePolling(Run(INITIAL, acts));
  }

  /** While the loop polls no teardown is queued, so every connection but the current one is gone. */
  lemma {:induction false} GoneWhilePolling(c: Client)
    requires Inv(c) && c.phase.Polling?
    ensures forall id :: id in c.lives ==> LifeOk(c, id) && (Open(c.lives[id]) <==> c.conn == Some(id))
  {
    forall id | id in c.lives
      ensures LifeOk(c, id) && Destroy(id) !in c.cn.pending
    {
    }
  }

  /** One run after another. */
  lemma {:induction false} RunConcat(c: Client, acts: seq<Action>, more: seq<Action>)
    requires EnabledRun(c, acts) && !Run(c, acts).cn.failed && EnabledRun(Run(c, acts), more)
    ensures EnabledRun(c, acts + more) && Run(c, acts + more) == Run(Run(c, acts), more)
    ensures NeverBreaks(c, acts + more) <==> NeverBreaks(c, acts) && NeverBreaks(Run(c, acts), more)
    decreases |acts|
  {
    if acts == [] {
      assert acts + more == more;
    } else {
      assert (acts + more)[1..] == acts[1..] + more;
      RunConcat(Step(c, acts[0]), acts[1..], more);
    }
  }

  /** The run is unbroken and leads to `d`. */
  ghost predicate Reaches(c: Client, acts: seq<Action>, d: Client) {
    EnabledRun(c, acts) && NeverBreaks(c, acts) && Run(c, acts) == d && !d.cn.failed
  }

  lemma {:induction false} LastStep(c: Client, acts: seq<Action>, d: Client, a: Action)
    requires Reaches(c, acts, d) && Enabled(d, a)
    ensures EnabledRun(c, acts + [a]) && Run(c, acts + [a]) == Step(d, a)
    ensures NeverBreaks(c, acts + [a]) <==> !Breaks(d, a)
  {
    assert [a][1..] == [];
    RunConcat(c, acts, [a]);
  }

  lemma {:induction false} ReachesNext(c: Client, acts: seq<Action>, d: Client, a: Action)
    requires Reaches(c, acts, d) && Enabled(d, a) && !Breaks(d, a) && !Step(d, a).cn.failed
    ensures Reaches(c, acts + [a], Step(d, a))
  {
    LastStep(c, acts, d, a);
  }

  const CONNECT: seq<Action> := [ConnectCall(EINPROGRESS)] + [Poll({ConnectingChannel})]

  /** A first attempt is under way, and its channel has an event. */
  function Attempt(): Client {
    INITIAL.(started := true, phase := Events({ConnectingChannel}),
             cn := ConnectorSteps.INITIAL.(state := Connecting, wants := true, channel := Handle(0, true), made := 1))
  }

  lemma {:induction false} AttemptIsReached()
    ensures Reaches(INITIAL, CONNECT, Attempt()) && Inv(Attempt())
  {
    ReachesNext(INITIAL, [], INITIAL, ConnectCall(EINPROGRESS));
    ReachesNext(INITIAL, [ConnectCall(EINPROGRESS)], Attempt().(phase := Polling), Poll({ConnectingChannel}));
    RunKeepsInv(INITIAL, CONNECT);
  }

  const FAIL: Action := OnConnecting(QUIET.(err := true), true, false)

  /** It fails with an error event. */
  function FailedOnce(): Client {
    INITIAL.(started := true, phase := Events({}),
             cn := Connector(Disconnected, true, Handle(0, false), false, 1, INIT_RETRY_DELAY_MS,
                             1, multiset{0}, multiset{}, [ResetChannel], false))
  }

  lemma {:induction false} FailedOnceIsReached()
    ensures Reaches(INITIAL, CONNECT + [FAIL], FailedOnce())
  {
    AttemptIsReached();
    var c := Done(Attempt(), ConnectingChannel);
    ConnectingEventEffect(c, QUIET.(err := true), true, false);
    assert c.phase.active == {};
    ReachesNext(INITIAL, CONNECT, Attempt(), FAIL);
  }

  /** If the retry timer then fires before the functors of that iteration have run, the next attempt
      finds the old channel still there, and the assert in `connecting` fails. */
  lemma {:induction false} FreshTimerBreaks()
    ensures var acts := CONNECT + [FAIL] + [FreshTimer(EINPROGRESS)];
      EnabledRun(INITIAL, acts) && !Healthy(Run(INITIAL, acts))
  {
    FailedOnceIsReached();
    LastStep(INITIAL, CONNECT + [FAIL], FailedOnce(), FreshTimer(EINPROGRESS));
  }

  /** From every poll of an unbroken client with a connection, one event with POLLHUP and POLLPRI whose
      read returns 0 fails the assert that the removed connection is the current one. */
  lemma {:induction false} DoubleCloseBreaks(c: Client, id: nat, errno: int)
    requires Inv(c) && c.phase.Polling? && c.conn == Some(id)
    ensures var both := OnConn(id, QUIET.(hup := true, pri := true), Offer(0, false, false), errno);
      var d := c.(phase := Events({ConnChannel(id)}));
      && Enabled(c, Poll({ConnChannel(id)})) && Step(c, Poll({ConnChannel(id)})) == d
      && Enabled(d, both) && !Healthy(Step(d, both))
  {
    var d := c.(phase := Events({ConnChannel(id)}));
    GoneWhilePolling(c);
    PollKeepsInv(c, {ConnChannel(id)});
    StepKeepsInvIff(d, OnConn(id, QUIET.(hup := true, pri := true), Offer(0, false, false), errno));
  }

  const SUCCEED: Action := OnConnecting(QUIET.(out := true), false, false)

  /** It succeeds. */
  function ConnectedOnce(): Client {
    INITIAL.(started := true, phase := Events({}), conn := Some(1), nextId := 2,
             lives := map[1 := ESTABLISHED],
             cn := Connector(Connected, true, Handle(0, false), false, 0, INIT_RETRY_DELAY_MS,
                             1, multiset{}, multiset{0}, [ResetChannel], false))
  }

  lemma {:induction false} ConnectedOnceIsReached()
    ensures Reaches(INITIAL, CONNECT + [SUCCEED], ConnectedOnce())
  {
    AttemptIsReached();
    var c := Done(Attempt(), ConnectingChannel);
    ConnectingEventEffect(c, QUIET.(out := true), false, false);
    assert c.phase.active == {};
    ReachesNext(INITIAL, CONNECT, Attempt(), SUCCEED);
  }

  const FIRST_ITERATION: seq<Action> := CONNECT + [SUCCEED] + [BeginFunctors] + [NextFunctor] + [EndFunctors]

  /** There are such polls: the first attempt succeeds, and its channel is destroyed. */
  lemma {:induction false} FirstConnection() returns (c: Client)
    ensures Reaches(INITIAL, FIRST_ITERATION, c) && Inv(c) && c.phase.Polling? && c.conn == Some(1)
    ensures 1 in c.lives && c.lives[1].state == ConnectionOutput.Connected && c.cn.pending == [] && !c.retry
  {
    ConnectedOnceIsReached();
    var c1 := ConnectedOnce();
    ReachesNext(INITIAL, CONNECT + [SUCCEED], c1, BeginFunctors);
    ReachesNext(INITIAL, CONNECT + [SUCCEED] + [BeginFunctors], c1.(phase := Functors(1)), NextFunctor);
    var c2 := c1.(phase := Functors(0), cn := c1.cn.(channel := NoChannel, pending := []));
    ReachesNext(INITIAL, CONNECT + [SUCCEED] + [BeginFunctors] + [NextFunctor], c2, EndFunctors);
    c := c2.(phase := Polling);
    RunKeepsInv(INITIAL, FIRST_ITERATION);
  }

  /** So it can happen to the first connection of a client. */
  lemma {:induction false} DoubleCloseFromStart(errno: int)
    ensures var both := OnConn(1, QUIET.(hup := true, pri := true), Offer(0, false, false), errno);
      var acts := FIRST_ITERATION + [Poll({ConnChannel(1)})] + [both];
      EnabledRun(INITIAL, acts) && !Healthy(Run(INITIAL, acts))
  {
    var c := FirstConnection();
    DoubleCloseBreaks(c, 1, errno);
    ReachesNext(INITIAL, FIRST_ITERATION, c, Poll({ConnChannel(1)}));
    LastStep(INITIAL, FIRST_ITERATION + [Poll({ConnChannel(1)})], c.(phase := Events({ConnChannel(1)})),
             OnConn(1, QUIET.(hup := true, pri := true), Offer(0, false, false), errno));
  }

  function HangUp(id: nat, errno: int): Action { OnConn(id, QUIET.(hup := true), Offer(1, false, false), errno) }

  /** The connection hangs up, and before the functors run another thread sends on it. */
  function BeforeFunctors(id: nat, errno: int): seq<Action> {
    [Poll({ConnChannel(id)})] + [HangUp(id, errno)] + [UserSendElsewhere(id, true)] + [BeginFunctors]
  }

  lemma {:induction false} HungUp(c: Client, id: nat, errno: int) returns (d: Client)
    requires Inv(c) && c.phase.Polling? && c.cn.pending == [] && c.conn == Some(id)
    requires c.lives[id].state == ConnectionOutput.Connected
    ensures Reaches(c, [Poll({ConnChannel(id)})] + [HangUp(id, errno)], d) && Inv(d) && d.phase == Events({})
    ensures d.cn.pending == [Destroy(id)] && id in d.lives && d.lives[id].state == ConnectionOutput.Connected
  {
    GoneWhilePolling(c);
    NotStaleWhilePolling(c);
    PollKeepsInv(c, {ConnChannel(id)});
    ReachesNext(c, [], c, Poll({ConnChannel(id)}));
    var c1 := c.(phase := Events({ConnChannel(id)}));
    DoneKeepsInv(c1, ConnChannel(id));
    var c2 := Done(c1, ConnChannel(id));
    HangUpCloses(c2, id, errno);
    CloseKeepsInv(c2, id, errno);
    d := HandleClose(c2, id, errno);
    ReachesNext(c, [Poll({ConnChannel(id)})], c1, HangUp(id, errno));
  }

  /** A hang-up alone closes the connection once; a new attempt queues nothing. */
  lemma {:induction false} HangUpCloses(c: Client, id: nat, errno: int)
    requires c.conn == Some(id) && id in c.lives && Open(c.lives[id]) && !c.cn.failed
    ensures ConnEvent(c, id, QUIET.(hup := true), Offer(1, false, false), errno) == HandleClose(c, id, errno)
    ensures HandleClose(c, id, errno).cn.pending == c.cn.pending + [Destroy(id)]
    ensures HandleClose(c, id, errno).lives[id].state == c.lives[id].state
  {
    EventByFlags(c, id, QUIET.(hup := true), Offer(1, false, false), errno);
  }

  /** The teardown and the send are queued, in this order. */
  lemma {:induction false} SendBehindTeardown(c: Client, id: nat, errno: int) returns (d: Client)
    requires Inv(c) && c.phase.Polling? && c.cn.pending == [] && c.conn == Some(id)
    requires c.lives[id].state == ConnectionOutput.Connected
    ensures Reaches(c, BeforeFunctors(id, errno), d) && Inv(d)
    ensures d.phase == Functors(2) && d.cn.pending == [Destroy(id)] + [QueuedSend(id, true)]
  {
    var c2 := HungUp(c, id, errno);
    QueueKeepsInv(c2, id, true);
    ReachesNext(c, [Poll({ConnChannel(id)})] + [HangUp(id, errno)], c2, UserSendElsewhere(id, true));
    var c3 := Queue(c2, QueuedSend(id, true));
    QuietKeepsInv(c3, BeginFunctors);
    ReachesNext(c, [Poll({ConnChannel(id)})] + [HangUp(id, errno)] + [UserSendElsewhere(id, true)], c3, BeginFunctors);
    d := c3.(phase := Functors(2));
  }

  /** The teardown runs, and the send is next. */
  lemma {:induction false} SendIsLate(c: Client, id: nat, errno: int) returns (d: Client)
    requires Inv(c) && c.phase.Polling? && c.cn.pending == [] && c.conn == Some(id)
    requires c.lives[id].state == ConnectionOutput.Connected
    ensures Reaches(c, BeforeFunctors(id, errno) + [NextFunctor], d) && Inv(d)
    ensures d.phase == Functors(1) && d.cn.pending == [QueuedSend(id, true)]
    ensures id in d.lives && d.lives[id].state == ConnectionOutput.Disconnected
  {
    var e := SendBehindTeardown(c, id, errno);
    assert e.cn.pending[0] == Destroy(id) && Destroy(id) in e.cn.pending && LifeOk(e, id);
    TeardownKeepsInv(e, id);
    ReachesNext(c, BeforeFunctors(id, errno), e, NextFunctor);
    d := Step(e, NextFunctor);
  }

  /** The poller knows the destroyed connection `id`. */
  predicate IsDead(c: Client, id: nat) {
    && !c.cn.failed && id in c.lives && c.lives[id].added
    && c.lives[id].state == ConnectionOutput.Disconnected
  }

  lemma {:induction false} LateSendEffect(c: Client, id: nat)
    requires Inv(c) && c.phase == Functors(1) && c.cn.pending == [QueuedSend(id, true)]
    requires id in c.lives && c.lives[id].state == ConnectionOutput.Disconnected
    ensures var d := Step(c, NextFunctor); IsDead(d, id) && d.phase == Functors(0)
  {
    assert LifeOk(c, id);
  }

  function LateSend(id: nat, errno: int): seq<Action> {
    BeforeFunctors(id, errno) + [NextFunctor] + [NextFunctor]
  }

  /** From every poll with nothing queued and a connected connection, such a run ends with the dead
      connection registered again. */
  lemma {:induction false} LateSendIsReached(c: Client, id: nat, errno: int)
    requires Inv(c) && c.phase.Polling? && c.cn.pending == [] && c.conn == Some(id)
    requires c.lives[id].state == ConnectionOutput.Connected
    ensures EnabledRun(c, LateSend(id, errno))
    ensures var d := Run(c, LateSend(id, errno)); IsDead(d, id) && d.phase == Functors(0) && !Healthy(d)
  {
    var d := SendIsLate(c, id, errno);
    LateSendEffect(d, id);
    LastStep(c, BeforeFunctors(id, errno) + [NextFunctor], d, NextFunctor);
  }

  /** The next hang-up of such a connection fails the assert on its state. */
  lemma {:induction false} DeadConnectionFails(c: Client, id: nat, errno: int)
    requires IsDead(c, id) && c.phase == Functors(0)
    ensures var acts := [EndFunctors] + [Poll({ConnChannel(id)})] + [HangUp(id, errno)];
      EnabledRun(c, acts) && Run(c, acts).cn.failed
  {
    var d := c.(phase := Events({ConnChannel(id)}));
    EventByFlags(Done(d, ConnChannel(id)), id, QUIET.(hup := true), Offer(1, false, false), errno);
    ReachesNext(c, [], c, EndFunctors);
    ReachesNext(c, [EndFunctors], c.(phase := Polling), Poll({ConnChannel(id)}));
    LastStep(c, [EndFunctors] + [Poll({ConnChannel(id)})], d, HangUp(id, errno));
  }

  /** So it can happen to the first connection of a client, in which then an assert fails, though it never
      closed a connection twice and no timer fired. */
  lemma {:induction false} LateSendFromStart(errno: int)
    ensures var acts := FIRST_ITERATION + LateSend(1, errno)
                        + ([EndFunctors] + [Poll({ConnChannel(1)})] + [HangUp(1, errno)]);
      EnabledRun(INITIAL, acts) && Run(INITIAL, acts).cn.failed
  {
    var c := FirstConnection();
    LateSendIsReached(c, 1, errno);
    RunConcat(INITIAL, FIRST_ITERATION, LateSend(1, errno));
    var d := Run(c, LateSend(1, errno));
    DeadConnectionFails(d, 1, errno);
    RunConcat(INITIAL, FIRST_ITERATION + LateSend(1, errno),
              [EndFunctors] + [Poll({ConnChannel(1)})] + [HangUp(1, errno)]);
  }
}
