/** A single-loop server: tcp/TcpServer.cpp over tcp/TcpConnection.cpp, event_loop/Channel.cpp and the two phases
    of one iteration of event_loop/EventLoop.cpp (events, then the functors queued so far).

    Every channel update goes into an interest map and a log of registry calls, so that what is proved
    here carries over to both pollers. A failed assert, of the server, a connection or a poller, sets
    `failed` and ends the run. */
module ServerSteps {
  import opened Channels
  import opened ConnectionOutput
  import Registry
  import PollTable
  import EpollSet
  import PollersAgree

  /** A connection object. `mask` is its channel's interest, `added` whether its channel has been given to
      the poller and not taken back; `erased` counts its removals from the server's map, `ups` and
      `downs` the calls of its connection callback. */
  datatype Life = Life(fd: nat, state: State, mask: Interest, added: bool, erased: nat, ups: nat, downs: nat)

  /** Functors in the loop: the teardown of a connection, or a send handed over by another thread, which
      leaves bytes unwritten or not. */
  datatype Functor = Destroy(id: nat) | QueuedSend(id: nat, leftover: bool)

  /** In `Functors(due)` the first `due` queued functors are the batch being run. */
  datatype Phase = Polling | Events(active: set<nat>) | Functors(due: nat)

  /** `table` is `connections_` by connection number, `owner` the pollers' map from descriptors to
      channels, `registry` the interest map and `calls` the registry calls that led to it. */
  datatype Server = Server(
    lives: map<nat, Life>, table: set<nat>, nextId: nat, pending: seq<Functor>, phase: Phase,
    owner: map<nat, nat>, registry: Registry.Interests, calls: seq<Registry.Op>, failed: bool)

  const INITIAL: Server := Server(map[], {}, 1, [], Polling, map[], Registry.EMPTY, [], false)

  // ---------------------------------------------------------------- channel updates

  function Call(s: Server, op: Registry.Op): Server {
    s.(registry := Registry.Apply(s.registry, op), calls := s.calls + [op])
  }

  /** The poller has, for the connection's descriptor, its channel. */
  predicate Owns(s: Server, id: nat)
    requires id in s.lives
  {
    s.lives[id].fd in s.owner && s.owner[s.lives[id].fd] == id
  }

  /** `update_channel`: a channel new to the poller needs a descriptor the poller does not know, any other
      one must be the channel it has for that descriptor. */
  function SetMask(s: Server, id: nat, mask: Interest): (t: Server)
    requires id in s.lives
    ensures id in t.lives
  {
    var l := s.lives[id];
    var known := l.fd in s.owner && s.owner[l.fd] == id;
    if (if l.added then !known else l.fd in s.owner) then s.(failed := true)
    else Call(s.(lives := s.lives[id := l.(mask := mask, added := true)], owner := s.owner[l.fd := id]),
              Registry.Update(l.fd, mask))
  }

  /** `remove_channel` */
  function RemoveChannel(s: Server, id: nat): Server
    requires id in s.lives
  {
    var l := s.lives[id];
    if !(l.fd in s.owner && s.owner[l.fd] == id) || !Registry.Allowed(s.registry, Registry.Remove(l.fd))
    then s.(failed := true)
    else Call(s.(lives := s.lives[id := l.(added := false)], owner := s.owner - {l.fd}), Registry.Remove(l.fd))
  }

  // ---------------------------------------------------------------- handlers

  predicate Open(l: Life) { l.state in {Connected, Disconnecting} }

  function Update(s: Server, id: nat, l: Life): Server { s.(lives := s.lives[id := l]) }

  /** `connect_established` */
  function Established(s: Server, id: nat): Server
    requires id in s.lives
  {
    var l := s.lives[id];
    if l.state != Connecting then s.(failed := true)
    else
      var t := SetMask(Update(s, id, l.(state := Connected)), id, EnableReading(l.mask));
      Update(t, id, t.lives[id].(ups := l.ups + 1))
  }

  /** A new connection object, in the map and not yet established. */
  function Made(s: Server, fd: nat): Server {
    s.(nextId := s.nextId + 1, table := s.table + {s.nextId},
       lives := s.lives[s.nextId := Life(fd, Connecting, NONE, false, 0, 0, 0)])
  }

  /** `new_connection`, for an accepted descriptor. */
  function NewConnection(s: Server, fd: nat): Server {
    Established(Made(s, fd), s.nextId)
  }

  /** `remove_connection` and `remove_connection_in_loop`: on the loop thread they run at once, and assert
      that the map had the connection. */
  function RemoveConnection(s: Server, id: nat): Server
    requires id in s.lives
  {
    if id !in s.table then s.(failed := true)
    else Update(s, id, s.lives[id].(erased := s.lives[id].erased + 1))
           .(table := s.table - {id}, pending := s.pending + [Destroy(id)])
  }

  /** `handle_close` */
  function HandleClose(s: Server, id: nat): (t: Server)
    requires id in s.lives
    ensures id in t.lives
  {
    if !Open(s.lives[id]) then s.(failed := true)
    else
      var t := SetMask(s, id, NONE);
      if t.failed then t else RemoveConnection(t, id)
  }

  /** `handle_write` as far as interest goes: it stops writing once the buffer is `drained`. */
  function HandleWrite(s: Server, id: nat, drained: bool): (t: Server)
    requires id in s.lives
    ensures id in t.lives
  {
    if s.lives[id].mask.writing && drained then SetMask(s, id, DisableWriting(s.lives[id].mask)) else s
  }

  /** `send_in_loop` as far as interest goes: it starts writing if bytes are left over. */
  function SendInLoop(s: Server, id: nat, leftover: bool): (t: Server)
    requires id in s.lives
    ensures id in t.lives
  {
    if leftover && !s.lives[id].mask.writing then SetMask(s, id, EnableWriting(s.lives[id].mask)) else s
  }

  /** `send`, on the loop thread */
  function Send(s: Server, id: nat, leftover: bool): (t: Server)
    requires id in s.lives
    ensures id in t.lives
  {
    if s.lives[id].state == Connected then SendInLoop(s, id, leftover) else s
  }

  /** `handle_read` */
  function HandleRead(s: Server, id: nat, o: Offer): (t: Server)
    requires id in s.lives
    ensures id in t.lives
  {
    if o.n == 0 then HandleClose(s, id)
    else if o.n > 0 && o.reply then Send(s, id, true)
    else s
  }

  /** A connection's callbacks; errors are only logged. */
  function Answer(s: Server, id: nat, cb: Callback, o: Offer): (t: Server)
    requires id in s.lives
    ensures id in t.lives
  {
    if s.failed then s
    else match cb
      case CloseCallback => HandleClose(s, id)
      case ErrorCallback => s
      case ReadCallback => HandleRead(s, id, o)
      case WriteCallback => HandleWrite(s, id, o.drained)
  }

  function AnswerAll(s: Server, id: nat, cbs: seq<Callback>, o: Offer): (t: Server)
    requires id in s.lives
    ensures id in t.lives
    decreases |cbs|
  {
    if cbs == [] then s else AnswerAll(Answer(s, id, cbs[0], o), id, cbs[1..], o)
  }

  /** `handle_event` on a connection's channel. */
  function ConnEvent(s: Server, id: nat, r: Revents, o: Offer): (t: Server)
    requires id in s.lives
    ensures id in t.lives
  {
    AnswerAll(s, id, Dispatch(r), o)
  }

  /** `connect_destoryed` */
  function Destroyed(s: Server, id: nat): Server
    requires id in s.lives
  {
    var l := s.lives[id];
    if !Open(l) then s.(failed := true)
    else
      var t := SetMask(Update(s, id, l.(state := Disconnected)), id, NONE);
      if t.failed then t
      else RemoveChannel(Update(t, id, t.lives[id].(downs := l.downs + 1)), id)
  }

  function RunFunctor(s: Server): Server
    requires s.pending != [] && s.pending[0].id in s.lives
  {
    var t := s.(pending := s.pending[1..]);
    match s.pending[0]
    case Destroy(id) => Destroyed(t, id)
    case QueuedSend(id, leftover) => SendInLoop(t, id, leftover)
  }

  // ---------------------------------------------------------------- actions

  datatype Action =
    | Poll(active: set<nat>)                 // connections with returned events
    | Accept(fd: nat)                        // the acceptor got a descriptor that is not open
    | OnConn(id: nat, r: Revents, o: Offer)
    | UserSend(id: nat, leftover: bool)      // send from a callback
    | UserSendElsewhere(id: nat, leftover: bool)
    | UserShutdown(id: nat)                  // shutdown, on any thread
    | BeginFunctors
    | NextFunctor
    | EndFunctors

  ghost predicate Enabled(s: Server, a: Action) {
    && !s.failed
    && match a
       case Poll(active) =>
         s.phase.Polling? && forall id :: id in active ==> id in s.lives && Owns(s, id)
       case Accept(fd) =>
         s.phase.Events? && forall id :: id in s.lives && s.lives[id].state != Disconnected ==> s.lives[id].fd != fd
       case OnConn(id, _, _) => s.phase.Events? && id in s.phase.active && id in s.lives
       case UserSend(id, _) => !s.phase.Polling? && id in s.lives
       case UserSendElsewhere(id, _) => id in s.lives
       case UserShutdown(id) => id in s.lives
       case BeginFunctors => s.phase == Events({})
       case NextFunctor => s.phase.Functors? && s.phase.due > 0 && s.pending != [] && s.pending[0].id in s.lives
       case EndFunctors => s.phase == Functors(0)
  }

  ghost function Step(s: Server, a: Action): Server
    requires Enabled(s, a)
  {
    match a
    case Poll(active) => s.(phase := Events(active))
    case Accept(fd) => NewConnection(s, fd)
    case OnConn(id, r, o) => ConnEvent(s.(phase := Events(s.phase.active - {id})), id, r, o)
    case UserSend(id, leftover) => Send(s, id, leftover)
    case UserSendElsewhere(id, leftover) =>
      if s.lives[id].state == Connected then s.(pending := s.pending + [QueuedSend(id, leftover)]) else s
    case UserShutdown(id) =>
      if s.lives[id].state == Connected then Update(s, id, s.lives[id].(state := Disconnecting)) else s
    case BeginFunctors => s.(phase := Functors(|s.pending|))
    case NextFunctor => RunFunctor(s).(phase := Functors(s.phase.due - 1))
    case EndFunctors => s.(phase := Polling)
  }

  /** When the asserts of the poller, of a connection and of `remove_connection` fail. */
  lemma {:induction false} AssertsFailIff(s: Server, id: nat, mask: Interest)
    requires !s.failed && id in s.lives
    ensures var l := s.lives[id];
      SetMask(s, id, mask).failed <==>
        if l.added then l.fd !in s.owner || s.owner[l.fd] != id else l.fd in s.owner
    ensures var l := s.lives[id];
      RemoveChannel(s, id).failed <==>
        l.fd !in s.owner || s.owner[l.fd] != id || l.fd !in s.registry
        || s.registry[l.fd].mask != Interest(false, false) || !s.registry[l.fd].muted
    ensures RemoveConnection(s, id).failed <==> id !in s.table
    ensures !Open(s.lives[id]) ==> HandleClose(s, id).failed && Destroyed(s, id).failed
    ensures s.lives[id].state != Connecting ==> Established(s, id).failed
  {
  }

  // ---------------------------------------------------------------- what is to hold

  /** No assert has failed, and the poller knows no destroyed connection. */
  ghost predicate Healthy(s: Server) {
    && !s.failed
    && forall fd :: fd in s.owner ==> s.owner[fd] in s.lives && s.lives[s.owner[fd]].state != Disconnected
  }

  /** The two ways to break it: an event that hangs up and reads to the end at once, closing the connection
      twice; and a send from another thread that runs after the connection was destroyed and leaves
      bytes over, which registers the dead connection again. */
  predicate Breaks(s: Server, a: Action) {
    match a
    case OnConn(_, r, o) => HangsUpAndReads(r) && o.n == 0
    case NextFunctor =>
      s.pending != [] && s.pending[0].QueuedSend? && s.pending[0].leftover && s.pending[0].id in s.lives
      && s.lives[s.pending[0].id].state == Disconnected
    case _ => false
  }

  /** Where a connection is: open and in the map; closing, with exactly one teardown queued; or gone. */
  ghost predicate LifeOk(s: Server, id: nat)
    requires id in s.lives
  {
    var l, teardowns := s.lives[id], multiset(s.pending)[Destroy(id)];
    && id < s.nextId && l.ups == 1
    && if Open(l) then
         && l.downs == 0 && l.added && l.fd in s.owner && s.owner[l.fd] == id
         && l.fd in s.registry && s.registry[l.fd].mask == l.mask
         && if id in s.table then l.erased == 0 && teardowns == 0 && l.mask.reading && !s.registry[l.fd].muted
            else l.erased == 1 && teardowns == 1
       else
         && l.state == Disconnected && !l.added && l.mask == NONE
         && l.downs == 1 && l.erased == 1 && id !in s.table && teardowns == 0
  }

  /** A teardown queued later than the batch being run would miss this iteration. */
  ghost predicate NoTeardownFrom(pending: seq<Functor>, k: nat) {
    forall i :: k <= i < |pending| ==> pending[i].QueuedSend?
  }

  ghost predicate Inv(s: Server) {
    && !s.failed
    && (forall id {:trigger LifeOk(s, id)} :: id in s.lives ==> LifeOk(s, id))
    && (forall id :: id in s.table ==> id in s.lives)
    && (forall fd :: fd in s.owner ==>
          s.owner[fd] in s.lives && Open(s.lives[s.owner[fd]]) && s.lives[s.owner[fd]].fd == fd)
    && s.owner.Keys == s.registry.Keys
    && (forall f :: f in s.pending ==> f.id in s.lives)
    && PhaseOk(s.phase, s.pending, s.table)
  }

  ghost predicate PhaseOk(phase: Phase, pending: seq<Functor>, table: set<nat>) {
    match phase
    case Polling => NoTeardownFrom(pending, 0)
    case Events(active) => active <= table
    case Functors(due) => due <= |pending| && NoTeardownFrom(pending, due)
  }

  // ---------------------------------------------------------------- one step

  /** A step that touches one connection and its descriptor leaves the others where they are. */
  lemma {:induction false} OthersOk(s: Server, t: Server, id: nat, fd: nat)
    requires forall other :: other in s.lives ==> LifeOk(s, other)
    requires s.nextId <= t.nextId && (fd in s.owner ==> s.owner[fd] == id)
    requires forall other :: other != id && other in t.lives ==>
      && other in s.lives && t.lives[other] == s.lives[other] && (other in t.table <==> other in s.table)
      && multiset(t.pending)[Destroy(other)] == multiset(s.pending)[Destroy(other)]
    requires forall g :: g != fd && g in s.owner ==> g in t.owner && t.owner[g] == s.owner[g]
    requires forall g :: g != fd && g in s.registry ==> g in t.registry && t.registry[g] == s.registry[g]
    ensures forall other :: other in t.lives && other != id ==> LifeOk(t, other)
  {
  }

  /** What a mask change does to an open connection. */
  lemma {:induction false} MaskEffect(s: Server, id: nat, mask: Interest)
    requires Inv(s) && id in s.lives && Open(s.lives[id])
    ensures var l := s.lives[id];
      SetMask(s, id, mask) == Call(s.(lives := s.lives[id := l.(mask := mask)]), Registry.Update(l.fd, mask))
  {
    assert LifeOk(s, id);
    assert s.owner == s.owner[s.lives[id].fd := id];
  }

  lemma {:induction false} MaskLives(s: Server, id: nat, mask: Interest)
    requires Inv(s) && id in s.lives && Open(s.lives[id]) && (id in s.table ==> mask.reading)
    ensures var t := SetMask(s, id, mask);
      forall other :: other in t.lives ==> LifeOk(t, other)
  {
    MaskEffect(s, id, mask);
    assert LifeOk(s, id);
    OthersOk(s, SetMask(s, id, mask), id, s.lives[id].fd);
    assert LifeOk(SetMask(s, id, mask), id);
  }

  /** The interest of an open connection may change; one in the map must keep reading. */
  lemma {:induction false} MaskKeepsInv(s: Server, id: nat, mask: Interest)
    requires Inv(s) && id in s.lives && Open(s.lives[id]) && (id in s.table ==> mask.reading)
    ensures Inv(SetMask(s, id, mask))
  {
    MaskEffect(s, id, mask);
    MaskLives(s, id, mask);
    assert LifeOk(s, id);
  }

  /** What `handle_close` does to a connection in the map. */
  lemma {:induction false} CloseEffect(s: Server, id: nat)
    requires Inv(s) && id in s.table
    ensures var l := s.lives[id];
      HandleClose(s, id) == s.(
        lives := s.lives[id := l.(mask := NONE, erased := 1)], table := s.table - {id},
        pending := s.pending + [Destroy(id)], registry := s.registry[l.fd := Registry.Entry(NONE, true)],
        calls := s.calls + [Registry.Update(l.fd, NONE)])
  {
    assert LifeOk(s, id);
  }

  /** `handle_close` of a connection in the map: out of the map, muted, one teardown queued. */
  lemma {:induction false} CloseKeepsInv(s: Server, id: nat)
    requires Inv(s) && id in s.table && s.phase.Events? && id !in s.phase.active
    ensures Inv(HandleClose(s, id))
    ensures id in HandleClose(s, id).lives && id !in HandleClose(s, id).table && Open(HandleClose(s, id).lives[id])
  {
    CloseLives(s, id);
    assert LifeOk(s, id);
    CloseEffect(s, id);
  }

  lemma {:induction false} CloseLives(s: Server, id: nat)
    requires Inv(s) && id in s.table
    ensures var t := HandleClose(s, id);
      forall other :: other in t.lives ==> LifeOk(t, other)
  {
    assert LifeOk(s, id);
    CloseEffect(s, id);
    OthersOk(s, HandleClose(s, id), id, s.lives[id].fd);
    assert LifeOk(HandleClose(s, id), id);
  }

  lemma {:induction false} SendKeepsInv(s: Server, id: nat, leftover: bool)
    requires Inv(s) && id in s.lives && (Open(s.lives[id]) || !leftover)
    ensures Inv(SendInLoop(s, id, leftover))
    ensures SendInLoop(s, id, leftover).lives[id].mask.writing == (s.lives[id].mask.writing || leftover)
  {
    assert LifeOk(s, id);
    if leftover && !s.lives[id].mask.writing {
      MaskKeepsInv(s, id, EnableWriting(s.lives[id].mask));
    }
  }

  /** The same connections with another phase. */
  lemma {:induction false} PhaseKeepsInv(s: Server, phase: Phase)
    requires Inv(s) && PhaseOk(phase, s.pending, s.table)
    ensures Inv(s.(phase := phase))
  {
    forall id | id in s.lives
      ensures LifeOk(s.(phase := phase), id)
    {
      assert LifeOk(s, id);
    }
  }

  lemma {:induction false} AnswerConcat(s: Server, id: nat, a: seq<Callback>, b: seq<Callback>, o: Offer)
    requires id in s.lives
    ensures AnswerAll(s, id, a + b, o) == AnswerAll(AnswerAll(s, id, a, o), id, b, o)
    decreases |a|
  {
    if a == [] {
      assert a + b == b;
    } else {
      assert (a + b)[1..] == a[1..] + b;
      AnswerConcat(Answer(s, id, a[0], o), id, a[1..], b, o);
    }
  }

  lemma {:induction false} AnswerMaybe(s: Server, id: nat, made: bool, cb: Callback, o: Offer)
    requires id in s.lives
    ensures AnswerAll(s, id, if made then [cb] else [], o) == if made then Answer(s, id, cb, o) else s
  {
  }

  function Incoming(s: Server, id: nat, r: Revents, o: Offer): (t: Server)
    requires id in s.lives
    ensures id in t.lives
  {
    var t := if Closes(r) then Answer(s, id, CloseCallback, o) else s;
    if Reads(r) then Answer(t, id, ReadCallback, o) else t
  }

  function Flagged(s: Server, id: nat, r: Revents, o: Offer): Server
    requires id in s.lives
  {
    var t := Incoming(s, id, r, o);
    if Channels.Writes(r) then Answer(t, id, WriteCallback, o) else t
  }

  /** The close callback comes first, then read, then write. */
  lemma {:induction false} EventByFlags(s: Server, id: nat, r: Revents, o: Offer)
    requires id in s.lives
    ensures ConnEvent(s, id, r, o) == Flagged(s, id, r, o)
  {
    DispatchMatchesFlags(r);
    var close := if Closes(r) then [CloseCallback] else [];
    var error := if Errs(r) then [ErrorCallback] else [];
    var read := if Reads(r) then [ReadCallback] else [];
    var write := if Channels.Writes(r) then [WriteCallback] else [];
    AnswerConcat(s, id, close + error + read, write, o);
    AnswerConcat(s, id, close + error, read, o);
    AnswerConcat(s, id, close, error, o);
    var t, u := if Closes(r) then Answer(s, id, CloseCallback, o) else s, Incoming(s, id, r, o);
    AnswerMaybe(s, id, Closes(r), CloseCallback, o);
    AnswerMaybe(t, id, Errs(r), ErrorCallback, o);
    AnswerMaybe(t, id, Reads(r), ReadCallback, o);
    AnswerMaybe(u, id, Channels.Writes(r), WriteCallback, o);
  }

  /** While a connection's event is being handled: it is open, and no longer in the active list. */
  ghost predicate InEvent(s: Server, id: nat) {
    Inv(s) && id in s.lives && Open(s.lives[id]) && s.phase.Events? && id !in s.phase.active
  }

  lemma {:induction false} CloseInEvent(s: Server, id: nat, o: Offer)
    requires InEvent(s, id) && id in s.table
    ensures var t := Answer(s, id, CloseCallback, o); InEvent(t, id) && id !in t.table
  {
    CloseEffect(s, id);
    CloseKeepsInv(s, id);
  }

  /** Reading, unless it finds the end of the stream of a connection already closed. */
  lemma {:induction false} ReadInEvent(s: Server, id: nat, o: Offer)
    requires InEvent(s, id) && (id in s.table || o.n != 0)
    ensures InEvent(Answer(s, id, ReadCallback, o), id)
  {
    if o.n == 0 {
      CloseInEvent(s, id, o);
    } else {
      SendKeepsInv(s, id, true);
    }
  }

  lemma {:induction false} WriteInEvent(s: Server, id: nat, o: Offer)
    requires InEvent(s, id)
    ensures Inv(Answer(s, id, WriteCallback, o))
    ensures Answer(s, id, WriteCallback, o).lives[id].mask.writing == (s.lives[id].mask.writing && !o.drained)
  {
    assert LifeOk(s, id);
    if s.lives[id].mask.writing && o.drained {
      MaskKeepsInv(s, id, DisableWriting(s.lives[id].mask));
    }
  }

  lemma {:induction false} DoubleCloseFails(s: Server, id: nat, r: Revents, o: Offer)
    requires InEvent(s, id) && id in s.table && HangsUpAndReads(r) && o.n == 0
    ensures Flagged(s, id, r, o).failed
  {
  }

  lemma {:induction false} SingleCloseKeepsInv(s: Server, id: nat, r: Revents, o: Offer)
    requires InEvent(s, id) && id in s.table && !(HangsUpAndReads(r) && o.n == 0)
    ensures Inv(Flagged(s, id, r, o))
  {
    var t := if Closes(r) then Answer(s, id, CloseCallback, o) else s;
    if Closes(r) {
      CloseInEvent(s, id, o);
    }
    var u := if Reads(r) then Answer(t, id, ReadCallback, o) else t;
    if Reads(r) {
      ReadInEvent(t, id, o);
    }
    WriteInEvent(u, id, o);
  }

  lemma {:induction false} ConnEventKeepsInvIff(s: Server, id: nat, r: Revents, o: Offer)
    requires InEvent(s, id) && id in s.table
    ensures if HangsUpAndReads(r) && o.n == 0 then ConnEvent(s, id, r, o).failed else Inv(ConnEvent(s, id, r, o))
  {
    EventByFlags(s, id, r, o);
    if HangsUpAndReads(r) && o.n == 0 {
      DoubleCloseFails(s, id, r, o);
    } else {
      SingleCloseKeepsInv(s, id, r, o);
    }
  }

  /** A fresh connection's number, descriptor and teardown are unknown so far. */
  lemma {:induction false} FreshConnection(s: Server, fd: nat)
    requires Inv(s) && Enabled(s, Accept(fd))
    ensures s.nextId !in s.lives && s.nextId !in s.table && fd !in s.owner && Destroy(s.nextId) !in s.pending
  {
    assert s.nextId in s.lives ==> LifeOk(s, s.nextId);
  }

  lemma {:induction false} AcceptEffect(s: Server, fd: nat)
    requires fd !in s.owner && fd !in s.registry
    ensures var id := s.nextId;
      NewConnection(s, fd) == s.(
        nextId := id + 1, table := s.table + {id}, owner := s.owner[fd := id],
        lives := s.lives[id := Life(fd, Connected, Interest(true, false), true, 0, 1, 0)],
        registry := s.registry[fd := Registry.Entry(Interest(true, false), false)],
        calls := s.calls + [Registry.Update(fd, Interest(true, false))])
  {
  }

  lemma {:induction false} AcceptLives(s: Server, fd: nat)
    requires Inv(s) && Enabled(s, Accept(fd))
    ensures var t := NewConnection(s, fd);
      forall id :: id in t.lives ==> LifeOk(t, id)
  {
    FreshConnection(s, fd);
    AcceptEffect(s, fd);
    var t := NewConnection(s, fd);
    OthersOk(s, t, s.nextId, fd);
    assert LifeOk(t, s.nextId);
  }

  lemma {:induction false} AcceptKeepsInv(s: Server, fd: nat)
    requires Inv(s) && Enabled(s, Accept(fd))
    ensures Inv(NewConnection(s, fd))
  {
    AcceptLives(s, fd);
    FreshConnection(s, fd);
    AcceptEffect(s, fd);
  }

  /** The batch goes on with one functor less. */
  lemma {:induction false} PopKeepsTail(pending: seq<Functor>, due: nat)
    requires 0 < due <= |pending| && NoTeardownFrom(pending, due)
    ensures NoTeardownFrom(pending[1..], due - 1)
    ensures forall f :: multiset(pending[1..])[f] == multiset(pending)[f] - (if f == pending[0] then 1 else 0)
    ensures forall f :: f in pending[1..] ==> f in pending
  {
    assert pending == [pending[0]] + pending[1..];
  }

  /** The state after the teardown that heads the batch. */
  function Gone(s: Server, id: nat): Server
    requires id in s.lives && s.pending != [] && s.phase.Functors? && s.phase.due > 0
  {
    var l := s.lives[id];
    s.(lives := s.lives[id := l.(state := Disconnected, mask := NONE, added := false, downs := l.downs + 1)],
       owner := s.owner - {l.fd}, registry := s.registry - {l.fd},
       calls := s.calls + [Registry.Update(l.fd, NONE)] + [Registry.Remove(l.fd)],
       pending := s.pending[1..], phase := Functors(s.phase.due - 1))
  }

  lemma {:induction false} GoneOthersOk(s: Server, id: nat)
    requires Inv(s) && Enabled(s, NextFunctor) && s.pending[0] == Destroy(id)
    ensures forall other :: other in s.lives && other != id ==> LifeOk(Gone(s, id), other)
  {
    var t := Gone(s, id);
    PopKeepsTail(s.pending, s.phase.due);
    assert LifeOk(s, id);
    forall other | other in s.lives && other != id
      ensures LifeOk(t, other)
    {
      assert LifeOk(s, other);
      assert t.lives[other] == s.lives[other];
    }
  }

  lemma {:induction false} GoneOk(s: Server, id: nat)
    requires Inv(s) && Enabled(s, NextFunctor) && s.pending[0] == Destroy(id)
    ensures LifeOk(Gone(s, id), id)
  {
    PopKeepsTail(s.pending, s.phase.due);
    assert LifeOk(s, id);
  }

  lemma {:induction false} GoneKeepsInv(s: Server, id: nat)
    requires Inv(s) && Enabled(s, NextFunctor) && s.pending[0] == Destroy(id)
    ensures Inv(Gone(s, id))
  {
    GoneOk(s, id);
    GoneOthersOk(s, id);
    PopKeepsTail(s.pending, s.phase.due);
    var t := Gone(s, id);
    assert forall other :: other in t.lives ==> LifeOk(t, other);
  }

  lemma {:induction false} StepIsGone(s: Server, id: nat)
    requires Enabled(s, NextFunctor) && s.pending[0] == Destroy(id) && Open(s.lives[id]) && s.lives[id].added
    requires s.lives[id].fd in s.owner && s.owner[s.lives[id].fd] == id && s.lives[id].fd in s.registry
    ensures Step(s, NextFunctor) == Gone(s, id)
  {
  }

  lemma {:induction false} TeardownKeepsInv(s: Server, id: nat)
    requires Inv(s) && Enabled(s, NextFunctor) && s.pending[0] == Destroy(id)
    ensures Inv(Step(s, NextFunctor))
  {
    assert LifeOk(s, id) && Destroy(id) in s.pending;
    StepIsGone(s, id);
    GoneKeepsInv(s, id);
  }

  lemma {:induction false} PopSendKeepsInv(s: Server)
    requires Inv(s) && Enabled(s, NextFunctor) && s.pending[0].QueuedSend?
    ensures Inv(s.(pending := s.pending[1..], phase := Functors(s.phase.due - 1)))
  {
    PopKeepsTail(s.pending, s.phase.due);
    var t := s.(pending := s.pending[1..], phase := Functors(s.phase.due - 1));
    assert forall id :: id in s.lives ==> (LifeOk(s, id) <==> LifeOk(t, id));
  }

  /** A queued send with bytes left over puts a destroyed connection back into the poller, unless its
      descriptor has been taken by another one, and then an assert of the poller fails. (That is
      `Epoller`, which resets the index on removal; under `Poller` an assert fails in either case.) */
  lemma {:induction false} LateSendBreaks(s: Server, id: nat)
    requires Inv(s) && id in s.lives && s.lives[id].state == Disconnected
    ensures !Healthy(SendInLoop(s, id, true))
  {
    assert LifeOk(s, id);
    var t := SendInLoop(s, id, true);
    assert !t.failed ==> t.owner[s.lives[id].fd] == id;
  }

  lemma {:induction false} QueuedSendKeepsInvIff(s: Server)
    requires Inv(s) && Enabled(s, NextFunctor) && s.pending[0].QueuedSend?
    ensures if Breaks(s, NextFunctor) then !Healthy(Step(s, NextFunctor)) else Inv(Step(s, NextFunctor))
  {
    var id, leftover := s.pending[0].id, s.pending[0].leftover;
    PopSendKeepsInv(s);
    var t := s.(pending := s.pending[1..], phase := Functors(s.phase.due - 1));
    assert LifeOk(t, id);
    assert SendInLoop(t, id, leftover) == Step(s, NextFunctor);
    if Breaks(s, NextFunctor) {
      LateSendBreaks(t, id);
    } else {
      SendKeepsInv(t, id, leftover);
    }
  }

  lemma {:induction false} PollKeepsInv(s: Server, active: set<nat>)
    requires Inv(s) && Enabled(s, Poll(active))
    ensures Inv(Step(s, Poll(active)))
  {
    forall id | id in active
      ensures id in s.table
    {
      assert LifeOk(s, id);
    }
    PhaseKeepsInv(s, Events(active));
  }

  lemma {:induction false} QueueKeepsInv(s: Server, id: nat, leftover: bool)
    requires Inv(s) && id in s.lives
    ensures Inv(s.(pending := s.pending + [QueuedSend(id, leftover)]))
  {
    var t := s.(pending := s.pending + [QueuedSend(id, leftover)]);
    forall other | other in s.lives
      ensures LifeOk(t, other)
    {
      assert LifeOk(s, other);
    }
  }

  lemma {:induction false} ShutdownKeepsInv(s: Server, id: nat)
    requires Inv(s) && id in s.lives && s.lives[id].state == Connected
    ensures Inv(Update(s, id, s.lives[id].(state := Disconnecting)))
  {
    var t := Update(s, id, s.lives[id].(state := Disconnecting));
    forall other | other in t.lives
      ensures LifeOk(t, other)
    {
      assert LifeOk(s, other);
    }
  }

  lemma {:induction false} StepKeepsInvIff(s: Server, a: Action)
    requires Inv(s) && Enabled(s, a)
    ensures if Breaks(s, a) then !Healthy(Step(s, a)) else Inv(Step(s, a))
  {
    match a
    case Poll(active) => PollKeepsInv(s, active);
    case Accept(fd) => AcceptKeepsInv(s, fd);
    case OnConn(id, r, o) =>
      PhaseKeepsInv(s, Events(s.phase.active - {id}));
      assert LifeOk(s, id);
      ConnEventKeepsInvIff(s.(phase := Events(s.phase.active - {id})), id, r, o);
    case UserSend(id, leftover) => if s.lives[id].state == Connected { SendKeepsInv(s, id, leftover); }
    case UserSendElsewhere(id, leftover) => QueueKeepsInv(s, id, leftover);
    case UserShutdown(id) => if s.lives[id].state == Connected { ShutdownKeepsInv(s, id); }
    case NextFunctor =>
      match s.pending[0] {
        case Destroy(id) => TeardownKeepsInv(s, id);
        case QueuedSend(_, _) => QueuedSendKeepsInvIff(s);
      }
    case BeginFunctors => PhaseKeepsInv(s, Functors(|s.pending|));
    case EndFunctors => PhaseKeepsInv(s, Polling);
  }

  // ---------------------------------------------------------------- what events and calls mean

  /** A mask change reaches the channel, the interest map and the log; nothing else moves. */
  predicate Masked(s: Server, t: Server, id: nat, mask: Interest)
    requires id in s.lives
  {
    && !t.failed && t.lives == s.lives[id := s.lives[id].(mask := mask)] && t.table == s.table
    && t.pending == s.pending && t.nextId == s.nextId && t.owner == s.owner && t.phase == s.phase
  }

  lemma {:induction false} SendEffect(s: Server, id: nat, leftover: bool)
    requires Inv(s) && id in s.lives && Open(s.lives[id])
    ensures var m := s.lives[id].mask;
      Masked(s, SendInLoop(s, id, leftover), id, Interest(m.reading, m.writing || leftover))
    ensures Send(s, id, leftover) == if s.lives[id].state == Connected then SendInLoop(s, id, leftover) else s
    ensures Enabled(s, UserSendElsewhere(id, leftover)) ==>
      Step(s, UserSendElsewhere(id, leftover)).pending ==
        s.pending + (if s.lives[id].state == Connected then [QueuedSend(id, leftover)] else [])
  {
    assert s.lives == s.lives[id := s.lives[id]];
    MaskEffect(s, id, EnableWriting(s.lives[id].mask));
  }

  lemma {:induction false} DrainEffect(s: Server, id: nat, drained: bool)
    requires Inv(s) && id in s.lives && Open(s.lives[id])
    ensures var m := s.lives[id].mask;
      Masked(s, HandleWrite(s, id, drained), id, Interest(m.reading, m.writing && !drained))
  {
    assert s.lives == s.lives[id := s.lives[id]];
    MaskEffect(s, id, DisableWriting(s.lives[id].mask));
  }

  /** What the close and the read callback of one event have done to a connection in the map. */
  predicate Came(s: Server, t: Server, id: nat, r: Revents, o: Offer)
    requires id in s.lives
  {
    var l, gone := s.lives[id], Closes(r) || (Reads(r) && o.n == 0);
    var replies := Reads(r) && o.n > 0 && o.reply && l.state == Connected;
    && !t.failed && t.table == (if gone then s.table - {id} else s.table)
    && t.pending == s.pending + (if gone then [Destroy(id)] else [])
    && t.lives == s.lives[id := l.(
         erased := if gone then 1 else l.erased,
         mask := Interest(l.mask.reading && !gone, (l.mask.writing && !gone) || replies))]
  }

  lemma {:induction false} IncomingEffect(s: Server, id: nat, r: Revents, o: Offer)
    requires InEvent(s, id) && id in s.table && !(HangsUpAndReads(r) && o.n == 0)
    ensures Came(s, Incoming(s, id, r, o), id, r, o) && InEvent(Incoming(s, id, r, o), id)
  {
    assert LifeOk(s, id) && s.lives == s.lives[id := s.lives[id]];
    CloseEffect(s, id);
    CloseInEvent(s, id, o);
    if Closes(r) {
      ReadEffect(HandleClose(s, id), id, o);
    } else {
      ReadEffect(s, id, o);
    }
  }

  /** The read callback, if it does not find the end. */
  lemma {:induction false} ReadEffect(s: Server, id: nat, o: Offer)
    requires InEvent(s, id)
    ensures var l, t := s.lives[id], Answer(s, id, ReadCallback, o);
      o.n != 0 ==> InEvent(t, id) && Masked(s, t, id, Interest(
        l.mask.reading, l.mask.writing || (o.n > 0 && o.reply && l.state == Connected)))
  {
    assert s.lives == s.lives[id := s.lives[id]];
    if o.n != 0 {
      ReadInEvent(s, id, o);
      SendEffect(s, id, true);
    }
  }

  /** A connection of the map after an event. */
  predicate Happened(s: Server, t: Server, id: nat, r: Revents, o: Offer)
    requires id in s.lives
  {
    var was, hangsUp, comesIn := s.lives[id], r.hup && !r.pollIn, r.pollIn || r.pri || r.rdhup;
    var ends := comesIn && o.n == 0;
    var replies := comesIn && o.n > 0 && o.reply && was.state == Connected;
    && t.table == (if hangsUp || ends then s.table - {id} else s.table)
    && t.pending == s.pending + (if hangsUp || ends then [Destroy(id)] else [])
    && t.lives == s.lives[id := was.(
         erased := if hangsUp || ends then 1 else 0,
         mask := Interest(was.mask.reading && !hangsUp && !ends,
                          ((was.mask.writing && !hangsUp) || replies) && !ends && !(r.out && o.drained)))]
  }

  /** What an event does to a connection in the map: it is erased, once, if the event hangs up or its read finds
      the end of the stream; its interest follows the reply left over and the buffer drained. */
  lemma {:induction false} EventEffect(s: Server, id: nat, r: Revents, o: Offer)
    requires InEvent(s, id) && id in s.table && !(HangsUpAndReads(r) && o.n == 0)
    ensures Happened(s, ConnEvent(s, id, r, o), id, r, o)
  {
    assert LifeOk(s, id);
    EventByFlags(s, id, r, o);
    IncomingEffect(s, id, r, o);
    var t := Incoming(s, id, r, o);
    DrainEffect(t, id, o.drained);
    FlaggedEffect(s, t, Flagged(s, id, r, o), id, r, o);
  }

  lemma {:induction false} FlaggedEffect(s: Server, t: Server, u: Server, id: nat, r: Revents, o: Offer)
    requires id in s.lives && s.lives[id].erased == 0 && Came(s, t, id, r, o) && !(HangsUpAndReads(r) && o.n == 0)
    requires var m := t.lives[id].mask;
      if Channels.Writes(r) then Masked(t, u, id, Interest(m.reading, m.writing && !o.drained)) else u == t
    ensures Happened(s, u, id, r, o)
  {
    assert s.lives[id := t.lives[id]][id := u.lives[id]] == s.lives[id := u.lives[id]];
  }

  /** Connected, then Disconnecting, then Disconnected. */
  function Rank(state: State): nat {
    match state
    case Connecting => 0
    case Connected => 1
    case Disconnecting => 2
    case Disconnected => 3
  }

  /** What is queued stays where it is, and no connection goes back to an earlier state. */
  predicate Onward(lives: map<nat, Life>, queue: seq<Functor>, t: Server) {
    queue <= t.pending && forall id :: id in lives ==> id in t.lives && Rank(lives[id].state) <= Rank(t.lives[id].state)
  }

  lemma {:induction false} AnswersGoOn(s: Server, id: nat, cbs: seq<Callback>, o: Offer)
    requires id in s.lives
    ensures Onward(s.lives, s.pending, AnswerAll(s, id, cbs, o))
    decreases |cbs|
  {
    if cbs != [] {
      AnswerGoesOn(s, id, cbs[0], o);
      AnswersGoOn(Answer(s, id, cbs[0], o), id, cbs[1..], o);
    }
  }

  lemma {:induction false} AnswerGoesOn(s: Server, id: nat, cb: Callback, o: Offer)
    requires id in s.lives
    ensures Onward(s.lives, s.pending, Answer(s, id, cb, o))
  {
    CloseGoesOn(s, id);
    SendGoesOn(s, id, true);
    MaskGoesOn(s, id, DisableWriting(s.lives[id].mask));
  }

  lemma {:induction false} MaskGoesOn(s: Server, id: nat, mask: Interest)
    requires id in s.lives
    ensures Onward(s.lives, s.pending, SetMask(s, id, mask))
  {
  }

  lemma {:induction false} CloseGoesOn(s: Server, id: nat)
    requires id in s.lives
    ensures Onward(s.lives, s.pending, HandleClose(s, id))
  {
    MaskGoesOn(s, id, NONE);
  }

  lemma {:induction false} StepGoesOn(s: Server, a: Action)
    requires Inv(s) && Enabled(s, a)
    ensures Onward(s.lives, if a.NextFunctor? then s.pending[1..] else s.pending, Step(s, a))
  {
    match a
    case OnConn(id, r, o) => AnswersGoOn(s.(phase := Events(s.phase.active - {id})), id, Dispatch(r), o);
    case Accept(fd) =>
      FreshConnection(s, fd);
      AcceptEffect(s, fd);
    case NextFunctor => FunctorGoesOn(s);
    case UserSend(id, leftover) => SendGoesOn(s, id, leftover);
    case _ =>
  }

  lemma {:induction false} SendGoesOn(s: Server, id: nat, leftover: bool)
    requires id in s.lives
    ensures Onward(s.lives, s.pending, SendInLoop(s, id, leftover))
  {
  }

  lemma {:induction false} FunctorGoesOn(s: Server)
    requires Enabled(s, NextFunctor)
    ensures Onward(s.lives, s.pending[1..], Step(s, NextFunctor))
  {
    var t := s.(pending := s.pending[1..]);
    match s.pending[0]
    case Destroy(id) => DestroyedGoesOn(t, id);
    case QueuedSend(id, leftover) => SendGoesOn(t, id, leftover);
  }

  lemma {:induction false} DestroyedGoesOn(s: Server, id: nat)
    requires id in s.lives
    ensures Onward(s.lives, s.pending, Destroyed(s, id))
  {
    if Open(s.lives[id]) {
      var t := Update(s, id, s.lives[id].(state := Disconnected));
      var u := SetMask(t, id, NONE);
      var v := Update(u, id, u.lives[id].(downs := s.lives[id].downs + 1));
      MaskKeepsStates(t, id, NONE);
      DownKeepsStates(u, id, s.lives[id].downs + 1);
      RemovalKeepsStates(v, id);
      DownedGoesOn(s, id, t, Destroyed(s, id));
    }
  }

  /** The queue and the connections' states are the same. */
  predicate SameStates(s: Server, t: Server) {
    t.pending == s.pending && t.lives.Keys == s.lives.Keys
    && forall id :: id in s.lives ==> t.lives[id].state == s.lives[id].state
  }

  lemma {:induction false} MaskKeepsStates(s: Server, id: nat, mask: Interest)
    requires id in s.lives
    ensures SameStates(s, SetMask(s, id, mask))
  {
  }

  lemma {:induction false} DownKeepsStates(s: Server, id: nat, downs: nat)
    requires id in s.lives
    ensures SameStates(s, Update(s, id, s.lives[id].(downs := downs)))
  {
  }

  lemma {:induction false} RemovalKeepsStates(s: Server, id: nat)
    requires id in s.lives
    ensures SameStates(s, RemoveChannel(s, id))
  {
  }

  lemma {:induction false} DownedGoesOn(s: Server, id: nat, t: Server, u: Server)
    requires id in s.lives && t == Update(s, id, s.lives[id].(state := Disconnected)) && SameStates(t, u)
    ensures Onward(s.lives, s.pending, u)
  {
  }

  // ---------------------------------------------------------------- the registry calls

  /** The log of registry calls meets the pollers' asserts and leads to the interest map. */
  ghost predicate Booked(s: Server) {
    Registry.AllowedRun(Registry.EMPTY, s.calls) && s.registry == Registry.Run(Registry.EMPTY, s.calls)
  }

  lemma {:induction false} SetMaskBooked(s: Server, id: nat, mask: Interest)
    requires Booked(s) && id in s.lives
    ensures Booked(SetMask(s, id, mask))
  {
    Registry.RunAppend(Registry.EMPTY, s.calls, Registry.Update(s.lives[id].fd, mask));
  }

  lemma {:induction false} RemoveChannelBooked(s: Server, id: nat)
    requires Booked(s) && id in s.lives
    ensures Booked(RemoveChannel(s, id))
  {
    Registry.RunAppend(Registry.EMPTY, s.calls, Registry.Remove(s.lives[id].fd));
  }

  lemma {:induction false} HandleCloseBooked(s: Server, id: nat)
    requires Booked(s) && id in s.lives
    ensures Booked(HandleClose(s, id))
  {
    SetMaskBooked(s, id, NONE);
  }

  lemma {:induction false} AnswersBooked(s: Server, id: nat, cbs: seq<Callback>, o: Offer)
    requires Booked(s) && id in s.lives
    ensures Booked(AnswerAll(s, id, cbs, o))
    decreases |cbs|
  {
    if cbs != [] {
      HandleCloseBooked(s, id);
      SetMaskBooked(s, id, EnableWriting(s.lives[id].mask));
      SetMaskBooked(s, id, DisableWriting(s.lives[id].mask));
      AnswersBooked(Answer(s, id, cbs[0], o), id, cbs[1..], o);
    }
  }

  lemma {:induction false} DestroyedBooked(s: Server, id: nat)
    requires Booked(s) && id in s.lives
    ensures Booked(Destroyed(s, id))
  {
    var l := s.lives[id];
    var t := Update(s, id, l.(state := Disconnected));
    SetMaskBooked(t, id, NONE);
    var u := SetMask(t, id, NONE);
    RemoveChannelBooked(Update(u, id, u.lives[id].(downs := l.downs + 1)), id);
  }

  lemma {:induction false} StepBooked(s: Server, a: Action)
    requires Booked(s) && Enabled(s, a)
    ensures Booked(Step(s, a))
  {
    match a
    case Accept(fd) =>
      var t := s.(nextId := s.nextId + 1, table := s.table + {s.nextId},
                  lives := s.lives[s.nextId := Life(fd, Connected, NONE, false, 0, 0, 0)]);
      SetMaskBooked(t, s.nextId, EnableReading(NONE));
    case OnConn(id, r, o) => AnswersBooked(s.(phase := Events(s.phase.active - {id})), id, Dispatch(r), o);
    case UserSend(id, leftover) => SetMaskBooked(s, id, EnableWriting(s.lives[id].mask));
    case NextFunctor =>
      var t := s.(pending := s.pending[1..]);
      DestroyedBooked(t, s.pending[0].id);
      SetMaskBooked(t, s.pending[0].id, EnableWriting(s.lives[s.pending[0].id].mask));
    case _ =>
  }

  // ---------------------------------------------------------------- every run

  ghost predicate EnabledRun(s: Server, acts: seq<Action>)
    decreases |acts|
  {
    acts == [] || s.failed || (Enabled(s, acts[0]) && EnabledRun(Step(s, acts[0]), acts[1..]))
  }

  ghost function Run(s: Server, acts: seq<Action>): Server
    requires EnabledRun(s, acts)
    decreases |acts|
  {
    if acts == [] || s.failed then s else Run(Step(s, acts[0]), acts[1..])
  }

  ghost predicate AlwaysHealthy(s: Server, acts: seq<Action>)
    requires EnabledRun(s, acts)
    decreases |acts|
  {
    Healthy(s) && (acts == [] || AlwaysHealthy(Step(s, acts[0]), acts[1..]))
  }

  ghost predicate NeverBreaks(s: Server, acts: seq<Action>)
    requires EnabledRun(s, acts)
    decreases |acts|
  {
    s.failed || acts == [] || (!Breaks(s, acts[0]) && NeverBreaks(Step(s, acts[0]), acts[1..]))
  }

  /** In every run of a single-loop server, no assert of the server, its connections or the poller fails
      and no destroyed connection is registered, if and only if neither of the two breaking events
      occurs; and then every connection is where it should be, and the registry calls are in order. */
  lemma {:induction false} AlwaysHealthyIff(s: Server, acts: seq<Action>)
    requires Inv(s) && Booked(s) && EnabledRun(s, acts)
    ensures AlwaysHealthy(s, acts) <==> NeverBreaks(s, acts)
    ensures NeverBreaks(s, acts) ==> Inv(Run(s, acts)) && Booked(Run(s, acts))
    decreases |acts|
  {
    if acts != [] {
      StepKeepsInvIff(s, acts[0]);
      StepBooked(s, acts[0]);
      if !Breaks(s, acts[0]) {
        AlwaysHealthyIff(Step(s, acts[0]), acts[1..]);
      }
    }
  }

  function Turns(acts: seq<Action>): nat {
    if acts == [] then 0 else (if acts[0].NextFunctor? then 1 else 0) + Turns(acts[1..])
  }

  /** Over every unbroken run: what is queued runs in that order and before anything queued later; and a
      connection goes from Connected to Disconnecting to Disconnected and never back. */
  lemma {:induction false} RunGoesOn(s: Server, acts: seq<Action>)
    requires Inv(s) && EnabledRun(s, acts) && NeverBreaks(s, acts)
    ensures Turns(acts) <= |s.pending| ==> s.pending[Turns(acts)..] <= Run(s, acts).pending
    ensures Onward(s.lives, [], Run(s, acts))
    decreases |acts|
  {
    if acts != [] {
      var t := Step(s, acts[0]);
      StepGoesOn(s, acts[0]);
      StepKeepsInvIff(s, acts[0]);
      RunGoesOn(t, acts[1..]);
      var n := if acts[0].NextFunctor? then 1 else 0;
      assert s.pending[n..] <= t.pending;
      GoesOn(s.lives, s.pending, n, Turns(acts[1..]), t, Run(t, acts[1..]));
    }
  }

  lemma {:induction false} GoesOn(
      lives: map<nat, Life>, queue: seq<Functor>, n: nat, more: nat, t: Server, u: Server)
    requires n <= |queue| && Onward(lives, queue[n..], t) && Onward(t.lives, [], u)
    requires more <= |t.pending| ==> t.pending[more..] <= u.pending
    ensures Onward(lives, [], u) && (n + more <= |queue| ==> queue[n + more..] <= u.pending)
  {
    if n + more <= |queue| {
      assert queue[n + more..] == queue[n..][more..];
    }
  }

  /** `shutdown` takes a connected connection to Disconnecting; after it, whatever comes, no send on that
      connection has any effect, from whichever thread. */
  lemma {:induction false} ShutdownRefusesSends(s: Server, id: nat, acts: seq<Action>, leftover: bool)
    requires Inv(s) && id in s.lives && Enabled(s, UserShutdown(id))
    requires var t := Step(s, UserShutdown(id)); EnabledRun(t, acts) && NeverBreaks(t, acts)
    ensures Step(s, UserShutdown(id)) ==
      if s.lives[id].state == Connected then s.(lives := s.lives[id := s.lives[id].(state := Disconnecting)]) else s
    ensures var t := Run(Step(s, UserShutdown(id)), acts);
      && id in t.lives && t.lives[id].state != Connected
      && (Enabled(t, UserSend(id, leftover)) ==> Step(t, UserSend(id, leftover)) == t)
      && (Enabled(t, UserSendElsewhere(id, leftover)) ==> Step(t, UserSendElsewhere(id, leftover)) == t)
  {
    assert LifeOk(s, id);
    StepKeepsInvIff(s, UserShutdown(id));
    RunGoesOn(Step(s, UserShutdown(id)), acts);
    SendRefused(Run(Step(s, UserShutdown(id)), acts), id, leftover);
  }

  lemma {:induction false} SendRefused(s: Server, id: nat, leftover: bool)
    requires id in s.lives && s.lives[id].state != Connected
    ensures Enabled(s, UserSend(id, leftover)) ==> Step(s, UserSend(id, leftover)) == s
    ensures Enabled(s, UserSendElsewhere(id, leftover)) ==> Step(s, UserSendElsewhere(id, leftover)) == s
  {
  }

  /** Whenever an unbroken server is back in poll: every connection is either in the map, reported up
      once and registered for reading, or was erased once, destroyed once, and reported up and down
      once; and the registered descriptors are exactly those of the map. */
  lemma {:induction false} SettledAtPoll(acts: seq<Action>)
    requires EnabledRun(INITIAL, acts) && NeverBreaks(INITIAL, acts) && Run(INITIAL, acts).phase.Polling?
    ensures var s := Run(INITIAL, acts);
      && (forall id :: id in s.lives ==>
            s.lives[id].ups == 1 && s.lives[id].erased == s.lives[id].downs == (if id in s.table then 0 else 1))
      && (forall id :: id in s.table ==> id in s.lives && s.lives[id].fd in s.owner && s.owner[s.lives[id].fd] == id)
      && (forall fd :: fd in s.owner ==>
            s.owner[fd] in s.table && s.owner[fd] in s.lives && s.lives[s.owner[fd]].fd == fd)
  {
    assert Inv(INITIAL) && Booked(INITIAL);
    AlwaysHealthyIff(INITIAL, acts);
    var s := Run(INITIAL, acts);
    forall id | id in s.lives
      ensures LifeOk(s, id) && Destroy(id) !in s.pending
    {
    }
    forall fd | fd in s.owner
      ensures s.owner[fd] in s.table
    {
      assert LifeOk(s, s.owner[fd]);
    }
  }

  /** At a poll, what is wanted is what the connections in the map want, and nothing is re-armed. */
  lemma {:induction false} WantedAtPoll(s: Server)
    requires Inv(s) && s.phase.Polling?
    ensures Registry.NothingRearmed(s.registry)
    ensures Registry.Wanted(s.registry) == set id | id in s.table && id in s.lives :: (s.lives[id].fd, s.lives[id].mask)
  {
    forall id | id in s.lives
      ensures LifeOk(s, id) && (Open(s.lives[id]) <==> id in s.table)
    {
      assert Destroy(id) !in s.pending;
    }
  }

  /** The registry calls of an unbroken server meet every assert of both pollers, none of the
      epoll_ctl calls is refused, and whenever it polls, poll(2) and epoll watch the same: the
      connections in the map, each with its own mask. */
  lemma {:induction false} PollersInterchangeable(acts: seq<Action>)
    requires EnabledRun(INITIAL, acts) && NeverBreaks(INITIAL, acts) && Run(INITIAL, acts).phase.Polling?
    ensures var s := Run(INITIAL, acts);
      && Registry.AllowedRun(Registry.EMPTY, s.calls)
      && var e := EpollSet.Run(EpollSet.EMPTY, Registry.EMPTY, s.calls);
         var t := PollTable.Run(PollTable.EMPTY, Registry.EMPTY, s.calls);
      && e.failures == 0
      && PollTable.Watched(t) == EpollSet.Watched(e)
         == set id | id in s.table && id in s.lives :: (s.lives[id].fd, s.lives[id].mask)
  {
    assert Inv(INITIAL) && Booked(INITIAL);
    AlwaysHealthyIff(INITIAL, acts);
    var s := Run(INITIAL, acts);
    WantedAtPoll(s);
    PollersAgree.WatchTheSameIff(s.calls);
    EpollSet.WatchesWanted(EpollSet.Run(EpollSet.EMPTY, Registry.EMPTY, s.calls), s.registry);
  }

  /** From every poll of an unbroken server and for every connection it has then, one event with POLLHUP
      and POLLPRI whose read returns 0 fails the erase-count assert. */
  lemma {:induction false} DoubleCloseBreaks(s: Server, id: nat)
    requires Inv(s) && s.phase.Polling? && id in s.table
    ensures var both := OnConn(id, QUIET.(hup := true, pri := true), Offer(0, false, false));
      var t := s.(phase := Events({id}));
      && Enabled(s, Poll({id})) && Step(s, Poll({id})) == t
      && Enabled(t, both) && !Healthy(Step(t, both))
  {
    assert LifeOk(s, id);
    PhaseKeepsInv(s, Events({id}));
    StepKeepsInvIff(s.(phase := Events({id})), OnConn(id, QUIET.(hup := true, pri := true), Offer(0, false, false)));
  }

  /** One run after another. */
  lemma {:induction false} RunConcat(s: Server, acts: seq<Action>, more: seq<Action>)
    requires EnabledRun(s, acts) && !Run(s, acts).failed && EnabledRun(Run(s, acts), more)
    ensures EnabledRun(s, acts + more) && Run(s, acts + more) == Run(Run(s, acts), more)
    ensures NeverBreaks(s, acts + more) <==> NeverBreaks(s, acts) && NeverBreaks(Run(s, acts), more)
    decreases |acts|
  {
    if acts == [] {
      assert acts + more == more;
    } else {
      assert (acts + more)[1..] == acts[1..] + more;
      RunConcat(Step(s, acts[0]), acts[1..], more);
    }
  }

  /** The run is unbroken and leads to `t`. */
  ghost predicate Reaches(s: Server, acts: seq<Action>, t: Server) {
    EnabledRun(s, acts) && NeverBreaks(s, acts) && Run(s, acts) == t && !t.failed
  }

  lemma {:induction false} LastStep(s: Server, acts: seq<Action>, t: Server, a: Action)
    requires Reaches(s, acts, t) && Enabled(t, a)
    ensures EnabledRun(s, acts + [a]) && Run(s, acts + [a]) == Step(t, a)
    ensures NeverBreaks(s, acts + [a]) <==> !Breaks(t, a)
  {
    assert [a][1..] == [];
    RunConcat(s, acts, [a]);
  }

  lemma {:induction false} ReachesNext(s: Server, acts: seq<Action>, t: Server, a: Action)
    requires Reaches(s, acts, t) && Enabled(t, a) && !Breaks(t, a) && !Step(t, a).failed
    ensures Reaches(s, acts + [a], Step(t, a))
  {
    LastStep(s, acts, t, a);
  }

  function FirstIteration(fd: nat): seq<Action> { [Poll({})] + [Accept(fd)] + [BeginFunctors] + [EndFunctors] }

  /** There are such polls: after the first iteration the first connection is connected and in the map. */
  lemma {:induction false} FirstConnection(fd: nat) returns (s: Server)
    ensures Reaches(INITIAL, FirstIteration(fd), s) && Inv(s)
    ensures s.phase.Polling? && s.pending == [] && 1 in s.table && s.lives[1].state == Connected
  {
    var s1 := INITIAL.(phase := Events({}));
    ReachesNext(INITIAL, [], INITIAL, Poll({}));
    AcceptEffect(s1, fd);
    ReachesNext(INITIAL, [Poll({})], s1, Accept(fd));
    var s2 := NewConnection(s1, fd);
    ReachesNext(INITIAL, [Poll({})] + [Accept(fd)], s2, BeginFunctors);
    ReachesNext(INITIAL, [Poll({})] + [Accept(fd)] + [BeginFunctors], s2.(phase := Functors(0)), EndFunctors);
    s := s2.(phase := Polling);
    assert Inv(INITIAL) && Booked(INITIAL);
    AlwaysHealthyIff(INITIAL, FirstIteration(fd));
  }

  function HangUp(id: nat): Action { OnConn(id, QUIET.(hup := true), Offer(1, false, false)) }

  /** A hang-up alone closes the connection once. */
  lemma {:induction false} HangUpCloses(s: Server, id: nat)
    requires Inv(s) && s.phase == Events({id}) && id in s.table
    ensures Enabled(s, HangUp(id)) && Step(s, HangUp(id)) == HandleClose(s.(phase := Events({})), id)
  {
    assert s.phase.active - {id} == {};
    PhaseKeepsInv(s, Events({}));
    EventByFlags(s.(phase := Events({})), id, QUIET.(hup := true), Offer(1, false, false));
  }

  /** A connection hangs up, and before the functors run another thread sends on it. */
  function BeforeFunctors(id: nat): seq<Action> {
    [Poll({id})] + [HangUp(id)] + [UserSendElsewhere(id, true)] + [BeginFunctors]
  }

  lemma {:induction false} HungUp(s: Server, id: nat) returns (t: Server)
    requires Inv(s) && s.phase.Polling? && s.pending == [] && id in s.table && s.lives[id].state == Connected
    ensures Reaches(s, [Poll({id})] + [HangUp(id)], t) && Inv(t) && t.phase == Events({})
    ensures t.pending == [Destroy(id)] && id in t.lives && t.lives[id].state == Connected
  {
    assert LifeOk(s, id);
    var s0, s1 := s.(phase := Events({})), s.(phase := Events({id}));
    PhaseKeepsInv(s, Events({}));
    PhaseKeepsInv(s, Events({id}));
    ReachesNext(s, [], s, Poll({id}));
    HangUpCloses(s1, id);
    CloseEffect(s0, id);
    CloseKeepsInv(s0, id);
    ReachesNext(s, [Poll({id})], s1, HangUp(id));
    t := HandleClose(s0, id);
  }

  /** The teardown and the send are queued, in this order. */
  lemma {:induction false} SendBehindTeardown(s: Server, id: nat) returns (t: Server)
    requires Inv(s) && s.phase.Polling? && s.pending == [] && id in s.table && s.lives[id].state == Connected
    ensures Reaches(s, BeforeFunctors(id), t) && Inv(t)
    ensures t.phase == Functors(2) && t.pending == [Destroy(id)] + [QueuedSend(id, true)]
  {
    var s2 := HungUp(s, id);
    QueueKeepsInv(s2, id, true);
    ReachesNext(s, [Poll({id})] + [HangUp(id)], s2, UserSendElsewhere(id, true));
    var s3 := s2.(pending := s2.pending + [QueuedSend(id, true)]);
    PhaseKeepsInv(s3, Functors(2));
    ReachesNext(s, [Poll({id})] + [HangUp(id)] + [UserSendElsewhere(id, true)], s3, BeginFunctors);
    t := s3.(phase := Functors(2));
  }

  /** And so the send finds the connection destroyed. */
  function LateSend(id: nat): seq<Action> { BeforeFunctors(id) + [NextFunctor] + [NextFunctor] }

  /** The poller knows the destroyed connection `id`. */
  predicate IsDead(s: Server, id: nat) {
    !s.failed && id in s.lives && Owns(s, id) && s.lives[id].added && s.lives[id].state == Disconnected
  }

  /** From every poll with nothing queued and for every connected connection it has then, such a run ends
      with the dead connection registered again. */
  lemma {:induction false} LateSendIsReached(s: Server, id: nat)
    requires Inv(s) && s.phase.Polling? && s.pending == [] && id in s.table && s.lives[id].state == Connected
    ensures EnabledRun(s, LateSend(id))
    ensures var t := Run(s, LateSend(id)); IsDead(t, id) && t.phase == Functors(0) && !Healthy(t)
  {
    var t := SendBehindTeardown(s, id);
    assert t.pending[0] == Destroy(id) && Destroy(id) in t.pending && LifeOk(t, id);
    StepIsGone(t, id);
    TeardownKeepsInv(t, id);
    ReachesNext(s, BeforeFunctors(id), t, NextFunctor);
    var u := Gone(t, id);
    assert u.pending == [QueuedSend(id, true)];
    QueuedSendKeepsInvIff(u);
    LastStep(s, BeforeFunctors(id) + [NextFunctor], u, NextFunctor);
  }

  /** The next hang-up of such a connection fails the assert on its state. */
  lemma {:induction false} DeadConnectionFails(s: Server, id: nat)
    requires IsDead(s, id) && s.phase == Functors(0)
    ensures var acts := [EndFunctors] + [Poll({id})] + [HangUp(id)]; EnabledRun(s, acts) && Run(s, acts).failed
  {
    var t := s.(phase := Events({id}));
    EventByFlags(t.(phase := Events(t.phase.active - {id})), id, QUIET.(hup := true), Offer(1, false, false));
    ReachesNext(s, [], s, EndFunctors);
    ReachesNext(s, [EndFunctors], s.(phase := Polling), Poll({id}));
    LastStep(s, [EndFunctors] + [Poll({id})], t, HangUp(id));
  }

  /** So an assert can fail in a server that has just started and accepted its first connection. */
  lemma {:induction false} LateSendFromStart(fd: nat)
    ensures var acts := FirstIteration(fd) + LateSend(1) + ([EndFunctors] + [Poll({1})] + [HangUp(1)]);
      EnabledRun(INITIAL, acts) && Run(INITIAL, acts).failed
  {
    var s := FirstConnection(fd);
    LateSendIsReached(s, 1);
    RunConcat(INITIAL, FirstIteration(fd), LateSend(1));
    DeadConnectionFails(Run(s, LateSend(1)), 1);
    RunConcat(INITIAL, FirstIteration(fd) + LateSend(1), [EndFunctors] + [Poll({1})] + [HangUp(1)]);
  }
}
