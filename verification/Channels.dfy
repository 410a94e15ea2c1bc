/** Interest masks, returned events and the dispatch order of event_loop/Channel.hpp and
    event_loop/Channel.cpp.

    The other modules use records of flags; the lemmas here tie the records to the poll(2) bits the
    source computes with. */
module Channels {

  // poll(2) constants on Linux
  const POLLIN: bv16 := 0x0001
  const POLLPRI: bv16 := 0x0002
  const POLLOUT: bv16 := 0x0004
  const POLLERR: bv16 := 0x0008
  const POLLHUP: bv16 := 0x0010
  const POLLNVAL: bv16 := 0x0020
  const POLLRDHUP: bv16 := 0x2000

  const READ_EVENT: bv16 := POLLIN | POLLPRI
  const WRITE_EVENT: bv16 := POLLOUT

  /** The interest mask `events_`. Only whole read and write groups are ever switched. */
  datatype Interest = Interest(reading: bool, writing: bool) {
    function Bits(): bv16 {
      (if reading then READ_EVENT else 0) | (if writing then WRITE_EVENT else 0)
    }
  }

  const NONE: Interest := Interest(false, false)

  function EnableReading(i: Interest): Interest { i.(reading := true) }
  function EnableWriting(i: Interest): Interest { i.(writing := true) }
  function DisableWriting(i: Interest): Interest { i.(writing := false) }

  /** The mask updates and tests are the source's bit operations, and no two masks share bits. */
  lemma {:induction false} InterestMatchesBits(i: Interest, j: Interest)
    ensures EnableReading(i).Bits() == i.Bits() | READ_EVENT
    ensures EnableWriting(i).Bits() == i.Bits() | WRITE_EVENT
    ensures DisableWriting(i).Bits() == i.Bits() & !WRITE_EVENT
    ensures i.writing <==> i.Bits() & WRITE_EVENT != 0
    ensures i == NONE <==> i.Bits() == 0
    ensures i.Bits() == j.Bits() ==> i == j
  {
  }

  /** What poll(2) or epoll_wait(2) reported for one descriptor. */
  datatype Revents = Revents(pollIn: bool, pri: bool, out: bool, err: bool, hup: bool, nval: bool, rdhup: bool) {
    function Bits(): bv16 {
      (if pollIn then POLLIN else 0) | (if pri then POLLPRI else 0) | (if out then POLLOUT else 0)
      | (if err then POLLERR else 0) | (if hup then POLLHUP else 0) | (if nval then POLLNVAL else 0)
      | (if rdhup then POLLRDHUP else 0)
    }
  }

  const QUIET: Revents := Revents(false, false, false, false, false, false, false)

  datatype Callback = CloseCallback | ErrorCallback | ReadCallback | WriteCallback

  /** `handle_event`: the callbacks it makes, in order, for one returned mask. */
  function DispatchBits(r: bv16): seq<Callback> {
    (if r & POLLHUP != 0 && r & POLLIN == 0 then [CloseCallback] else [])
    + (if r & (POLLERR | POLLNVAL) != 0 then [ErrorCallback] else [])
    + (if r & (POLLIN | POLLPRI | POLLRDHUP) != 0 then [ReadCallback] else [])
    + (if r & POLLOUT != 0 then [WriteCallback] else [])
  }

  function Dispatch(r: Revents): seq<Callback> { DispatchBits(r.Bits()) }

  predicate Closes(r: Revents) { r.hup && !r.pollIn }
  predicate Errs(r: Revents) { r.err || r.nval }
  predicate Reads(r: Revents) { r.pollIn || r.pri || r.rdhup }
  predicate Writes(r: Revents) { r.out }

  /** The one combination in which a single event runs both the close and the read callback. */
  predicate HangsUpAndReads(r: Revents) { r.hup && !r.pollIn && (r.pri || r.rdhup) }

  /** Which callbacks one event makes, on which flags and in which order, when close and read both run, and
      that no bit set means no flag set. */
  lemma {:induction false} DispatchMatchesFlags(r: Revents)
    ensures Dispatch(r) ==
      (if r.hup && !r.pollIn then [CloseCallback] else []) + (if r.err || r.nval then [ErrorCallback] else [])
      + (if r.pollIn || r.pri || r.rdhup then [ReadCallback] else []) + (if r.out then [WriteCallback] else [])
    ensures Dispatch(r) ==
      (if Closes(r) then [CloseCallback] else []) + (if Errs(r) then [ErrorCallback] else [])
      + (if Reads(r) then [ReadCallback] else []) + (if Writes(r) then [WriteCallback] else [])
    ensures CloseCallback in Dispatch(r) && ReadCallback in Dispatch(r)
      <==> HangsUpAndReads(r)
    ensures r.Bits() == 0 <==> r == QUIET
  {
  }

  /** What a connection is offered in one event: the read returns `n`; the message callback may send a
      reply and leave bytes over; a write may drain the buffer. */
  datatype Offer = Offer(n: int, reply: bool, drained: bool)

  /** A channel as the pollers see it. Index -1 means that no poller has it. `holder` numbers the object
      that its callbacks are bound to; `handling` is `event_handling_`. */
  class Channel {
    const fd: nat
    const holder: nat
    var events: Interest
    var revents: Revents
    var index: int
    var handling: bool

    constructor (fd: nat, holder: nat)
      ensures this.fd == fd && this.holder == holder && events == NONE && revents == QUIET && index == -1
      ensures !handling
    {
      this.fd, this.holder := fd, holder;
      events, revents, index, handling := NONE, QUIET, -1, false;
    }
  }
}
