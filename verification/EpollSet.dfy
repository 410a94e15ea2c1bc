/** The registry of poller/Epoller.cpp: an index state per channel (absent, added, deleted) mirrored into
    the kernel's epoll set. A call the kernel would refuse is counted in `failures`. */
module EpollSet {
  import opened Channels
  import Registry

  /** `k_added` and `k_deleted`; a channel at `k_new` is not in the map. */
  datatype Status = Added | Deleted

  datatype Ctl = CtlAdd(fd: nat, mask: Interest) | CtlMod(fd: nat, mask: Interest) | CtlDel(fd: nat)

  datatype Epoll = Epoll(kernel: map<nat, Interest>, status: map<nat, Status>, failures: nat)

  const EMPTY: Epoll := Epoll(map[], map[], 0)

  /** epoll_ctl(2): ADD only for an absent descriptor, MOD and DEL only for a present one. */
  predicate Accepts(kernel: map<nat, Interest>, op: Ctl) {
    op.CtlAdd? <==> op.fd !in kernel
  }

  function Control(e: Epoll, op: Ctl): Epoll {
    if !Accepts(e.kernel, op) then e.(failures := e.failures + 1)
    else match op
      case CtlAdd(fd, mask) => e.(kernel := e.kernel[fd := mask])
      case CtlMod(fd, mask) => e.(kernel := e.kernel[fd := mask])
      case CtlDel(fd) => e.(kernel := e.kernel - {fd})
  }

  /** What the kernel refuses, an addition of a descriptor it has or a change of one it has not, is counted and
      leaves the set alone. */
  lemma {:induction false} RefusalIsCounted(e: Epoll, op: Ctl)
    ensures var f := Control(e, op);
      if op.CtlAdd? == (op.fd in e.kernel) then f.failures == e.failures + 1 && f.kernel == e.kernel
      else f.failures == e.failures && f.kernel.Keys == if op.CtlDel? then e.kernel.Keys - {op.fd}
                                                        else e.kernel.Keys + {op.fd}
  {
  }

  /** The calls `update_channel` makes. */
  function UpdateCalls(e: Epoll, fd: nat, mask: Interest): seq<Ctl> {
    if fd !in e.status || e.status[fd] == Deleted then [CtlAdd(fd, mask)]
    else if mask == NONE then [CtlDel(fd)]
    else [CtlMod(fd, mask)]
  }

  /** `update_channel` */
  function Update(e: Epoll, fd: nat, mask: Interest): Epoll {
    var d := Control(e, UpdateCalls(e, fd, mask)[0]);
    d.(status := d.status[fd := if UpdateCalls(e, fd, mask)[0].CtlDel? then Deleted else Added])
  }

  /** `remove_channel` */
  function Remove(e: Epoll, fd: nat): Epoll
    requires fd in e.status
  {
    var d := e.(status := e.status - {fd});
    if e.status[fd] == Added then Control(d, CtlDel(fd)) else d
  }

  function Watched(e: Epoll): set<(nat, Interest)> {
    set fd | fd in e.kernel && e.kernel[fd] != NONE :: (fd, e.kernel[fd])
  }

  /** Added exactly when in the kernel set, with the channel's own mask; deleted only with an empty
      mask; and no call was ever refused. */
  ghost predicate Represents(e: Epoll, reg: Registry.Interests) {
    && e.status.Keys == reg.Keys
    && e.failures == 0
    && (forall fd :: fd in e.kernel <==> fd in e.status && e.status[fd] == Added)
    && (forall fd :: fd in e.kernel ==> e.kernel[fd] == reg[fd].mask)
    && (forall fd :: fd in e.status && e.status[fd] == Deleted ==> reg[fd].mask == NONE)
  }

  function Apply(e: Epoll, op: Registry.Op): Epoll
    requires op.Remove? ==> op.fd in e.status
  {
    match op
    case Update(fd, mask) => Update(e, fd, mask)
    case Remove(fd) => Remove(e, fd)
  }

  lemma {:induction false} ApplyRepresents(e: Epoll, reg: Registry.Interests, op: Registry.Op)
    requires Represents(e, reg) && Registry.Allowed(reg, op)
    ensures Represents(Apply(e, op), Registry.Apply(reg, op))
  {
  }

  /** The set after a run; it represents the interest map, so no epoll_ctl call was refused. */
  ghost function Run(e: Epoll, reg: Registry.Interests, ops: seq<Registry.Op>): (f: Epoll)
    requires Represents(e, reg) && Registry.AllowedRun(reg, ops)
    ensures Represents(f, Registry.Run(reg, ops)) && f.failures == 0
    decreases |ops|
  {
    if ops == [] then e
    else
      ApplyRepresents(e, reg, ops[0]);
      Run(Apply(e, ops[0]), Registry.Apply(reg, ops[0]), ops[1..])
  }

  /** The set after a log of calls, newest last. */
  function Replay(calls: seq<Registry.Op>): Epoll {
    if calls == [] then EMPTY
    else
      var e, op := Replay(calls[..|calls| - 1]), calls[|calls| - 1];
      if op.Remove? && op.fd !in e.status then e else Apply(e, op)
  }

  lemma {:induction false} RunAppend(e: Epoll, reg: Registry.Interests, ops: seq<Registry.Op>, op: Registry.Op)
    requires Represents(e, reg) && Registry.AllowedRun(reg, ops + [op])
    ensures Registry.AllowedRun(reg, ops) && (op.Remove? ==> op.fd in Run(e, reg, ops).status)
    ensures Run(e, reg, ops + [op]) == Apply(Run(e, reg, ops), op)
    decreases |ops|
  {
    Registry.RunAppend(reg, ops, op);
    if ops == [] {
      assert [op][1..] == [] && ops + [op] == [op];
    } else {
      assert (ops + [op])[1..] == ops[1..] + [op];
      ApplyRepresents(e, reg, ops[0]);
      RunAppend(Apply(e, ops[0]), Registry.Apply(reg, ops[0]), ops[1..], op);
    }
  }

  /** The log of an allowed run leads where the run leads. */
  lemma {:induction false} ReplayIsRun(calls: seq<Registry.Op>)
    requires Registry.AllowedRun(Registry.EMPTY, calls)
    ensures Replay(calls) == Run(EMPTY, Registry.EMPTY, calls)
  {
    if calls != [] {
      var front, op := calls[..|calls| - 1], calls[|calls| - 1];
      assert calls == front + [op];
      RunAppend(EMPTY, Registry.EMPTY, front, op);
      ReplayIsRun(front);
    }
  }

  /** The log meets the asserts and leads to this interest map and this set. */
  ghost predicate Logged(calls: seq<Registry.Op>, reg: Registry.Interests, e: Epoll) {
    Registry.AllowedRun(Registry.EMPTY, calls) && reg == Registry.Run(Registry.EMPTY, calls) && e == Replay(calls)
  }

  lemma {:induction false} LoggedAppend(calls: seq<Registry.Op>, reg: Registry.Interests, e: Epoll, op: Registry.Op)
    requires Logged(calls, reg, e) && Registry.Allowed(reg, op) && (op.Remove? ==> op.fd in e.status)
    ensures Logged(calls + [op], Registry.Apply(reg, op), Apply(e, op))
  {
    assert (calls + [op])[..|calls|] == calls;
    Registry.RunAppend(Registry.EMPTY, calls, op);
  }

  /** Such a set represents the interest map. */
  lemma {:induction false} LoggedRepresents(calls: seq<Registry.Op>, reg: Registry.Interests, e: Epoll)
    requires Logged(calls, reg, e)
    ensures Represents(e, reg)
  {
    ReplayIsRun(calls);
  }

  /** epoll watches exactly what is wanted. */
  lemma {:induction false} WatchesWanted(e: Epoll, reg: Registry.Interests)
    requires Represents(e, reg)
    ensures Watched(e) == Registry.Wanted(reg)
  {
  }

  /** The close path of a connection: `handle_close` and `connect_destoryed` both switch all interest
      off, so the second one adds the descriptor again with an empty mask just before removal. */
  lemma {:induction false} ClosePathCalls(e: Epoll, reg: Registry.Interests, fd: nat)
    requires Represents(e, reg) && fd in reg && reg[fd].mask != NONE
    ensures var closed := Update(e, fd, NONE);
      var destroyed := Update(closed, fd, NONE);
      && UpdateCalls(e, fd, NONE) == [CtlDel(fd)]
      && UpdateCalls(closed, fd, NONE) == [CtlAdd(fd, NONE)]
      && destroyed.kernel == e.kernel[fd := NONE]
      && Remove(destroyed, fd) == Epoll(e.kernel - {fd}, e.status - {fd}, 0)
  {
  }
}
