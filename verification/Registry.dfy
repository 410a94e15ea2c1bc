/** What both pollers speed up: a map from registered descriptors to interest masks. `muted` records
    that an update with an empty mask has come since the descriptor was registered. */
module Registry {
  import opened Channels

  datatype Entry = Entry(mask: Interest, muted: bool)

  type Interests = map<nat, Entry>

  const EMPTY: Interests := map[]

  datatype Op = Update(fd: nat, mask: Interest) | Remove(fd: nat)

  /** `remove_channel` asserts that the channel is known, wants nothing and was muted. */
  predicate Allowed(reg: Interests, op: Op) {
    op.Remove? ==> op.fd in reg && reg[op.fd] == Entry(NONE, true)
  }

  function Apply(reg: Interests, op: Op): Interests {
    match op
    case Update(fd, mask) =>
      reg[fd := Entry(mask, fd in reg && (reg[fd].muted || mask == NONE))]
    case Remove(fd) => reg - {fd}
  }

  predicate AllowedRun(reg: Interests, ops: seq<Op>)
    decreases |ops|
  {
    ops == [] || (Allowed(reg, ops[0]) && AllowedRun(Apply(reg, ops[0]), ops[1..]))
  }

  function Run(reg: Interests, ops: seq<Op>): Interests
    decreases |ops|
  {
    if ops == [] then reg else Run(Apply(reg, ops[0]), ops[1..])
  }

  /** The descriptors of which something is wanted. */
  function Wanted(reg: Interests): set<(nat, Interest)> {
    set fd | fd in reg && reg[fd].mask != NONE :: (fd, reg[fd].mask)
  }

  ghost predicate NothingRearmed(reg: Interests) {
    forall fd :: fd in reg ==> !Rearmed(reg, fd)
  }

  /** Wanted again after having been muted: the case the poll(2) table gets wrong. */
  predicate Rearmed(reg: Interests, fd: nat) {
    fd in reg && reg[fd].muted && reg[fd].mask != NONE
  }

  /** All interest off and then out leaves everything else. */
  lemma {:induction false} MuteThenRemove(reg: Interests, fd: nat)
    requires fd in reg
    ensures var muted := Apply(reg, Update(fd, NONE));
      Allowed(muted, Remove(fd)) && Apply(muted, Remove(fd)) == reg - {fd}
  {
  }

  lemma {:induction false} RunAppend(reg: Interests, ops: seq<Op>, op: Op)
    ensures Run(reg, ops + [op]) == Apply(Run(reg, ops), op)
    ensures AllowedRun(reg, ops + [op]) <==> AllowedRun(reg, ops) && Allowed(Run(reg, ops), op)
    decreases |ops|
  {
    if ops == [] {
      assert [op][1..] == [];
    } else {
      assert (ops + [op])[1..] == ops[1..] + [op];
      RunAppend(Apply(reg, ops[0]), ops[1..], op);
    }
  }

  /** The calls for one descriptor. */
  function Calls(ops: seq<Op>, fd: nat): seq<Op> {
    if ops == [] then []
    else
      var op := ops[|ops| - 1];
      Calls(ops[..|ops| - 1], fd) + if op.fd == fd then [op] else []
  }

  /** The j-th call switches all interest off, and it, the one before it and all since are updates. */
  ghost predicate Mutes(calls: seq<Op>, j: int) {
    && 0 < j < |calls| && calls[j].Update? && calls[j].mask == NONE
    && forall k :: j - 1 <= k < |calls| ==> calls[k].Update?
  }

  /** The map is what the log says: a descriptor is registered if its last call was an update, with the mask
      given then; and it is muted if some update but the first since its registration was empty. */
  lemma {:induction false} MapIsTheLog(ops: seq<Op>, fd: nat)
    ensures var reg, calls := Run(EMPTY, ops), Calls(ops, fd);
      && (fd in reg <==> calls != [] && calls[|calls| - 1].Update?)
      && (fd in reg ==> reg[fd].mask == calls[|calls| - 1].mask && (reg[fd].muted <==> exists j :: Mutes(calls, j)))
  {
    if ops != [] {
      var front, op := ops[..|ops| - 1], ops[|ops| - 1];
      assert ops == front + [op];
      MapIsTheLog(front, fd);
      RunAppend(EMPTY, front, op);
      assert ops[..|ops| - 1] == front;
      if op.Update? && op.fd == fd {
        LastUpdateMutes(Calls(front, fd), op);
      } else if op.fd != fd {
        assert Calls(ops, fd) == Calls(front, fd);
      }
    }
  }

  lemma {:induction false} LastUpdateMutes(calls: seq<Op>, op: Op)
    requires op.Update?
    ensures (exists j :: Mutes(calls + [op], j)) <==>
      calls != [] && calls[|calls| - 1].Update? && ((exists j :: Mutes(calls, j)) || op.mask == NONE)
  {
    var more, last := calls + [op], |calls|;
    if j :| Mutes(calls, j) {
      assert Mutes(more, j);
    }
    if calls != [] && calls[last - 1].Update? && op.mask == NONE {
      assert Mutes(more, last);
    }
    if j :| Mutes(more, j) {
      assert more[last - 1].Update?;
      assert j < last ==> Mutes(calls, j) by {
        assert forall k :: 0 <= k < last ==> more[k] == calls[k];
      }
    }
  }
}
