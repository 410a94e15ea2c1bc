/** The registry of poller/Poller.cpp: a dense array of pollfd slots, an index per channel, removal by
    swapping with the last slot, and a descriptor stored as -1-fd while it is muted. */
module PollTable {
  import opened Channels
  import Registry

  datatype Slot = Slot(fd: int, events: Interest, revents: Revents)

  /** `index` gives, for every registered descriptor, its channel's index. */
  datatype Table = Table(slots: seq<Slot>, index: map<nat, nat>)

  const EMPTY: Table := Table([], map[])

  function Muted(fd: nat): int { -1 - fd }

  /** The descriptor a slot stands for, muted or not. */
  function Owner(s: Slot): nat {
    if s.fd < 0 then -s.fd - 1 else s.fd
  }

  /** Channel indices and slots are in bijection. */
  ghost predicate Bijective(t: Table) {
    && (forall fd :: fd in t.index ==> t.index[fd] < |t.slots| && Owner(t.slots[t.index[fd]]) == fd)
    && (forall i :: 0 <= i < |t.slots| ==> Owner(t.slots[i]) in t.index && t.index[Owner(t.slots[i])] == i)
  }

  function Lookup(t: Table, fd: nat): Slot
    requires fd in t.index && t.index[fd] < |t.slots|
  {
    t.slots[t.index[fd]]
  }

  /** `update_channel` */
  function Update(t: Table, fd: nat, mask: Interest): Table
    requires fd in t.index ==> t.index[fd] < |t.slots|
  {
    if fd !in t.index then
      Table(t.slots + [Slot(fd, mask, QUIET)], t.index[fd := |t.slots|])
    else
      var i := t.index[fd];
      t.(slots := t.slots[i := Slot(if mask == NONE then Muted(fd) else t.slots[i].fd, mask, QUIET)])
  }

  /** `remove_channel` */
  function Remove(t: Table, fd: nat): Table
    requires fd in t.index && t.index[fd] < |t.slots|
  {
    var i, last := t.index[fd], |t.slots| - 1;
    if i == last then
      Table(t.slots[..last], t.index - {fd})
    else
      var moved := t.slots[last];
      Table(t.slots[i := moved][..last], (t.index - {fd})[Owner(moved) := i])
  }

  /** What poll(2) watches: it ignores negative descriptors. */
  function Watched(t: Table): set<(nat, Interest)> {
    set i | 0 <= i < |t.slots| && 0 <= t.slots[i].fd && t.slots[i].events != NONE
      :: (t.slots[i].fd as nat, t.slots[i].events)
  }

  // ---------------------------------------------------------------- one operation

  lemma {:induction false} UpdateKeepsBijection(t: Table, fd: nat, mask: Interest)
    requires Bijective(t)
    ensures Bijective(Update(t, fd, mask))
    ensures Lookup(Update(t, fd, mask), fd).events == mask && Lookup(Update(t, fd, mask), fd).revents == QUIET
  {
  }

  /** An update touches no other channel's slot. */
  lemma {:induction false} UpdateKeepsOthers(t: Table, fd: nat, mask: Interest, g: nat)
    requires Bijective(t) && g in t.index && g != fd
    ensures var u := Update(t, fd, mask);
      g in u.index && u.index[g] < |u.slots| && Lookup(u, g) == Lookup(t, g)
  {
  }

  /** Removal repairs the moved channel's index, and every other channel keeps its slot contents. */
  lemma {:induction false} RemoveKeepsBijection(t: Table, fd: nat)
    requires Bijective(t) && fd in t.index
    ensures Bijective(Remove(t, fd))
    ensures Remove(t, fd).index.Keys == t.index.Keys - {fd}
    ensures |Remove(t, fd).slots| == |t.slots| - 1
    ensures forall g :: g in t.index && g != fd ==>
      Lookup(Remove(t, fd), g) == Lookup(t, g)
  {
    var u := Remove(t, fd);
    var i, last := t.index[fd], |t.slots| - 1;
    var moved := Owner(t.slots[last]);
    assert moved in t.index && t.index[moved] == last;
    forall k | 0 <= k < |u.slots|
      ensures Owner(u.slots[k]) in u.index && u.index[Owner(u.slots[k])] == k
    {
      assert k != i ==> u.slots[k] == t.slots[k] && Owner(t.slots[k]) != fd && Owner(t.slots[k]) != moved;
    }
  }

  // ---------------------------------------------------------------- runs

  /** The table represents `reg`: same descriptors, same masks, sign-encoded mute flag. */
  ghost predicate Represents(t: Table, reg: Registry.Interests) {
    && Bijective(t)
    && t.index.Keys == reg.Keys
    && forall fd :: fd in reg ==>
      Lookup(t, fd).events == reg[fd].mask
      && Lookup(t, fd).fd == (if reg[fd].muted then Muted(fd) else fd)
  }

  /** What `remove_channel` asserts of the slot is what the interest map asks before a removal. */
  lemma {:induction false} RemovalIsAllowedIff(t: Table, reg: Registry.Interests, fd: nat)
    requires Represents(t, reg) && fd in t.index
    ensures Registry.Allowed(reg, Registry.Remove(fd)) <==>
      Lookup(t, fd).fd == -1 - fd && Lookup(t, fd).events == Interest(false, false)
  {
  }

  function Apply(t: Table, op: Registry.Op): Table
    requires op.fd in t.index ==> t.index[op.fd] < |t.slots|
    requires op.Remove? ==> op.fd in t.index
  {
    match op
    case Update(fd, mask) => Update(t, fd, mask)
    case Remove(fd) => Remove(t, fd)
  }

  lemma {:induction false} UpdateRepresents(t: Table, reg: Registry.Interests, fd: nat, mask: Interest)
    requires Represents(t, reg)
    ensures Represents(Update(t, fd, mask), Registry.Apply(reg, Registry.Update(fd, mask)))
  {
    var u, after := Update(t, fd, mask), Registry.Apply(reg, Registry.Update(fd, mask));
    UpdateKeepsBijection(t, fd, mask);
    forall g | g in after
      ensures Lookup(u, g).events == after[g].mask && Lookup(u, g).fd == if after[g].muted then Muted(g) else g
    {
      if g != fd {
        UpdateKeepsOthers(t, fd, mask, g);
      }
    }
  }

  lemma {:induction false} ApplyRepresents(t: Table, reg: Registry.Interests, op: Registry.Op)
    requires Represents(t, reg) && Registry.Allowed(reg, op)
    ensures Represents(Apply(t, op), Registry.Apply(reg, op))
  {
    match op
    case Update(fd, mask) => UpdateRepresents(t, reg, fd, mask);
    case Remove(fd) => RemoveKeepsBijection(t, fd);
  }

  /** The table after a run; each step finds what its asserts demand. */
  ghost function Run(t: Table, reg: Registry.Interests, ops: seq<Registry.Op>): (u: Table)
    requires Represents(t, reg) && Registry.AllowedRun(reg, ops)
    ensures Represents(u, Registry.Run(reg, ops))
    ensures u.index.Keys == Registry.Run(reg, ops).Keys
    decreases |ops|
  {
    if ops == [] then t
    else
      ApplyRepresents(t, reg, ops[0]);
      Run(Apply(t, ops[0]), Registry.Apply(reg, ops[0]), ops[1..])
  }

  /** poll(2) watches exactly what is wanted of the descriptors never muted since registration. */
  lemma {:induction false} WatchesUnmuted(t: Table, reg: Registry.Interests)
    requires Represents(t, reg)
    ensures Watched(t) == set fd | fd in reg && reg[fd].mask != NONE && !reg[fd].muted :: (fd, reg[fd].mask)
  {
  }

  /** poll(2) watches what is wanted if and only if nothing is wanted again after being muted. */
  lemma {:induction false} WatchesWantedIff(t: Table, reg: Registry.Interests)
    requires Represents(t, reg)
    ensures Watched(t) == Registry.Wanted(reg) <==> Registry.NothingRearmed(reg)
  {
    WatchesUnmuted(t, reg);
    if fd :| fd in reg && Registry.Rearmed(reg, fd) {
      assert (fd, reg[fd].mask) in Registry.Wanted(reg);
      assert (fd, reg[fd].mask) !in Watched(t);
    } else {
      assert forall fd :: fd in reg && reg[fd].mask != NONE ==> !Registry.Rearmed(reg, fd);
    }
  }

  // ---------------------------------------------------------------- the scan

  /** The slots poll(2) reported something for, in slot order. */
  function Ready(slots: seq<Slot>): seq<Slot> {
    if slots == [] then []
    else
      var front := Ready(slots[..|slots| - 1]);
      if slots[|slots| - 1].revents != QUIET then front + [slots[|slots| - 1]] else front
  }

  /** Where they are. */
  function Places(slots: seq<Slot>): seq<nat> {
    if slots == [] then []
    else
      var front := Places(slots[..|slots| - 1]);
      if slots[|slots| - 1].revents != QUIET then front + [|slots| - 1] else front
  }

  /** They increase, and are exactly the places of slots with a report. */
  lemma {:induction false} PlacesIncrease(slots: seq<Slot>)
    ensures var at := Places(slots);
      && (forall k :: 0 <= k < |at| ==> at[k] < |slots|)
      && (forall j, k :: 0 <= j < k < |at| ==> at[j] < at[k])
      && (forall i :: 0 <= i < |slots| ==> (i in at <==> slots[i].revents != QUIET))
  {
    if slots != [] {
      var front := slots[..|slots| - 1];
      PlacesIncrease(front);
    }
  }

  /** Exactly the reported slots, each as often as it occurs, and in slot order: the k-th one found stands
      at the k-th of the places with a report. */
  lemma {:induction false} ReadyIsExact(slots: seq<Slot>)
    ensures |Places(slots)| == |Ready(slots)|
    ensures forall k :: 0 <= k < |Ready(slots)| ==>
      Places(slots)[k] < |slots| && Ready(slots)[k] == slots[Places(slots)[k]]
    ensures forall s :: multiset(Ready(slots))[s] == (if s.revents != QUIET then multiset(slots)[s] else 0)
  {
    ReadyAtPlaces(slots);
    ReadyCounts(slots);
  }

  lemma {:induction false} ReadyAtPlaces(slots: seq<Slot>)
    ensures |Places(slots)| == |Ready(slots)|
    ensures forall k :: 0 <= k < |Ready(slots)| ==>
      Places(slots)[k] < |slots| && Ready(slots)[k] == slots[Places(slots)[k]]
  {
    if slots != [] {
      ReadyAtPlaces(slots[..|slots| - 1]);
    }
  }

  lemma {:induction false} ReadyCounts(slots: seq<Slot>)
    ensures forall s :: multiset(Ready(slots))[s] == (if s.revents != QUIET then multiset(slots)[s] else 0)
  {
    if slots != [] {
      var front := slots[..|slots| - 1];
      ReadyCounts(front);
      assert slots == front + [slots[|slots| - 1]];
    }
  }

  /** One more slot; and once as many slots are found as poll(2) counted, nothing is left to find. */
  lemma {:induction false} ReadyStep(slots: seq<Slot>, i: nat)
    requires i < |slots|
    ensures Ready(slots[..i + 1]) ==
      if slots[i].revents != QUIET then Ready(slots[..i]) + [slots[i]] else Ready(slots[..i])
    ensures |Ready(slots[..i + 1])| <= |Ready(slots)|
    ensures |Ready(slots[..i + 1])| == |Ready(slots)| ==> Ready(slots[..i + 1]) == Ready(slots)
  {
    assert slots[..i + 1][..i] == slots[..i];
    ReadyIsMonotone(slots, i + 1);
  }

  lemma {:induction false} ReadyIsMonotone(slots: seq<Slot>, k: nat)
    requires k <= |slots|
    ensures |Ready(slots[..k])| <= |Ready(slots)|
    ensures |Ready(slots[..k])| == |Ready(slots)| ==> Ready(slots[..k]) == Ready(slots)
    decreases |slots|
  {
    if k < |slots| {
      var front := slots[..|slots| - 1];
      assert front[..k] == slots[..k];
      ReadyIsMonotone(front, k);
    } else {
      assert slots[..k] == slots;
    }
  }
}
