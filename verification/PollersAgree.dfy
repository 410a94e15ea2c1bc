/** The two pollers compared: both represent the same interest map after the same calls. */
module PollersAgree {
  import Channels
  import Registry
  import PollTable
  import EpollSet

  /** After any run of channel updates and removals that meets the asserts, poll(2) and epoll watch
      the same (descriptor, non-empty mask) pairs if and only if no registered descriptor is wanted
      again after having been muted. */
  lemma {:induction false} WatchTheSameIff(ops: seq<Registry.Op>)
    requires Registry.AllowedRun(Registry.EMPTY, ops)
    ensures PollTable.Watched(PollTable.Run(PollTable.EMPTY, Registry.EMPTY, ops))
         == EpollSet.Watched(EpollSet.Run(EpollSet.EMPTY, Registry.EMPTY, ops))
      <==> Registry.NothingRearmed(Registry.Run(Registry.EMPTY, ops))
  {
    var reg := Registry.Run(Registry.EMPTY, ops);
    PollTable.WatchesWantedIff(PollTable.Run(PollTable.EMPTY, Registry.EMPTY, ops), reg);
    EpollSet.WatchesWanted(EpollSet.Run(EpollSet.EMPTY, Registry.EMPTY, ops), reg);
  }

  /** A run in which a muted channel is never armed again. */
  ghost predicate NeverRearms(reg: Registry.Interests, ops: seq<Registry.Op>)
    decreases |ops|
  {
    ops == [] || ((ops[0].Update? && ops[0].fd in reg && reg[ops[0].fd].muted ==> ops[0].mask == Channels.NONE)
                  && NeverRearms(Registry.Apply(reg, ops[0]), ops[1..]))
  }

  lemma {:induction false} NeverRearmedFrom(reg: Registry.Interests, ops: seq<Registry.Op>)
    requires NeverRearms(reg, ops) && Registry.NothingRearmed(reg)
    ensures Registry.NothingRearmed(Registry.Run(reg, ops))
    decreases |ops|
  {
    if ops != [] {
      assert forall fd :: fd in reg ==> !Registry.Rearmed(reg, fd);
      NeverRearmedFrom(Registry.Apply(reg, ops[0]), ops[1..]);
    }
  }

  /** So the pollers are interchangeable for every program that does not re-arm a muted channel. */
  lemma {:induction false} WatchTheSame(ops: seq<Registry.Op>)
    requires Registry.AllowedRun(Registry.EMPTY, ops) && NeverRearms(Registry.EMPTY, ops)
    ensures PollTable.Watched(PollTable.Run(PollTable.EMPTY, Registry.EMPTY, ops))
         == EpollSet.Watched(EpollSet.Run(EpollSet.EMPTY, Registry.EMPTY, ops))
  {
    WatchTheSameIff(ops);
    NeverRearmedFrom(Registry.EMPTY, ops);
  }

  /** A channel that is armed, muted and armed again: epoll watches it, poll(2) does not. */
  lemma {:induction false} RearmedChannelIsMissed(fd: nat, mask: Channels.Interest)
    requires mask != Channels.NONE
    ensures var ops := [Registry.Update(fd, mask), Registry.Update(fd, Channels.NONE), Registry.Update(fd, mask)];
      && Registry.AllowedRun(Registry.EMPTY, ops)
      && PollTable.Watched(PollTable.Run(PollTable.EMPTY, Registry.EMPTY, ops))
         != EpollSet.Watched(EpollSet.Run(EpollSet.EMPTY, Registry.EMPTY, ops))
  {
    var ops := [Registry.Update(fd, mask), Registry.Update(fd, Channels.NONE), Registry.Update(fd, mask)];
    var r1 := Registry.Apply(Registry.EMPTY, ops[0]);
    var r2 := Registry.Apply(r1, ops[1]);
    var r3 := Registry.Apply(r2, ops[2]);
    assert r2[fd].muted && r3[fd] == Registry.Entry(mask, true);
    assert ops[1..][1..] == ops[2..] && ops[2..][1..] == [];
    assert Registry.Run(r3, []) == r3 && Registry.AllowedRun(r3, []);
    assert Registry.Run(r2, ops[2..]) == r3 && Registry.AllowedRun(r2, ops[2..]);
    assert Registry.Run(r1, ops[1..]) == r3 && Registry.AllowedRun(r1, ops[1..]);
    assert Registry.Rearmed(Registry.Run(Registry.EMPTY, ops), fd);
    WatchTheSameIff(ops);
  }
}
