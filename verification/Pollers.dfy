/** `Poller` and `Epoller` themselves, holding channel objects whose index they keep in step. Each
    method is proved against the registry function of the same name. */
module Pollers {
  import opened Channels
  import opened PollTable
  import EpollSet

  /** The channels' own indices are those of the map. */
  ghost predicate Agree(channels: map<nat, Channel>, index: map<nat, nat>)
    reads channels.Values`index
  {
    && channels.Keys == index.Keys
    && forall fd :: fd in channels ==> channels[fd].fd == fd && channels[fd].index == index[fd]
  }

  lemma {:induction false} AgreeWithout(channels: map<nat, Channel>, index: map<nat, nat>, fd: nat)
    requires Agree(channels, index)
    ensures Agree(channels - {fd}, index - {fd})
  {
  }

  /** One channel's index is repaired. */
  method SetIndex(channel: Channel, i: nat, ghost channels: map<nat, Channel>, ghost index: map<nat, nat>)
    requires Agree(channels, index) && channel.fd in channels && channels[channel.fd] == channel
    modifies channel`index
    ensures Agree(channels, index[channel.fd := i])
  {
    channel.index := i;
  }

  class Poller {
    var slots: seq<Slot>
    var channels: map<nat, Channel>

    /** The slots and the channels' indices are what `table` says. */
    ghost var table: Table

    ghost predicate Valid()
      reads this, channels.Values`index
    {
      slots == table.slots && Agree(channels, table.index) && Bijective(table)
    }

    /** A channel with index -1 is unknown here; any other one is registered here. */
    ghost predicate Knows(channel: Channel)
      reads this, channel
    {
      if channel.index < 0 then channel.fd !in channels
      else channel.fd in channels && channels[channel.fd] == channel
    }

    constructor ()
      ensures Valid() && table == PollTable.EMPTY
    {
      slots, channels, table := [], map[], PollTable.EMPTY;
    }

    method UpdateChannel(channel: Channel)
      requires Valid() && Knows(channel)
      modifies this, channel`index
      ensures channels == old(channels)[channel.fd := channel]
      ensures Valid() && table == PollTable.Update(old(table), channel.fd, channel.events)
    {
      UpdateKeepsBijection(table, channel.fd, channel.events);
      table := PollTable.Update(table, channel.fd, channel.events);
      if channel.index < 0 {
        slots := slots + [Slot(channel.fd, channel.events, QUIET)];
        channel.index := |slots| - 1;
        channels := channels[channel.fd := channel];
      } else {
        var slot := slots[channel.index];
        assert slot.fd == channel.fd || slot.fd == Muted(channel.fd);
        slots := slots[channel.index := Slot(
          if channel.events == NONE then Muted(channel.fd) else slot.fd, channel.events, QUIET)];
      }
    }

    /** The removed channel keeps its stale index, so it must not be registered again. */
    method RemoveChannel(channel: Channel)
      requires Valid() && 0 <= channel.index && Knows(channel)
      requires Lookup(table, channel.fd).fd == Muted(channel.fd)
      requires Lookup(table, channel.fd).events == channel.events == NONE
      modifies this, channels.Values`index
      ensures channels == old(channels) - {channel.fd} && channel.index == old(channel.index)
      ensures Valid() && table == PollTable.Remove(old(table), channel.fd)
    {
      RemoveKeepsBijection(table, channel.fd);
      assert Owner(slots[|slots| - 1]) in table.index && table.index[Owner(slots[|slots| - 1])] == |slots| - 1;
      SwapOut(channel);
    }

    /** The removal itself: the last slot takes the place of the one removed. */
    method SwapOut(channel: Channel)
      requires slots == table.slots && slots != [] && Agree(channels, table.index)
      requires channel.fd in channels && channels[channel.fd] == channel && 0 <= channel.index < |slots|
      requires var last := |slots| - 1;
        Owner(slots[last]) in table.index && table.index[Owner(slots[last])] == last
      modifies this, channels.Values`index
      ensures table == PollTable.Remove(old(table), channel.fd)
      ensures slots == table.slots && Agree(channels, table.index)
      ensures channels == old(channels) - {channel.fd} && channel.index == old(channel.index)
    {
      ghost var before := table;
      AgreeWithout(channels, before.index, channel.fd);
      table := PollTable.Remove(before, channel.fd);
      var i, last := channel.index, |slots| - 1;
      channels := channels - {channel.fd};
      if i == last {
        slots := slots[..last];
      } else {
        var atEnd := slots[last].fd;
        slots := slots[i := slots[last]];
        if atEnd < 0 {
          atEnd := -atEnd - 1;
        }
        assert atEnd == Owner(before.slots[last]);
        SetIndex(channels[atEnd], i, channels, before.index - {channel.fd});
        slots := slots[..last];
      }
    }

    /** `active` lists the channels of the slots `found`, with their reports stored in them. */
    ghost predicate Reported(active: seq<Channel>, found: seq<Slot>)
      reads this, channels.Values`revents
    {
      && |active| == |found|
      && forall k :: 0 <= k < |found| ==>
        found[k].fd in channels && active[k] == channels[found[k].fd] && active[k].revents == found[k].revents
    }

    /** What each channel was last reported. */
    ghost function Reports(): map<nat, Revents>
      reads this, channels.Values`revents
    {
      map fd | fd in channels :: channels[fd].revents
    }

    /** The channels not listed still hold what `was` says. */
    ghost predicate Untouched(active: seq<Channel>, was: map<nat, Revents>)
      reads this, channels.Values`revents
    {
      forall fd :: fd in channels && channels[fd] !in active ==> fd in was && channels[fd].revents == was[fd]
    }

    /** Every slot that is not muted stands for one channel, and each for another one. */
    ghost predicate Named()
      reads this
    {
      && (forall i :: 0 <= i < |slots| && 0 <= slots[i].fd ==>
            slots[i].fd in channels && channels[slots[i].fd].fd == slots[i].fd)
      && (forall i, j :: 0 <= i < j < |slots| && 0 <= slots[j].fd ==> slots[i].fd != slots[j].fd)
    }

    /** `fill_active_channels`: `numEvents` is poll(2)'s count of slots with a report, and poll(2)
        reports nothing for negative descriptors. The scan stops once it has found that many. */
    method FillActiveChannels(numEvents: nat) returns (active: seq<Channel>)
      requires Valid() && numEvents == |Ready(slots)|
      requires forall s :: s in slots && s.fd < 0 ==> s.revents == QUIET
      modifies channels.Values`revents
      ensures Valid() && Reported(active, Ready(slots)) && Untouched(active, old(Reports()))
    {
      assert Named() by {
        assert forall i :: 0 <= i < |slots| ==> table.index[Owner(slots[i])] == i;
      }
      active := Scan(numEvents);
    }

    method Scan(numEvents: nat) returns (active: seq<Channel>)
      requires Named() && numEvents == |Ready(slots)|
      requires forall s :: s in slots && s.fd < 0 ==> s.revents == QUIET
      modifies channels.Values`revents
      ensures Reported(active, Ready(slots)) && Untouched(active, old(Reports()))
    {
      ghost var was := Reports();
      ghost var found: seq<Slot> := [];
      active := [];
      var left := numEvents;
      for i := 0 to |slots|
        modifies channels.Values`revents
        invariant found == Ready(slots[..i]) && left == numEvents - |active|
        invariant Reported(active, found) && Untouched(active, was)
      {
        ReadyStep(slots, i);
        if slots[i].revents != QUIET {
          left := left - 1;
          var channel := channels[slots[i].fd];
          Report(channel, i, active, found, was);
          active, found := active + [channel], found + [slots[i]];
          if left == 0 {
            return;
          }
        }
      }
      assert slots[..|slots|] == slots;
    }

    /** The channel of a slot with a report gets that report. */
    method Report(channel: Channel, i: nat, ghost active: seq<Channel>, ghost found: seq<Slot>,
                  ghost was: map<nat, Revents>)
      requires Named() && i < |slots| && slots[i].fd in channels && channel == channels[slots[i].fd]
      requires found == Ready(slots[..i]) && Reported(active, found) && Untouched(active, was)
      modifies channel`revents
      ensures Reported(active + [channel], found + [slots[i]]) && Untouched(active + [channel], was)
    {
      EarlierSlotsDiffer(i, active, found);
      channel.revents := slots[i].revents;
    }

    /** The channels found in earlier slots are not the one slot `i` stands for. */
    lemma {:induction false} EarlierSlotsDiffer(i: nat, active: seq<Channel>, found: seq<Slot>)
      requires Named() && i < |slots| && slots[i].fd in channels
      requires found == Ready(slots[..i]) && Reported(active, found)
      ensures channels[slots[i].fd] !in active
    {
      ReadyIsExact(slots[..i]);
      forall k | 0 <= k < |active|
        ensures active[k] != channels[slots[i].fd]
      {
        var j := Places(slots[..i])[k];
        assert found[k] == slots[j] && channels[slots[j].fd].fd == slots[j].fd != slots[i].fd;
      }
    }
  }

  /** The kernel's epoll set is a field here, and a refused epoll_ctl call is counted. The ghost field
      is the set that `EpollSet` speaks of. */
  class Epoller {
    var kernel: map<nat, Interest>
    var failures: nat
    var channels: map<nat, Channel>
    ghost var epoll: EpollSet.Epoll

    static const NEW := -1
    static const ADDED := 1
    static const DELETED := 2

    /** Kernel set and index states are what `epoll` says. */
    ghost predicate Valid()
      reads this, channels.Values`index
    {
      && kernel == epoll.kernel && failures == epoll.failures && channels.Keys == epoll.status.Keys
      && forall fd :: fd in channels ==>
        channels[fd].fd == fd && channels[fd].index == (if epoll.status[fd].Added? then ADDED else DELETED)
    }

    ghost predicate Knows(channel: Channel)
      reads this, channel
    {
      if channel.index == NEW then channel.fd !in channels
      else channel.fd in channels && channels[channel.fd] == channel
    }

    constructor ()
      ensures Valid() && epoll == EpollSet.EMPTY && channels == map[]
    {
      kernel, failures, channels := map[], 0, map[];
      epoll := EpollSet.EMPTY;
    }

    /** epoll_ctl(2), as the kernel answers it. */
    method Control(op: EpollSet.Ctl)
      modifies this`kernel, this`failures
      ensures EpollSet.Epoll(kernel, epoll.status, failures)
           == EpollSet.Control(EpollSet.Epoll(old(kernel), epoll.status, old(failures)), op)
    {
      if op.CtlAdd? != (op.fd !in kernel) {
        failures := failures + 1;
      } else if op.CtlDel? {
        kernel := kernel - {op.fd};
      } else {
        kernel := kernel[op.fd := op.mask];
      }
    }

    method UpdateChannel(channel: Channel)
      requires Valid() && Knows(channel)
      modifies this, channel
      ensures channel.events == old(channel.events) && channel.handling == old(channel.handling)
      ensures Valid() && epoll == EpollSet.Update(old(epoll), channel.fd, channel.events)
      ensures channels == old(channels)[channel.fd := channel] && channel.index != NEW
    {
      if channel.index == NEW || channel.index == DELETED {
        if channel.index == NEW {
          channels := channels[channel.fd := channel];
        }
        channel.index := ADDED;
        Control(EpollSet.CtlAdd(channel.fd, channel.events));
      } else {
        if channel.events == NONE {
          Control(EpollSet.CtlDel(channel.fd));
          channel.index := DELETED;
        } else {
          Control(EpollSet.CtlMod(channel.fd, channel.events));
        }
      }
      epoll := EpollSet.Update(epoll, channel.fd, channel.events);
      assert channels == old(channels)[channel.fd := channel];
    }

    method RemoveChannel(channel: Channel)
      requires Valid() && channel.index != NEW && Knows(channel) && channel.events == NONE
      modifies this, channel
      ensures channel.events == old(channel.events) && channel.handling == old(channel.handling)
      ensures Valid() && epoll == EpollSet.Remove(old(epoll), channel.fd)
      ensures channels == old(channels) - {channel.fd} && channel.index == NEW
    {
      channels := channels - {channel.fd};
      if channel.index == ADDED {
        Control(EpollSet.CtlDel(channel.fd));
      }
      channel.index := NEW;
      epoll := EpollSet.Remove(epoll, channel.fd);
    }
  }
}
