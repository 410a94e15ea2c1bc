/** `EventLoop` as its channels see it: `update_channel` and `remove_channel` over a real `Epoller`. The log
    of these calls determines the epoll set. */
module Loops {
  import opened Channels
  import opened Pollers
  import EpollSet
  import Registry

  /** No finite set of descriptors has all of them. */
  lemma {:induction false} SomeDescriptorIsFree(used: set<nat>) returns (free: nat)
    ensures forall fd :: fd in used ==> fd < free
  {
    free := 0;
    if used != {} {
      var fd :| fd in used;
      var above := SomeDescriptorIsFree(used - {fd});
      free := if fd < above then above else fd + 1;
      forall g | g in used
        ensures g < free
      {
        assert g == fd || g in used - {fd};
      }
    }
  }

  /** The poller's map has the channel, and the interest map its mask. */
  ghost predicate Carried(channel: Channel, channels: map<nat, Channel>, registry: Registry.Interests)
    reads channel
  {
    && channel.fd in channels && channels[channel.fd] == channel && channel.index != Epoller.NEW
    && channel.fd in registry && registry[channel.fd].mask == channel.events
  }

  /** All channels but one are still there, with what they want. */
  ghost predicate Kept(channels: map<nat, Channel>, registry: Registry.Interests, skip: Channel?,
                       after: map<nat, Channel>, wanted: Registry.Interests)
  {
    forall fd {:trigger channels[fd]} {:trigger after[fd]} :: fd in channels && channels[fd] != skip ==>
      && fd in after && after[fd] == channels[fd]
      && (fd in registry ==> fd in wanted && wanted[fd] == registry[fd])
  }

  /** No channel is new there but one, and another one is gone. */
  ghost predicate AddsOnly(channels: map<nat, Channel>, gone: Channel?, after: map<nat, Channel>, latest: Channel?) {
    forall fd {:trigger after[fd]} :: fd in after && after[fd] != latest ==>
      fd in channels && channels[fd] == after[fd] && after[fd] != gone
  }

  class Loop {
    const poller: Epoller
    /** The calls so far, and the interest map they lead to. */
    ghost var calls: seq<Registry.Op>
    ghost var registry: Registry.Interests

    /** The calls so far met the asserts, and index states and kernel set are those they lead to. */
    ghost predicate Valid()
      reads this, poller, poller.channels.Values`index
    {
      && poller.Valid() && EpollSet.Logged(calls, registry, poller.epoll)
      && poller.channels.Keys == registry.Keys
    }

    constructor ()
      ensures Valid() && fresh(poller) && poller.channels == map[] && calls == []
    {
      poller := new Epoller();
      calls, registry := [], Registry.EMPTY;
    }

    /** The kernel may give any descriptor that is not open; those of registered channels are. */
    method NewSocket() returns (fd: nat)
      ensures fd !in poller.channels
    {
      ghost var free := SomeDescriptorIsFree(poller.channels.Keys);
      assert free !in poller.channels;
      fd :| fd !in poller.channels;
    }

    ghost predicate Carries(channel: Channel)
      reads this, poller, channel
    {
      Carried(channel, poller.channels, registry)
    }

    /** A channel's mask changes, and `update` tells the poller. */
    method SetMask(channel: Channel, mask: Interest)
      requires Valid() && poller.Knows(channel)
      modifies this, poller, channel
      ensures Valid() && channel.events == mask && channel.index != Epoller.NEW
      ensures channel.handling == old(channel.handling)
      ensures poller.channels == old(poller.channels)[channel.fd := channel]
      ensures calls == old(calls) + [Registry.Update(channel.fd, mask)]
      ensures registry == Registry.Apply(old(registry), Registry.Update(channel.fd, mask))
    {
      channel.events := mask;
      poller.UpdateChannel(channel);
      Log(Registry.Update(channel.fd, mask), old(poller.epoll));
    }

    /** One more call, which the poller has followed. */
    ghost method Log(op: Registry.Op, before: EpollSet.Epoll)
      requires poller.Valid() && EpollSet.Logged(calls, registry, before) && Registry.Allowed(registry, op)
      requires op.Remove? ==> op.fd in before.status
      requires poller.epoll == EpollSet.Apply(before, op)
      requires poller.channels.Keys == Registry.Apply(registry, op).Keys
      modifies this
      ensures Valid() && calls == old(calls) + [op] && registry == Registry.Apply(old(registry), op)
    {
      EpollSet.LoggedAppend(calls, registry, before, op);
      calls, registry := calls + [op], Registry.Apply(registry, op);
    }

    /** A channel leaves the poller, which asserts that it was muted. */
    method RemoveChannel(channel: Channel)
      requires Valid() && poller.Knows(channel) && channel.index != Epoller.NEW && channel.events == NONE
      requires Registry.Allowed(registry, Registry.Remove(channel.fd))
      modifies this, poller, channel
      ensures Valid() && channel.index == Epoller.NEW && channel.events == NONE
      ensures channel.handling == old(channel.handling)
      ensures poller.channels == old(poller.channels) - {channel.fd}
      ensures calls == old(calls) + [Registry.Remove(channel.fd)]
      ensures registry == old(registry) - {channel.fd}
    {
      poller.RemoveChannel(channel);
      Log(Registry.Remove(channel.fd), old(poller.epoll));
    }

    /** Both at once: all interest off, then out of the poller. */
    method Retire(channel: Channel)
      requires Valid() && poller.Knows(channel) && channel.index != Epoller.NEW
      modifies this, poller, channel
      ensures Valid() && channel.index == Epoller.NEW && channel.handling == old(channel.handling)
      ensures poller.channels == old(poller.channels) - {channel.fd}
      ensures calls == old(calls) + [Registry.Update(channel.fd, NONE)] + [Registry.Remove(channel.fd)]
      ensures registry == old(registry) - {channel.fd} && channel.events == NONE
    {
      Registry.MuteThenRemove(registry, channel.fd);
      ghost var before := poller.channels;
      SetMask(channel, NONE);
      assert poller.channels == before;
      RemoveChannel(channel);
    }
  }
}
