/** `EventLoop` on its own thread: the functor queue as fields, and `do_pending_functors` as the loop it
    is. A functor is known by what it queues while it runs; the interleaving with other threads is
    the subject of `TaskQueue`. */
module EventLoops {

  datatype Functor = Functor(id: nat, queues: seq<Functor>)

  /** Everything that a batch queues while it runs, in order. */
  function Queued(fs: seq<Functor>): seq<Functor> {
    if fs == [] then [] else fs[0].queues + Queued(fs[1..])
  }

  /** The pending list after `n` iterations, and what those iterations ran. */
  function PendingAfter(fs: seq<Functor>, n: nat): seq<Functor>
    decreases n
  {
    if n == 0 then fs else PendingAfter(Queued(fs), n - 1)
  }

  function RanBy(fs: seq<Functor>, n: nat): seq<Functor>
    decreases n
  {
    if n == 0 then [] else fs + RanBy(Queued(fs), n - 1)
  }

  /** How deep functors queue functors, and how many there are in all. */
  function Depth(fs: seq<Functor>): nat {
    if fs == [] then 0 else Max(1 + Depth(fs[0].queues), Depth(fs[1..]))
  }

  function Size(fs: seq<Functor>): nat {
    if fs == [] then 0 else 1 + Size(fs[0].queues) + Size(fs[1..])
  }

  function Max(a: nat, b: nat): nat { if a < b then b else a }

  lemma {:induction false} QueuedAppend(fs: seq<Functor>, f: Functor)
    ensures Queued(fs + [f]) == Queued(fs) + f.queues
  {
    if fs == [] {
      assert fs + [f] == [f];
    } else {
      assert (fs + [f])[1..] == fs[1..] + [f];
      QueuedAppend(fs[1..], f);
    }
  }

  lemma {:induction false} Concat(a: seq<Functor>, b: seq<Functor>)
    ensures Depth(a + b) == Max(Depth(a), Depth(b)) && Size(a + b) == Size(a) + Size(b)
  {
    if a == [] {
      assert a + b == b;
    } else {
      assert (a + b)[1..] == a[1..] + b;
      Concat(a[1..], b);
    }
  }

  /** One iteration takes one level off, and runs as many functors as it takes off. */
  lemma {:induction false} OneLevel(fs: seq<Functor>)
    ensures Depth(Queued(fs)) == (if fs == [] then 0 else Depth(fs) - 1)
    ensures Size(fs) == |fs| + Size(Queued(fs))
  {
    if fs != [] {
      OneLevel(fs[1..]);
      Concat(fs[0].queues, Queued(fs[1..]));
    }
  }

  /** Re-entrant queueing is drained level by level: the list is empty after exactly as many iterations
      as functors queue functors deep, and by then each of them has run once. */
  lemma {:induction false} DrainsLevelByLevel(fs: seq<Functor>, n: nat)
    ensures PendingAfter(fs, n) == [] <==> Depth(fs) <= n
    ensures |RanBy(fs, n)| + Size(PendingAfter(fs, n)) == Size(fs)
    decreases n
  {
    if n > 0 {
      var next := Queued(fs);
      OneLevel(fs);
      DrainsLevelByLevel(next, n - 1);
      assert PendingAfter(fs, n) == PendingAfter(next, n - 1) && RanBy(fs, n) == fs + RanBy(next, n - 1);
    }
  }

  class EventLoop {
    var pending: seq<Functor>
    var callingPendingFunctors: bool
    var wakeups: nat
    ghost var ran: seq<Functor>

    constructor ()
      ensures pending == [] && !callingPendingFunctors && wakeups == 0 && ran == []
    {
      pending, callingPendingFunctors, wakeups, ran := [], false, 0, [];
    }

    /** `queue_in_loop`, called on the loop's own thread. */
    method QueueInLoop(f: Functor)
      modifies this`pending, this`wakeups
      ensures pending == old(pending) + [f]
      ensures wakeups == if callingPendingFunctors then old(wakeups) + 1 else old(wakeups)
    {
      pending := pending + [f];
      if callingPendingFunctors {
        wakeups := wakeups + 1;
      }
    }

    /** One functor runs and queues what it queues. */
    method Call(f: Functor)
      modifies this`pending, this`wakeups, this`ran
      ensures ran == old(ran) + [f] && pending == old(pending) + f.queues
      ensures wakeups == if callingPendingFunctors then old(wakeups) + |f.queues| else old(wakeups)
    {
      ran := ran + [f];
      for i := 0 to |f.queues|
        modifies this`pending, this`wakeups
        invariant pending == old(pending) + f.queues[..i]
        invariant wakeups == if callingPendingFunctors then old(wakeups) + i else old(wakeups)
      {
        QueueInLoop(f.queues[i]);
      }
      assert f.queues[..|f.queues|] == f.queues;
    }

    /** Runs exactly what was pending, in order; what that queues waits for the next iteration, and
        every one of those pushes makes a wakeup. */
    method DoPendingFunctors()
      modifies this
      ensures !callingPendingFunctors
      ensures ran == old(ran) + old(pending) && pending == Queued(old(pending))
      ensures wakeups == old(wakeups) + |Queued(old(pending))|
    {
      callingPendingFunctors := true;
      var functors := pending;
      pending := [];
      for i := 0 to |functors|
        modifies this`pending, this`wakeups, this`ran
        invariant ran == old(ran) + functors[..i] && pending == Queued(functors[..i])
        invariant wakeups == old(wakeups) + |Queued(functors[..i])|
      {
        assert functors[..i + 1] == functors[..i] + [functors[i]];
        QueuedAppend(functors[..i], functors[i]);
        Call(functors[i]);
      }
      assert functors[..|functors|] == functors;
      callingPendingFunctors := false;
    }

    /** `n` iterations of `loop` with nothing else going on. */
    method Iterate(n: nat)
      requires !callingPendingFunctors
      modifies this
      ensures !callingPendingFunctors
      ensures pending == PendingAfter(old(pending), n)
      ensures ran == old(ran) + RanBy(old(pending), n)
    {
      for i := 0 to n
        invariant !callingPendingFunctors
        invariant PendingAfter(pending, n - i) == PendingAfter(old(pending), n)
        invariant ran + RanBy(pending, n - i) == old(ran) + RanBy(old(pending), n)
      {
        DoPendingFunctors();
      }
    }
  }
}
