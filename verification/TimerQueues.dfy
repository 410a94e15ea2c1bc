/** `TimerQueue` itself: a multimap from keys to shared, mutable `Timer` objects. A key is a copy of its
    timer's expiration, so the map is right only as long as no timer in it is restarted. Each
    method is proved against the function of the same name in `TimerLists`. */
module TimerQueues {
  import opened TimerLists

  datatype TimeStamp = Invalid | At(micros: int)

  class Timer {
    const id: nat
    const interval: nat
    var expiration: TimeStamp

    constructor (id: nat, when: int, interval: nat)
      ensures this.id == id && this.interval == interval && expiration == At(when)
    {
      this.id, this.interval, expiration := id, interval, At(when);
    }

    method Restart(now: int)
      modifies this
      ensures expiration == if interval > 0 then At(now + interval) else Invalid
    {
      if interval > 0 {
        expiration := At(now + interval);
      } else {
        expiration := Invalid;
      }
    }
  }

  datatype Entry = Entry(key: int, timer: Timer)

  ghost function Timers(entries: seq<Entry>): set<Timer> {
    set e | e in entries :: e.timer
  }

  function Items(entries: seq<Entry>): (items: seq<Item>)
    ensures |items| == |entries|
  {
    seq(|entries|, i requires 0 <= i < |entries| =>
      Item(entries[i].key, entries[i].timer.id, entries[i].timer.interval))
  }

  function Ids(items: seq<Item>): seq<nat> {
    seq(|items|, i requires 0 <= i < |items| => items[i].id)
  }

  lemma {:induction false} IdsAppend(entries: seq<Entry>, e: Entry)
    ensures Ids(Items(entries + [e])) == Ids(Items(entries)) + [e.timer.id]
  {
  }

  /** The map with one more entry, behind those with its key. */
  function Inserted(entries: seq<Entry>, e: Entry): seq<Entry> {
    var n := UpperBound(Items(entries), e.key);
    entries[..n] + [e] + entries[n..]
  }

  lemma {:induction false} InsertedEffect(entries: seq<Entry>, e: Entry)
    ensures forall x :: x in Inserted(entries, e) <==> x in entries || x == e
    ensures Timers(Inserted(entries, e)) == Timers(entries) + {e.timer}
    ensures Items(Inserted(entries, e)) == Insert(Items(entries), Item(e.key, e.timer.id, e.timer.interval))
  {
    Spliced(entries, UpperBound(Items(entries), e.key), e);
  }

  lemma {:induction false} Spliced(entries: seq<Entry>, n: nat, e: Entry)
    requires n <= |entries|
    ensures var more := entries[..n] + [e] + entries[n..];
      && (forall x :: x in more <==> x in entries || x == e)
      && Timers(more) == Timers(entries) + {e.timer}
      && Items(more) == Items(entries)[..n] + [Item(e.key, e.timer.id, e.timer.interval)] + Items(entries)[n..]
  {
    assert entries == entries[..n] + entries[n..];
    var more := entries[..n] + [e] + entries[n..];
    assert e in more && forall x :: x in more <==> x in entries || x == e;
  }

  lemma {:induction false} FindIs(items: seq<Item>, id: nat, n: nat)
    requires n <= |items| && forall k :: 0 <= k < n ==> items[k].id != id
    requires n < |items| ==> items[n].id == id
    ensures Find(items, id) == n
  {
  }

  class TimerQueue {
    var entries: seq<Entry>
    var nextId: nat
    var alarm: Alarm
    ghost var ran: seq<nat>

    ghost function View(): Queue
      reads this
    {
      Queue(Items(entries), nextId, alarm)
    }

    /** Every key equals its timer's current expiration. */
    ghost predicate InSync()
      reads this, Timers(entries)
    {
      forall e :: e in entries ==> e.timer.expiration == At(e.key)
    }

    /** No timer is in the map but old and new ones. */
    twostate predicate Grown()
      reads this
    {
      fresh(Timers(entries) - old(Timers(entries)))
    }

    ghost predicate Valid()
      reads this, Timers(entries)
    {
      InSync() && WellFormed(View(), [])
    }

    constructor ()
      ensures Valid() && View() == EMPTY && ran == []
    {
      entries, nextId, alarm, ran := [], 0, Idle, [];
    }

    method Insert(timer: Timer) returns (earliest: bool)
      requires InSync() && timer.expiration.At?
      modifies this`entries
      ensures InSync() && Timers(entries) == old(Timers(entries)) + {timer}
      ensures Items(entries) == TimerLists.Insert(old(Items(entries)),
                                                  Item(timer.expiration.micros, timer.id, timer.interval))
      ensures earliest <==> old(entries) == [] || timer.expiration.micros < old(entries)[0].key
    {
      var when := timer.expiration.micros;
      earliest := entries == [] || when < entries[0].key;
      InsertedEffect(entries, Entry(when, timer));
      entries := Inserted(entries, Entry(when, timer));
    }

    method AddTimer(when: int, interval: nat, clock: int) returns (timer: Timer)
      requires InSync()
      modifies this`entries, this`nextId, this`alarm
      ensures InSync() && fresh(timer) && timer.id == old(nextId)
      ensures Timers(entries) == old(Timers(entries)) + {timer}
      ensures View() == TimerLists.AddTimer(old(View()), when, interval, clock)
      ensures if old(entries) == [] || when < old(entries)[0].key
              then alarm.Armed? && Exact(alarm, (clock, when)) else alarm == old(alarm)
    {
      timer := new Timer(nextId, when, interval);
      nextId := nextId + 1;
      var earliest := Insert(timer);
      if earliest {
        ArmIsExact(clock, when);
        alarm := Arm(clock, when);
      }
    }

    /** The source walks the map until it meets the timer, erases its key, and stops. */
    method CancelTimer(id: nat)
      requires InSync()
      modifies this`entries
      ensures InSync() && Timers(entries) <= old(Timers(entries))
      ensures View() == TimerLists.CancelTimer(old(View()), id)
    {
      ghost var items := Items(entries);
      for i := 0 to |entries|
        invariant entries == old(entries)
        invariant forall k :: 0 <= k < i ==> items[k].id != id
      {
        if entries[i].timer.id == id {
          FindIs(items, id, i);
          Erase(entries[i].key);
          return;
        }
      }
      FindIs(items, id, |items|);
    }

    method Erase(key: int)
      requires InSync()
      modifies this`entries
      ensures InSync() && Timers(entries) <= old(Timers(entries))
      ensures Items(entries) == EraseKey(old(Items(entries)), key)
    {
      var lo, hi := LowerBound(Items(entries), key), UpperBound(Items(entries), key);
      if lo <= hi {
        entries := entries[..lo] + entries[hi..];
        assert forall e :: e in entries ==> e in old(entries);
      }
    }

    method Act(a: Action)
      requires InSync()
      modifies this`entries, this`nextId, this`alarm
      ensures InSync() && Grown()
      ensures View() == TimerLists.Act(old(View()), a)
    {
      match a {
        case Add(when, interval, clock) =>
          var timer := AddTimer(when, interval, clock);
        case Cancel(id) =>
          CancelTimer(id);
      }
    }

    /** An addition or cancellation made outside a firing. */
    method Perform(a: Action)
      requires Valid()
      modifies this`entries, this`nextId, this`alarm
      ensures Valid() && Grown() && View() == TimerLists.Act(old(View()), a)
    {
      ActKeepsWellFormed(View(), a, []);
      Act(a);
    }

    /** The callback of one timer. */
    method Callback(timer: Timer, script: seq<seq<Action>>, n: nat)
      requires InSync()
      modifies this
      ensures InSync() && Grown()
      ensures View() == Called(old(View()), script, n) && ran == old(ran) + [timer.id]
    {
      var acts := TimerLists.Callback(script, n);
      ran := ran + [timer.id];
      ActAll(acts);
    }

    /** What a callback does, one action after the other. */
    method ActAll(acts: seq<Action>)
      requires InSync()
      modifies this`entries, this`nextId, this`alarm
      ensures InSync() && Grown() && View() == TimerLists.ActAll(old(View()), acts)
      decreases |acts|
    {
      if acts != [] {
        Act(acts[0]);
        ActAll(acts[1..]);
      }
    }

    /** The loop of `handle_read` over the batch: each callback runs once, in order. */
    method RunBatch(expired: seq<Entry>, script: seq<seq<Action>>)
      requires InSync()
      modifies this
      ensures InSync() && Grown()
      ensures View() == RunCallbacks(old(View()), script, |expired|)
      ensures ran == old(ran) + Ids(Items(expired))
    {
      ghost var before, ranBefore := View(), ran;
      for i := 0 to |expired|
        invariant InSync() && Grown()
        invariant View() == RunCallbacks(before, script, i)
        invariant ran == ranBefore + Ids(Items(expired[..i]))
      {
        RunNext(expired, script, i, before, ranBefore);
      }
      assert expired[..|expired|] == expired;
    }

    method RunNext(expired: seq<Entry>, script: seq<seq<Action>>, i: nat, ghost before: Queue,
                   ghost ranBefore: seq<nat>)
      requires InSync() && i < |expired| && View() == RunCallbacks(before, script, i)
      requires ran == ranBefore + Ids(Items(expired[..i]))
      modifies this
      ensures InSync() && Grown() && View() == RunCallbacks(before, script, i + 1)
      ensures ran == ranBefore + Ids(Items(expired[..i + 1]))
    {
      IdsAppend(expired[..i], expired[i]);
      assert expired[..i + 1] == expired[..i] + [expired[i]];
      Callback(expired[i].timer, script, i);
    }

    /** `get_expired`, with its assert as the result: false if some key equals the current time. */
    method GetExpired(now: int) returns (ok: bool, expired: seq<Entry>)
      requires InSync()
      modifies this`entries
      ensures InSync() && Timers(entries) <= old(Timers(entries)) && Timers(expired) <= old(Timers(entries))
      ensures ok <==> !KeyedAt(old(Items(entries)), now)
      ensures !ok ==> entries == old(entries)
      ensures ok ==> Items(expired) == Expired(old(Items(entries)), now)
      ensures ok ==> Items(entries) == old(Items(entries))[|expired|..]
    {
      var n := LowerBound(Items(entries), now);
      ok := n == |entries| || now < entries[n].key;
      expired := [];
      if ok {
        expired := entries[..n];
        entries := entries[n..];
        assert forall e :: e in entries || e in expired ==> e in old(entries);
      }
    }

    /** `handle_read`. It stops the program if some key equals the current time. Otherwise it runs, once
        each and in order, the timers due before `now`; whatever their callbacks did, every key
        equals its timer's expiration again, because only timers taken out are restarted. */
    method HandleRead(now: int, script: seq<seq<Action>>, clock: int) returns (aborted: bool)
      requires Valid()
      modifies this, Timers(entries)
      ensures Valid() && Grown() && (aborted <==> KeyedAt(old(Items(entries)), now))
      ensures aborted ==> Items(entries) == old(Items(entries)) && ran == old(ran)
      ensures !aborted ==> View() == Fire(old(View()), now, script, clock)
      ensures !aborted ==> ran == old(ran) + Ids(Expired(old(Items(entries)), now))
    {
      ghost var before := View();
      alarm := Read(alarm, now);
      var ok, expired := GetExpired(now);
      aborted := !ok;
      if ok {
        RunAndReset(expired, now, script, clock, before);
      }
    }

    /** `handle_read` after `get_expired`. */
    method RunAndReset(expired: seq<Entry>, now: int, script: seq<seq<Action>>, clock: int, ghost before: Queue)
      requires InSync() && WellFormed(before, []) && View() == TakeOut(before, now)
      requires Items(expired) == Expired(before.items, now)
      modifies this, Timers(entries), Timers(expired)
      ensures Valid() && fresh(Timers(entries) - old(Timers(entries)) - Timers(expired))
      ensures View() == Fire(before, now, script, clock) && ran == old(ran) + Ids(Items(expired))
    {
      HeldWhileRunning(before, now, script);
      FireKeepsWellFormed(before, now, script, clock);
      RunBatch(expired, script);
      Reset(expired, now, clock);
    }

    /** The queue driven through any list of operations. It stops the program at the first firing for which
        some key equals the current time, and at no other operation; the kernel timer, unless idle, goes off
        when the last moment it was armed for asks; and if no operation arms it for a moment already
        past, it covers the earliest key. */
    method Drive(ops: seq<Op>, ghost was: (int, int)) returns (ok: bool)
      requires Valid()
      modifies this, Timers(entries)
      ensures Valid() && Grown() && (ok <==> NeverAborts(old(View()), ops))
      ensures ok ==> View() == Run(old(View()), ops)
      ensures ok && Covered(old(View())) && InRangeRun(old(View()), ops) && NeverLate(old(View()), ops) ==>
        Covered(View())
      ensures ok && Exact(old(alarm), was) ==> Exact(alarm, LastArmed(old(View()), ops, was))
      decreases |ops|
    {
      ok := true;
      if Exact(alarm, was) {
        AlarmIsExact(View(), ops, was);
      }
      if Covered(View()) && InRangeRun(View(), ops) {
        AlwaysCoveredIff(View(), ops);
      }
      if ops != [] {
        ghost var before := View();
        match ops[0] {
          case Do(action) => Perform(action);
          case Fired(now, script, clock) =>
            var aborted := HandleRead(now, script, clock);
            ok := !aborted;
        }
        if ok {
          ok := Drive(ops[1..], ArmedBy(before, ops[0], was));
        }
      }
    }

    /** One round of the loop in `reset`: restart a repeater that is out of the queue, and put it back. */
    method PutBack(timer: Timer, now: int)
      requires InSync() && timer !in Timers(entries)
      modifies this`entries, timer
      ensures InSync() && Timers(entries) <= old(Timers(entries)) + {timer}
      ensures Items(entries) == if timer.interval == 0 then old(Items(entries)) else
        TimerLists.Insert(old(Items(entries)), Item(now + timer.interval, timer.id, timer.interval))
    {
      if timer.interval > 0 {
        timer.Restart(now);
        var earliest := Insert(timer);
      }
    }

    /** `reset`: put back the repeaters, then arm for the earliest key. */
    method Reset(expired: seq<Entry>, now: int, clock: int)
      requires InSync() && WellFormed(View(), Items(expired))
      modifies this, Timers(expired)
      ensures InSync() && ran == old(ran) && Timers(entries) <= old(Timers(entries)) + Timers(expired)
      ensures View() ==
        Rearm(old(View()).(items := Reinsert(old(Items(entries)), Items(expired), now, |expired|)), clock)
      ensures entries != [] ==> alarm.Armed? && Exact(alarm, (clock, entries[0].key))
    {
      PutBackAll(expired, now);
      if entries != [] {
        var next := entries[0].timer.expiration;
        assert entries[0] in entries;
        if next.At? {
          ArmIsExact(clock, next.micros);
          alarm := Arm(clock, next.micros);
        }
      }
    }

    /** The loop in `reset`. */
    method PutBackAll(expired: seq<Entry>, now: int)
      requires InSync() && WellFormed(View(), Items(expired))
      modifies this, Timers(expired)
      ensures InSync() && nextId == old(nextId) && alarm == old(alarm) && ran == old(ran)
      ensures Timers(entries) <= old(Timers(entries)) + Timers(expired)
      ensures Items(entries) == Reinsert(old(Items(entries)), Items(expired), now, |expired|)
    {
      ghost var before := View();
      for i := 0 to |expired|
        invariant InSync() && nextId == old(nextId) && alarm == old(alarm) && ran == old(ran)
        invariant Timers(entries) <= old(Timers(entries)) + Timers(expired)
        invariant Items(entries) == Reinsert(before.items, Items(expired), now, i)
      {
        assert expired[i].timer in Timers(expired);
        PutBackNext(expired, now, i, before);
      }
    }

    method PutBackNext(expired: seq<Entry>, now: int, i: nat, ghost before: Queue)
      requires InSync() && i < |expired| && WellFormed(before, Items(expired))
      requires Items(entries) == Reinsert(before.items, Items(expired), now, i) && nextId == before.nextId
      modifies this, expired[i].timer
      ensures InSync() && nextId == old(nextId) && alarm == old(alarm) && ran == old(ran)
      ensures Timers(entries) <= old(Timers(entries)) + {expired[i].timer}
      ensures Items(entries) == Reinsert(before.items, Items(expired), now, i + 1)
    {
      ReinsertKeepsWellFormed(before, Items(expired), now, i);
      HeldIsOut(Items(expired), i, expired[i].timer);
      PutBack(expired[i].timer, now);
    }

    /** A timer still held by the batch is not in the queue. */
    lemma {:induction false} HeldIsOut(held: seq<Item>, i: nat, timer: Timer)
      requires i < |held| && held[i].id == timer.id
      requires WellFormed(View(), held[i..])
      ensures timer !in Timers(entries)
    {
      var all := Items(entries) + held[i..];
      forall k | 0 <= k < |entries|
        ensures entries[k].timer != timer
      {
        assert all[k].id == entries[k].timer.id && all[|entries|] == held[i] && Differ(all, k, |entries|);
      }
    }
  }

  /** After all callbacks of a batch, the queue and the batch are still disjoint. */
  lemma {:induction false} HeldWhileRunning(q: Queue, now: int, script: seq<seq<Action>>)
    requires WellFormed(q, [])
    ensures var held := Expired(q.items, now);
      WellFormed(RunCallbacks(TakeOut(q, now), script, |held|), held)
  {
    TakeOutKeepsWellFormed(q, now);
    var held := Expired(q.items, now);
    CallbacksKeepWellFormed(TakeOut(q, now), script, |held|, held);
  }
}
