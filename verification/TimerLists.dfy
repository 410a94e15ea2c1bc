/** The timer queue of time_utils/TimerQueue.cpp as a sorted list, with the one-shot kernel timer beside
    it. Times are integer microseconds, and every clock reading is a parameter.

    A callback is known by what it does to the queue: a list of additions and cancellations, made
    while the batch it belongs to is being run. */
module TimerLists {

  /** A queue entry: its key, its timer's identity and interval (0 for a one-shot timer). */
  datatype Item = Item(key: int, id: nat, interval: nat)

  /** The kernel timer: set at some moment to go off at `deadline`, or idle. */
  datatype Alarm = Idle | Armed(setAt: int, deadline: int)

  datatype Queue = Queue(items: seq<Item>, nextId: nat, alarm: Alarm)

  const EMPTY: Queue := Queue([], 0, Idle)

  // ---------------------------------------------------------------- the kernel timer

  const TWO_63: int := 0x8000_0000_0000_0000
  const TWO_64: int := 0x1_0000_0000_0000_0000
  const MICROS_PER_SECOND: nat := 1_000_000

  /** The interval in microseconds: the difference goes into an unsigned 64-bit variable, then
      anything below 100 becomes 100. */
  function Microseconds(difference: int): nat {
    var u := difference % TWO_64;
    if u < 100 then 100 else u
  }

  datatype TimeSpec = TimeSpec(sec: nat, nsec: nat)

  /** `how_much_time_from_now` */
  function HowMuchTimeFromNow(difference: int): TimeSpec {
    var u := Microseconds(difference);
    TimeSpec(u / MICROS_PER_SECOND, u % MICROS_PER_SECOND * 1000)
  }

  function Max(a: int, b: int): int { if a < b then b else a }

  /** The seconds and nanoseconds recombine exactly; and the interval is the larger of 100 and the
      difference exactly when the deadline is not past, else it is more than 292 000 years. */
  lemma {:induction false} TimeSpecRecombines(difference: int)
    requires -TWO_63 <= difference < TWO_63
    ensures var ts := HowMuchTimeFromNow(difference);
      && ts.nsec < 1_000_000_000 && ts.nsec % 1000 == 0
      && ts.sec * MICROS_PER_SECOND + ts.nsec / 1000 == Microseconds(difference)
    ensures Microseconds(difference) == Max(100, difference) <==> 0 <= difference
    ensures difference < 0 ==> TWO_63 <= Microseconds(difference)
  {
  }

  /** `reset_timer_fd` */
  function Arm(clock: int, expiration: int): Alarm {
    var ts := HowMuchTimeFromNow(expiration - clock);
    Armed(clock, clock + ts.sec * MICROS_PER_SECOND + ts.nsec / 1000)
  }

  /** Reading the descriptor consumes a firing; when the timer has not gone off it fails. */
  function Read(alarm: Alarm, now: int): Alarm {
    if alarm.Armed? && alarm.deadline <= now then Idle else alarm
  }

  // ---------------------------------------------------------------- the multimap

  predicate Before(items: seq<Item>, i: int, j: int)
    requires 0 <= i < |items| && 0 <= j < |items|
  {
    items[i].key <= items[j].key
  }

  ghost predicate Sorted(items: seq<Item>) {
    forall i, j {:trigger Before(items, i, j)} :: 0 <= i < j < |items| ==> Before(items, i, j)
  }

  /** First position with a key not below, and first with a key above. */
  function LowerBound(items: seq<Item>, key: int): (n: nat)
    ensures n <= |items|
    ensures forall i :: 0 <= i < n ==> items[i].key < key
    ensures n < |items| ==> key <= items[n].key
  {
    if items == [] || key <= items[0].key then 0 else 1 + LowerBound(items[1..], key)
  }

  function UpperBound(items: seq<Item>, key: int): (n: nat)
    ensures n <= |items|
    ensures forall i :: 0 <= i < n ==> items[i].key <= key
    ensures n < |items| ==> key < items[n].key
  {
    if items == [] || key < items[0].key then 0 else 1 + UpperBound(items[1..], key)
  }

  /** `multimap::insert`: after the entries with the same key. */
  function Insert(items: seq<Item>, it: Item): seq<Item> {
    var n := UpperBound(items, it.key);
    items[..n] + [it] + items[n..]
  }

  /** `multimap::erase(key)`: the whole range with that key. */
  function EraseKey(items: seq<Item>, key: int): seq<Item> {
    var lo, hi := LowerBound(items, key), UpperBound(items, key);
    if lo <= hi then items[..lo] + items[hi..] else items
  }

  /** Position of a timer, or the length if it is not queued. */
  function Find(items: seq<Item>, id: nat): (n: nat)
    ensures n <= |items|
    ensures n < |items| ==> items[n].id == id
    ensures forall i :: 0 <= i < n ==> items[i].id != id
  {
    if items == [] || items[0].id == id then 0 else 1 + Find(items[1..], id)
  }

  // ---------------------------------------------------------------- operations

  datatype Action = Add(when: int, interval: nat, clock: int) | Cancel(id: nat)

  /** `add_timer_in_loop`: re-arm only when the new timer is the earliest. */
  function AddTimer(q: Queue, when: int, interval: nat, clock: int): Queue {
    var earliest := q.items == [] || when < q.items[0].key;
    Queue(Insert(q.items, Item(when, q.nextId, interval)), q.nextId + 1,
          if earliest then Arm(clock, when) else q.alarm)
  }

  /** `cancel_in_loop`: erases by the key of the timer it finds, and does not re-arm. */
  function CancelTimer(q: Queue, id: nat): Queue {
    var n := Find(q.items, id);
    if n == |q.items| then q else q.(items := EraseKey(q.items, q.items[n].key))
  }

  function Act(q: Queue, a: Action): Queue {
    match a
    case Add(when, interval, clock) => AddTimer(q, when, interval, clock)
    case Cancel(id) => CancelTimer(q, id)
  }

  /** The actions of a callback, one after the other. */
  function ActAll(q: Queue, acts: seq<Action>): Queue
    decreases |acts|
  {
    if acts == [] then q else ActAll(Act(q, acts[0]), acts[1..])
  }

  /** What the callback of the i-th expired timer does. */
  function Callback(script: seq<seq<Action>>, i: nat): seq<Action> {
    if i < |script| then script[i] else []
  }

  function Called(q: Queue, script: seq<seq<Action>>, i: nat): Queue {
    ActAll(q, Callback(script, i))
  }

  /** The first `n` callbacks of a batch. */
  function RunCallbacks(q: Queue, script: seq<seq<Action>>, n: nat): Queue {
    if n == 0 then q else Called(RunCallbacks(q, script, n - 1), script, n - 1)
  }

  /** `Timer::restart` of a repeating timer. */
  function Restarted(it: Item, now: int): Item { it.(key := now + it.interval) }

  /** `reset`, its loop over the first `n` expired timers. */
  function Reinsert(items: seq<Item>, expired: seq<Item>, now: int, n: nat): seq<Item>
    requires n <= |expired|
  {
    if n == 0 then items
    else
      var rest := Reinsert(items, expired, now, n - 1);
      if expired[n - 1].interval > 0 then Insert(rest, Restarted(expired[n - 1], now)) else rest
  }

  /** The batch `get_expired` takes out. */
  function Expired(items: seq<Item>, now: int): seq<Item> {
    items[..LowerBound(items, now)]
  }

  /** `get_expired` asserts that no key equals the current time. */
  predicate KeyedAt(items: seq<Item>, now: int) {
    var n := LowerBound(items, now);
    n < |items| && items[n].key == now
  }

  /** The queue while callbacks run: the expired entries are out, the firing is consumed. */
  function TakeOut(q: Queue, now: int): Queue {
    q.(items := q.items[LowerBound(q.items, now)..], alarm := Read(q.alarm, now))
  }

  function Rearm(q: Queue, clock: int): Queue {
    if q.items == [] then q else q.(alarm := Arm(clock, q.items[0].key))
  }

  /** `handle_read`: `now` is the clock at its start, `clock` when it re-arms at its end. */
  function Fire(q: Queue, now: int, script: seq<seq<Action>>, clock: int): Queue {
    var expired := Expired(q.items, now);
    var ran := RunCallbacks(TakeOut(q, now), script, |expired|);
    Rearm(ran.(items := Reinsert(ran.items, expired, now, |expired|)), clock)
  }

  datatype Op = Do(action: Action) | Fired(now: int, script: seq<seq<Action>>, clock: int)

  function Apply(q: Queue, op: Op): Queue {
    match op
    case Do(action) => Act(q, action)
    case Fired(now, script, clock) => Fire(q, now, script, clock)
  }

  function Run(q: Queue, ops: seq<Op>): Queue
    decreases |ops|
  {
    if ops == [] then q else Run(Apply(q, ops[0]), ops[1..])
  }

  /** `get_expired` asserts, at each firing, that no key equals the current time. */
  predicate NeverAborts(q: Queue, ops: seq<Op>)
    decreases |ops|
  {
    ops == [] || (!(ops[0].Fired? && KeyedAt(q.items, ops[0].now)) && NeverAborts(Apply(q, ops[0]), ops[1..]))
  }

  // ---------------------------------------------------------------- the queue stays well formed

  predicate Differ(items: seq<Item>, i: int, j: int)
    requires 0 <= i < |items| && 0 <= j < |items|
  {
    items[i].id != items[j].id
  }

  ghost predicate Distinct(items: seq<Item>) {
    forall i, j {:trigger Differ(items, i, j)} :: 0 <= i < |items| && 0 <= j < |items| && i != j ==> Differ(items, i, j)
  }

  predicate Made(items: seq<Item>, i: int, bound: nat)
    requires 0 <= i < |items|
  {
    items[i].id < bound
  }

  ghost predicate Below(items: seq<Item>, bound: nat) {
    forall i {:trigger Made(items, i, bound)} :: 0 <= i < |items| ==> Made(items, i, bound)
  }

  /** Sorted, no timer twice, and every timer made by this queue; `held` is a batch taken out of it,
      whose timers are not in it. */
  ghost predicate WellFormed(q: Queue, held: seq<Item>) {
    Sorted(q.items) && Distinct(q.items + held) && Below(q.items + held, q.nextId)
  }

  /** Entries picked from distinct ones, each from another place, are distinct. */
  lemma {:induction false} PickedAreDistinct(all: seq<Item>, picked: seq<Item>, place: int -> int, bound: nat)
    requires Distinct(all) && Below(all, bound)
    requires forall i :: 0 <= i < |picked| ==> 0 <= place(i) < |all| && picked[i] == all[place(i)]
    requires forall i, j :: 0 <= i < |picked| && 0 <= j < |picked| && i != j ==> place(i) != place(j)
    ensures Distinct(picked) && Below(picked, bound)
  {
    forall i | 0 <= i < |picked|
      ensures Made(picked, i, bound)
    {
      assert Made(all, place(i), bound);
    }
    forall i, j | 0 <= i < |picked| && 0 <= j < |picked| && i != j
      ensures Differ(picked, i, j)
    {
      assert Differ(all, place(i), place(j));
    }
  }

  lemma {:induction false} InsertAdds(items: seq<Item>, it: Item)
    ensures multiset(Insert(items, it)) == multiset(items) + multiset{it}
  {
    var n := UpperBound(items, it.key);
    assert items == items[..n] + items[n..];
  }

  /** An entry goes behind all those with its key, so timers due together run in the order they came. */
  lemma {:induction false} InsertIsSorted(items: seq<Item>, it: Item)
    requires Sorted(items)
    ensures Sorted(Insert(items, it))
    ensures var n, more := UpperBound(items, it.key), Insert(items, it);
      more[n] == it && forall i :: n < i < |more| ==> it.key < more[i].key
  {
    var n, more := UpperBound(items, it.key), Insert(items, it);
    forall i | n < i < |more|
      ensures it.key < more[i].key
    {
      assert i - 1 > n ==> Before(items, n, i - 1);
    }
    forall i, j | 0 <= i < j < |more|
      ensures Before(more, i, j)
    {
      if i != n && j != n {
        assert Before(items, if i < n then i else i - 1, if j < n then j else j - 1);
      }
    }
  }

  /** A timer that is not among the entries may be inserted anywhere. */
  lemma {:induction false} DistinctInsert(items: seq<Item>, it: Item, held: seq<Item>, bound: nat)
    requires Distinct(items + held) && Below(items + held, bound) && it.id < bound
    requires forall i :: 0 <= i < |items + held| ==> (items + held)[i].id != it.id
    ensures Distinct(Insert(items, it) + held) && Below(Insert(items, it) + held, bound)
  {
    var n := UpperBound(items, it.key);
    var all, more := items + held, Insert(items, it) + held;
    assert forall i :: 0 <= i < |more| && i != n ==> more[i] == all[if i < n then i else i - 1];
    forall i | 0 <= i < |more|
      ensures Made(more, i, bound)
    {
      assert i != n ==> Made(all, if i < n then i else i - 1, bound);
    }
    forall i, j | 0 <= i < |more| && 0 <= j < |more| && i != j
      ensures Differ(more, i, j)
    {
      assert i != n && j != n ==> Differ(all, if i < n then i else i - 1, if j < n then j else j - 1);
    }
  }

  lemma {:induction false} CutIsSorted(items: seq<Item>, lo: nat, hi: nat)
    requires Sorted(items) && lo <= hi <= |items|
    ensures Sorted(items[..lo] + items[hi..])
  {
    var less := items[..lo] + items[hi..];
    forall i, j | 0 <= i < j < |less|
      ensures Before(less, i, j)
    {
      assert Before(items, if i < lo then i else i + (hi - lo), if j < lo then j else j + (hi - lo));
    }
  }

  lemma {:induction false} CutKeepsWellFormed(q: Queue, lo: nat, hi: nat, held: seq<Item>)
    requires WellFormed(q, held) && lo <= hi <= |q.items|
    ensures WellFormed(q.(items := q.items[..lo] + q.items[hi..]), held)
  {
    var less := q.items[..lo] + q.items[hi..];
    PickedAreDistinct(q.items + held, less + held, (i: int) => if i < lo then i else i + (hi - lo), q.nextId);
    CutIsSorted(q.items, lo, hi);
  }

  lemma {:induction false} EraseKeepsWellFormed(q: Queue, key: int, held: seq<Item>)
    requires WellFormed(q, held)
    ensures WellFormed(q.(items := EraseKey(q.items, key)), held)
  {
    var lo, hi := LowerBound(q.items, key), UpperBound(q.items, key);
    if lo <= hi {
      CutKeepsWellFormed(q, lo, hi, held);
    }
  }

  lemma {:induction false} ActKeepsWellFormed(q: Queue, a: Action, held: seq<Item>)
    requires WellFormed(q, held)
    ensures WellFormed(Act(q, a), held)
  {
    match a
    case Add(when, interval, clock) =>
      var it := Item(when, q.nextId, interval);
      InsertIsSorted(q.items, it);
      forall i | 0 <= i < |q.items + held|
        ensures (q.items + held)[i].id != it.id && Made(q.items + held, i, q.nextId + 1)
      {
        assert Made(q.items + held, i, q.nextId);
      }
      DistinctInsert(q.items, it, held, q.nextId + 1);
    case Cancel(id) =>
      var n := Find(q.items, id);
      if n < |q.items| {
        EraseKeepsWellFormed(q, q.items[n].key, held);
      }
  }

  lemma {:induction false} CallbacksKeepWellFormed(q: Queue, script: seq<seq<Action>>, n: nat, held: seq<Item>)
    requires WellFormed(q, held)
    ensures WellFormed(RunCallbacks(q, script, n), held)
  {
    if n > 0 {
      CallbacksKeepWellFormed(q, script, n - 1, held);
      LastCallbackKeepsWellFormed(q, script, n, held);
    }
  }

  lemma {:induction false} LastCallbackKeepsWellFormed(q: Queue, script: seq<seq<Action>>, n: nat, held: seq<Item>)
    requires 0 < n && WellFormed(RunCallbacks(q, script, n - 1), held)
    ensures WellFormed(RunCallbacks(q, script, n), held)
  {
    ActAllKeepsWellFormed(RunCallbacks(q, script, n - 1), Callback(script, n - 1), held);
  }

  lemma {:induction false} ActAllKeepsWellFormed(q: Queue, acts: seq<Action>, held: seq<Item>)
    requires WellFormed(q, held)
    ensures WellFormed(ActAll(q, acts), held)
    decreases |acts|
  {
    if acts != [] {
      ActKeepsWellFormed(q, acts[0], held);
      ActAllKeepsWellFormed(Act(q, acts[0]), acts[1..], held);
    }
  }

  /** One timer of the batch is put back, or dropped. */
  lemma {:induction false} PutBackKeepsWellFormed(q: Queue, first: Item, held: seq<Item>, now: int)
    requires WellFormed(q, [first] + held)
    ensures WellFormed(q, held) && WellFormed(q.(items := Insert(q.items, Restarted(first, now))), held)
  {
    var all, fewer, n := q.items + ([first] + held), q.items + held, |q.items|;
    PickedAreDistinct(all, fewer, (i: int) => if i < n then i else i + 1, q.nextId);
    forall i | 0 <= i < |fewer|
      ensures fewer[i].id != first.id
    {
      assert Differ(all, if i < n then i else i + 1, n) && all[n] == first;
    }
    assert Made(all, n, q.nextId);
    var it := Restarted(first, now);
    InsertIsSorted(q.items, it);
    DistinctInsert(q.items, it, held, q.nextId);
  }

  /** Putting back the first `n` of the batch leaves the others held. */
  lemma {:induction false} ReinsertKeepsWellFormed(q: Queue, expired: seq<Item>, now: int, n: nat)
    requires WellFormed(q, expired) && n <= |expired|
    ensures WellFormed(q.(items := Reinsert(q.items, expired, now, n)), expired[n..])
  {
    if n > 0 {
      ReinsertKeepsWellFormed(q, expired, now, n - 1);
      assert expired[n - 1..] == [expired[n - 1]] + expired[n..];
      PutBackKeepsWellFormed(q.(items := Reinsert(q.items, expired, now, n - 1)), expired[n - 1], expired[n..], now);
    }
  }

  lemma {:induction false} SliceIsSorted(items: seq<Item>, lo: nat, hi: nat)
    requires Sorted(items) && lo <= hi <= |items|
    ensures Sorted(items[lo..hi])
  {
    forall i, j | 0 <= i < j < hi - lo
      ensures Before(items[lo..hi], i, j)
    {
      assert Before(items, i + lo, j + lo);
    }
  }

  lemma {:induction false} TakeOutKeepsWellFormed(q: Queue, now: int)
    requires WellFormed(q, [])
    ensures WellFormed(TakeOut(q, now), Expired(q.items, now))
  {
    var n := LowerBound(q.items, now);
    var m := |q.items| - n;
    PickedAreDistinct(q.items + [], TakeOut(q, now).items + Expired(q.items, now),
                      (i: int) => if i < m then i + n else i - m, q.nextId);
    SliceIsSorted(q.items, n, |q.items|);
    assert q.items[n..] == q.items[n..|q.items|];
  }

  lemma {:induction false} FireKeepsWellFormed(q: Queue, now: int, script: seq<seq<Action>>, clock: int)
    requires WellFormed(q, [])
    ensures WellFormed(Fire(q, now, script, clock), [])
  {
    var n := LowerBound(q.items, now);
    var taken, expired := TakeOut(q, now), Expired(q.items, now);
    TakeOutKeepsWellFormed(q, now);
    CallbacksKeepWellFormed(taken, script, n, expired);
    var ran := RunCallbacks(taken, script, n);
    ReinsertKeepsWellFormed(ran, expired, now, n);
    assert expired[n..] == [];
  }

  /** Over every run, whatever the callbacks add and cancel while their batch is being run: the queue stays
      sorted and no timer is ever in it twice. */
  lemma {:induction false} RunKeepsWellFormed(q: Queue, ops: seq<Op>)
    requires WellFormed(q, [])
    ensures WellFormed(Run(q, ops), [])
    decreases |ops|
  {
    if ops != [] {
      match ops[0] {
        case Do(action) => ActKeepsWellFormed(q, action, []);
        case Fired(now, script, clock) => FireKeepsWellFormed(q, now, script, clock);
      }
      RunKeepsWellFormed(Apply(q, ops[0]), ops[1..]);
    }
  }

  // ---------------------------------------------------------------- one action

  /** An addition puts exactly one new timer into the queue; a cancellation of a timer that is not queued
      has no effect. The kernel timer is armed, for the new timer, only if that is the earliest. */
  lemma {:induction false} ActEffect(q: Queue, a: Action)
    ensures var r := Act(q, a);
      match a
      case Add(when, interval, clock) =>
        && multiset(r.items) == multiset(q.items) + multiset{Item(when, q.nextId, interval)}
        && r.nextId == q.nextId + 1
        && r.alarm == if q.items == [] || when < q.items[0].key then Arm(clock, when) else q.alarm
      case Cancel(id) =>
        r.nextId == q.nextId && r.alarm == q.alarm && ((forall it :: it in q.items ==> it.id != id) ==> r == q)
  {
    if a.Add? {
      InsertAdds(q.items, Item(a.when, q.nextId, a.interval));
    }
  }

  lemma {:induction false} ActKeepsSorted(q: Queue, a: Action)
    requires Sorted(q.items)
    ensures Sorted(Act(q, a).items)
  {
    match a
    case Add(when, interval, clock) => InsertIsSorted(q.items, Item(when, q.nextId, interval));
    case Cancel(id) =>
      var n := Find(q.items, id);
      if n < |q.items| {
        var lo, hi := LowerBound(q.items, q.items[n].key), UpperBound(q.items, q.items[n].key);
        if lo <= hi {
          CutIsSorted(q.items, lo, hi);
        }
      }
  }

  // ---------------------------------------------------------------- callbacks are operations

  lemma {:induction false} RunAfter(q: Queue, ops: seq<Op>, op: Op)
    ensures Run(q, ops + [op]) == Apply(Run(q, ops), op)
    decreases |ops|
  {
    if ops == [] {
      assert ops + [op] == [op] && [op][1..] == [];
    } else {
      assert (ops + [op])[1..] == ops[1..] + [op];
      RunAfter(Apply(q, ops[0]), ops[1..], op);
    }
  }

  lemma {:induction false} ActAllConcat(q: Queue, acts: seq<Action>, more: seq<Action>)
    ensures ActAll(q, acts + more) == ActAll(ActAll(q, acts), more)
    decreases |acts|
  {
    if acts == [] {
      assert acts + more == more;
    } else {
      assert (acts + more)[1..] == acts[1..] + more;
      ActAllConcat(Act(q, acts[0]), acts[1..], more);
    }
  }

  /** The same calls as operations on the queue. */
  function Ops(acts: seq<Action>): seq<Op> {
    if acts == [] then [] else [Do(acts[0])] + Ops(acts[1..])
  }

  lemma {:induction false} ActAllIsRun(q: Queue, acts: seq<Action>)
    ensures ActAll(q, acts) == Run(q, Ops(acts))
    decreases |acts|
  {
    if acts != [] {
      ActAllIsRun(Act(q, acts[0]), acts[1..]);
      assert Ops(acts)[0] == Do(acts[0]) && Ops(acts)[1..] == Ops(acts[1..]);
    }
  }

  /** What the first `n` callbacks call, in order. */
  function AllCalls(script: seq<seq<Action>>, n: nat): seq<Action> {
    if n == 0 then [] else AllCalls(script, n - 1) + if n <= |script| then script[n - 1] else []
  }

  lemma {:induction false} AllCallsAreActed(q: Queue, script: seq<seq<Action>>, n: nat)
    ensures RunCallbacks(q, script, n) == ActAll(q, AllCalls(script, n))
  {
    if n > 0 {
      AllCallsAreActed(q, script, n - 1);
      NextCallback(q, script, n, AllCalls(script, n - 1));
    }
  }

  lemma {:induction false} NextCallback(q: Queue, script: seq<seq<Action>>, n: nat, acts: seq<Action>)
    requires 0 < n && RunCallbacks(q, script, n - 1) == ActAll(q, acts)
    ensures RunCallbacks(q, script, n) == ActAll(q, acts + if n <= |script| then script[n - 1] else [])
  {
    ActAllConcat(q, acts, if n <= |script| then script[n - 1] else []);
  }

  /** What callbacks add and cancel while their batch is run has the effect it has at any other time. */
  lemma {:induction false} CallbacksAreOperations(q: Queue, script: seq<seq<Action>>, n: nat)
    ensures RunCallbacks(q, script, n) == Run(q, Ops(AllCalls(script, n)))
  {
    AllCallsAreActed(q, script, n);
    ActAllIsRun(q, AllCalls(script, n));
  }

  lemma {:induction false} CallbacksKeepSorted(q: Queue, script: seq<seq<Action>>, n: nat)
    requires Sorted(q.items)
    ensures Sorted(RunCallbacks(q, script, n).items)
  {
    if n > 0 {
      CallbacksKeepSorted(q, script, n - 1);
      NextCallbackKeepsSorted(q, script, n);
    }
  }

  lemma {:induction false} NextCallbackKeepsSorted(q: Queue, script: seq<seq<Action>>, n: nat)
    requires 0 < n && Sorted(RunCallbacks(q, script, n - 1).items)
    ensures Sorted(RunCallbacks(q, script, n).items)
  {
    ActAllKeepsSorted(RunCallbacks(q, script, n - 1), Callback(script, n - 1));
  }

  lemma {:induction false} ActAllKeepsSorted(q: Queue, acts: seq<Action>)
    requires Sorted(q.items)
    ensures Sorted(ActAll(q, acts).items)
    decreases |acts|
  {
    if acts != [] {
      ActKeepsSorted(q, acts[0]);
      ActAllKeepsSorted(Act(q, acts[0]), acts[1..]);
    }
  }

  // ---------------------------------------------------------------- one firing

  /** The repeaters of a batch, as they go back into the queue: one interval after `now`. */
  function Repeated(expired: seq<Item>, now: int, n: nat): multiset<Item>
    requires n <= |expired|
  {
    if n == 0 then multiset{}
    else
      var it := expired[n - 1];
      Repeated(expired, now, n - 1)
      + if it.interval > 0 then multiset{Item(now + it.interval, it.id, it.interval)} else multiset{}
  }

  lemma {:induction false} ReinsertAdds(items: seq<Item>, expired: seq<Item>, now: int, n: nat)
    requires Sorted(items) && n <= |expired|
    ensures var all := Reinsert(items, expired, now, n);
      Sorted(all) && multiset(all) == multiset(items) + Repeated(expired, now, n)
  {
    if n > 0 {
      ReinsertAdds(items, expired, now, n - 1);
      NextIsReinserted(items, expired, now, n);
      assert expired[n - 1].interval == 0 ==> Repeated(expired, now, n) == Repeated(expired, now, n - 1);
    }
  }

  lemma {:induction false} NextIsReinserted(items: seq<Item>, expired: seq<Item>, now: int, n: nat)
    requires 0 < n <= |expired| && Sorted(Reinsert(items, expired, now, n - 1))
    ensures var rest, all, it := Reinsert(items, expired, now, n - 1), Reinsert(items, expired, now, n), expired[n - 1];
      && Sorted(all)
      && if it.interval == 0 then all == rest
         else multiset(all) == multiset(rest) + multiset{Item(now + it.interval, it.id, it.interval)}
  {
    var it := expired[n - 1];
    InsertIsSorted(Reinsert(items, expired, now, n - 1), Item(now + it.interval, it.id, it.interval));
    InsertAdds(Reinsert(items, expired, now, n - 1), Item(now + it.interval, it.id, it.interval));
  }

  /** The queue without the batch, and with its alarm consumed if it has gone off. */
  function WithoutBatch(q: Queue, rest: seq<Item>, now: int): Queue {
    Queue(rest, q.nextId, if q.alarm.Armed? && q.alarm.deadline <= now then Idle else q.alarm)
  }

  /** A firing conserves timers: the batch is exactly the timers due before `now`, in key order; its
      callbacks do to the rest what the same calls would do at any other time; then its one-shots have
      left and its repeaters are back one interval after `now`, and the queue is sorted. If nothing is
      left, the kernel timer is where the callbacks left it. */
  lemma {:induction false} FiringConserves(q: Queue, now: int, script: seq<seq<Action>>, clock: int)
    requires Sorted(q.items) && !KeyedAt(q.items, now)
    ensures var expired, fired := Expired(q.items, now), Fire(q, now, script, clock);
      var rest := q.items[|expired|..];
      var ran := Run(WithoutBatch(q, rest, now), Ops(AllCalls(script, |expired|)));
      && q.items == expired + rest && Sorted(expired)
      && (forall it :: it in expired ==> it.key < now) && (forall it :: it in rest ==> now < it.key)
      && Sorted(fired.items) && fired.nextId == ran.nextId
      && multiset(fired.items) == multiset(ran.items) + Repeated(expired, now, |expired|)
      && fired.alarm == if fired.items == [] then ran.alarm else Arm(clock, fired.items[0].key)
  {
    var n := LowerBound(q.items, now);
    var expired, rest := Expired(q.items, now), q.items[n..];
    ExpiredSplits(q.items, now);
    assert TakeOut(q, now) == WithoutBatch(q, rest, now);
    CallbacksAreOperations(TakeOut(q, now), script, n);
    var ran := RunCallbacks(TakeOut(q, now), script, n);
    CallbacksKeepSorted(TakeOut(q, now), script, n);
    ReinsertAdds(ran.items, expired, now, n);
  }

  lemma {:induction false} ExpiredSplits(items: seq<Item>, now: int)
    requires Sorted(items) && !KeyedAt(items, now)
    ensures var expired := Expired(items, now);
      var rest := items[|expired|..];
      && |expired| == LowerBound(items, now) && items == expired + rest && Sorted(expired) && Sorted(rest)
      && (forall it :: it in expired ==> it.key < now) && (forall it :: it in rest ==> now < it.key)
  {
    var n := LowerBound(items, now);
    var rest := items[n..];
    SliceIsSorted(items, 0, n);
    SliceIsSorted(items, n, |items|);
    assert rest == items[n..|items|];
    forall it | it in rest
      ensures now < it.key
    {
      var i :| 0 <= i < |rest| && rest[i] == it;
      assert i > 0 ==> Before(rest, 0, i);
      assert rest[0] == items[n];
    }
  }

  /** The assert of `get_expired` fails exactly if some timer is due at the current time. */
  lemma {:induction false} KeyedAtIff(items: seq<Item>, now: int)
    requires Sorted(items)
    ensures KeyedAt(items, now) <==> exists it :: it in items && it.key == now
  {
    var n := LowerBound(items, now);
    if n < |items| && items[n].key == now {
      assert items[n] in items;
    } else {
      ExpiredSplits(items, now);
    }
  }

  // ---------------------------------------------------------------- cancelling

  lemma {:induction false} ReinsertContains(items: seq<Item>, expired: seq<Item>, now: int, n: nat, k: nat)
    requires k < n <= |expired| && expired[k].interval > 0
    ensures Restarted(expired[k], now) in Reinsert(items, expired, now, n)
  {
    var rest := Reinsert(items, expired, now, n - 1);
    if k < n - 1 {
      ReinsertContains(items, expired, now, n - 1, k);
      if expired[n - 1].interval > 0 {
        var it := Restarted(expired[n - 1], now);
        var u := UpperBound(rest, it.key);
        assert rest == rest[..u] + rest[u..];
      }
    }
  }

  /** A repeating timer that has expired is back in the queue after the firing whatever the
      callbacks do: cancelling it from its own callback, or any other of the batch, has no effect. */
  lemma {:induction false} ExpiredRepeaterCannotBeCancelled(
      q: Queue, now: int, script: seq<seq<Action>>, clock: int, k: nat)
    requires k < |Expired(q.items, now)| && q.items[k].interval > 0
    ensures var it := q.items[k];
      Item(now + it.interval, it.id, it.interval) in Fire(q, now, script, clock).items
  {
    var expired := Expired(q.items, now);
    var ran := RunCallbacks(TakeOut(q, now), script, |expired|);
    ReinsertContains(ran.items, expired, now, |expired|, k);
    assert Fire(q, now, script, clock).items == Reinsert(ran.items, expired, now, |expired|);
  }

  lemma {:induction false} EraseKeyIsExact(items: seq<Item>, key: int)
    requires Sorted(items)
    ensures forall it :: it in EraseKey(items, key) <==> it in items && it.key != key
  {
    var lo, hi := LowerBound(items, key), UpperBound(items, key);
    forall i | hi <= i < |items|
      ensures key < items[i].key
    {
      assert hi < i ==> Before(items, hi, i);
    }
    assert lo <= hi && EraseKey(items, key) == items[..lo] + items[hi..];
    forall it | it in items
      ensures it in items[..lo] + items[hi..] <==> it.key != key
    {
      var i :| 0 <= i < |items| && items[i] == it;
      assert lo < i ==> Before(items, lo, i);
      assert i < lo ==> items[..lo][i] == it;
      assert hi <= i ==> items[hi..][i - hi] == it;
    }
  }

  /** Cancelling a queued timer removes that timer and no other if and only if no other one has the same
      expiration. */
  lemma {:induction false} CancelIsExactIff(q: Queue, n: nat)
    requires WellFormed(q, []) && n < |q.items|
    ensures var id := q.items[n].id;
      (forall it :: it in CancelTimer(q, id).items <==> it in q.items && it.id != id)
      <==> forall i :: 0 <= i < |q.items| && i != n ==> q.items[i].key != q.items[n].key
  {
    var id, key := q.items[n].id, q.items[n].key;
    assert q.items + [] == q.items;
    assert Find(q.items, id) == n by {
      assert Find(q.items, id) != n ==> Differ(q.items, Find(q.items, id), n);
    }
    EraseKeyIsExact(q.items, key);
    var left := CancelTimer(q, id).items;
    if i :| 0 <= i < |q.items| && i != n && q.items[i].key == key {
      assert q.items[i] in q.items && q.items[i].id != id && q.items[i] !in left by {
        assert Differ(q.items, i, n);
      }
    } else {
      forall it
        ensures it in left <==> it in q.items && it.id != id
      {
        if it in q.items {
          var i :| 0 <= i < |q.items| && q.items[i] == it;
          assert i != n ==> Differ(q.items, i, n);
        }
      }
    }
  }

  // ---------------------------------------------------------------- arming

  /** A queue that is not empty has the kernel timer set to go off no later than its earliest key, up to
      the floor of 100 microseconds. */
  predicate Covered(q: Queue) {
    q.items != [] ==> q.alarm.Armed? && q.alarm.deadline <= Max(q.items[0].key, q.alarm.setAt + 100)
  }

  /** Differences fit the source's 64-bit arithmetic. */
  predicate InRange(clock: int, expiration: int) {
    -TWO_63 <= expiration - clock < TWO_63 - 100
  }

  /** The kernel timer is set for the expiration, but at least 100 microseconds ahead; for a moment already
      past it is off by 2^64 microseconds. */
  lemma {:induction false} ArmsExactly(clock: int, expiration: int)
    requires InRange(clock, expiration)
    ensures Arm(clock, expiration) ==
      Armed(clock, if clock <= expiration then Max(expiration, clock + 100) else expiration + TWO_64)
  {
    TimeSpecRecombines(expiration - clock);
  }

  lemma {:induction false} ArmCoversIff(clock: int, expiration: int)
    requires InRange(clock, expiration)
    ensures Arm(clock, expiration).deadline <= Max(expiration, clock + 100) <==> clock <= expiration
  {
    ArmsExactly(clock, expiration);
  }

  /** The clock and the expiration with which a call arms the kernel timer last: an addition does if its
      timer is the earliest. */
  function ArmedByCall(q: Queue, a: Action, was: (int, int)): (int, int) {
    if a.Add? && (q.items == [] || a.when < q.items[0].key) then (a.clock, a.when) else was
  }

  function ArmedByCalls(q: Queue, calls: seq<Action>, was: (int, int)): (int, int)
    decreases |calls|
  {
    if calls == [] then was else ArmedByCalls(Act(q, calls[0]), calls[1..], ArmedByCall(q, calls[0], was))
  }

  /** A firing does so for the first key it leaves; if it leaves none, its callbacks may have. */
  function ArmedBy(q: Queue, op: Op, was: (int, int)): (int, int) {
    match op
    case Do(a) => ArmedByCall(q, a, was)
    case Fired(now, script, clock) =>
      var n, after := |Expired(q.items, now)|, Fire(q, now, script, clock).items;
      if after != [] then (clock, after[0].key)
      else ArmedByCalls(WithoutBatch(q, q.items[n..], now), AllCalls(script, n), was)
  }

  function LastArmed(q: Queue, ops: seq<Op>, was: (int, int)): (int, int)
    decreases |ops|
  {
    if ops == [] then was else LastArmed(Apply(q, ops[0]), ops[1..], ArmedBy(q, ops[0], was))
  }

  /** The alarm, unless idle, was set at that clock for that expiration. */
  predicate Exact(alarm: Alarm, was: (int, int)) {
    alarm.Armed? ==>
      && alarm.setAt == was.0
      && (InRange(was.0, was.1) ==>
            alarm.deadline == if was.0 <= was.1 then Max(was.1, was.0 + 100) else was.1 + TWO_64)
  }

  lemma {:induction false} ArmIsExact(clock: int, expiration: int)
    ensures Exact(Arm(clock, expiration), (clock, expiration))
  {
    if InRange(clock, expiration) {
      ArmsExactly(clock, expiration);
    }
  }

  lemma {:induction false} CallIsExact(q: Queue, a: Action, was: (int, int))
    requires Exact(q.alarm, was)
    ensures Exact(Act(q, a).alarm, ArmedByCall(q, a, was))
  {
    ActEffect(q, a);
    if a.Add? {
      ArmIsExact(a.clock, a.when);
    }
  }

  lemma {:induction false} CallsAreExact(q: Queue, calls: seq<Action>, was: (int, int))
    requires Exact(q.alarm, was)
    ensures Exact(ActAll(q, calls).alarm, ArmedByCalls(q, calls, was))
    decreases |calls|
  {
    if calls != [] {
      CallIsExact(q, calls[0], was);
      CallsAreExact(Act(q, calls[0]), calls[1..], ArmedByCall(q, calls[0], was));
    }
  }

  lemma {:induction false} StepIsExact(q: Queue, op: Op, was: (int, int))
    requires Exact(q.alarm, was)
    ensures Exact(Apply(q, op).alarm, ArmedBy(q, op, was))
  {
    match op
    case Do(a) => CallIsExact(q, a, was);
    case Fired(now, script, clock) =>
      var n, after := |Expired(q.items, now)|, Fire(q, now, script, clock);
      var without := WithoutBatch(q, q.items[n..], now);
      if after.items != [] {
        ArmIsExact(clock, after.items[0].key);
      } else {
        assert without == TakeOut(q, now);
        AllCallsAreActed(without, script, n);
        CallsAreExact(without, AllCalls(script, n), was);
      }
  }

  /** Over every run, re-entrant callbacks included: the kernel timer, unless idle, goes off exactly when
      the last moment it was armed for asks, and never before that moment. */
  lemma {:induction false} AlarmIsExact(q: Queue, ops: seq<Op>, was: (int, int))
    requires Exact(q.alarm, was)
    ensures var alarm, last := Run(q, ops).alarm, LastArmed(q, ops, was);
      Exact(alarm, last) && (alarm.Armed? && InRange(last.0, last.1) ==> last.1 <= alarm.deadline)
    decreases |ops|
  {
    if ops != [] {
      StepIsExact(q, ops[0], was);
      AlarmIsExact(Apply(q, ops[0]), ops[1..], ArmedBy(q, ops[0], was));
    }
  }

  /** The expiration that an operation arms the kernel timer for last, with the clock it reads then. */
  function LastArm(q: Queue, op: Op): seq<(int, int)> {
    match op
    case Do(Add(when, interval, clock)) =>
      if q.items == [] || when < q.items[0].key then [(clock, when)] else []
    case Do(Cancel(_)) => []
    case Fired(now, script, clock) =>
      var after := Fire(q, now, script, clock);
      if after.items == [] then [] else [(clock, after.items[0].key)]
  }

  /** It arms for a moment already past. */
  predicate ArmsLate(q: Queue, op: Op) {
    LastArm(q, op) != [] && LastArm(q, op)[0].1 < LastArm(q, op)[0].0
  }

  lemma {:induction false} FirstAfterInsert(items: seq<Item>, it: Item)
    ensures Insert(items, it)[0] == if items == [] || it.key < items[0].key then it else items[0]
  {
  }

  /** Erasing moves the first key only up. */
  lemma {:induction false} FirstAfterErase(items: seq<Item>, key: int)
    requires Sorted(items)
    ensures EraseKey(items, key) != [] ==> items != [] && items[0].key <= EraseKey(items, key)[0].key
  {
  }

  lemma {:induction false} StepCoversIff(q: Queue, op: Op)
    requires WellFormed(q, []) && Covered(q)
    requires LastArm(q, op) != [] ==> InRange(LastArm(q, op)[0].0, LastArm(q, op)[0].1)
    ensures Covered(Apply(q, op)) <==> !ArmsLate(q, op)
  {
    match op
    case Do(Add(when, interval, clock)) =>
      FirstAfterInsert(q.items, Item(when, q.nextId, interval));
      if LastArm(q, op) != [] { ArmCoversIff(clock, when); }
    case Do(Cancel(id)) =>
      var n := Find(q.items, id);
      if n < |q.items| { FirstAfterErase(q.items, q.items[n].key); }
    case Fired(now, script, clock) =>
      var after := Fire(q, now, script, clock);
      if after.items != [] { ArmCoversIff(clock, after.items[0].key); }
  }

  ghost predicate InRangeRun(q: Queue, ops: seq<Op>)
    decreases |ops|
  {
    ops == [] || ((LastArm(q, ops[0]) != [] ==> InRange(LastArm(q, ops[0])[0].0, LastArm(q, ops[0])[0].1))
                  && InRangeRun(Apply(q, ops[0]), ops[1..]))
  }

  ghost predicate NeverLate(q: Queue, ops: seq<Op>)
    decreases |ops|
  {
    ops == [] || (!ArmsLate(q, ops[0]) && NeverLate(Apply(q, ops[0]), ops[1..]))
  }

  ghost predicate AlwaysCovered(q: Queue, ops: seq<Op>)
    decreases |ops|
  {
    Covered(q) && (ops == [] || AlwaysCovered(Apply(q, ops[0]), ops[1..]))
  }

  /** Through additions, cancellations that do not re-arm, spurious firings and callbacks that re-enter
      the queue, between any two operations the kernel timer covers the earliest key, if and only if no
      operation arms it for a moment already past. */
  lemma {:induction false} AlwaysCoveredIff(q: Queue, ops: seq<Op>)
    requires WellFormed(q, []) && Covered(q) && InRangeRun(q, ops)
    ensures AlwaysCovered(q, ops) <==> NeverLate(q, ops)
    decreases |ops|
  {
    if ops != [] {
      StepCoversIff(q, ops[0]);
      if !ArmsLate(q, ops[0]) {
        RunKeepsWellFormed(q, ops[..1]);
        assert ops[..1] == [ops[0]] && Run(q, [ops[0]]) == Apply(q, ops[0]) by {
          assert [ops[0]][1..] == [];
        }
        AlwaysCoveredIff(Apply(q, ops[0]), ops[1..]);
      }
    }
  }

  /** A timer added for a moment already past is armed more than 292 000 years ahead. */
  lemma {:induction false} LateAddIsLost(when: int, interval: nat, clock: int)
    requires when < clock && InRange(clock, when)
    ensures var q := Run(EMPTY, [Do(Add(when, interval, clock))]);
      q.items == [Item(when, 0, interval)] && q.alarm.Armed? && clock + TWO_63 <= q.alarm.deadline && !Covered(q)
  {
    var ops := [Do(Add(when, interval, clock))];
    assert ops[1..] == [];
    var q := Apply(EMPTY, ops[0]);
    assert Run(q, []) == q && q.items == [Item(when, 0, interval)];
    TimeSpecRecombines(when - clock);
  }

  const TWO_ADDED: seq<Op> := [Do(Add(100, 0, 0))] + [Do(Add(300, 0, 0))]

  /** Two timers, due at 100 and 300. */
  lemma {:induction false} TwoAdded()
    ensures Run(EMPTY, TWO_ADDED) == Queue([Item(100, 0, 0)] + [Item(300, 1, 0)], 2, Armed(0, 100))
  {
    var add, more := Do(Add(100, 0, 0)), Do(Add(300, 0, 0));
    var q := Queue([Item(100, 0, 0)], 1, Armed(0, 100));
    assert Apply(EMPTY, add) == q;
    assert q.items[1..] == [] && UpperBound(q.items, 300) == 1;
    assert Apply(q, more) == Queue([Item(100, 0, 0)] + [Item(300, 1, 0)], 2, Armed(0, 100));
    assert [] + [add] == [add];
    RunAfter(EMPTY, [], add);
    RunAfter(EMPTY, [add], more);
  }

  /** The first one is cancelled, and the kernel stays armed for it. */
  lemma {:induction false} CancelledButArmed()
    ensures Run(EMPTY, TWO_ADDED + [Do(Cancel(0))]) == Queue([Item(300, 1, 0)], 2, Armed(0, 100))
  {
    TwoAdded();
    RunAfter(EMPTY, TWO_ADDED, Do(Cancel(0)));
    var items := Run(EMPTY, TWO_ADDED).items;
    assert items[1..] == [Item(300, 1, 0)] && Find(items, 0) == 0;
    assert UpperBound(items, 100) == 1 && LowerBound(items, 100) == 0;
    assert EraseKey(items, 100) == [Item(300, 1, 0)];
  }

  /** The kernel timer goes off for the cancelled one at 110, when nothing is due. By the time it is
      re-armed, at 400, the remaining timer's 300 is past: that timer is lost. */
  lemma {:induction false} SpuriousFiringLosesTimer()
    ensures var armed := Run(EMPTY, TWO_ADDED + [Do(Cancel(0))]);
      armed.alarm.Armed? && Covered(armed) && armed.alarm.deadline <= 110
    ensures var q := Run(EMPTY, TWO_ADDED + [Do(Cancel(0))] + [Fired(110, [], 400)]);
      q.items == [Item(300, 1, 0)] && q.alarm.Armed? && TWO_63 <= q.alarm.deadline && !Covered(q)
  {
    CancelledButArmed();
    RunAfter(EMPTY, TWO_ADDED + [Do(Cancel(0))], Fired(110, [], 400));
    var q := Queue([Item(300, 1, 0)], 2, Armed(0, 100));
    assert LowerBound(q.items, 110) == 0;
    TimeSpecRecombines(-100);
  }

  /** Two timers due at the same moment: cancelling one drops both. */
  lemma {:induction false} CancelDropsTwin(q: Queue, when: int, a: nat, b: nat)
    requires q.items == [Item(when, 0, a), Item(when, 1, b)]
    ensures CancelTimer(q, 0).items == []
  {
    assert q.items[1..] == [Item(when, 1, b)] && q.items[1..][1..] == [];
    assert UpperBound(q.items[1..], when) == 1 && UpperBound(q.items, when) == 2;
  }
}
