/** The functor queue and wakeup protocol of event_loop/EventLoop.cpp under every interleaving.

    A step is one atomic action of one thread: a push under the mutex, a wakeup call, the swap under the
    mutex, the start of one functor, a read of the event counter. Other threads may act between any
    two of them. `queue_in_loop` is a push followed, when its test says so, by a separate wakeup.

    The source's `wakeup` reads the event counter although its own log text says that it writes.
    `writes` selects the meaning: true for the write, false for the code as it stands. */
module TaskQueue {

  type Thread = nat
  type Task = nat

  /** A task with the number of batch swaps made before it was pushed, or when it was run. */
  datatype Stamp = Stamp(task: Task, swaps: nat)

  /** Where the loop thread is. Before `loop` starts; blocked in poll; handling events, with or without
      the wakeup channel still to be handled; between setting the flag and the swap; in the batch. */
  datatype Phase = Starting | Polling | Handling(wakeupActive: bool) | Calling | Running

  /** `waking`: the other threads between their push and their wakeup. `loopWaking`: the loop thread
      is between the two. `pushed` and `ran` are histories. */
  datatype Loop = Loop(phase: Phase, callingPending: bool, pending: seq<Task>, batch: seq<Task>, counter: nat,
                       waking: set<Thread>, loopWaking: bool, swaps: nat, pushed: seq<Stamp>, ran: seq<Stamp>)

  const INITIAL: Loop := Loop(Starting, false, [], [], 0, {}, false, 0, [], [])

  datatype Action =
    | ThreadPush(t: Thread, task: Task)
    | ThreadWakeup(t: Thread)
    | LoopPush(task: Task)      // the loop thread: before looping, in an event handler, or in a functor
    | LoopWakeup
    | EnterLoop
    | PollReturns               // by an event, the wakeup counter or the time limit
    | ReadCounter               // handle_read of the wakeup channel
    | BeginCalling
    | Swap
    | RunNext
    | EndCalling

  predicate Enabled(s: Loop, a: Action) {
    match a
    case ThreadPush(t, _) => t !in s.waking
    case ThreadWakeup(t) => t in s.waking
    case LoopWakeup => s.loopWaking
    case LoopPush(_) => !s.loopWaking && (s.phase.Starting? || s.phase.Handling? || s.phase.Running?)
    case EnterLoop => s.phase.Starting? && !s.loopWaking
    case PollReturns => s.phase.Polling?
    case ReadCounter => s.phase == Handling(true)
    case BeginCalling => s.phase == Handling(false) && !s.loopWaking
    case Swap => s.phase.Calling?
    case RunNext => s.phase.Running? && !s.loopWaking && s.batch != []
    case EndCalling => s.phase.Running? && !s.loopWaking && s.batch == []
  }

  function Push(s: Loop, task: Task): Loop {
    s.(pending := s.pending + [task], pushed := s.pushed + [Stamp(task, s.swaps)])
  }

  /** `wakeup`: add one, or as written, read and so reset a counter that is not zero. */
  function Wakeup(writes: bool, counter: nat): nat {
    if writes then counter + 1 else 0
  }

  function Step(writes: bool, s: Loop, a: Action): Loop
    requires Enabled(s, a)
  {
    match a
    case ThreadPush(t, task) => Push(s, task).(waking := s.waking + {t})
    case ThreadWakeup(t) => s.(waking := s.waking - {t}, counter := Wakeup(writes, s.counter))
    case LoopPush(task) => Push(s, task).(loopWaking := s.callingPending)
    case LoopWakeup => s.(loopWaking := false, counter := Wakeup(writes, s.counter))
    case EnterLoop => s.(phase := Polling)
    case PollReturns => s.(phase := Handling(s.counter > 0))
    case ReadCounter => s.(phase := Handling(false), counter := 0)
    case BeginCalling => s.(phase := Calling, callingPending := true)
    case Swap => s.(phase := Running, batch := s.pending, pending := [], swaps := s.swaps + 1)
    case RunNext => s.(batch := s.batch[1..], ran := s.ran + [Stamp(s.batch[0], s.swaps)])
    case EndCalling => s.(phase := Polling, callingPending := false)
  }

  predicate EnabledRun(writes: bool, s: Loop, acts: seq<Action>)
    decreases |acts|
  {
    acts == [] || (Enabled(s, acts[0]) && EnabledRun(writes, Step(writes, s, acts[0]), acts[1..]))
  }

  function Run(writes: bool, s: Loop, acts: seq<Action>): Loop
    requires EnabledRun(writes, s, acts)
    decreases |acts|
  {
    if acts == [] then s else Run(writes, Step(writes, s, acts[0]), acts[1..])
  }

  // ---------------------------------------------------------------- order

  /** Run, then the rest of the batch, then pending, is the order of pushes; and whatever was pushed
      after k swaps runs, or will run, in batch k + 1. */
  ghost predicate InOrder(s: Loop) {
    var b, p := |s.ran|, |s.ran| + |s.batch|;
    && p + |s.pending| == |s.pushed|
    && (forall i :: 0 <= i < b ==> s.ran[i] == Stamp(s.pushed[i].task, s.pushed[i].swaps + 1))
    && (forall i :: b <= i < p ==> s.batch[i - b] == s.pushed[i].task && s.pushed[i].swaps + 1 == s.swaps)
    && (forall i :: p <= i < |s.pushed| ==> s.pending[i - p] == s.pushed[i].task && s.pushed[i].swaps == s.swaps)
    && (s.batch != [] ==> s.phase.Running?)
  }

  lemma {:induction false} RunNextKeepsOrder(writes: bool, s: Loop)
    requires InOrder(s) && Enabled(s, RunNext)
    ensures InOrder(Step(writes, s, RunNext))
  {
  }

  lemma {:induction false} StepKeepsOrder(writes: bool, s: Loop, a: Action)
    requires InOrder(s) && Enabled(s, a)
    ensures InOrder(Step(writes, s, a))
  {
    if a.RunNext? {
      RunNextKeepsOrder(writes, s);
    }
  }

  lemma {:induction false} RunKeepsOrder(writes: bool, s: Loop, acts: seq<Action>)
    requires InOrder(s) && EnabledRun(writes, s, acts)
    ensures InOrder(Run(writes, s, acts))
    decreases |acts|
  {
    if acts != [] {
      StepKeepsOrder(writes, s, acts[0]);
      RunKeepsOrder(writes, Step(writes, s, acts[0]), acts[1..]);
    }
  }

  function Tasks(stamps: seq<Stamp>): seq<Task> {
    seq(|stamps|, i requires 0 <= i < |stamps| => stamps[i].task)
  }

  /** Under every interleaving: what has run, the rest of the batch and the pending list are together
      exactly the pushes in order, so each functor runs once, in its turn; and each one that has
      run did so in the first batch swapped after its push. */
  lemma {:induction false} FirstInFirstOut(writes: bool, acts: seq<Action>)
    requires EnabledRun(writes, INITIAL, acts)
    ensures var s := Run(writes, INITIAL, acts);
      && Tasks(s.ran) + s.batch + s.pending == Tasks(s.pushed)
      && forall i :: 0 <= i < |s.ran| ==> i < |s.pushed| && s.ran[i].swaps == s.pushed[i].swaps + 1
  {
    RunKeepsOrder(writes, INITIAL, acts);
    var s := Run(writes, INITIAL, acts);
    var all := Tasks(s.ran) + s.batch + s.pending;
    assert |all| == |Tasks(s.pushed)|;
    forall i | 0 <= i < |all|
      ensures all[i] == Tasks(s.pushed)[i]
    {
    }
  }

  // ---------------------------------------------------------------- the batch loop ends

  function Runs(acts: seq<Action>): nat {
    if acts == [] then 0 else (if acts[0].RunNext? then 1 else 0) + Runs(acts[1..])
  }

  /** While one batch is running, each functor started takes one off it and pushes add none: however
      much is queued meanwhile, no more start than the batch held. */
  lemma {:induction false} BatchOnlyShrinks(writes: bool, s: Loop, acts: seq<Action>)
    requires s.phase.Running? && EnabledRun(writes, s, acts)
    requires forall a :: a in acts ==> !a.EndCalling?
    ensures Run(writes, s, acts).phase.Running?
    ensures Runs(acts) + |Run(writes, s, acts).batch| == |s.batch|
    decreases |acts|
  {
    if acts != [] {
      BatchOnlyShrinks(writes, Step(writes, s, acts[0]), acts[1..]);
    }
  }

  // ---------------------------------------------------------------- wakeups

  /** Work is pending and no wakeup has been counted or is under way. */
  predicate Unannounced(s: Loop) {
    s.pending != [] && s.counter == 0 && s.waking == {}
  }

  /** The loop sleeps in poll in spite of that. */
  predicate Lost(s: Loop) { s.phase.Polling? && Unannounced(s) }

  /** Once the swap of an iteration is behind the loop, every pending functor has a wakeup that has
      been counted or is still to come. */
  predicate Covered(s: Loop) {
    && (s.callingPending <==> s.phase.Calling? || s.phase.Running?)
    && (s.loopWaking ==> s.phase.Running?)
    && (s.phase.Polling? || s.phase.Running? ==> !Unannounced(s) || s.loopWaking)
  }

  /** The loop is entered with work pending that nobody has announced. */
  predicate EntersBlind(s: Loop, a: Action) { a.EnterLoop? && Unannounced(s) }

  lemma {:induction false} StepIsCoveredIff(s: Loop, a: Action)
    requires Covered(s) && Enabled(s, a)
    ensures if EntersBlind(s, a) then Lost(Step(true, s, a)) else Covered(Step(true, s, a))
  {
  }

  predicate NeverLost(s: Loop, acts: seq<Action>)
    requires EnabledRun(true, s, acts)
    decreases |acts|
  {
    !Lost(s) && (acts == [] || NeverLost(Step(true, s, acts[0]), acts[1..]))
  }

  predicate NeverBlind(s: Loop, acts: seq<Action>)
    requires EnabledRun(true, s, acts)
    decreases |acts|
  {
    acts == [] || (!EntersBlind(s, acts[0]) && NeverBlind(Step(true, s, acts[0]), acts[1..]))
  }

  /** No lost wakeup: with `wakeup` writing, under every interleaving and with functors that push, the
      loop never sleeps on pending work without a wakeup counted or under way, if and only if it is not
      entered that way: at `loop`, nothing is pending, or the counter is up, or some thread is between its
      push and its wakeup. */
  lemma {:induction false} NeverLostIff(s: Loop, acts: seq<Action>)
    requires Covered(s) && EnabledRun(true, s, acts)
    ensures NeverLost(s, acts) <==> NeverBlind(s, acts)
    decreases |acts|
  {
    if acts != [] {
      StepIsCoveredIff(s, acts[0]);
      if !EntersBlind(s, acts[0]) {
        NeverLostIff(Step(true, s, acts[0]), acts[1..]);
      }
    }
  }

  /** The loop thread queues nothing before it starts looping. */
  predicate NothingEarly(acts: seq<Action>) {
    acts == [] || acts[0].EnterLoop? || (!acts[0].LoopPush? && NothingEarly(acts[1..]))
  }

  lemma {:induction false} NeverBlindIfNothingEarly(s: Loop, acts: seq<Action>)
    requires EnabledRun(true, s, acts)
    requires s.phase.Starting? ==> !Unannounced(s) && !s.loopWaking && NothingEarly(acts)
    ensures NeverBlind(s, acts)
    decreases |acts|
  {
    if acts != [] {
      assert acts[0].ThreadPush? ==> acts[0].t in Step(true, s, acts[0]).waking;
      NeverBlindIfNothingEarly(Step(true, s, acts[0]), acts[1..]);
    }
  }

  /** So no wakeup is lost if the loop thread queues nothing before it enters its loop. */
  lemma {:induction false} NoLostWakeup(acts: seq<Action>)
    requires EnabledRun(true, INITIAL, acts) && NothingEarly(acts)
    ensures NeverLost(INITIAL, acts)
  {
    NeverBlindIfNothingEarly(INITIAL, acts);
    NeverLostIff(INITIAL, acts);
  }

  /** A loop thread that, with no other thread about, queues functors and then enters its loop sleeps on
      them exactly when it has queued any: it is on its own thread and not yet calling functors. */
  lemma {:induction false} EarlyPushLosesWakeupIff(s: Loop, tasks: seq<Task>)
    requires s.phase.Starting? && !s.loopWaking && !s.callingPending && s.counter == 0 && s.waking == {}
    ensures var acts := seq(|tasks|, i requires 0 <= i < |tasks| => LoopPush(tasks[i])) + [EnterLoop];
      EnabledRun(true, s, acts) && (Lost(Run(true, s, acts)) <==> s.pending != [] || tasks != [])
    decreases |tasks|
  {
    var acts := seq(|tasks|, i requires 0 <= i < |tasks| => LoopPush(tasks[i])) + [EnterLoop];
    if tasks == [] {
      assert acts == [EnterLoop] && acts[1..] == [];
    } else {
      var rest := tasks[1..];
      assert acts[1..] == seq(|rest|, i requires 0 <= i < |rest| => LoopPush(rest[i])) + [EnterLoop];
      EarlyPushLosesWakeupIff(Step(true, s, acts[0]), rest);
    }
  }

  /** The event counter, told by the wakeups and reads alone. */
  function Counted(n: nat, acts: seq<Action>): nat
    decreases |acts|
  {
    if acts == [] then n
    else
      var next := if acts[0].ThreadWakeup? || acts[0].LoopWakeup? then n + 1 else if acts[0].ReadCounter? then 0 else n;
      Counted(next, acts[1..])
  }

  /** With `wakeup` writing, the counter is the number of wakeups since it was last read; and its channel
      is never handled for nothing. */
  lemma {:induction false} CounterCounts(s: Loop, acts: seq<Action>)
    requires EnabledRun(true, s, acts) && (s.phase == Handling(true) ==> s.counter > 0)
    ensures var t := Run(true, s, acts);
      t.counter == Counted(s.counter, acts) && (t.phase == Handling(true) ==> t.counter > 0)
    decreases |acts|
  {
    if acts != [] {
      CounterCounts(Step(true, s, acts[0]), acts[1..]);
    }
  }

  /** How many of the actions are pushes or wakeups of the loop thread, or of thread `t`. */
  function Pushes(acts: seq<Action>, t: Thread): nat {
    if acts == [] then 0 else (if acts[0].ThreadPush? && acts[0].t == t then 1 else 0) + Pushes(acts[1..], t)
  }

  function Wakeups(acts: seq<Action>, t: Thread): nat {
    if acts == [] then 0 else (if acts[0].ThreadWakeup? && acts[0].t == t then 1 else 0) + Wakeups(acts[1..], t)
  }

  function LoopPushes(acts: seq<Action>): nat {
    if acts == [] then 0 else (if acts[0].LoopPush? then 1 else 0) + LoopPushes(acts[1..])
  }

  function LoopWakeups(acts: seq<Action>): nat {
    if acts == [] then 0 else (if acts[0].LoopWakeup? then 1 else 0) + LoopWakeups(acts[1..])
  }

  /** Another thread makes one wakeup for each of its pushes, the loop thread at most one. */
  lemma {:induction false} OneWakeupPerPush(writes: bool, s: Loop, acts: seq<Action>, t: Thread)
    requires EnabledRun(writes, s, acts)
    ensures var r := Run(writes, s, acts);
      && Wakeups(acts, t) + (if t in r.waking then 1 else 0) == Pushes(acts, t) + (if t in s.waking then 1 else 0)
      && LoopWakeups(acts) + (if r.loopWaking then 1 else 0) <= LoopPushes(acts) + (if s.loopWaking then 1 else 0)
    decreases |acts|
  {
    if acts != [] {
      OneWakeupPerPush(writes, Step(writes, s, acts[0]), acts[1..], t);
    }
  }

  /** What the loop does by itself, its functors queueing nothing. */
  predicate Alone(a: Action) {
    !a.ThreadPush? && !a.ThreadWakeup? && !a.LoopPush? && !a.LoopWakeup?
  }

  /** The wakeups counted so far have been read, and the functors announced by them taken, as far as the
      iteration has come. */
  predicate Settling(s: Loop) {
    match s.phase
    case Starting => false
    case Polling => s.counter == 0 && s.pending == []
    case Handling(wakeupActive) => wakeupActive || s.counter == 0
    case Calling => s.counter == 0
    case Running => s.counter == 0 && s.pending == []
  }

  lemma {:induction false} StaysSettling(writes: bool, s: Loop, acts: seq<Action>)
    requires EnabledRun(writes, s, acts) && Settling(s) && forall a :: a in acts ==> Alone(a)
    ensures Settling(Run(writes, s, acts))
    decreases |acts|
  {
    if acts != [] {
      assert Alone(acts[0]);
      StaysSettling(writes, Step(writes, s, acts[0]), acts[1..]);
    }
  }

  /** However many wakeups and functors have piled up: when nothing more is queued, the loop is back in
      poll after one iteration with the counter at zero and nothing pending, so that it sleeps. */
  lemma {:induction false} QuietIterationSleeps(writes: bool, s: Loop, acts: seq<Action>)
    requires s.phase.Polling? && EnabledRun(writes, s, acts) && forall a :: a in acts ==> Alone(a)
    requires acts != [] && Run(writes, s, acts).phase.Polling?
    ensures Run(writes, s, acts).counter == 0 && Run(writes, s, acts).pending == []
  {
    assert Alone(acts[0]);
    StaysSettling(writes, Step(writes, s, acts[0]), acts[1..]);
  }

  /** As the code stands, the counter never leaves zero: no wakeup ever has an effect. */
  lemma {:induction false} ReadingNeverCounts(s: Loop, acts: seq<Action>)
    requires s.counter == 0 && EnabledRun(false, s, acts)
    ensures Run(false, s, acts).counter == 0
    decreases |acts|
  {
    if acts != [] {
      ReadingNeverCounts(Step(false, s, acts[0]), acts[1..]);
    }
  }

  /** So, as the code stands, one functor queued by another thread while the loop sleeps is lost until
      the poll's time limit; the same run is not lost when `wakeup` writes. */
  lemma {:induction false} ReadingLosesWakeup(t: Thread, task: Task)
    ensures var acts := [EnterLoop, ThreadPush(t, task), ThreadWakeup(t)];
      && EnabledRun(false, INITIAL, acts) && Lost(Run(false, INITIAL, acts))
      && EnabledRun(true, INITIAL, acts) && !Lost(Run(true, INITIAL, acts))
  {
    var acts := [EnterLoop, ThreadPush(t, task), ThreadWakeup(t)];
    assert acts[1..] == [acts[1], acts[2]] && acts[1..][1..] == [acts[2]] && acts[1..][1..][1..] == [];
    var s1 := INITIAL.(phase := Polling);
    var s2 := Push(s1, task).(waking := {t});
    assert forall w :: Step(w, INITIAL, acts[0]) == s1 && Step(w, s1, acts[1]) == s2;
    forall w: bool
      ensures EnabledRun(w, INITIAL, acts)
        && Run(w, INITIAL, acts) == s2.(waking := {}, counter := if w then 1 else 0)
    {
      var s3 := Step(w, s2, acts[2]);
      assert s3 == s2.(waking := {}, counter := if w then 1 else 0);
      assert EnabledRun(w, s3, []) && Run(w, s3, []) == s3;
      assert EnabledRun(w, s2, [acts[2]]) && Run(w, s2, [acts[2]]) == s3;
      assert EnabledRun(w, s1, acts[1..]) && Run(w, s1, acts[1..]) == s3;
    }
  }
}
