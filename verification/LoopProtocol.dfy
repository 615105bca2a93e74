/** The event loop and the threads that talk to it: src/event_loop.cpp.

    A step is one atomic action of one thread: taking or giving back the mutex, one push, one write to the
    wakeup descriptor, one store of a flag, or one move of the loop thread from poll to dispatch to the
    functors and round again. Steps of different threads interleave in any order.

    The source holds the mutex while the functors run. Its own comment says functors may call queueInLoop,
    which takes the same mutex. `spanning` selects which of the two the loop does: keep the mutex for the whole
    batch, as written, or give it back after the swap, as the comment assumes. */
module LoopProtocol {
  type Tid = nat

  const LOOP: Tid := 0

  type Functor = int

  /** Where the loop thread is. */
  datatype Pc =
    | NotStarted
    | AtCheck        // about to test quit_
    | AtPoll         // in poll(), or about to be
    | InDispatch(drain: bool)  // handling channels; `drain`: the wakeup channel is still to be handled
    | AtSwap         // calling_pending_functors_ is set, the mutex not yet taken
    | InBatch        // running functors
    | Finished

  /** What a thread is doing about the loop. */
  datatype Task =
    | Idle
    | Waiting(f: Functor)         // in queueInLoop, before the mutex
    | Holding(f: Functor)         // has the mutex, before the push
    | Pushed(wakes: bool)         // after the push; `wakes`: its write to the wakeup descriptor is still to come
    | Quitting                    // in quit, after the store, before its write to the wakeup descriptor

  datatype Loop = Loop(
    spanning: bool,
    pc: Pc,
    tasks: map<Tid, Task>,       // a thread that is not listed is idle
    owner: int,                  // the holder of the mutex, or -1
    pending: seq<Functor>,
    batch: seq<Functor>,
    ran: nat,
    calling: bool,               // calling_pending_functors_
    quit: bool,
    wakeups: nat,                // the counter of the wakeup descriptor
    history: seq<Functor>,       // every functor pushed so far, in order
    executed: seq<Functor>)      // every functor run so far, in order

  function TaskOf(s: Loop, t: Tid): Task {
    if t in s.tasks then s.tasks[t] else Idle
  }

  function SetTask(s: Loop, t: Tid, task: Task): Loop {
    s.(tasks := s.tasks[t := task])
  }

  datatype Step =
    | Start
    | Check
    | PollReturns
    | Drain
    | EndDispatch
    | Swap
    | RunOne
    | EndBatch
    | Queue(t: Tid, f: Functor)  // a call of queueInLoop begins
    | Acquire(t: Tid)
    | Push(t: Tid)
    | Wake(t: Tid)
    | Release(t: Tid)
    | Quit(t: Tid)               // quit: the store
    | QuitWake(t: Tid)           // quit: the wakeup of another thread

  /** The loop thread runs user code before loop(), in channel callbacks and in functors. */
  predicate MayCall(s: Loop, t: Tid) {
    TaskOf(s, t) == Idle
    && (t == LOOP ==> s.pc.NotStarted? || s.pc.InDispatch? || (s.pc.InBatch? && s.ran > 0) || s.pc.Finished?)
  }

  predicate Enabled(s: Loop, step: Step) {
    match step
    case Start => s.pc.NotStarted? && TaskOf(s, LOOP) == Idle
    case Check => s.pc.AtCheck?
    case PollReturns => s.pc.AtPoll?
    case Drain => s.pc.InDispatch? && s.pc.drain && TaskOf(s, LOOP) == Idle
    case EndDispatch => s.pc.InDispatch? && !s.pc.drain && TaskOf(s, LOOP) == Idle
    case Swap => s.pc.AtSwap? && s.owner == -1
    case RunOne => s.pc.InBatch? && s.ran < |s.batch| && TaskOf(s, LOOP) == Idle
    case EndBatch => s.pc.InBatch? && s.ran == |s.batch| && TaskOf(s, LOOP) == Idle
    case Queue(t, _) => MayCall(s, t)
    case Acquire(t) => TaskOf(s, t).Waiting? && s.owner == -1
    case Push(t) => TaskOf(s, t).Holding?
    case Wake(t) => TaskOf(s, t) == Pushed(true)
    case Release(t) => TaskOf(s, t) == Pushed(false)
    case Quit(t) => MayCall(s, t)
    case QuitWake(t) => TaskOf(s, t) == Quitting
  }

  function Next(s: Loop, step: Step): Loop
    requires Enabled(s, step)
  {
    match step
    case Start => s.(pc := AtCheck, quit := false)
    case Check => s.(pc := if s.quit then Finished else AtPoll)
    // poll may return at any time; a non-zero wakeup counter is then reported
    case PollReturns => s.(pc := InDispatch(s.wakeups > 0))
    case Drain => s.(pc := InDispatch(false), wakeups := 0)
    case EndDispatch => s.(pc := AtSwap, calling := true)
    case Swap =>
      s.(pc := InBatch, batch := s.pending, pending := [], ran := 0, owner := if s.spanning then LOOP else -1)
    case RunOne => s.(executed := s.executed + [s.batch[s.ran]], ran := s.ran + 1)
    case EndBatch =>
      s.(pc := AtCheck, batch := [], ran := 0, calling := false, owner := if s.spanning then -1 else s.owner)
    case Queue(t, f) => SetTask(s, t, Waiting(f))
    case Acquire(t) => SetTask(s, t, Holding(TaskOf(s, t).f)).(owner := t)
    case Push(t) =>
      var f := TaskOf(s, t).f;
      SetTask(s, t, Pushed(t != LOOP || s.calling)).(pending := s.pending + [f], history := s.history + [f])
    case Wake(t) => SetTask(s, t, Pushed(false)).(wakeups := s.wakeups + 1)
    case Release(t) => SetTask(s, t, Idle).(owner := -1)
    case Quit(t) => SetTask(s, t, if t == LOOP then Idle else Quitting).(quit := true)
    case QuitWake(t) => SetTask(s, t, Idle).(wakeups := s.wakeups + 1)
  }

  function Initial(spanning: bool): Loop {
    Loop(spanning, NotStarted, map[], -1, [], [], 0, false, true, 0, [], [])
  }

  predicate Possible(s: Loop, steps: seq<Step>)
    decreases |steps|
  {
    steps == [] || (Enabled(s, steps[0]) && Possible(Next(s, steps[0]), steps[1..]))
  }

  function Run(s: Loop, steps: seq<Step>): Loop
    requires Possible(s, steps)
    decreases |steps|
  {
    if steps == [] then s else Run(Next(s, steps[0]), steps[1..])
  }

  lemma {:induction false} RunOneMore(s: Loop, steps: seq<Step>, step: Step)
    requires Possible(s, steps) && Enabled(Run(s, steps), step)
    ensures Possible(s, steps + [step])
    ensures Run(s, steps + [step]) == Next(Run(s, steps), step)
    decreases |steps|
  {
    if steps == [] {
      assert [step][1..] == [];
    } else {
      assert (steps + [step])[1..] == steps[1..] + [step];
      RunOneMore(Next(s, steps[0]), steps[1..], step);
    }
  }

  /** One more step of a given sequence. */
  lemma Extend(s: Loop, steps: seq<Step>, k: nat)
    requires k < |steps| && Possible(s, steps[..k]) && Enabled(Run(s, steps[..k]), steps[k])
    ensures Possible(s, steps[..k + 1])
    ensures Run(s, steps[..k + 1]) == Next(Run(s, steps[..k]), steps[k])
  {
    RunOneMore(s, steps[..k], steps[k]);
    assert steps[..k] + [steps[k]] == steps[..k + 1];
  }

  // ---------------------------------------------------------------------------------------------
  // Invariant
  // ---------------------------------------------------------------------------------------------

  predicate HasMutex(task: Task) {
    task.Holding? || task.Pushed?
  }

  /** Every functor ever queued has been run, is in the rest of the batch, or is pending, in queue order. */
  predicate Fifo(s: Loop) {
    && s.ran <= |s.batch|
    && (!s.pc.InBatch? ==> s.batch == [])
    && s.history == s.executed + s.batch[s.ran..] + s.pending
  }

  /** The mutex has one holder, and the flag says whether functors are being run. */
  ghost predicate Locking(s: Loop) {
    && (forall t: Tid :: HasMutex(TaskOf(s, t)) ==> s.owner == t)
    && (s.owner >= 0 ==> HasMutex(TaskOf(s, s.owner)) || (s.spanning && s.pc.InBatch? && s.owner == LOOP))
    && s.owner >= -1
    && (s.calling <==> s.pc.AtSwap? || s.pc.InBatch?)
    && (s.spanning && s.pc.InBatch? ==> s.owner == LOOP && !HasMutex(TaskOf(s, LOOP)))
    && (s.pc.AtCheck? || s.pc.AtPoll? || s.pc.AtSwap? ==> TaskOf(s, LOOP) == Idle)
    && TaskOf(s, LOOP) != Quitting
  }

  ghost predicate Inv(s: Loop) {
    Fifo(s) && Locking(s)
  }

  lemma InitialHolds(spanning: bool)
    ensures Inv(Initial(spanning))
  {
  }

  lemma FifoKept(s: Loop, step: Step)
    requires Inv(s) && Enabled(s, step)
    ensures Fifo(Next(s, step))
  {
    var t := Next(s, step);
    match step
    case RunOne => assert s.batch[s.ran..] == [s.batch[s.ran]] + s.batch[s.ran + 1..];
    case Swap => assert s.batch[s.ran..] == [] && t.batch[t.ran..] == s.pending;
    case EndBatch => assert s.batch[s.ran..] == [] && t.batch[t.ran..] == [];
    case Push(u) => assert t.history == s.executed + s.batch[s.ran..] + s.pending + [TaskOf(s, u).f];
    case _ =>
  }

  /** Whose call a step belongs to; the loop's own moves belong to nobody's. */
  predicate InCall(step: Step) {
    step.Queue? || step.Acquire? || step.Push? || step.Wake? || step.Release? || step.Quit? || step.QuitWake?
  }

  lemma LoopMoveKeepsLocking(s: Loop, step: Step)
    requires Locking(s) && Enabled(s, step) && !InCall(step)
    ensures Locking(Next(s, step))
  {
    assert forall u: Tid :: TaskOf(Next(s, step), u) == TaskOf(s, u);
  }

  /** The steps of a call before it takes the mutex, and those of quit. */
  lemma CallKeepsLocking(s: Loop, step: Step)
    requires Locking(s) && Enabled(s, step) && (step.Queue? || step.Quit? || step.QuitWake?)
    ensures Locking(Next(s, step))
  {
    assert forall u: Tid :: u != step.t ==> TaskOf(Next(s, step), u) == TaskOf(s, u);
  }

  /** The steps of a call that has the mutex. */
  lemma HolderKeepsLocking(s: Loop, step: Step)
    requires Locking(s) && Enabled(s, step) && (step.Push? || step.Wake?)
    ensures Locking(Next(s, step))
  {
    assert forall u: Tid :: u != step.t ==> TaskOf(Next(s, step), u) == TaskOf(s, u);
    assert HasMutex(TaskOf(s, step.t));
  }

  lemma MutexMoveKeepsLocking(s: Loop, step: Step)
    requires Locking(s) && Enabled(s, step) && (step.Acquire? || step.Release?)
    ensures Locking(Next(s, step))
  {
    assert forall u: Tid :: u != step.t ==> TaskOf(Next(s, step), u) == TaskOf(s, u);
    assert step.Acquire? ==> forall u: Tid :: !HasMutex(TaskOf(s, u));
  }

  lemma LockingKept(s: Loop, step: Step)
    requires Inv(s) && Enabled(s, step)
    ensures Locking(Next(s, step))
  {
    if !InCall(step) {
      LoopMoveKeepsLocking(s, step);
    } else if step.Acquire? || step.Release? {
      MutexMoveKeepsLocking(s, step);
    } else if step.Push? || step.Wake? {
      HolderKeepsLocking(s, step);
    } else {
      CallKeepsLocking(s, step);
    }
  }

  lemma InvKept(s: Loop, step: Step)
    requires Inv(s) && Enabled(s, step)
    ensures Inv(Next(s, step))
  {
    FifoKept(s, step);
    LockingKept(s, step);
  }

  lemma {:induction false} RunKeeps(s: Loop, steps: seq<Step>)
    requires Inv(s) && Possible(s, steps)
    ensures Inv(Run(s, steps))
    decreases |steps|
  {
    if steps != [] {
      InvKept(s, steps[0]);
      RunKeeps(Next(s, steps[0]), steps[1..]);
    }
  }

  /** Exactly once and in order: at any moment of any interleaving, what has run, followed by the rest of the
      batch, followed by what is pending, is everything that was ever queued; and only one thread is between
      taking and giving back the mutex. */
  lemma FunctorsRunOnceInOrder(spanning: bool, steps: seq<Step>)
    requires Possible(Initial(spanning), steps)
    ensures var s := Run(Initial(spanning), steps);
            && s.ran <= |s.batch|
            && s.history == s.executed + s.batch[s.ran..] + s.pending
            && forall t: Tid, u: Tid :: HasMutex(TaskOf(s, t)) && HasMutex(TaskOf(s, u)) ==> t == u
  {
    InitialHolds(spanning);
    RunKeeps(Initial(spanning), steps);
  }

  // ---------------------------------------------------------------------------------------------
  // Batches
  // ---------------------------------------------------------------------------------------------

  predicate NoEndOfBatch(steps: seq<Step>) {
    EndBatch !in steps
  }

  lemma BatchStep(s: Loop, step: Step)
    requires s.pc.InBatch? && s.ran <= |s.batch| && Enabled(s, step) && step != EndBatch
    ensures var u := Next(s, step);
            && u.pc.InBatch? && u.batch == s.batch && s.ran <= u.ran <= |u.batch|
            && u.executed == s.executed + s.batch[s.ran..u.ran]
            && s.history <= u.history
  {
    assert s.executed + s.batch[s.ran..s.ran] == s.executed;
  }

  lemma SlicesJoin(done: seq<Functor>, batch: seq<Functor>, i: nat, j: nat, k: nat)
    requires i <= j <= k <= |batch|
    ensures done + batch[i..j] + batch[j..k] == done + batch[i..k]
  {
    assert batch[i..j] + batch[j..k] == batch[i..k];
  }

  /** While a batch runs, whatever is queued meanwhile stays out of it: the batch is what the swap took. */
  lemma {:induction false} BatchIsFixed(s: Loop, steps: seq<Step>)
    requires s.pc.InBatch? && s.ran <= |s.batch| && Possible(s, steps) && NoEndOfBatch(steps)
    ensures var t := Run(s, steps);
            && t.pc.InBatch? && t.batch == s.batch && s.ran <= t.ran <= |t.batch|
            && t.executed == s.executed + s.batch[s.ran..t.ran]
            && s.history <= t.history
    decreases |steps|
  {
    if steps == [] {
      assert s.executed + s.batch[s.ran..s.ran] == s.executed;
    } else {
      assert steps[0] in steps;
      BatchStep(s, steps[0]);
      var u := Next(s, steps[0]);
      BatchIsFixed(u, steps[1..]);
      var t := Run(u, steps[1..]);
      SlicesJoin(s.executed, s.batch, s.ran, u.ran, t.ran);
    }
  }

  /** One batch, from its swap to its end, runs exactly the functors that were pending at the swap; those queued
      meanwhile, by other threads or by the functors themselves, are what is pending afterwards. */
  lemma BatchRunsWhatWasPending(s: Loop, steps: seq<Step>)
    requires Inv(s) && Enabled(s, Swap) && Possible(Next(s, Swap), steps) && NoEndOfBatch(steps)
    requires Enabled(Run(Next(s, Swap), steps), EndBatch)
    ensures var t := Next(Run(Next(s, Swap), steps), EndBatch);
            && t.executed == s.executed + s.pending
            && t.history == s.history + t.pending
  {
    InvKept(s, Swap);
    var a := Next(s, Swap);
    BatchIsFixed(a, steps);
    RunKeeps(a, steps);
    var b := Run(a, steps);
    assert a.batch[a.ran..b.ran] == s.pending;
    assert b.batch[b.ran..] == [] && s.batch[s.ran..] == [];
    assert b.history == b.executed + b.pending && s.history == s.executed + s.pending;
  }

  function CountRuns(steps: seq<Step>): nat {
    if steps == [] then 0 else (if steps[0] == RunOne then 1 else 0) + CountRuns(steps[1..])
  }

  /** A batch ends: it can make no more moves than it has functors left. */
  lemma {:induction false} BatchIsBounded(s: Loop, steps: seq<Step>)
    requires s.pc.InBatch? && s.ran <= |s.batch| && Possible(s, steps) && NoEndOfBatch(steps)
    ensures CountRuns(steps) == Run(s, steps).ran - s.ran <= |s.batch| - s.ran
    decreases |steps|
  {
    BatchIsFixed(s, steps);
    if steps != [] {
      assert steps[0] in steps;
      BatchIsBounded(Next(s, steps[0]), steps[1..]);
    }
  }

  // ---------------------------------------------------------------------------------------------
  // Wakeups
  // ---------------------------------------------------------------------------------------------

  /** Pending work will be noticed: the wakeup counter is up, or whoever holds the mutex is about to raise it. */
  ghost predicate Covered(s: Loop) {
    s.pending == [] || s.wakeups > 0 || (exists t: Tid :: TaskOf(s, t) == Pushed(true))
  }

  /** A request to quit will be noticed. */
  ghost predicate QuitCovered(s: Loop) {
    !s.quit || s.wakeups > 0 || (exists t: Tid :: TaskOf(s, t) == Quitting)
  }

  /** The phases in which nothing but a wakeup makes the loop look at the pending list again. */
  predicate NeedsWakeup(pc: Pc) {
    pc.InBatch? || pc.AtCheck? || pc.AtPoll?
  }

  ghost predicate WakeupInv(s: Loop) {
    Inv(s) && !s.pc.NotStarted? && (NeedsWakeup(s.pc) ==> Covered(s))
  }

  ghost predicate QuitInv(s: Loop) {
    Inv(s) && !s.pc.NotStarted? && (s.pc.AtPoll? ==> QuitCovered(s))
  }

  /** Whoever was still to write is still to write, unless the step was that write or the end of its call. */
  lemma WritersKept(s: Loop, step: Step, t: Tid)
    requires Enabled(s, step) && (TaskOf(s, t) == Pushed(true) || TaskOf(s, t) == Quitting)
    ensures TaskOf(Next(s, step), t) == TaskOf(s, t) || Next(s, step).wakeups > 0
  {
  }

  lemma CoveredKept(s: Loop, step: Step)
    requires WakeupInv(s) && Enabled(s, step) && NeedsWakeup(Next(s, step).pc)
    ensures Covered(Next(s, step))
  {
    var u := Next(s, step);
    if NeedsWakeup(s.pc) {
      if t: Tid :| TaskOf(s, t) == Pushed(true) {
        WritersKept(s, step, t);
      }
      if step.Push? {
        assert TaskOf(u, step.t) == Pushed(true);
      }
    }
  }

  lemma QuitCoveredKept(s: Loop, step: Step)
    requires QuitInv(s) && Enabled(s, step) && Next(s, step).pc.AtPoll?
    ensures QuitCovered(Next(s, step))
  {
    if s.pc.AtPoll? {
      if t: Tid :| TaskOf(s, t) == Quitting {
        WritersKept(s, step, t);
      }
      if step.Quit? {
        assert TaskOf(Next(s, step), step.t) == Quitting;
      }
    }
  }

  lemma WakeupInvStep(s: Loop, step: Step)
    requires WakeupInv(s) && Enabled(s, step)
    ensures WakeupInv(Next(s, step))
  {
    InvKept(s, step);
    if NeedsWakeup(Next(s, step).pc) {
      CoveredKept(s, step);
    }
  }

  lemma QuitInvStep(s: Loop, step: Step)
    requires QuitInv(s) && Enabled(s, step)
    ensures QuitInv(Next(s, step))
  {
    InvKept(s, step);
    if Next(s, step).pc.AtPoll? {
      QuitCoveredKept(s, step);
    }
  }

  lemma {:induction false} WakeupInvKept(s: Loop, steps: seq<Step>)
    requires WakeupInv(s) && Possible(s, steps)
    ensures WakeupInv(Run(s, steps))
    decreases |steps|
  {
    if steps != [] {
      WakeupInvStep(s, steps[0]);
      WakeupInvKept(Next(s, steps[0]), steps[1..]);
    }
  }

  lemma {:induction false} QuitInvKept(s: Loop, steps: seq<Step>)
    requires QuitInv(s) && Possible(s, steps)
    ensures QuitInv(Run(s, steps))
    decreases |steps|
  {
    if steps != [] {
      QuitInvStep(s, steps[0]);
      QuitInvKept(Next(s, steps[0]), steps[1..]);
    }
  }

  /** No wakeup is lost, in any interleaving, after any swap: while the loop runs functors, tests quit_ or sits in
      poll, pending work means a non-zero wakeup counter or a thread about to raise it. */
  lemma NoLostWakeup(spanning: bool, before: seq<Step>, after: seq<Step>)
    requires Possible(Initial(spanning), before) && Enabled(Run(Initial(spanning), before), Swap)
    requires Possible(Next(Run(Initial(spanning), before), Swap), after)
    ensures var s := Run(Next(Run(Initial(spanning), before), Swap), after);
            NeedsWakeup(s.pc) ==> Covered(s)
  {
    InitialHolds(spanning);
    RunKeeps(Initial(spanning), before);
    var s := Run(Initial(spanning), before);
    InvKept(s, Swap);
    WakeupInvKept(Next(s, Swap), after);
  }

  /** A request to quit made after the start of loop() is never slept through. */
  lemma NoLostQuit(spanning: bool, before: seq<Step>, after: seq<Step>)
    requires Possible(Initial(spanning), before) && Enabled(Run(Initial(spanning), before), Start)
    requires Possible(Next(Run(Initial(spanning), before), Start), after)
    ensures var s := Run(Next(Run(Initial(spanning), before), Start), after);
            s.pc.AtPoll? ==> QuitCovered(s)
  {
    InitialHolds(spanning);
    RunKeeps(Initial(spanning), before);
    var s := Run(Initial(spanning), before);
    InvKept(s, Start);
    QuitInvKept(Next(s, Start), after);
  }

  /** Before the first swap, no wakeup is lost either, provided pending work is covered when loop() is called. */
  lemma NoLostWakeupFromStart(spanning: bool, before: seq<Step>, after: seq<Step>)
    requires Possible(Initial(spanning), before) && Enabled(Run(Initial(spanning), before), Start)
    requires Possible(Next(Run(Initial(spanning), before), Start), after)
    requires Covered(Run(Initial(spanning), before))
    ensures var s := Run(Next(Run(Initial(spanning), before), Start), after);
            NeedsWakeup(s.pc) ==> Covered(s)
  {
    InitialHolds(spanning);
    RunKeeps(Initial(spanning), before);
    var s := Run(Initial(spanning), before);
    InvKept(s, Start);
    assert forall t: Tid :: TaskOf(Next(s, Start), t) == TaskOf(s, t);
    WakeupInvKept(Next(s, Start), after);
  }

  /** The steps of callers that make poll return: a push by another thread, whose wakeup follows, and the wakeup
      of a quit. */
  predicate WakesLoop(step: Step) {
    (step.Push? && step.t != LOOP) || step.QuitWake?
  }

  /** Nothing will make poll return. */
  ghost predicate Silent(s: Loop) {
    s.wakeups == 0 && forall t: Tid :: TaskOf(s, t) != Pushed(true)
  }

  lemma StepBeforeStart(s: Loop, step: Step)
    requires s.pc.NotStarted? && !s.calling && Enabled(s, step) && !step.Start?
    ensures var t := Next(s, step);
            && t.pc.NotStarted? && !t.calling
            && (t.pending != [] <==> s.pending != [] || step.Push?)
            && (Silent(t) <==> Silent(s) && !WakesLoop(step))
  {
    var t := Next(s, step);
    assert TaskOf(t, step.t) == t.tasks[step.t];
    assert forall u: Tid :: u != step.t ==> TaskOf(t, u) == TaskOf(s, u);
  }

  lemma {:induction false} CallsBeforeStart(s: Loop, steps: seq<Step>)
    requires s.pc.NotStarted? && !s.calling && Possible(s, steps) && Start !in steps
    ensures var t := Run(s, steps);
            && (t.pending != [] <==> s.pending != [] || exists i :: 0 <= i < |steps| && steps[i].Push?)
            && (Silent(t) <==> Silent(s) && forall i :: 0 <= i < |steps| ==> !WakesLoop(steps[i]))
    decreases |steps|
  {
    if steps != [] {
      assert steps[0] in steps;
      StepBeforeStart(s, steps[0]);
      CallsBeforeStart(Next(s, steps[0]), steps[1..]);
      assert forall i :: 1 <= i < |steps| ==> steps[i] == steps[1..][i - 1];
    }
  }

  /** Functors were queued, all of them by the loop thread, and no other thread's quit has raised the counter. */
  predicate OnlyLoopQueued(calls: seq<Step>) {
    && (exists i :: 0 <= i < |calls| && calls[i].Push?)
    && (forall i :: 0 <= i < |calls| ==> !WakesLoop(calls[i]))
  }

  ghost predicate SleepsOnWork(s: Loop) {
    s.pc.AtPoll? && !Covered(s)
  }

  /** Some continuation sleeps in poll on pending work. */
  ghost predicate MaySleep(s: Loop) {
    exists steps :: Possible(s, steps) && SleepsOnWork(Run(s, steps))
  }

  /** The proviso is exact. Whatever calls are made before loop(), some continuation sleeps in poll on pending work
      if and only if functors were queued, all of them by the loop thread, and no other thread's quit has raised the
      counter. */
  lemma LoopMaySleepIff(spanning: bool, before: seq<Step>)
    requires Possible(Initial(spanning), before) && Start !in before
    requires Enabled(Run(Initial(spanning), before), Start)
    ensures MaySleep(Next(Run(Initial(spanning), before), Start)) <==> OnlyLoopQueued(before)
  {
    var r := Run(Initial(spanning), before);
    var s := Next(r, Start);
    CallsBeforeStart(Initial(spanning), before);
    assert Silent(Initial(spanning));
    if Covered(r) {
      forall after | Possible(s, after)
        ensures !SleepsOnWork(Run(s, after))
      {
        NoLostWakeupFromStart(spanning, before, after);
      }
    } else {
      var t := Next(s, Check);
      assert forall u: Tid :: TaskOf(t, u) == TaskOf(r, u);
      assert Silent(r) && SleepsOnWork(t);
      assert [Check][1..] == [] && Possible(t, []) && Run(t, []) == t;
      assert Possible(s, [Check]) && SleepsOnWork(Run(s, [Check]));
    }
  }

  /** One call of queueInLoop by the loop thread while no functors are being run. */
  function QueueCall(f: Functor): seq<Step> {
    [Queue(LOOP, f), Acquire(LOOP), Push(LOOP), Release(LOOP)]
  }

  lemma QueueCallRuns(spanning: bool, f: Functor)
    ensures Possible(Initial(spanning), QueueCall(f)[..4])
    ensures Enabled(Run(Initial(spanning), QueueCall(f)[..4]), Start)
  {
    assert QueueCall(f)[..0] == [];
    Extend(Initial(spanning), QueueCall(f), 0);
    Extend(Initial(spanning), QueueCall(f), 1);
    Extend(Initial(spanning), QueueCall(f), 2);
    Extend(Initial(spanning), QueueCall(f), 3);
  }

  /** It happens when the loop thread itself queues a functor before calling loop(). */
  lemma QueueBeforeLoopSleeps(spanning: bool, f: Functor)
    ensures Possible(Initial(spanning), QueueCall(f))
    ensures Enabled(Run(Initial(spanning), QueueCall(f)), Start)
    ensures MaySleep(Next(Run(Initial(spanning), QueueCall(f)), Start))
  {
    QueueCallRuns(spanning, f);
    assert QueueCall(f)[..4] == QueueCall(f);
    assert QueueCall(f)[2].Push?;
    LoopMaySleepIff(spanning, QueueCall(f));
  }

  lemma {:induction false} QuitFlag(s: Loop, steps: seq<Step>)
    requires !s.pc.NotStarted? && Possible(s, steps)
    ensures Run(s, steps).quit <==> s.quit || exists i :: 0 <= i < |steps| && steps[i].Quit?
    decreases |steps|
  {
    if steps != [] {
      QuitFlag(Next(s, steps[0]), steps[1..]);
      assert forall i :: 1 <= i < |steps| ==> steps[i] == steps[1..][i - 1];
    }
  }

  /** The loop ends at a test of quit_ if and only if some thread has called quit() since loop() was called: a
      request made while it runs is kept, one made before is forgotten. */
  lemma QuitHonouredIff(spanning: bool, before: seq<Step>, after: seq<Step>)
    requires Possible(Initial(spanning), before) && Enabled(Run(Initial(spanning), before), Start)
    requires Possible(Next(Run(Initial(spanning), before), Start), after)
    requires Enabled(Run(Next(Run(Initial(spanning), before), Start), after), Check)
    ensures var s := Run(Next(Run(Initial(spanning), before), Start), after);
            Next(s, Check).pc.Finished? <==> exists i :: 0 <= i < |after| && after[i].Quit?
  {
    QuitFlag(Next(Run(Initial(spanning), before), Start), after);
  }

  /** The writes to the wakeup descriptor since it was last read, with `n` before. */
  function WakesSinceDrain(n: nat, steps: seq<Step>): nat
    decreases |steps|
  {
    if steps == [] then n
    else
      WakesSinceDrain(if steps[0].Drain? then 0 else if steps[0].Wake? || steps[0].QuitWake? then n + 1 else n,
                      steps[1..])
  }

  lemma {:induction false} CounterFrom(s: Loop, steps: seq<Step>)
    requires Possible(s, steps)
    ensures Run(s, steps).wakeups == WakesSinceDrain(s.wakeups, steps)
    decreases |steps|
  {
    if steps != [] {
      CounterFrom(Next(s, steps[0]), steps[1..]);
    }
  }

  /** No wakeup is made up: in every interleaving the counter is the number of writes since it was last read, and the
      wakeup channel is dispatched exactly if there were some. */
  lemma CounterCountsWakeups(spanning: bool, steps: seq<Step>)
    requires Possible(Initial(spanning), steps)
    ensures var s := Run(Initial(spanning), steps);
            && s.wakeups == WakesSinceDrain(0, steps)
            && (Enabled(s, PollReturns) ==> Next(s, PollReturns).pc == InDispatch(WakesSinceDrain(0, steps) > 0))
  {
    CounterFrom(Initial(spanning), steps);
  }

  // ---------------------------------------------------------------------------------------------
  // The mutex around the batch
  // ---------------------------------------------------------------------------------------------

  /** The loop thread waits, in a functor, for the mutex it holds. */
  predicate Stuck(s: Loop) {
    s.spanning && s.pc.InBatch? && s.owner == LOOP && TaskOf(s, LOOP).Waiting?
  }

  /** A functor calls queueInLoop. */
  predicate QueuesInBatch(s: Loop, step: Step) {
    step.Queue? && step.t == LOOP && s.pc.InBatch?
  }

  predicate QueuesInSomeBatch(s: Loop, steps: seq<Step>)
    requires Possible(s, steps)
    decreases |steps|
  {
    steps != [] && (QueuesInBatch(s, steps[0]) || QueuesInSomeBatch(Next(s, steps[0]), steps[1..]))
  }

  lemma StuckStep(s: Loop, step: Step)
    requires Inv(s) && Enabled(s, step)
    ensures Stuck(Next(s, step)) <==> Stuck(s) || (s.spanning && QueuesInBatch(s, step))
    ensures Next(s, step).spanning == s.spanning
  {
  }

  lemma {:induction false} StuckRun(s: Loop, steps: seq<Step>)
    requires Inv(s) && Possible(s, steps)
    ensures Stuck(Run(s, steps)) <==> Stuck(s) || (s.spanning && QueuesInSomeBatch(s, steps))
    decreases |steps|
  {
    if steps != [] {
      InvKept(s, steps[0]);
      StuckStep(s, steps[0]);
      StuckRun(Next(s, steps[0]), steps[1..]);
    }
  }

  /** In every run of the loop as written, which keeps the mutex while functors run, the loop thread is stuck if
      and only if some functor has called queueInLoop. */
  lemma StuckIffFunctorQueues(steps: seq<Step>)
    requires Possible(Initial(true), steps)
    ensures Stuck(Run(Initial(true), steps)) <==> QueuesInSomeBatch(Initial(true), steps)
  {
    InitialHolds(true);
    StuckRun(Initial(true), steps);
  }

  lemma StuckStays(s: Loop, step: Step)
    requires Inv(s) && Stuck(s) && Enabled(s, step)
    ensures var t := Next(s, step);
            && Inv(t) && Stuck(t) && t.executed == s.executed && t.history == s.history
            && forall u: Tid :: TaskOf(s, u).Waiting? ==> TaskOf(t, u) == TaskOf(s, u)
  {
    InvKept(s, step);
  }

  lemma {:induction false} StuckRunStays(s: Loop, steps: seq<Step>)
    requires Inv(s) && Stuck(s) && Possible(s, steps)
    ensures var t := Run(s, steps);
            && Stuck(t) && t.executed == s.executed && t.history == s.history
            && forall u: Tid :: TaskOf(s, u).Waiting? ==> TaskOf(t, u) == TaskOf(s, u)
    decreases |steps|
  {
    if steps != [] {
      StuckStays(s, steps[0]);
      StuckRunStays(Next(s, steps[0]), steps[1..]);
    }
  }

  /** And it stays so: once a functor has called queueInLoop, in no continuation does the batch end, another functor
      run, any thread queue anything, or a call that waits for the mutex go on. */
  lemma StuckForGood(before: seq<Step>, after: seq<Step>)
    requires Possible(Initial(true), before) && QueuesInSomeBatch(Initial(true), before)
    requires Possible(Run(Initial(true), before), after)
    ensures var s, t := Run(Initial(true), before), Run(Run(Initial(true), before), after);
            && t.pc.InBatch? && t.executed == s.executed && t.history == s.history
            && forall u: Tid :: TaskOf(s, u).Waiting? ==> TaskOf(t, u) == TaskOf(s, u)
  {
    InitialHolds(true);
    RunKeeps(Initial(true), before);
    StuckRun(Initial(true), before);
    StuckRunStays(Run(Initial(true), before), after);
  }

  /** The steps a call of queueInLoop has still to make. */
  function StepsLeft(task: Task): nat {
    match task
    case Waiting(_) => 4
    case Holding(_) => 3
    case Pushed(wakes) => if wakes then 2 else 1
    case _ => 0
  }

  /** The next step of a call. */
  function NextOfCall(s: Loop, t: Tid): Step
    requires StepsLeft(TaskOf(s, t)) > 0
  {
    match TaskOf(s, t)
    case Waiting(_) => Acquire(t)
    case Holding(_) => Push(t)
    case Pushed(wakes) => if wakes then Wake(t) else Release(t)
  }

  /** How far the mutex is from being given back. */
  function StepsToRelease(s: Loop): nat {
    if s.owner < 0 then 0
    else if HasMutex(TaskOf(s, s.owner)) then StepsLeft(TaskOf(s, s.owner))
    else if s.ran <= |s.batch| then |s.batch| - s.ran + 1
    else 0
  }

  /** A step that brings a call of `t` nearer to its return: its own next one, or the holder's. */
  function Forward(s: Loop, t: Tid): Step
    requires StepsLeft(TaskOf(s, t)) > 0
  {
    if HasMutex(TaskOf(s, t)) || s.owner < 0 then NextOfCall(s, t)
    else if HasMutex(TaskOf(s, s.owner)) then NextOfCall(s, s.owner)
    else if s.ran < |s.batch| then RunOne
    else EndBatch
  }

  lemma ForwardIsEnabled(s: Loop, t: Tid)
    requires Inv(s) && !Stuck(s) && StepsLeft(TaskOf(s, t)) > 0
    ensures var step := Forward(s, t);
            && Enabled(s, step) && !QueuesInBatch(s, step)
            && var u := Next(s, step);
            && (TaskOf(u, t) == Idle || StepsLeft(TaskOf(u, t)) > 0)
            && (|| StepsLeft(TaskOf(u, t)) < StepsLeft(TaskOf(s, t))
                || (StepsLeft(TaskOf(u, t)) == StepsLeft(TaskOf(s, t)) && StepsToRelease(u) < StepsToRelease(s)))
  {
  }

  /** Some continuation brings the call of `t` to its end. */
  ghost predicate CanReturn(s: Loop, t: Tid) {
    exists steps :: Possible(s, steps) && TaskOf(Run(s, steps), t) == Idle
  }

  lemma {:induction false} CallReturns(s: Loop, t: Tid)
    requires Inv(s) && !Stuck(s) && (TaskOf(s, t) == Idle || StepsLeft(TaskOf(s, t)) > 0)
    ensures CanReturn(s, t)
    decreases StepsLeft(TaskOf(s, t)), StepsToRelease(s)
  {
    if TaskOf(s, t) == Idle {
      assert Possible(s, []) && Run(s, []) == s;
    } else {
      var step := Forward(s, t);
      ForwardIsEnabled(s, t);
      InvKept(s, step);
      StuckStep(s, step);
      var u := Next(s, step);
      CallReturns(u, t);
      var rest :| Possible(u, rest) && TaskOf(Run(u, rest), t) == Idle;
      var steps := [step] + rest;
      assert steps[1..] == rest;
      assert Possible(s, steps) && Run(s, steps) == Run(u, rest);
    }
  }

  /** At any moment of any run, with the mutex held over the batch or not, a call of queueInLoop that waits for the
      mutex can go on to return if and only if the loop thread is not stuck. Given back after the swap, as the
      comment presumes, the mutex never makes a caller wait for good. */
  lemma CallCanReturnIff(spanning: bool, before: seq<Step>, t: Tid)
    requires Possible(Initial(spanning), before) && TaskOf(Run(Initial(spanning), before), t).Waiting?
    ensures CanReturn(Run(Initial(spanning), before), t)
            <==> !(spanning && QueuesInSomeBatch(Initial(spanning), before))
  {
    var s := Run(Initial(spanning), before);
    InitialHolds(spanning);
    RunKeeps(Initial(spanning), before);
    StuckRun(Initial(spanning), before);
    if Stuck(s) {
      forall after | Possible(s, after)
        ensures TaskOf(Run(s, after), t) != Idle
      {
        StuckRunStays(s, after);
      }
    } else {
      CallReturns(s, t);
    }
  }

  /** While the loop sleeps, another thread queues `f`; when `f` is run, it queues `g`. */
  function FunctorQueues(f: Functor, g: Functor): seq<Step> {
    [Start, Check, Queue(1, f), Acquire(1), Push(1), Wake(1), Release(1),
     PollReturns, Drain, EndDispatch, Swap, RunOne, Queue(LOOP, g)]
  }

  /** Thread 1 is about to push `f`, and then the loop has been woken for it. */
  function Pushing(f: Functor): Loop {
    Initial(true).(pc := AtPoll, tasks := map[1 := Holding(f)], owner := 1, quit := false)
  }

  function Woken(f: Functor): Loop {
    Initial(true).(pc := AtPoll, tasks := map[1 := Idle], pending := [f], quit := false, wakeups := 1, history := [f])
  }

  lemma OtherThreadQueues(f: Functor, g: Functor)
    ensures Possible(Initial(true), FunctorQueues(f, g)[..4])
    ensures Run(Initial(true), FunctorQueues(f, g)[..4]) == Pushing(f)
  {
    var s, steps := Initial(true), FunctorQueues(f, g);
    assert steps[..0] == [];
    Extend(s, steps, 0);
    Extend(s, steps, 1);
    Extend(s, steps, 2);
    Extend(s, steps, 3);
    assert Run(s, steps[..4]).tasks == map[1 := Holding(f)];
  }

  lemma OtherThreadWakes(f: Functor, g: Functor)
    ensures Possible(Initial(true), FunctorQueues(f, g)[..7])
    ensures Run(Initial(true), FunctorQueues(f, g)[..7]) == Woken(f)
  {
    var s, steps := Initial(true), FunctorQueues(f, g);
    OtherThreadQueues(f, g);
    Extend(s, steps, 4);
    Extend(s, steps, 5);
    Extend(s, steps, 6);
    assert Run(s, steps[..7]).tasks == map[1 := Idle];
  }

  lemma LoopReachesSwap(f: Functor, g: Functor)
    ensures Possible(Initial(true), FunctorQueues(f, g)[..10])
    ensures Run(Initial(true), FunctorQueues(f, g)[..10]) == Woken(f).(pc := AtSwap, calling := true, wakeups := 0)
  {
    var s, steps := Initial(true), FunctorQueues(f, g);
    OtherThreadWakes(f, g);
    Extend(s, steps, 7);
    Extend(s, steps, 8);
    Extend(s, steps, 9);
  }

  /** A run that gets stuck. */
  lemma FunctorQueuesAndIsStuck(f: Functor, g: Functor)
    ensures Possible(Initial(true), FunctorQueues(f, g))
    ensures Stuck(Run(Initial(true), FunctorQueues(f, g)))
  {
    var s, steps := Initial(true), FunctorQueues(f, g);
    LoopReachesSwap(f, g);
    Extend(s, steps, 10);
    Extend(s, steps, 11);
    Extend(s, steps, 12);
    assert steps[..13] == steps;
  }
}
