/** The rounds of the loop: every channel of an answer is dispatched, and every functor run, each once and in order. */
module ServerRounds {
  import opened Buffers
  import opened Polling
  import opened ConnectionSpec
  import opened ServerSpec
  import opened ServerSafety
  import opened ServerTheorems
  import opened ServerBooks
  import opened Options
  import L = Ledgers

  /** Nothing has moved in the loop's own lists but what is pending. */
  predicate SameRound(s: Server, t: Server) {
    && t.active == s.active && t.next == s.next && t.phase == s.phase
    && t.batch == s.batch && t.ran == s.ran && t.executed == s.executed
  }

  lemma {:induction false} ScriptSameRound(s: Server, script: seq<Act>)
    ensures SameRound(s, RunScript(s, script))
    decreases |script|
  {
    if script != [] {
      ScriptSameRound(Perform(s, script[0]), script[1..]);
    }
  }

  lemma InvokeSameRound(s: Server, id: ConnId, callback: Callback, io: Io)
    ensures SameRound(s, Invoke(s, id, callback, io))
  {
    if id in s.conns && callback == OnRead && io.read.Received? {
      ScriptSameRound(s.(log := s.log + [Message(id)]), io.onMessage);
    }
  }

  lemma {:induction false} InvokeAllSameRound(s: Server, id: ConnId, callbacks: seq<Callback>, io: Io)
    ensures SameRound(s, InvokeAll(s, id, callbacks, io))
    decreases |callbacks|
  {
    if callbacks != [] {
      InvokeSameRound(s, id, callbacks[0], io);
      InvokeAllSameRound(Invoke(s, id, callbacks[0], io), id, callbacks[1..], io);
    }
  }

  lemma NewConnectionSameRound(s: Server, fd: nat, hasWriteCallback: bool, onUp: seq<Act>)
    ensures SameRound(s, NewConnection(s, fd, hasWriteCallback, onUp))
  {
    var id := s.nextId;
    var t := Put(s, id, Establish(NewConn(fd, hasWriteCallback)));
    var u := t.(connections := t.connections + {id}, nextId := id + 1, failed := t.failed || fd in t.channelMap,
                channelMap := t.channelMap[fd := id], log := t.log + [Up(id)]);
    ScriptSameRound(u, onUp);
    assert NewConnection(s, fd, hasWriteCallback, onUp) == RunScript(u, onUp);
  }

  lemma ExecuteSameRound(s: Server, f: Functor, script: seq<Act>)
    ensures SameRound(s, Execute(s, f, script))
  {
    if f.Destroy? && f.id in s.conns {
      ScriptSameRound(DestroyBegin(s, f.id), script);
    } else {
      ScriptSameRound(s, script);
    }
  }

  predicate IsDispatch(step: Step) {
    step.DispatchConn? || step.DispatchAccept? || step.DispatchOther?
  }

  /** Each dispatch takes the next channel of the list; nothing else but a swap ends the phase. */
  lemma DispatchMovesOn(s: Server, step: Step)
    requires Enabled(s, step) && s.phase == Dispatching && !step.Swap?
    ensures var t := Next(s, step);
            && t.phase == Dispatching && t.active == s.active && t.executed == s.executed
            && t.next == s.next + (if IsDispatch(step) then 1 else 0)
            && (IsDispatch(step) ==> s.next < |s.active|)
  {
    var u := s.(next := s.next + 1);
    match step
    case DispatchConn(io) =>
      InvokeAllSameRound(u, s.active[s.next].id, Callbacks(s.active[s.next].revents), io);
    case DispatchAccept(accepted, hasWriteCallback, onUp) =>
      if accepted.Some? {
        NewConnectionSameRound(u, accepted.value, hasWriteCallback, onUp);
      }
    case DispatchOther(script) => ScriptSameRound(u, script);
    case _ =>
  }

  function DispatchesIn(steps: seq<Step>): nat {
    if steps == [] then 0 else (if IsDispatch(steps[0]) then 1 else 0) + DispatchesIn(steps[1..])
  }

  lemma {:induction false} DispatchPhase(s: Server, steps: seq<Step>)
    requires Possible(s, steps) && Swap !in steps && s.phase == Dispatching && s.next <= |s.active|
    ensures var t := Run(s, steps);
            && t.phase == Dispatching && t.active == s.active
            && t.next == s.next + DispatchesIn(steps) <= |s.active|
    decreases |steps|
  {
    if steps != [] {
      assert steps[0] in steps;
      DispatchMovesOn(s, steps[0]);
      DispatchPhase(Next(s, steps[0]), steps[1..]);
    }
  }

  /** From a poll to the next swap the channels of the answer, and no others, are dispatched one after the other,
      each once: the n-th dispatch is of the n-th channel, with the events it was reported with, and the swap
      comes only after the last. */
  lemma EveryAnswerIsDispatched(s: Server, ready: seq<Ready>, steps: seq<Step>)
    requires Enabled(s, Poll(ready)) && Possible(Next(s, Poll(ready)), steps) && Swap !in steps
    ensures var t := Run(Next(s, Poll(ready)), steps);
            && t.active == ready && t.next == DispatchesIn(steps) <= |ready|
            && (forall io :: Enabled(t, DispatchConn(io)) ==>
                  t.next < |ready| && ready[t.next].ConnReady?
                  && StepEvents(t, DispatchConn(io)) == DispatchEvents(ready[t.next].id, ready[t.next].revents, io))
            && (Enabled(t, Swap) <==> !t.failed && DispatchesIn(steps) == |ready|)
  {
    DispatchPhase(Next(s, Poll(ready)), steps);
  }

  /** The loop never stops of itself: after every run it can go on, whatever the kernel answers and the callbacks
      do, and other threads can always queue. */
  lemma LoopGoesOn(steps: seq<Step>)
    requires Possible(INITIAL, steps) && !AbortsIn(INITIAL, steps)
    ensures var s := Run(INITIAL, steps);
            && (s.phase == Polling ==> forall ready :: PollAnswer(s, ready) ==> Enabled(s, Poll(ready)))
            && (s.phase == Dispatching && s.next < |s.active| ==>
                  match s.active[s.next] {
                    case ConnReady(_, _) => forall io :: Enabled(s, DispatchConn(io))
                    case AcceptReady =>
                      forall accepted: Option<nat>, has, onUp ::
                        (accepted.Some? ==> accepted.value !in s.channelMap)
                        ==> Enabled(s, DispatchAccept(accepted, has, onUp))
                    case OtherReady => forall script :: Enabled(s, DispatchOther(script))
                  })
            && (s.phase == Dispatching && s.next == |s.active| ==> Enabled(s, Swap))
            && (s.phase == Running && s.ran < |s.batch| ==> forall script :: Enabled(s, RunFunctor(script)))
            && (s.phase == Running && s.ran == |s.batch| ==> Enabled(s, EndBatch))
            && s.next <= |s.active| && s.ran <= |s.batch|
            && forall tag :: Enabled(s, Foreign(tag))
  {
    ReachableHolds(steps);
  }

  function FunctorRuns(steps: seq<Step>): nat {
    if steps == [] then 0 else (if steps[0].RunFunctor? then 1 else 0) + FunctorRuns(steps[1..])
  }

  lemma RunsAreCounted(s: Server, step: Step)
    requires Enabled(s, step)
    ensures |Next(s, step).executed| == |s.executed| + (if step.RunFunctor? then 1 else 0)
  {
    if s.phase == Dispatching && !step.Swap? {
      DispatchMovesOn(s, step);
    } else if step.RunFunctor? {
      ExecuteSameRound(Take(s), s.batch[s.ran], step.script);
    }
  }

  lemma {:induction false} AllRunsAreCounted(s: Server, steps: seq<Step>)
    requires Possible(s, steps)
    ensures |Run(s, steps).executed| == |s.executed| + FunctorRuns(steps)
    decreases |steps|
  {
    if steps != [] {
      RunsAreCounted(s, steps[0]);
      AllRunsAreCounted(Next(s, steps[0]), steps[1..]);
    }
  }

  /** In every run the functors run are the first of those queued, in queue order, one for each step that runs one:
      the callers', the destructions of lost connections, and the write-complete callbacks alike. */
  lemma FunctorsRunInQueueOrder(steps: seq<Step>)
    requires Possible(INITIAL, steps) && !AbortsIn(INITIAL, steps)
    ensures var queued := L.AfterAll(L.EMPTY_BOOK, Events(INITIAL, steps)).queued;
            FunctorRuns(steps) <= |queued| && Run(INITIAL, steps).executed == queued[..FunctorRuns(steps)]
  {
    ServerKeepsItsBooks(steps);
    AllRunsAreCounted(INITIAL, steps);
  }
}
