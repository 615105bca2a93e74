/** The main results about whole runs of the single-loop server, from its initial state. */
module ServerTheorems {
  import opened Buffers
  import opened Polling
  import opened ConnectionSpec
  import opened ServerSpec
  import opened ServerSafety
  import opened Options
  import opened Folding

  /** The one step that ends in a failed assertion of the source. */
  predicate Aborts(s: Server, step: Step) {
    && step.DispatchConn? && s.next < |s.active| && s.active[s.next].ConnReady?
    && DoubleClose(s.active[s.next].revents, step.io)
  }

  /** What a step has to do: keep the invariant, or fail exactly where it aborts. */
  ghost predicate KeepsIff(s: Server, step: Step)
    requires Enabled(s, step)
  {
    var t := Next(s, step);
    && (t.failed <==> Aborts(s, step))
    && (!t.failed ==> Inv(t) && Evolves(s, t))
  }

  lemma DispatchConnKeepsIff(s: Server, io: Io)
    requires Inv(s) && Enabled(s, DispatchConn(io))
    ensures KeepsIff(s, DispatchConn(io))
  {
    var u, ready := s.(next := s.next + 1), s.active[s.next];
    var t := InvokeAll(u, ready.id, Callbacks(ready.revents), io);
    assert Next(s, DispatchConn(io)) == t;
    assert t.failed <==> DoubleClose(ready.revents, io) by {
      AdvanceActive(s);
      DoubleCloseIff(ready.revents, io);
      DispatchKeepsIff(s, u, ready.id, Callbacks(ready.revents), io);
    }
    if !t.failed {
      AdvanceActive(s);
      DispatchKeepsIff(s, u, ready.id, Callbacks(ready.revents), io);
    }
  }

  lemma OtherDispatchKeeps(s: Server, step: Step)
    requires Inv(s) && Enabled(s, step) && (step.DispatchAccept? || step.DispatchOther?)
    ensures KeepsIff(s, step)
  {
    var u := s.(next := s.next + 1);
    AdvanceActive(s);
    match step
    case DispatchAccept(accepted, hasWriteCallback, onUp) =>
      if accepted.Some? {
        NewConnectionKeeps(u, accepted.value, hasWriteCallback, onUp);
        EvolvesIsTransitive(s, u, NewConnection(u, accepted.value, hasWriteCallback, onUp));
      }
    case DispatchOther(script) => ScriptKeepsFrom(s, u, script, None);
  }

  lemma RunFunctorKeeps(s: Server, script: seq<Act>)
    requires Inv(s) && Enabled(s, RunFunctor(script))
    ensures KeepsIff(s, RunFunctor(script))
  {
    if s.batch[s.ran].Destroy? {
      DestroyFunctorKeeps(s, script);
    } else {
      OrdinaryFunctorKeeps(s, script);
    }
  }

  lemma StepKeepsIff(s: Server, step: Step)
    requires Inv(s) && Enabled(s, step)
    ensures var t := Next(s, step);
            && (t.failed <==> Aborts(s, step))
            && (!t.failed ==> Inv(t) && Evolves(s, t))
  {
    match step
    case Poll(ready) => PollKeeps(s, ready);
    case Swap => BatchKeeps(s, step);
    case EndBatch => BatchKeeps(s, step);
    case Foreign(tag) => QueueKeeps(s, User(tag), None);
    case RunFunctor(script) => RunFunctorKeeps(s, script);
    case DispatchConn(io) => DispatchConnKeepsIff(s, io);
    case _ => OtherDispatchKeeps(s, step);
  }

  predicate AbortsIn(s: Server, steps: seq<Step>)
    requires Possible(s, steps)
    decreases |steps|
  {
    steps != [] && (Aborts(s, steps[0]) || AbortsIn(Next(s, steps[0]), steps[1..]))
  }

  lemma {:induction false} RunKeepsIff(s: Server, steps: seq<Step>)
    requires Inv(s) && Possible(s, steps)
    ensures var t := Run(s, steps);
            && (t.failed <==> AbortsIn(s, steps))
            && (!t.failed ==> Inv(t) && Evolves(s, t))
    decreases |steps|
  {
    if steps == [] {
      QuietIsReflexive(s);
    } else {
      var t := Next(s, steps[0]);
      StepKeepsIff(s, steps[0]);
      if t.failed {
        assert steps[1..] == [];
      } else {
        RunKeepsIff(t, steps[1..]);
        if !Run(s, steps).failed {
          EvolvesIsTransitive(s, t, Run(s, steps));
        }
      }
    }
  }

  /** Whatever the kernel, the peers, other threads and the user's callbacks do, every assertion on the way of
      accept, read, write, close and destroy holds, unless some dispatch is a double close; then it does fail. */
  lemma AssertionsHoldIff(steps: seq<Step>)
    requires Possible(INITIAL, steps)
    ensures Run(INITIAL, steps).failed <==> AbortsIn(INITIAL, steps)
  {
    InitialHolds();
    RunKeepsIff(INITIAL, steps);
  }

  lemma ReachableHolds(steps: seq<Step>)
    requires Possible(INITIAL, steps) && !AbortsIn(INITIAL, steps)
    ensures Inv(Run(INITIAL, steps))
  {
    InitialHolds();
    RunKeepsIff(INITIAL, steps);
  }

  /** Somebody still holds a shared pointer to the connection: the server's map, or a functor. */
  predicate Owned(s: Server, id: ConnId) {
    id in s.connections || Destroy(id) in s.pending || Destroy(id) in s.batch
  }

  lemma RegisteredIsOwned(s: Server, id: ConnId)
    requires Inv(s) && id in s.conns && s.conns[id].slot != Removed
    ensures s.conns[id].state != Disconnected && Owned(s, id)
    ensures s.conns[id].fd in s.channelMap && s.channelMap[s.conns[id].fd] == id
  {
    ConnMeans(s, None, id);
    DestroyMeans(s, id);
    ChannelMeans(s, id);
    if !(id in s.connections) {
      assert DestroysDue(s, id) == 1;
      assert multiset(s.batch[s.ran..])[Destroy(id)] > 0 ==> Destroy(id) in s.batch[s.ran..];
    }
  }

  lemma ChannelMeans(s: Server, id: ConnId)
    requires ChannelsOk(s) && id in s.conns && s.conns[id].slot != Removed
    ensures s.conns[id].fd in s.channelMap && s.channelMap[s.conns[id].fd] == id
  {
    assert Unfold(0);
  }

  lemma MappedMeans(s: Server, fd: nat)
    requires ChannelsOk(s) && fd in s.channelMap
    ensures s.channelMap[fd] in s.conns
    ensures s.conns[s.channelMap[fd]].fd == fd && s.conns[s.channelMap[fd]].slot != Removed
  {
    assert Unfold(0);
  }

  lemma ActiveMeans(s: Server, j: nat)
    requires ActiveOk(s) && j < |s.active| && s.active[j].ConnReady?
    ensures s.active[j].id in s.conns && s.conns[s.active[j].id].state != Disconnected
    ensures s.next <= j ==> !s.conns[s.active[j].id].closed
  {
    assert Unfold(0);
  }

  /** The poller never keeps a pointer to a connection that may have been destroyed. */
  lemma NoDanglingChannel(steps: seq<Step>)
    requires Possible(INITIAL, steps) && !AbortsIn(INITIAL, steps)
    ensures var s := Run(INITIAL, steps);
            forall fd :: fd in s.channelMap ==> s.channelMap[fd] in s.conns && Owned(s, s.channelMap[fd])
  {
    ReachableHolds(steps);
    var s := Run(INITIAL, steps);
    forall fd | fd in s.channelMap
      ensures s.channelMap[fd] in s.conns && Owned(s, s.channelMap[fd])
    {
      MappedMeans(s, fd);
      RegisteredIsOwned(s, s.channelMap[fd]);
    }
  }

  /** The j-th active channel is registered and its connection alive; if it is still to be dispatched, it has not
      been closed. */
  predicate ActiveIsAlive(s: Server, j: nat)
    requires j < |s.active| && s.active[j].ConnReady?
  {
    var id := s.active[j].id;
    && s.phase == Dispatching
    && id in s.conns && s.conns[id].slot.Registered?
    && s.conns[id].fd in s.channelMap && s.channelMap[s.conns[id].fd] == id
    && Owned(s, id)
    && (s.next <= j ==> Open(s.conns[id]) && id in s.connections)
  }

  lemma AliveWhileActive(s: Server, j: nat)
    requires Inv(s) && j < |s.active| && s.active[j].ConnReady?
    ensures ActiveIsAlive(s, j)
  {
    var id := s.active[j].id;
    ActiveMeans(s, j);
    ConnMeans(s, None, id);
    InvariantMeans(s.conns[id]);
    RegisteredIsOwned(s, id);
  }

  /** Between any two steps of a dispatch phase each channel of the active list, already dispatched or not, is
      registered and its connection alive; those still to be dispatched have not been closed. */
  lemma ActiveChannelsStayRegistered(steps: seq<Step>, j: nat)
    requires Possible(INITIAL, steps) && !AbortsIn(INITIAL, steps)
    requires j < |Run(INITIAL, steps).active| && Run(INITIAL, steps).active[j].ConnReady?
    ensures ActiveIsAlive(Run(INITIAL, steps), j)
  {
    ReachableHolds(steps);
    AliveWhileActive(Run(INITIAL, steps), j);
  }

  /** The state within a dispatch of a connection, after the first `n` of its callbacks. */
  function WithinDispatch(s: Server, io: Io, n: nat): Server
    requires s.next < |s.active| && s.active[s.next].ConnReady?
    requires n <= |Callbacks(s.active[s.next].revents)|
  {
    InvokeAll(s.(next := s.next + 1), s.active[s.next].id, Callbacks(s.active[s.next].revents)[..n], io)
  }

  lemma PartOfDispatchKeeps(s: Server, io: Io, n: nat)
    requires Inv(s) && Enabled(s, DispatchConn(io)) && !Aborts(s, DispatchConn(io))
    requires n <= |Callbacks(s.active[s.next].revents)|
    ensures Inv(WithinDispatch(s, io, n))
  {
    var ready := s.active[s.next];
    var all := Callbacks(ready.revents);
    assert all == all[..n] + all[n..];
    ClosingsConcat(all[..n], all[n..], io);
    DoubleCloseIff(ready.revents, io);
    AdvanceActive(s);
    DispatchKeepsIff(s, s.(next := s.next + 1), ready.id, all[..n], io);
  }

  /** The same between any two callbacks of one dispatch. */
  lemma ActiveChannelsStayRegisteredWithin(steps: seq<Step>, io: Io, n: nat, j: nat)
    requires Possible(INITIAL, steps) && !AbortsIn(INITIAL, steps)
    requires Enabled(Run(INITIAL, steps), DispatchConn(io)) && !Aborts(Run(INITIAL, steps), DispatchConn(io))
    requires n <= |Callbacks(Run(INITIAL, steps).active[Run(INITIAL, steps).next].revents)|
    ensures var u := WithinDispatch(Run(INITIAL, steps), io, n);
            j < |u.active| && u.active[j].ConnReady? ==> ActiveIsAlive(u, j)
  {
    var s := Run(INITIAL, steps);
    ReachableHolds(steps);
    PartOfDispatchKeeps(s, io, n);
    var u := WithinDispatch(s, io, n);
    if j < |u.active| && u.active[j].ConnReady? {
      AliveWhileActive(u, j);
    }
  }

  /** At every point between its establishment and its close a connection is in the server's map and in the
      poller, unmuted, always watched for input, and for output exactly while it has some buffered. */
  lemma OpenConnectionsAreWatched(steps: seq<Step>, id: ConnId)
    requires Possible(INITIAL, steps) && !AbortsIn(INITIAL, steps)
    requires id in Run(INITIAL, steps).conns && !Run(INITIAL, steps).conns[id].closed
    ensures var s := Run(INITIAL, steps);
            var c := s.conns[id];
            && Open(c) && id in s.connections
            && c.slot == Registered(Interest(c.events, false))
            && c.events.pollIn && c.events.pollPri && (c.events.pollOut <==> c.output != [])
            && !c.events.pollErr && !c.events.pollHup && !c.events.pollNval && !c.events.pollRdHup
            && c.fd in s.channelMap && s.channelMap[c.fd] == id
  {
    ReachableHolds(steps);
    var s := Run(INITIAL, steps);
    ConnMeans(s, None, id);
    InvariantMeans(s.conns[id]);
    RegisteredIsOwned(s, id);
  }

  /** Whenever the loop is about to poll, the open connections are exactly those in the server's map and exactly
      those in the poller, each watched for input, and for output while it has some; every connection that was
      closed has been reported down and unregistered. */
  lemma BeforeEveryPoll(steps: seq<Step>, id: ConnId)
    requires Possible(INITIAL, steps) && !AbortsIn(INITIAL, steps)
    requires Run(INITIAL, steps).phase == Polling && id in Run(INITIAL, steps).conns
    ensures var s := Run(INITIAL, steps);
            var c := s.conns[id];
            if id in s.connections then
              && Open(c) && c.slot == Registered(Interest(c.events, false))
              && c.events.pollIn && c.events.pollPri && (c.events.pollOut <==> c.output != [])
              && c.fd in s.channelMap && s.channelMap[c.fd] == id
            else
              && c.closed && c.state == Disconnected && c.slot == Removed && Down(id) in s.log
              && forall fd :: fd in s.channelMap ==> s.channelMap[fd] != id
  {
    ReachableHolds(steps);
    var s := Run(INITIAL, steps);
    ConnMeans(s, None, id);
    InvariantMeans(s.conns[id]);
    DestroyMeans(s, id);
    StageMeans(s, id);
    StageMeansOnce(s.log, id);
    assert s.batch[s.ran..] == [];
    assert multiset(s.pending)[Destroy(id)] > 0 ==> Destroy(id) in s.pending;
    if id in s.connections {
      RegisteredIsOwned(s, id);
    } else {
      forall fd | fd in s.channelMap
        ensures s.channelMap[fd] != id
      {
        MappedMeans(s, fd);
      }
    }
  }

  /** Reported up at one place, down at no more than one, every message after the first and before the second. */
  predicate ReportedInOrder(log: seq<Report>, id: ConnId) {
    && (forall i, j :: (0 <= i < |log| && 0 <= j < |log| && log[i] == log[j]
                        && log[i].id == id && !log[i].Message?) ==> i == j)
    && (forall u, m :: (0 <= u < |log| && 0 <= m < |log| && log[u] == Up(id) && log[m] == Message(id)) ==> u < m)
    && (forall m, d :: (0 <= m < |log| && 0 <= d < |log| && log[m] == Message(id) && log[d] == Down(id)) ==> m < d)
    && (forall m :: 0 <= m < |log| && log[m] == Message(id) ==> Up(id) in log[..m])
  }

  lemma StageMeansInOrder(log: seq<Report>, id: ConnId)
    requires StageOf(log, id) != Broken
    ensures ReportedInOrder(log, id)
    ensures StageOf(log, id) != Unseen <==> Up(id) in log
    ensures StageOf(log, id) == Ended <==> Down(id) in log
  {
    StageMeansOnce(log, id);
    if StageOf(log, id) != Unseen {
      var i :| 0 <= i < |log| && log[i].id == id;
      if !log[i].Up? {
        var u :| 0 <= u < i && log[u] == Up(id);
      }
    }
    forall m | 0 <= m < |log| && log[m] == Message(id)
      ensures Up(id) in log[..m]
      ensures forall u :: 0 <= u < |log| && log[u] == Up(id) ==> u < m
    {
      var v :| 0 <= v < m && log[v] == Up(id);
      assert log[..m][v] == Up(id);
    }
  }

  /** Each connection there is has been reported up, exactly those disconnected have been reported down, and
      the reports about it are in order. */
  lemma ReportedUpOnceAndDownOnce(steps: seq<Step>, id: ConnId)
    requires Possible(INITIAL, steps) && !AbortsIn(INITIAL, steps)
    ensures var s := Run(INITIAL, steps);
            && ReportedInOrder(s.log, id)
            && (id in s.conns <==> Up(id) in s.log)
            && (id in s.conns && s.conns[id].state == Disconnected <==> Down(id) in s.log)
  {
    ReachableHolds(steps);
    StageMeans(Run(INITIAL, steps), id);
    StageMeansInOrder(Run(INITIAL, steps).log, id);
  }

  /** What one dispatch of a connection amounts to, in any run: a message is reported exactly if data was read;
      the connection is closed exactly if its peer hung up without input or the stream had ended; and if it is
      closed it is out of the server's map with its destruction queued. */
  lemma DispatchOutcome(steps: seq<Step>, io: Io)
    requires Possible(INITIAL, steps) && !AbortsIn(INITIAL, steps)
    requires Enabled(Run(INITIAL, steps), DispatchConn(io)) && !Aborts(Run(INITIAL, steps), DispatchConn(io))
    ensures var s := Run(INITIAL, steps);
            var t := Next(s, DispatchConn(io));
            var id, r := s.active[s.next].id, s.active[s.next].revents;
            && t.log == s.log + (if (r.pollIn || r.pollPri || r.pollRdHup) && io.read.Received? && io.read.bytes != []
                                 then [Message(id)] else [])
            && id in t.conns
            && (t.conns[id].closed <==>
                  || (r.pollHup && !r.pollIn)
                  || ((r.pollIn || r.pollPri || r.pollRdHup) && io.read == Received([])))
            && (t.conns[id].closed <==> id !in t.connections)
            && (t.conns[id].closed <==> Destroy(id) in t.pending)
  {
    ReachableHolds(steps);
    var s := Run(INITIAL, steps);
    var t := Next(s, DispatchConn(io));
    var id, r := s.active[s.next].id, s.active[s.next].revents;
    StepKeepsIff(s, DispatchConn(io));
    AdvanceActive(s);
    InvokeAllKeepsIff(s.(next := s.next + 1), id, Callbacks(r), io);
    InvokeAllOutcome(s.(next := s.next + 1), id, Callbacks(r), io);
    MessagesOf(r, io, id);
    ClosingsOf(r, io);
    ConnMeans(t, None, id);
    DestroyMeans(t, id);
    assert t.batch[t.ran..] == [];
    assert multiset(t.pending)[Destroy(id)] > 0 <==> Destroy(id) in t.pending;
  }

  /** Every write-complete callback a connection ever asked for is pending, in the rest of the batch, or has been
      run, exactly once each. */
  lemma CompletionsRunOnce(steps: seq<Step>, id: ConnId)
    requires Possible(INITIAL, steps) && !AbortsIn(INITIAL, steps)
    requires id in Run(INITIAL, steps).conns
    ensures var s := Run(INITIAL, steps);
            && s.ran <= |s.batch|
            && multiset(s.pending + s.batch[s.ran..] + s.executed)[WriteComplete(id)] == |s.conns[id].completions|
  {
    ReachableHolds(steps);
    CompletionMeans(Run(INITIAL, steps), id);
  }

  /** Between any two points of a run a connection's state only moves forward, the bytes it has accepted and
      sent and the reports made about it are never taken back, nothing is accepted after shutdown(), and
      nothing is sent after the write side was shut down. */
  lemma ConnectionsOnlyAdvance(before: seq<Step>, after: seq<Step>, id: ConnId)
    requires Possible(INITIAL, before) && !AbortsIn(INITIAL, before)
    requires Possible(Run(INITIAL, before), after) && !AbortsIn(Run(INITIAL, before), after)
    requires id in Run(INITIAL, before).conns
    ensures var s, t := Run(INITIAL, before), Run(Run(INITIAL, before), after);
            id in t.conns && AdvancesTo(s.conns[id], t.conns[id]) && s.log <= t.log
  {
    ReachableHolds(before);
    var s, t := Run(INITIAL, before), Run(Run(INITIAL, before), after);
    RunKeepsIff(s, after);
    assert Unfold(0);
    AdvancesMeans(s.conns[id], t.conns[id]);
  }

  /** For every run, connection and moment: sent plus buffered is exactly what was accepted, in order; every
      write-complete callback was queued with nothing left to send; the write side is shut down at most once,
      and before close only with nothing left to send. */
  lemma BytesAreConserved(steps: seq<Step>, id: ConnId)
    requires Possible(INITIAL, steps) && !AbortsIn(INITIAL, steps)
    requires id in Run(INITIAL, steps).conns
    ensures var c := Run(INITIAL, steps).conns[id];
            && c.wire + c.output == c.accepted
            && (forall f :: f in c.completions ==> f == 0)
            && |c.fins| <= 1
            && (!c.closed ==> (forall f :: f in c.fins ==> f == 0) && (c.fins != [] ==> c.wire == c.accepted))
  {
    ReachableHolds(steps);
    var s := Run(INITIAL, steps);
    ConnMeans(s, None, id);
    InvariantMeans(s.conns[id]);
    var c := s.conns[id];
    if !c.closed && c.fins != [] {
      assert c.state == Disconnecting;
      assert c.output == [];
      assert c.wire + [] == c.wire;
    }
  }

  lemma {:induction false} RunOneMore(s: Server, steps: seq<Step>, step: Step)
    requires Possible(s, steps) && Enabled(Run(s, steps), step)
    ensures Possible(s, steps + [step])
    ensures Run(s, steps + [step]) == Next(Run(s, steps), step)
    decreases |steps|
  {
    if steps == [] {
      assert [step][1..] == [];
    } else {
      assert (steps + [step])[1..] == steps[1..] + [step];
      RunOneMore(Next(s, steps[0]), steps[1..], step);
    }
  }

  /** One more step of a given sequence. */
  lemma Extend(s: Server, steps: seq<Step>, k: nat)
    requires k < |steps| && Possible(s, steps[..k]) && Enabled(Run(s, steps[..k]), steps[k])
    ensures Possible(s, steps[..k + 1])
    ensures Run(s, steps[..k + 1]) == Next(Run(s, steps[..k]), steps[k])
  {
    RunOneMore(s, steps[..k], steps[k]);
    assert steps[..k] + [steps[k]] == steps[..k + 1];
  }

  /** The server once it has accepted one connection on descriptor 5 and gone round the loop. */
  const ACCEPT: seq<Step> := [Poll([AcceptReady]), DispatchAccept(Some(5), false, []), Swap, EndBatch]

  const ESTABLISHED: Conn := Establish(NewConn(5, false))

  const ONE_CONNECTION: Server :=
    INITIAL.(conns := map[1 := ESTABLISHED], connections := {1}, channelMap := map[5 := 1], nextId := 2, log := [Up(1)])

  lemma AcceptRuns()
    ensures Possible(INITIAL, ACCEPT) && Run(INITIAL, ACCEPT) == ONE_CONNECTION
  {
    var accept := DispatchAccept(Some(5), false, []);
    var s1 := Next(INITIAL, Poll([AcceptReady]));
    RunOneMore(INITIAL, [], Poll([AcceptReady]));
    assert Enabled(s1, accept);
    RunOneMore(INITIAL, [Poll([AcceptReady])], accept);
    var s2 := Next(s1, accept);
    assert s2 == ONE_CONNECTION.(active := [AcceptReady], next := 1, phase := Dispatching);
    RunOneMore(INITIAL, [Poll([AcceptReady]), accept], Swap);
    RunOneMore(INITIAL, [Poll([AcceptReady]), accept, Swap], EndBatch);
    assert ACCEPT == [Poll([AcceptReady]), accept, Swap] + [EndBatch];
  }

  /** The double close is real: a peer hangs up with urgent data pending and the stream at its end. */
  lemma DoubleCloseAborts()
    ensures var hangUp := NONE_EVENT.(pollHup := true, pollPri := true);
            var steps := ACCEPT + [Poll([ConnReady(1, hangUp)])] + [DispatchConn(Io(Received([]), [], Wrote(0)))];
            Possible(INITIAL, steps) && Run(INITIAL, steps).failed
  {
    var hangUp := NONE_EVENT.(pollHup := true, pollPri := true);
    var poll, last := Poll([ConnReady(1, hangUp)]), DispatchConn(Io(Received([]), [], Wrote(0)));
    AcceptRuns();
    assert ESTABLISHED.slot == Registered(Interest(READ_EVENT, false));
    RunOneMore(INITIAL, ACCEPT, poll);
    RunOneMore(INITIAL, ACCEPT + [poll], last);
    assert Aborts(Run(INITIAL, ACCEPT + [poll]), last);
    InitialHolds();
    RunKeepsIff(INITIAL, ACCEPT + [poll]);
    StepKeepsIff(Run(INITIAL, ACCEPT + [poll]), last);
  }
}
