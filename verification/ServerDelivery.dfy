/** What becomes of the bytes a connection has accepted once its user shuts it down, in whole runs of the server. */
module ServerDelivery {
  import opened Buffers
  import opened Polling
  import opened ConnectionSpec
  import opened ServerSpec
  import opened ServerSafety
  import opened ServerTheorems
  import opened Options
  import opened Folding

  // ---------------------------------------------------------------------------------------------
  // A deferred shutdown takes place
  // ---------------------------------------------------------------------------------------------

  /** A dispatch in which the kernel takes some of `id`'s buffered output. */
  predicate Drains(s: Server, step: Step, id: ConnId) {
    && step.DispatchConn? && s.next < |s.active| && s.active[s.next].ConnReady? && s.active[s.next].id == id
    && s.active[s.next].revents.pollOut
    && step.io.write.Wrote? && step.io.write.count > 0
  }

  /** How many dispatches of a run do. */
  function DrainsIn(s: Server, steps: seq<Step>, id: ConnId): nat
    requires Possible(s, steps)
    decreases |steps|
  {
    if steps == [] then 0
    else (if Drains(s, steps[0], id) then 1 else 0) + DrainsIn(Next(s, steps[0]), steps[1..], id)
  }

  /** `id` has been shut down by its user and is still open. */
  ghost predicate Finishing(s: Server, id: ConnId) {
    Inv(s) && id in s.conns && s.conns[id].state == Disconnecting && !s.conns[id].closed
  }

  /** What a connection that is being shut down still has to send only gets less. */
  lemma StillFinishing(s: Server, t: Server, id: ConnId)
    requires Finishing(s, id) && Inv(t) && Evolves(s, t) && id in t.conns && !t.conns[id].closed
    ensures Finishing(t, id) && t.conns[id].accepted == s.conns[id].accepted
    ensures |t.conns[id].output| <= |s.conns[id].output|
    ensures |t.conns[id].output| < |s.conns[id].output| <==> |s.conns[id].wire| < |t.conns[id].wire|
  {
    assert Advances(s.conns[id], t.conns[id]) by {
      assert Unfold(0);
    }
    AdvancesMeans(s.conns[id], t.conns[id]);
    ConnMeans(s, None, id);
    ConnMeans(t, None, id);
    InvariantMeans(s.conns[id]);
    InvariantMeans(t.conns[id]);
  }

  lemma {:induction false} InvokeAllSplits(s: Server, id: ConnId, a: seq<Callback>, b: seq<Callback>, io: Io)
    ensures InvokeAll(s, id, a + b, io) == InvokeAll(InvokeAll(s, id, a, io), id, b, io)
    decreases |a|
  {
    if a == [] {
      assert a + b == b;
    } else {
      assert (a + b)[0] == a[0] && (a + b)[1..] == a[1..] + b;
      InvokeAllSplits(Invoke(s, id, a[0], io), id, a[1..], b, io);
    }
  }

  lemma HandleWriteShortens(c: Conn, k: WriteResult)
    requires Invariant(c) && Open(c) && c.output != [] && k.Wrote? && k.count > 0
    ensures |HandleWrite(c, k).output| < |c.output|
  {
    InvariantMeans(c);
  }

  /** The callbacks of a dispatch that reports writability, without the last one. */
  function BeforeWrite(revents: Mask): seq<Callback> {
    When(HungUp(revents), OnClose) + When(revents.pollErr || revents.pollNval, OnError)
    + When(Readable(revents), OnRead)
  }

  /** The state in which the dispatch that `s` is about to make comes to its write callback. */
  function AtWrite(s: Server, io: Io): Server
    requires s.next < |s.active| && s.active[s.next].ConnReady?
  {
    InvokeAll(s.(next := s.next + 1), s.active[s.next].id, BeforeWrite(s.active[s.next].revents), io)
  }

  lemma WriteComesLast(s: Server, io: Io, id: ConnId)
    requires Enabled(s, DispatchConn(io)) && Drains(s, DispatchConn(io), id)
    ensures Next(s, DispatchConn(io)) == Invoke(AtWrite(s, io), id, OnWrite, io)
  {
    var u, r, v := s.(next := s.next + 1), s.active[s.next].revents, AtWrite(s, io);
    assert Callbacks(r) == BeforeWrite(r) + [OnWrite];
    InvokeAllSplits(u, id, BeforeWrite(r), [OnWrite], io);
    assert [OnWrite][1..] == [];
    assert InvokeAll(v, id, [OnWrite], io) == Invoke(v, id, OnWrite, io);
  }

  lemma AtWriteHolds(s: Server, io: Io)
    requires Inv(s) && Enabled(s, DispatchConn(io)) && !AtWrite(s, io).failed
    ensures Current(AtWrite(s, io), s.active[s.next].id) && Evolves(s, AtWrite(s, io))
  {
    AdvanceActive(s);
    DispatchKeepsIff(s, s.(next := s.next + 1), s.active[s.next].id, BeforeWrite(s.active[s.next].revents), io);
  }

  lemma ReachesWrite(s: Server, io: Io, id: ConnId)
    requires Inv(s) && Enabled(s, DispatchConn(io)) && Drains(s, DispatchConn(io), id)
    requires !Next(s, DispatchConn(io)).failed
    ensures var v := AtWrite(s, io);
            && Current(v, id) && Evolves(s, v)
            && Next(s, DispatchConn(io)) == PutAndQueue(v, id, HandleWrite(v.conns[id], io.write))
  {
    WriteComesLast(s, io, id);
    AtWriteHolds(s, io);
  }

  lemma DrainShortens(s: Server, io: Io, id: ConnId)
    requires Finishing(s, id) && Enabled(s, DispatchConn(io)) && Drains(s, DispatchConn(io), id)
    requires !Next(s, DispatchConn(io)).failed
    requires id in Next(s, DispatchConn(io)).conns && !Next(s, DispatchConn(io)).conns[id].closed
    requires s.conns[id].output != []
    ensures |Next(s, DispatchConn(io)).conns[id].output| < |s.conns[id].output|
  {
    var v := AtWrite(s, io);
    ReachesWrite(s, io, id);
    ConnMeans(v, None, id);
    HandleWriteKeeps(v.conns[id], io.write);
    StillFinishing(s, v, id);
    if v.conns[id].output != [] {
      HandleWriteShortens(v.conns[id], io.write);
    } else {
      InvariantMeans(v.conns[id]);
    }
  }

  /** Each step either drains some output or leaves no more than there was. */
  lemma StepFinishes(s: Server, step: Step, id: ConnId)
    requires Finishing(s, id) && Enabled(s, step) && !Aborts(s, step)
    requires id in Next(s, step).conns && !Next(s, step).conns[id].closed
    ensures var t := Next(s, step);
            && Finishing(t, id) && t.conns[id].accepted == s.conns[id].accepted
            && |t.conns[id].output| <= |s.conns[id].output|
            && (Drains(s, step, id) && s.conns[id].output != [] ==> |t.conns[id].output| < |s.conns[id].output|)
  {
    StepKeepsIff(s, step);
    StillFinishing(s, Next(s, step), id);
    if Drains(s, step, id) && s.conns[id].output != [] {
      DrainShortens(s, step.io, id);
    }
  }

  lemma KnownAfterStep(s: Server, step: Step, id: ConnId)
    requires Inv(s) && Enabled(s, step) && !Aborts(s, step) && id in s.conns
    ensures Inv(Next(s, step)) && id in Next(s, step).conns
  {
    StepKeepsIff(s, step);
    assert Unfold(0);
  }

  lemma KnownAndOpen(s: Server, steps: seq<Step>, id: ConnId)
    requires Inv(s) && Possible(s, steps) && !AbortsIn(s, steps) && id in s.conns
    ensures id in Run(s, steps).conns && (s.conns[id].closed ==> Run(s, steps).conns[id].closed)
  {
    RunKeepsIff(s, steps);
    assert Unfold(0);
  }

  lemma {:induction false} RunFinishes(s: Server, steps: seq<Step>, id: ConnId)
    requires Finishing(s, id) && Possible(s, steps) && !AbortsIn(s, steps)
    requires id in Run(s, steps).conns && !Run(s, steps).conns[id].closed
    ensures var t := Run(s, steps);
            && Finishing(t, id) && t.conns[id].accepted == s.conns[id].accepted
            && (t.conns[id].output == [] || |t.conns[id].output| + DrainsIn(s, steps, id) <= |s.conns[id].output|)
    decreases |steps|
  {
    if steps != [] {
      var t := Next(s, steps[0]);
      KnownAfterStep(s, steps[0], id);
      KnownAndOpen(t, steps[1..], id);
      assert Run(s, steps) == Run(t, steps[1..]);
      StepFinishes(s, steps[0], id);
      RunFinishes(t, steps[1..], id);
    }
  }

  /** A shutdown that had to wait, in any run of the server: whatever other connections, callbacks and threads do
      meanwhile, once as many dispatches have drained some of the connection's output as bytes were buffered, and
      unless it is closed first, everything it had accepted has been sent and the write side has been shut down. */
  lemma DeferredShutdownHappens(before: seq<Step>, after: seq<Step>, id: ConnId)
    requires Possible(INITIAL, before) && !AbortsIn(INITIAL, before)
    requires Possible(Run(INITIAL, before), after) && !AbortsIn(Run(INITIAL, before), after)
    requires id in Run(INITIAL, before).conns && Run(INITIAL, before).conns[id].state == Disconnecting
    requires |Run(INITIAL, before).conns[id].output| <= DrainsIn(Run(INITIAL, before), after, id)
    ensures var c, t := Run(INITIAL, before).conns[id], Run(Run(INITIAL, before), after);
            && id in t.conns
            && (!t.conns[id].closed ==>
                  t.conns[id].output == [] && t.conns[id].wire == c.accepted && t.conns[id].fins == [0])
  {
    var s := Run(INITIAL, before);
    var t := Run(s, after);
    ReachableHolds(before);
    KnownAndOpen(s, after, id);
    if !t.conns[id].closed {
      RunFinishes(s, after, id);
      ConnMeans(t, None, id);
      InvariantMeans(t.conns[id]);
      var d := t.conns[id];
      assert d.wire + [] == d.wire;
      assert d.fins == [d.fins[0]] && d.fins[0] in d.fins;
    }
  }

  // ---------------------------------------------------------------------------------------------
  // A shutdown that cuts off bytes
  // ---------------------------------------------------------------------------------------------

  /** In every run a shutdown can cut off accepted bytes only between the close of the connection, with its output
      still buffered, and its destruction: never on an open connection, and never when the loop is about to poll. */
  lemma OnlyClosedConnectionsLoseBytes(steps: seq<Step>, id: ConnId)
    requires Possible(INITIAL, steps) && !AbortsIn(INITIAL, steps)
    requires id in Run(INITIAL, steps).conns && LosesBytes(Run(INITIAL, steps).conns[id])
    ensures var s := Run(INITIAL, steps);
            && s.conns[id].closed && s.conns[id].output != []
            && id !in s.connections && DestroysDue(s, id) == 1 && s.phase != Polling
  {
    var s := Run(INITIAL, steps);
    ReachableHolds(steps);
    ConnMeans(s, None, id);
    DestroyMeans(s, id);
    LosesBytesIff(s.conns[id]);
    InvariantMeans(s.conns[id]);
    if s.phase == Polling {
      BeforeEveryPoll(steps, id);
    }
  }

  const HANG_UP: Mask := NONE_EVENT.(pollHup := true)

  /** A connection is accepted, and its up callback sends what the kernel does not take; then the peer hangs up,
      and a timer that is due in the same dispatch phase shuts the connection down. */
  function ShutdownAfterHangUp(message: seq<Byte>): seq<Step> {
    [Poll([AcceptReady]), DispatchAccept(Some(5), false, [SendOn(1, message, WriteFailed(11))]), Swap, EndBatch,
     Poll([ConnReady(1, HANG_UP), OtherReady]), DispatchConn(Io(ReadFailed(11), [], Wrote(0))),
     DispatchOther([ShutdownOn(1)])]
  }

  /** The connection then: everything buffered, nothing sent. */
  function Unsent(message: seq<Byte>): Conn {
    var events := READ_EVENT.Union(WRITE_EVENT);
    ESTABLISHED.(events := events, slot := Registered(Interest(events, false)), output := message, accepted := message)
  }

  lemma MessageIsBuffered(message: seq<Byte>)
    requires message != []
    ensures Send(ESTABLISHED, message, WriteFailed(11)) == Unsent(message)
  {
    assert message[..0] == [] && message[0..] == message;
    assert ESTABLISHED.output + message == message;
  }

  /** The server in the second dispatch phase, before the hang-up is dispatched. */
  function Listening(message: seq<Byte>): Server {
    ONE_CONNECTION.(conns := map[1 := Unsent(message)], active := [ConnReady(1, HANG_UP), OtherReady],
                    phase := Dispatching)
  }

  lemma OneAct(s: Server, act: Act)
    ensures RunScript(s, [act]) == Perform(s, act)
  {
    assert [act][1..] == [];
  }

  lemma OneInvocation(s: Server, id: ConnId, callback: Callback, io: Io)
    ensures InvokeAll(s, id, [callback], io) == Invoke(s, id, callback, io)
  {
    assert [callback][1..] == [];
  }

  /** The server once the connection has been accepted. */
  function Accepted(message: seq<Byte>): Server {
    ONE_CONNECTION.(conns := map[1 := Unsent(message)], active := [AcceptReady], next := 1, phase := Dispatching)
  }

  lemma AcceptStep(message: seq<Byte>)
    requires message != []
    ensures var s := INITIAL.(active := [AcceptReady], phase := Dispatching);
            Next(s, ShutdownAfterHangUp(message)[1]) == Accepted(message)
  {
    var send := SendOn(1, message, WriteFailed(11));
    var u := ONE_CONNECTION.(active := [AcceptReady], next := 1, phase := Dispatching);
    var s := INITIAL.(active := [AcceptReady], next := 1, phase := Dispatching);
    var v := s.(conns := s.conns[1 := ESTABLISHED], connections := s.connections + {1}, nextId := 2,
                channelMap := s.channelMap[5 := 1], log := s.log + [Up(1)]);
    assert v.conns == u.conns && v.connections == u.connections && v.channelMap == u.channelMap && v.log == u.log;
    assert !ESTABLISHED.failed;
    assert NewConnection(s, 5, false, [send]) == RunScript(u, [send]);
    OneAct(u, send);
    MessageIsBuffered(message);
    assert ESTABLISHED.completions == Unsent(message).completions;
  }

  lemma AcceptAndSend(message: seq<Byte>)
    requires message != []
    ensures Possible(INITIAL, ShutdownAfterHangUp(message)[..2])
    ensures Run(INITIAL, ShutdownAfterHangUp(message)[..2]) == Accepted(message)
  {
    var steps := ShutdownAfterHangUp(message);
    assert steps[..0] == [];
    AcceptStep(message);
    Extend(INITIAL, steps, 0);
    Extend(INITIAL, steps, 1);
  }

  lemma GoRound(message: seq<Byte>)
    requires message != []
    ensures Possible(INITIAL, ShutdownAfterHangUp(message)[..4])
    ensures Run(INITIAL, ShutdownAfterHangUp(message)[..4]) == ONE_CONNECTION.(conns := map[1 := Unsent(message)])
  {
    AcceptAndSend(message);
    Extend(INITIAL, ShutdownAfterHangUp(message), 2);
    Extend(INITIAL, ShutdownAfterHangUp(message), 3);
  }

  lemma PollReports(message: seq<Byte>)
    requires message != []
    ensures Possible(INITIAL, ShutdownAfterHangUp(message)[..5])
    ensures Run(INITIAL, ShutdownAfterHangUp(message)[..5]) == Listening(message)
  {
    GoRound(message);
    Extend(INITIAL, ShutdownAfterHangUp(message), 4);
  }

  /** The connection after the hang-up. */
  function Lost(message: seq<Byte>): Conn {
    Unsent(message).(events := NONE_EVENT, slot := Registered(Interest(NONE_EVENT, true)), closed := true)
  }

  lemma HangUpStep(message: seq<Byte>)
    ensures var t := Next(Listening(message), ShutdownAfterHangUp(message)[5]);
            && !t.failed && t.conns == map[1 := Lost(message)]
            && t.active == Listening(message).active && t.next == 1 && t.phase == Dispatching
  {
    var u := Listening(message).(next := 1);
    assert Callbacks(HANG_UP) == [OnClose];
    OneInvocation(u, 1, OnClose, Io(ReadFailed(11), [], Wrote(0)));
    assert HandleClose(Unsent(message)) == Lost(message);
  }

  lemma HangUpRuns(message: seq<Byte>)
    requires message != []
    ensures Possible(INITIAL, ShutdownAfterHangUp(message)[..6])
    ensures var t := Run(INITIAL, ShutdownAfterHangUp(message)[..6]);
            && !t.failed && t.conns == map[1 := Lost(message)]
            && t.active == Listening(message).active && t.next == 1 && t.phase == Dispatching
  {
    PollReports(message);
    HangUpStep(message);
    Extend(INITIAL, ShutdownAfterHangUp(message), 5);
  }

  lemma ShutdownStep(t: Server, message: seq<Byte>)
    requires !t.failed && t.conns == map[1 := Lost(message)]
    requires t.active == Listening(message).active && t.next == 1 && t.phase == Dispatching
    ensures Enabled(t, DispatchOther([ShutdownOn(1)]))
    ensures CutOff(Next(t, DispatchOther([ShutdownOn(1)])), message)
  {
    OneAct(t.(next := 2), ShutdownOn(1));
  }

  /** The write side has been shut down with all of the message unsent. */
  predicate CutOff(s: Server, message: seq<Byte>) {
    && !s.failed && 1 in s.conns
    && s.conns[1].fins == [|message|] && s.conns[1].wire == [] && s.conns[1].accepted == message
  }

  lemma ShutdownRuns(message: seq<Byte>)
    requires message != []
    ensures Possible(INITIAL, ShutdownAfterHangUp(message)[..7])
    ensures CutOff(Run(INITIAL, ShutdownAfterHangUp(message)[..7]), message)
  {
    HangUpRuns(message);
    ShutdownStep(Run(INITIAL, ShutdownAfterHangUp(message)[..6]), message);
    Extend(INITIAL, ShutdownAfterHangUp(message), 6);
  }

  /** It does happen: a run from the initial state cuts off all of a message. */
  lemma ShutdownAfterHangUpLosesBytes(message: seq<Byte>)
    requires message != []
    ensures Possible(INITIAL, ShutdownAfterHangUp(message))
    ensures CutOff(Run(INITIAL, ShutdownAfterHangUp(message)), message)
  {
    ShutdownRuns(message);
    assert ShutdownAfterHangUp(message)[..7] == ShutdownAfterHangUp(message);
  }
}
