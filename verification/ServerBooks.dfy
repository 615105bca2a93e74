/** The server keeps its books: what the step machine does to every connection, to the functor queue and to the
    reports is, in every run, what the rules of `Ledgers` say of the events of that run. */
module ServerBooks {
  import opened Buffers
  import opened Polling
  import opened ConnectionSpec
  import opened ServerSpec
  import opened ServerSafety
  import opened ServerTheorems
  import opened Options
  import L = Ledgers

  // ---------------------------------------------------------------------------------------------
  // One connection
  // ---------------------------------------------------------------------------------------------

  /** What the books say of a connection. */
  function View(c: Conn): L.Ledger {
    L.Ledger(c.fd, c.hasWriteCallback, c.state, c.closed, c.events.pollOut, c.accepted, |c.wire|, |c.completions|,
             c.fins)
  }

  lemma UnsentIsOutput(c: Conn)
    requires Invariant(c)
    ensures L.Unsent(View(c)) == |c.output|
  {
    InvariantMeans(c);
    assert |c.wire + c.output| == |c.wire| + |c.output|;
  }

  lemma EstablishView(fd: nat, hasWriteCallback: bool)
    ensures View(Establish(NewConn(fd, hasWriteCallback))) == L.Opened(fd, hasWriteCallback)
  {
  }

  /** With output waiting, all of the message goes behind it. */
  lemma SendBehindView(c: Conn, message: seq<Byte>, k: WriteResult)
    requires c.state == Connected && c.slot.Registered? && c.output != [] && L.Unsent(View(c)) == |c.output|
    ensures View(ConnectionSpec.Send(c, message, k)) == L.Send(View(c), message, k)
  {
    assert TakenDirectly(c, message, k) == 0;
    assert c.wire + message[..0] == c.wire;
  }

  /** With none, the kernel gets its share at once. */
  lemma SendDirectView(c: Conn, message: seq<Byte>, k: WriteResult)
    requires c.state == Connected && c.slot.Registered? && c.output == [] && !c.events.pollOut
    requires L.Unsent(View(c)) == 0
    ensures View(ConnectionSpec.Send(c, message, k)) == L.Send(View(c), message, k)
  {
    var n := TakenDirectly(c, message, k);
    assert n == L.Share(k, |message|);
    assert |c.wire + message[..n]| == |c.wire| + n;
  }

  lemma SendView(c: Conn, message: seq<Byte>, k: WriteResult)
    requires Invariant(c)
    ensures View(ConnectionSpec.Send(c, message, k)) == L.Send(View(c), message, k)
  {
    UnsentIsOutput(c);
    InvariantMeans(c);
    if c.state == Connected {
      if c.output != [] {
        SendBehindView(c, message, k);
      } else {
        SendDirectView(c, message, k);
      }
    }
  }

  lemma ShutdownView(c: Conn)
    requires Invariant(c)
    ensures View(ConnectionSpec.Shutdown(c)) == L.ShutDown(View(c))
  {
    UnsentIsOutput(c);
    InvariantMeans(c);
  }

  lemma HandleWriteView(c: Conn, k: WriteResult)
    requires Invariant(c)
    ensures View(ConnectionSpec.HandleWrite(c, k)) == L.Drain(View(c), k)
  {
    UnsentIsOutput(c);
    InvariantMeans(c);
  }

  lemma CloseView(c: Conn)
    requires Invariant(c) && Open(c)
    ensures View(ConnectionSpec.HandleClose(c)) == L.Close(View(c))
  {
    InvariantMeans(c);
  }

  lemma DestroyView(c: Conn)
    requires Invariant(c) && (c.state == Connected || c.state == Disconnecting)
    ensures View(DestroyBeforeCallback(c)) == L.Destroy(View(c))
    ensures forall d: Conn :: View(DestroyAfterCallback(d)) == View(d)
  {
    InvariantMeans(c);
  }

  // ---------------------------------------------------------------------------------------------
  // The server
  // ---------------------------------------------------------------------------------------------

  /** Every functor ever queued, in order: started, in the rest of the batch, pending. */
  function Trace(s: Server): seq<Functor> {
    s.executed + (if s.ran <= |s.batch| then s.batch[s.ran..] else []) + s.pending
  }

  function Views(conns: map<ConnId, Conn>): map<ConnId, L.Ledger> {
    map id | id in conns :: View(conns[id])
  }

  function BookOf(s: Server): L.Book {
    L.Book(Views(s.conns), Trace(s), s.log, s.nextId)
  }

  lemma ViewsAfter(conns: map<ConnId, Conn>, id: ConnId, c: Conn)
    ensures Views(conns[id := c]) == Views(conns)[id := View(c)]
  {
  }

  lemma TraceAfterQueue(s: Server, t: Server, fs: seq<Functor>)
    requires t.executed == s.executed && t.batch == s.batch && t.ran == s.ran && t.pending == s.pending + fs
    ensures Trace(t) == Trace(s) + fs
  {
    var front := s.executed + (if s.ran <= |s.batch| then s.batch[s.ran..] else []);
    assert front + (s.pending + fs) == front + s.pending + fs;
  }

  /** An operation that changes one connection and may have asked for a write-complete callback. */
  lemma PutAndQueueBook(s: Server, id: ConnId, c: Conn, l: L.Ledger)
    requires id in s.conns && View(c) == l
    requires c.completions == s.conns[id].completions || c.completions == s.conns[id].completions + [0]
    ensures BookOf(PutAndQueue(s, id, c)) == L.Enter(BookOf(s), id, l)
  {
    ViewsAfter(s.conns, id, c);
    var queues := c.completions != s.conns[id].completions;
    assert queues <==> |c.completions| != |s.conns[id].completions|;
    TraceAfterQueue(s, PutAndQueue(s, id, c), if queues then [WriteComplete(id)] else []);
    assert Trace(s) + [] == Trace(s);
  }

  lemma PutBook(s: Server, id: ConnId, c: Conn, l: L.Ledger)
    requires id in s.conns && View(c) == l && c.completions == s.conns[id].completions
    ensures BookOf(Put(s, id, c)) == L.Enter(BookOf(s), id, l)
  {
    PutAndQueueBook(s, id, c, l);
  }

  lemma PerformBook(s: Server, act: Act, busy: Option<ConnId>)
    requires InvAt(s, busy)
    ensures BookOf(Perform(s, act)) == L.After(BookOf(s), L.Did(act))
  {
    match act
    case SendOn(id, message, k) =>
      if id in s.conns {
        ConnMeans(s, busy, id);
        SendKeeps(s.conns[id], message, k);
        SendView(s.conns[id], message, k);
        PutAndQueueBook(s, id, ConnectionSpec.Send(s.conns[id], message, k), L.Send(View(s.conns[id]), message, k));
      }
    case ShutdownOn(id) =>
      if id in s.conns {
        ConnMeans(s, busy, id);
        ShutdownKeeps(s.conns[id]);
        ShutdownView(s.conns[id]);
        PutBook(s, id, ConnectionSpec.Shutdown(s.conns[id]), L.ShutDown(View(s.conns[id])));
      }
    case QueueUser(tag) => TraceAfterQueue(s, Perform(s, act), [User(tag)]);
  }

  lemma {:induction false} ScriptBook(s: Server, script: seq<Act>, busy: Option<ConnId>)
    requires InvAt(s, busy)
    ensures BookOf(RunScript(s, script)) == L.AfterAll(BookOf(s), L.Calls(script))
    decreases |script|
  {
    if script != [] {
      var t := Perform(s, script[0]);
      PerformKeeps(s, script[0], busy);
      PerformBook(s, script[0], busy);
      ScriptBook(t, script[1..], busy);
      L.AfterConcat(BookOf(s), [L.Did(script[0])], L.Calls(script[1..]));
      L.AfterOne(BookOf(s), L.Did(script[0]));
    }
  }

  lemma CloseBook(s: Server, id: ConnId)
    requires Current(s, id) && !s.conns[id].closed
    ensures BookOf(ServerSpec.Close(s, id)) == L.After(BookOf(s), L.Lost(id))
  {
    ConnMeans(s, None, id);
    CloseView(s.conns[id]);
    ViewsAfter(s.conns, id, ConnectionSpec.HandleClose(s.conns[id]));
    TraceAfterQueue(s, ServerSpec.Close(s, id), [Functor.Destroy(id)]);
  }

  /** What one read brings: nothing, the end of the stream, or data and what the message callback does. */
  function ReadEvents(id: ConnId, io: Io): seq<L.Event> {
    match io.read
    case ReadFailed(_) => []
    case Received(bytes) => if bytes == [] then [L.Lost(id)] else [L.Arrived(id)] + L.Calls(io.onMessage)
  }

  lemma ReadBook(s: Server, id: ConnId, io: Io)
    requires Current(s, id) && (io.read == Received([]) ==> !s.conns[id].closed)
    ensures BookOf(Read(s, id, io)) == L.AfterAll(BookOf(s), ReadEvents(id, io))
  {
    if io.read == Received([]) {
      CloseBook(s, id);
      L.AfterOne(BookOf(s), L.Lost(id));
    } else if io.read.Received? {
      var u := s.(log := s.log + [Message(id)]);
      MessageKeepsInv(s, id);
      ScriptBook(u, io.onMessage, None);
      L.AfterConcat(BookOf(s), [L.Arrived(id)], L.Calls(io.onMessage));
      L.AfterOne(BookOf(s), L.Arrived(id));
      assert BookOf(u) == L.After(BookOf(s), L.Arrived(id));
    }
  }

  function InvokeEvents(callback: Callback, id: ConnId, io: Io): seq<L.Event> {
    match callback
    case OnClose => [L.Lost(id)]
    case OnError => []
    case OnRead => ReadEvents(id, io)
    case OnWrite => [L.Writable(id, io.write)]
  }

  lemma InvokeBook(s: Server, id: ConnId, callback: Callback, io: Io)
    requires Current(s, id) && (Closes(callback, io) ==> !s.conns[id].closed)
    ensures BookOf(Invoke(s, id, callback, io)) == L.AfterAll(BookOf(s), InvokeEvents(callback, id, io))
  {
    match callback
    case OnClose =>
      CloseBook(s, id);
      L.AfterOne(BookOf(s), L.Lost(id));
    case OnError =>
    case OnRead => ReadBook(s, id, io);
    case OnWrite =>
      ConnMeans(s, None, id);
      HandleWriteKeeps(s.conns[id], io.write);
      HandleWriteView(s.conns[id], io.write);
      PutAndQueueBook(s, id, ConnectionSpec.HandleWrite(s.conns[id], io.write), L.Drain(View(s.conns[id]), io.write));
      L.AfterOne(BookOf(s), L.Writable(id, io.write));
  }

  function AllInvokeEvents(callbacks: seq<Callback>, id: ConnId, io: Io): seq<L.Event> {
    if callbacks == [] then [] else InvokeEvents(callbacks[0], id, io) + AllInvokeEvents(callbacks[1..], id, io)
  }

  lemma {:induction false} InvokeAllBook(s: Server, id: ConnId, callbacks: seq<Callback>, io: Io)
    requires Current(s, id) && !InvokeAll(s, id, callbacks, io).failed
    ensures BookOf(InvokeAll(s, id, callbacks, io)) == L.AfterAll(BookOf(s), AllInvokeEvents(callbacks, id, io))
    decreases |callbacks|
  {
    if callbacks != [] {
      var t := Invoke(s, id, callbacks[0], io);
      if Closes(callbacks[0], io) && s.conns[id].closed {
        SecondCloseFails(s, id, callbacks[0], io);
        InvokeAllKeepsFailed(t, id, callbacks[1..], io);
      } else {
        InvokeKeeps(s, id, callbacks[0], io);
        InvokeBook(s, id, callbacks[0], io);
        InvokeAllBook(t, id, callbacks[1..], io);
        L.AfterConcat(BookOf(s), InvokeEvents(callbacks[0], id, io), AllInvokeEvents(callbacks[1..], id, io));
      }
    }
  }

  /** One dispatch of a connection, bit by bit: lost on a hang-up without input, read on POLLIN, POLLPRI or POLLRDHUP,
      written on POLLOUT. */
  function DispatchEvents(id: ConnId, r: Mask, io: Io): seq<L.Event> {
    (if r.pollHup && !r.pollIn then [L.Lost(id)] else [])
    + (if r.pollIn || r.pollPri || r.pollRdHup then ReadEvents(id, io) else [])
    + (if r.pollOut then [L.Writable(id, io.write)] else [])
  }

  lemma {:induction false} EventsAfter(
    callbacks: seq<Callback>, condition: bool, callback: Callback, id: ConnId, io: Io)
    ensures AllInvokeEvents(callbacks + When(condition, callback), id, io)
            == AllInvokeEvents(callbacks, id, io) + if condition then InvokeEvents(callback, id, io) else []
    decreases |callbacks|
  {
    var more := When(condition, callback);
    if callbacks == [] {
      assert callbacks + more == more;
      assert condition ==> more[1..] == [];
    } else {
      assert (callbacks + more)[0] == callbacks[0] && (callbacks + more)[1..] == callbacks[1..] + more;
      EventsAfter(callbacks[1..], condition, callback, id, io);
    }
  }

  /** The events of the close and error callbacks. */
  lemma EventsOfHangUp(id: ConnId, r: Mask, io: Io)
    ensures AllInvokeEvents(When(HungUp(r), OnClose) + When(r.pollErr || r.pollNval, OnError), id, io)
            == if r.pollHup && !r.pollIn then [L.Lost(id)] else []
  {
    var none: seq<Callback> := [];
    EventsAfter(none, HungUp(r), OnClose, id, io);
    assert none + When(HungUp(r), OnClose) == When(HungUp(r), OnClose);
    EventsAfter(When(HungUp(r), OnClose), r.pollErr || r.pollNval, OnError, id, io);
  }

  lemma EventsOfDispatch(id: ConnId, r: Mask, io: Io)
    ensures AllInvokeEvents(Callbacks(r), id, io) == DispatchEvents(id, r, io)
  {
    var two := When(HungUp(r), OnClose) + When(r.pollErr || r.pollNval, OnError);
    EventsOfHangUp(id, r, io);
    EventsAfter(two, Readable(r), OnRead, id, io);
    EventsAfter(two + When(Readable(r), OnRead), r.pollOut, OnWrite, id, io);
  }

  lemma DispatchBook(s: Server, io: Io)
    requires Inv(s) && Enabled(s, DispatchConn(io)) && !Aborts(s, DispatchConn(io))
    ensures BookOf(Next(s, DispatchConn(io)))
            == L.AfterAll(BookOf(s), DispatchEvents(s.active[s.next].id, s.active[s.next].revents, io))
  {
    var u, ready := s.(next := s.next + 1), s.active[s.next];
    AdvanceActive(s);
    DispatchConnKeepsIff(s, io);
    InvokeAllBook(u, ready.id, Callbacks(ready.revents), io);
    EventsOfDispatch(ready.id, ready.revents, io);
    assert BookOf(u) == BookOf(s);
  }

  lemma NewConnectionBook(s: Server, fd: nat, hasWriteCallback: bool, onUp: seq<Act>)
    requires Inv(s) && fd !in s.channelMap
    ensures BookOf(NewConnection(s, fd, hasWriteCallback, onUp))
            == L.AfterAll(BookOf(s), [L.Accepted(fd, hasWriteCallback)] + L.Calls(onUp))
  {
    var u := Opened(s, fd, hasWriteCallback);
    OpenedKeeps(s, fd, hasWriteCallback);
    NewConnectionOpens(s, fd, hasWriteCallback, onUp);
    EstablishView(fd, hasWriteCallback);
    ViewsAfter(s.conns, s.nextId, Establish(NewConn(fd, hasWriteCallback)));
    assert BookOf(u) == L.After(BookOf(s), L.Accepted(fd, hasWriteCallback));
    ScriptBook(u, onUp, None);
    L.AfterConcat(BookOf(s), [L.Accepted(fd, hasWriteCallback)], L.Calls(onUp));
    L.AfterOne(BookOf(s), L.Accepted(fd, hasWriteCallback));
  }

  lemma TakeKeepsTrace(s: Server)
    requires s.ran < |s.batch|
    ensures Trace(Take(s)) == Trace(s)
  {
    assert s.batch[s.ran..] == [s.batch[s.ran]] + s.batch[s.ran + 1..];
  }

  lemma DestroyBeginBook(s: Server, id: ConnId)
    requires Inv(s) && s.phase == Running && s.ran < |s.batch| && s.batch[s.ran] == Functor.Destroy(id)
    ensures id in s.conns
    ensures BookOf(DestroyBegin(Take(s), id)) == L.After(BookOf(s), L.Ended(id))
  {
    DestroyBeginKeeps(s, id);
    ConnMeans(s, None, id);
    InvariantMeans(s.conns[id]);
    DestroyView(s.conns[id]);
    TakeKeepsTrace(s);
    ViewsAfter(s.conns, id, DestroyBeforeCallback(s.conns[id]));
    assert Trace(DestroyBegin(Take(s), id)) == Trace(Take(s));
  }

  lemma DestroyEndBook(u: Server, id: ConnId)
    requires id in u.conns
    ensures BookOf(DestroyEnd(u, id)) == BookOf(u)
  {
    var d := DestroyAfterCallback(u.conns[id]);
    assert View(d) == View(u.conns[id]);
    ViewsAfter(u.conns, id, d);
    assert Views(u.conns)[id := View(u.conns[id])] == Views(u.conns);
    assert Trace(DestroyEnd(u, id)) == Trace(u);
  }

  lemma DestroyFunctorBook(s: Server, script: seq<Act>)
    requires Inv(s) && s.phase == Running && s.ran < |s.batch| && s.batch[s.ran].Destroy?
    ensures BookOf(Execute(Take(s), s.batch[s.ran], script))
            == L.AfterAll(BookOf(s), [L.Ended(s.batch[s.ran].id)] + L.Calls(script))
  {
    var id := s.batch[s.ran].id;
    DestroyBeginKeeps(s, id);
    DestroyBeginBook(s, id);
    var t := DestroyBegin(Take(s), id);
    ScriptKeeps(t, script, Some(id));
    ScriptBook(t, script, Some(id));
    DestroyEndBook(RunScript(t, script), id);
    L.AfterConcat(BookOf(s), [L.Ended(id)], L.Calls(script));
    L.AfterOne(BookOf(s), L.Ended(id));
  }

  lemma OrdinaryFunctorBook(s: Server, script: seq<Act>)
    requires Inv(s) && s.phase == Running && s.ran < |s.batch| && !s.batch[s.ran].Destroy?
    ensures BookOf(Execute(Take(s), s.batch[s.ran], script)) == L.AfterAll(BookOf(s), L.Calls(script))
  {
    OrdinaryFunctorKeeps(s, []);
    TakeKeepsTrace(s);
    assert BookOf(Take(s)) == BookOf(s);
    ScriptBook(Take(s), script, None);
  }

  /** The events of one step: what was accepted, what the kernel reported and answered, what user code called. */
  function StepEvents(s: Server, step: Step): seq<L.Event>
    requires Enabled(s, step)
  {
    match step
    case Poll(_) => []
    case DispatchConn(io) => DispatchEvents(s.active[s.next].id, s.active[s.next].revents, io)
    case DispatchAccept(accepted, hasWriteCallback, onUp) =>
      if accepted.Some? then [L.Accepted(accepted.value, hasWriteCallback)] + L.Calls(onUp) else []
    case DispatchOther(script) => L.Calls(script)
    case Swap => []
    case RunFunctor(script) =>
      (if s.batch[s.ran].Destroy? then [L.Ended(s.batch[s.ran].id)] else []) + L.Calls(script)
    case EndBatch => []
    case Foreign(tag) => [L.Did(QueueUser(tag))]
  }

  lemma StepBook(s: Server, step: Step)
    requires Inv(s) && Enabled(s, step) && !Aborts(s, step)
    ensures BookOf(Next(s, step)) == L.AfterAll(BookOf(s), StepEvents(s, step))
  {
    match step
    case Poll(_) =>
    case DispatchConn(io) => DispatchBook(s, io);
    case DispatchAccept(accepted, hasWriteCallback, onUp) =>
      AdvanceActive(s);
      assert BookOf(s.(next := s.next + 1)) == BookOf(s);
      if accepted.Some? {
        NewConnectionBook(s.(next := s.next + 1), accepted.value, hasWriteCallback, onUp);
      }
    case DispatchOther(script) =>
      AdvanceActive(s);
      assert BookOf(s.(next := s.next + 1)) == BookOf(s);
      ScriptBook(s.(next := s.next + 1), script, None);
    case Swap => QueueMovesKeepTrace(s, step);
    case RunFunctor(script) =>
      assert [] + L.Calls(script) == L.Calls(script);
      if s.batch[s.ran].Destroy? {
        DestroyFunctorBook(s, script);
      } else {
        OrdinaryFunctorBook(s, script);
      }
    case EndBatch => QueueMovesKeepTrace(s, step);
    case Foreign(tag) =>
      TraceAfterQueue(s, Next(s, step), [User(tag)]);
      L.AfterOne(BookOf(s), L.Did(QueueUser(tag)));
  }

  lemma QueueMovesKeepTrace(s: Server, step: Step)
    requires Inv(s) && Enabled(s, step) && (step.Swap? || step.EndBatch?)
    ensures Trace(Next(s, step)) == Trace(s)
  {
    assert s.batch[s.ran..] == [];
    assert Next(s, step).batch[0..] == Next(s, step).batch;
  }

  function Events(s: Server, steps: seq<Step>): seq<L.Event>
    requires Possible(s, steps)
    decreases |steps|
  {
    if steps == [] then [] else StepEvents(s, steps[0]) + Events(Next(s, steps[0]), steps[1..])
  }

  lemma {:induction false} RunBook(s: Server, steps: seq<Step>)
    requires Inv(s) && Possible(s, steps) && !AbortsIn(s, steps)
    ensures BookOf(Run(s, steps)) == L.AfterAll(BookOf(s), Events(s, steps))
    decreases |steps|
  {
    if steps != [] {
      StepKeepsIff(s, steps[0]);
      StepBook(s, steps[0]);
      RunBook(Next(s, steps[0]), steps[1..]);
      L.AfterConcat(BookOf(s), StepEvents(s, steps[0]), Events(Next(s, steps[0]), steps[1..]));
    }
  }

  /** In every run the server's connections, its functor queue, its reports and its numbering are exactly what the
      rules of the books make of the events of the run: every call of every callback takes effect, in order, on the
      connection it names, with the kernel's own answers, and nothing else does. */
  lemma ServerKeepsItsBooks(steps: seq<Step>)
    requires Possible(INITIAL, steps) && !AbortsIn(INITIAL, steps)
    ensures BookOf(Run(INITIAL, steps)) == L.AfterAll(L.EMPTY_BOOK, Events(INITIAL, steps))
  {
    InitialHolds();
    assert BookOf(INITIAL) == L.EMPTY_BOOK;
    RunBook(INITIAL, steps);
  }

  /** In the words of a user: a connection has accepted exactly the messages sent on it while it was connected, in
      order, wherever the calls were made. */
  lemma SendsTakeEffect(steps: seq<Step>, id: ConnId)
    requires Possible(INITIAL, steps) && !AbortsIn(INITIAL, steps) && id in Run(INITIAL, steps).conns
    ensures Run(INITIAL, steps).conns[id].accepted == L.MessagesTo(L.EMPTY_BOOK, Events(INITIAL, steps), id)
  {
    var es := Events(INITIAL, steps);
    ServerKeepsItsBooks(steps);
    L.AcceptedIsWhatWasSent(L.EMPTY_BOOK, es, id);
    assert [] + L.MessagesTo(L.EMPTY_BOOK, es, id) == L.MessagesTo(L.EMPTY_BOOK, es, id);
    assert L.AcceptedOn(BookOf(Run(INITIAL, steps)), id) == Run(INITIAL, steps).conns[id].accepted;
  }

  /** And the functors asked for, by user code and other threads, are queued, each once, in order. */
  lemma RequestsAreQueued(steps: seq<Step>)
    requires Possible(INITIAL, steps) && !AbortsIn(INITIAL, steps)
    ensures var s := Run(INITIAL, steps);
            && s.ran <= |s.batch|
            && L.Users(s.executed + s.batch[s.ran..] + s.pending) == L.Asked(Events(INITIAL, steps))
  {
    ReachableHolds(steps);
    ServerKeepsItsBooks(steps);
    L.UsersAreQueuedInOrder(L.EMPTY_BOOK, Events(INITIAL, steps));
    assert [] + L.Asked(Events(INITIAL, steps)) == L.Asked(Events(INITIAL, steps));
  }

  /** A new connection that writes a whole message at once. */
  lemma FullWrite(fd: nat, hasWriteCallback: bool, message: seq<Byte>, count: nat)
    requires |message| <= count
    ensures var c := Establish(NewConn(fd, hasWriteCallback));
            var d := ConnectionSpec.Send(c, message, Wrote(count));
            && c.completions == [] && (d.completions != [] <==> hasWriteCallback)
            && d.wire == message && d.output == []
  {
    var c := Establish(NewConn(fd, hasWriteCallback));
    NewConnHolds(fd, hasWriteCallback);
    EstablishKeeps(NewConn(fd, hasWriteCallback));
    SendMeans(c, message, Wrote(count));
    SendCompletesIff(c, message, Wrote(count));
    assert [] + message == message && message[..|message|] == message && message[|message|..] == [];
  }

  /** A message written whole in the up callback of a new connection queues the write-complete callback exactly if
      the server has one. */
  lemma FullWriteIsReported(s: Server, fd: nat, hasWriteCallback: bool, message: seq<Byte>, count: nat)
    requires Inv(s) && fd !in s.channelMap && |message| <= count
    ensures var t := NewConnection(s, fd, hasWriteCallback, [SendOn(s.nextId, message, Wrote(count))]);
            && t.pending == s.pending + (if hasWriteCallback then [WriteComplete(s.nextId)] else [])
            && s.nextId in t.conns && t.conns[s.nextId].wire == message && t.conns[s.nextId].output == []
  {
    var send := SendOn(s.nextId, message, Wrote(count));
    FullWrite(fd, hasWriteCallback, message, count);
    NewConnectionOpens(s, fd, hasWriteCallback, [send]);
    assert [send][1..] == [];
    assert s.pending + [] == s.pending;
  }
}
