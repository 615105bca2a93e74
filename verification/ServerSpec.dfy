/** The single-loop server as a step machine: src/tcp_server.cpp, the dispatch of src/channel.cpp and the loop
    body of src/event_loop.cpp, over the connections of `ConnectionSpec`.

    A step is what the loop thread does between two points where it may be observed: one poll, the dispatch of
    one active channel, the swap of the pending functors, the run of one functor, the end of a batch; or a
    functor arriving from another thread. Wherever the source calls back into user code, the step carries an
    arbitrary script of what that code does. An assertion of the source that does not hold sets `failed`. */
module ServerSpec {
  import opened Buffers
  import opened Polling
  import opened ConnectionSpec
  import opened Options

  type ConnId = nat

  datatype Functor = Destroy(id: ConnId) | WriteComplete(id: ConnId) | User(tag: int)

  /** What user code may do in the loop thread. */
  datatype Act =
    | SendOn(id: ConnId, message: seq<Byte>, k: WriteResult)
    | ShutdownOn(id: ConnId)
    | QueueUser(tag: int)

  /** The callbacks a user sees. */
  datatype Report = Up(id: ConnId) | Message(id: ConnId) | Down(id: ConnId)

  /** An entry of the active list: a connection's channel with its events, the acceptor's, or another one
      (the wakeup channel or the timer's). */
  datatype Ready = ConnReady(id: ConnId, revents: Mask) | AcceptReady | OtherReady

  datatype Phase = Polling | Dispatching | Running

  datatype Server = Server(
    conns: map<ConnId, Conn>,      // every connection object ever made
    connections: set<ConnId>,      // TcpServer::connections_
    channelMap: map<nat, ConnId>,  // Poller::channel_map_, connection channels only
    nextId: ConnId,
    pending: seq<Functor>,
    batch: seq<Functor>,           // the functors of doPendingFunctors
    ran: nat,                      // how many of them have been started
    executed: seq<Functor>,        // every functor started so far
    active: seq<Ready>,
    next: nat,                     // how many of them have been dispatched
    phase: Phase,
    log: seq<Report>,
    failed: bool)

  const INITIAL: Server := Server(map[], {}, map[], 1, [], [], 0, [], [], 0, Polling, [], false)

  // ---------------------------------------------------------------------------------------------
  // What the loop thread does
  // ---------------------------------------------------------------------------------------------

  function Put(s: Server, id: ConnId, c: Conn): Server {
    s.(conns := s.conns[id := c], failed := s.failed || c.failed)
  }

  /** Store the outcome of an operation that may have queued a write-complete callback. */
  function PutAndQueue(s: Server, id: ConnId, c: Conn): Server
    requires id in s.conns
  {
    var t := Put(s, id, c);
    if c.completions != s.conns[id].completions then t.(pending := t.pending + [WriteComplete(id)]) else t
  }

  function Perform(s: Server, act: Act): Server {
    match act
    case SendOn(id, message, k) => if id in s.conns then PutAndQueue(s, id, Send(s.conns[id], message, k)) else s
    case ShutdownOn(id) => if id in s.conns then Put(s, id, Shutdown(s.conns[id])) else s
    case QueueUser(tag) => s.(pending := s.pending + [User(tag)])
  }

  function RunScript(s: Server, script: seq<Act>): Server
    decreases |script|
  {
    if script == [] then s else RunScript(Perform(s, script[0]), script[1..])
  }

  /** `TcpConnection::handleClose` and, as its last line, `TcpServer::removeConnection`. */
  function Close(s: Server, id: ConnId): Server
    requires id in s.conns
  {
    var t := Put(s, id, HandleClose(s.conns[id]));
    t.(connections := t.connections - {id},
       pending := t.pending + [Destroy(id)],
       failed := t.failed || id !in t.connections)
  }

  datatype Io = Io(read: ReadResult, onMessage: seq<Act>, write: WriteResult)

  /** `TcpConnection::handleRead`; a read of nothing is the end of the stream. */
  function Read(s: Server, id: ConnId, io: Io): Server
    requires id in s.conns
  {
    match io.read
    case ReadFailed(_) => s
    case Received(bytes) =>
      if bytes == [] then Close(s, id)
      else RunScript(s.(log := s.log + [Message(id)]), io.onMessage)
  }

  function Invoke(s: Server, id: ConnId, callback: Callback, io: Io): Server {
    if id !in s.conns then s.(failed := true)
    else
      match callback
      case OnClose => Close(s, id)
      case OnError => s
      case OnRead => Read(s, id, io)
      case OnWrite => PutAndQueue(s, id, HandleWrite(s.conns[id], io.write))
  }

  function InvokeAll(s: Server, id: ConnId, callbacks: seq<Callback>, io: Io): Server
    decreases |callbacks|
  {
    if callbacks == [] then s else InvokeAll(Invoke(s, id, callbacks[0], io), id, callbacks[1..], io)
  }

  /** `TcpServer::newConnection`. */
  function NewConnection(s: Server, fd: nat, hasWriteCallback: bool, onUp: seq<Act>): Server {
    var id := s.nextId;
    var t := Put(s, id, Establish(NewConn(fd, hasWriteCallback)));
    var u := t.(connections := t.connections + {id},
                nextId := id + 1,
                failed := t.failed || fd in t.channelMap,
                channelMap := t.channelMap[fd := id],
                log := t.log + [Up(id)]);
    RunScript(u, onUp)
  }

  /** `TcpConnection::destroyConnection`. */
  function DestroyBegin(s: Server, id: ConnId): Server
    requires id in s.conns
  {
    var t := Put(s, id, DestroyBeforeCallback(s.conns[id]));
    t.(log := t.log + [Down(id)])
  }

  function DestroyEnd(s: Server, id: ConnId): Server
    requires id in s.conns
  {
    var fd := s.conns[id].fd;
    var t := Put(s, id, DestroyAfterCallback(s.conns[id]));
    t.(failed := t.failed || !(fd in t.channelMap && t.channelMap[fd] == id), channelMap := t.channelMap - {fd})
  }

  /** The next functor of the batch is started. */
  function Take(s: Server): Server
    requires s.ran < |s.batch|
  {
    s.(ran := s.ran + 1, executed := s.executed + [s.batch[s.ran]])
  }

  function Execute(s: Server, f: Functor, script: seq<Act>): Server {
    match f
    case Destroy(id) =>
      if id !in s.conns then s.(failed := true)
      else
        var t := RunScript(DestroyBegin(s, id), script);
        if id !in t.conns then t.(failed := true) else DestroyEnd(t, id)
    case _ => RunScript(s, script)
  }

  // ---------------------------------------------------------------------------------------------
  // Steps and runs
  // ---------------------------------------------------------------------------------------------

  datatype Step =
    | Poll(ready: seq<Ready>)
    | DispatchConn(io: Io)
    | DispatchAccept(accepted: Option<nat>, hasWriteCallback: bool, onUp: seq<Act>)
    | DispatchOther(script: seq<Act>)
    | Swap
    | RunFunctor(script: seq<Act>)
    | EndBatch
    | Foreign(tag: int)  // another thread queues a functor

  /** What poll() can put into the active list: each registered, unmuted connection at most once, with
      something it asked for or one of the always-on conditions. */
  predicate PollAnswer(s: Server, ready: seq<Ready>) {
    && (forall i :: 0 <= i < |ready| && ready[i].ConnReady? ==>
          && ready[i].id in s.conns
          && s.conns[ready[i].id].slot.Registered?
          && !s.conns[ready[i].id].slot.interest.muted
          && ready[i].revents != NONE_EVENT
          && ready[i].revents.Within(s.conns[ready[i].id].slot.interest.events.Union(ALWAYS_ON)))
    && (forall i, j :: 0 <= i < j < |ready| && ready[i].ConnReady? && ready[j].ConnReady? ==>
          ready[i].id != ready[j].id)
  }

  /** The steps possible in a state. A failed assertion ends the program. An accepted descriptor is one that
      no registered channel uses. */
  predicate Enabled(s: Server, step: Step) {
    && !s.failed
    && match step {
         case Poll(ready) => s.phase == Polling && PollAnswer(s, ready)
         case DispatchConn(_) => s.phase == Dispatching && s.next < |s.active| && s.active[s.next].ConnReady?
         case DispatchAccept(accepted, _, _) =>
           && s.phase == Dispatching && s.next < |s.active| && s.active[s.next].AcceptReady?
           && (accepted.Some? ==> accepted.value !in s.channelMap)
         case DispatchOther(_) => s.phase == Dispatching && s.next < |s.active| && s.active[s.next].OtherReady?
         case Swap => s.phase == Dispatching && s.next == |s.active|
         case RunFunctor(_) => s.phase == Running && s.ran < |s.batch|
         case EndBatch => s.phase == Running && s.ran == |s.batch|
         case Foreign(_) => true
       }
  }

  function Next(s: Server, step: Step): Server
    requires Enabled(s, step)
  {
    match step
    case Poll(ready) => s.(active := ready, next := 0, phase := Dispatching)
    case DispatchConn(io) =>
      var ready := s.active[s.next];
      InvokeAll(s.(next := s.next + 1), ready.id, Callbacks(ready.revents), io)
    case DispatchAccept(accepted, hasWriteCallback, onUp) =>
      var t := s.(next := s.next + 1);
      (match accepted
       case None => t
       case Some(fd) => NewConnection(t, fd, hasWriteCallback, onUp))
    case DispatchOther(script) => RunScript(s.(next := s.next + 1), script)
    case Swap => s.(batch := s.pending, pending := [], ran := 0, active := [], next := 0, phase := Running)
    case RunFunctor(script) => Execute(Take(s), s.batch[s.ran], script)
    case EndBatch => s.(batch := [], ran := 0, phase := Polling)
    case Foreign(tag) => s.(pending := s.pending + [User(tag)])
  }

  predicate Possible(s: Server, steps: seq<Step>)
    decreases |steps|
  {
    steps == [] || (Enabled(s, steps[0]) && Possible(Next(s, steps[0]), steps[1..]))
  }

  function Run(s: Server, steps: seq<Step>): Server
    requires Possible(s, steps)
    decreases |steps|
  {
    if steps == [] then s else Run(Next(s, steps[0]), steps[1..])
  }
}
