/** The connection and server objects themselves: src/tcp_connection.cpp, src/tcp_server.cpp, over the real
    buffers, channels, poller and loop. Each method is proved against the function of the same name in
    `ConnectionSpec`; what those functions keep is proved there and, for whole runs, in `ServerTheorems`. */
module TcpServers {
  import opened Buffers
  import opened Polling
  import opened EventLoops
  import opened ConnectionSpec
  import opened ServerSpec
  import opened Options

  /** What a user's callback does to its own connection, or queues. */
  datatype OwnAct = OwnSend(message: seq<Byte>, k: WriteResult) | OwnShutdown | OwnQueue(tag: int)

  function OwnPerform(c: Conn, act: OwnAct): Conn {
    match act
    case OwnSend(message, k) => Send(c, message, k)
    case OwnShutdown => Shutdown(c)
    case OwnQueue(_) => c
  }

  /** What an operation that takes the connection from `c` to `d` puts into the functor queue. */
  function CompletionQueued(id: ConnId, c: Conn, d: Conn): seq<Functor> {
    if d.completions != c.completions then [WriteComplete(id)] else []
  }

  function OwnQueued(id: ConnId, c: Conn, act: OwnAct): seq<Functor> {
    match act
    case OwnQueue(tag) => [User(tag)]
    case _ => CompletionQueued(id, c, OwnPerform(c, act))
  }

  /** The functors a callback queues, in order. */
  function ScriptQueued(id: ConnId, c: Conn, script: seq<OwnAct>): seq<Functor>
    decreases |script|
  {
    if script == [] then []
    else OwnQueued(id, c, script[0]) + ScriptQueued(id, OwnPerform(c, script[0]), script[1..])
  }

  function OwnScript(c: Conn, script: seq<OwnAct>): Conn
    decreases |script|
  {
    if script == [] then c else OwnScript(OwnPerform(c, script[0]), script[1..])
  }

  /** The same call, and the same callback, in the step machine of the server. */
  function LiftedAct(id: ConnId, act: OwnAct): Act {
    match act
    case OwnSend(message, k) => SendOn(id, message, k)
    case OwnShutdown => ShutdownOn(id)
    case OwnQueue(tag) => QueueUser(tag)
  }

  function Lifted(id: ConnId, script: seq<OwnAct>): seq<Act>
    decreases |script|
  {
    if script == [] then [] else [LiftedAct(id, script[0])] + Lifted(id, script[1..])
  }

  lemma OwnActIsAct(s: Server, id: ConnId, act: OwnAct)
    requires id in s.conns
    ensures var t := Perform(s, LiftedAct(id, act));
            && id in t.conns && t.conns[id] == OwnPerform(s.conns[id], act)
            && t.pending == s.pending + OwnQueued(id, s.conns[id], act)
  {
    assert Shutdown(s.conns[id]).completions == s.conns[id].completions;
    assert s.pending + [] == s.pending;
  }

  lemma RunScriptFirst(s: Server, act: Act, rest: seq<Act>)
    ensures RunScript(s, [act] + rest) == RunScript(Perform(s, act), rest)
  {
    assert ([act] + rest)[0] == act && ([act] + rest)[1..] == rest;
  }

  lemma ConcatAssociates(a: seq<Functor>, b: seq<Functor>, c: seq<Functor>)
    ensures a + b + c == a + (b + c)
  {
  }

  /** A callback does to the connection object and to the loop's queue what it does in the step machine. */
  lemma {:induction false} OwnScriptIsScript(s: Server, id: ConnId, script: seq<OwnAct>)
    requires id in s.conns
    ensures var t := RunScript(s, Lifted(id, script));
            && id in t.conns && t.conns[id] == OwnScript(s.conns[id], script)
            && t.pending == s.pending + ScriptQueued(id, s.conns[id], script)
    decreases |script|
  {
    if script == [] {
      assert s.pending + [] == s.pending;
    } else {
      var t, c := Perform(s, LiftedAct(id, script[0])), s.conns[id];
      OwnActIsAct(s, id, script[0]);
      OwnScriptIsScript(t, id, script[1..]);
      RunScriptFirst(s, LiftedAct(id, script[0]), Lifted(id, script[1..]));
      ConcatAssociates(s.pending, OwnQueued(id, c, script[0]), ScriptQueued(id, t.conns[id], script[1..]));
    }
  }

  class TcpConnection {
    const id: ConnId  // names the connection: "#" and the number
    const loop: EventLoop
    const channel: Channel
    const outputBuffer: Buffer
    const inputBuffer: Buffer
    const hasWriteCallback: bool
    var state: State
    // what the outside has seen of the connection
    ghost var closed: bool
    ghost var wire: seq<Byte>
    ghost var accepted: seq<Byte>
    ghost var fins: seq<nat>
    ghost var completions: seq<nat>

    ghost predicate Valid()
      reads this, channel, loop.poller, loop.poller.channels, outputBuffer, inputBuffer
    {
      && channel.poller == loop.poller && loop.poller.Valid()
      && outputBuffer.Valid() && inputBuffer.Valid()
      && outputBuffer != inputBuffer && outputBuffer.storage != inputBuffer.storage
      && (state == Connecting ==> channel.index < 0)
      && (state == Connected || state == Disconnecting ==> 0 <= channel.index && channel.Updatable())
    }

    ghost function SlotNow(): Slot
      reads channel, loop.poller
    {
      if channel.index < 0 then Unregistered
      else if channel.fd in loop.poller.channelMap && loop.poller.channelMap[channel.fd] == channel
              && channel.fd in loop.poller.registry then Registered(loop.poller.registry[channel.fd])
      else Removed
    }

    ghost function Value(): Conn
      reads this, channel, loop.poller, outputBuffer, outputBuffer.storage
      requires outputBuffer.Valid()
    {
      Conn(channel.fd, state, channel.events, SlotNow(), outputBuffer.Contents(), hasWriteCallback, closed, wire,
           accepted, fins, completions, false)
    }

    constructor (id: ConnId, loop: EventLoop, sockfd: nat, hasWriteCallback: bool)
      requires loop.poller.Valid()
      ensures Valid() && fresh(channel) && fresh(outputBuffer) && fresh(inputBuffer)
      ensures fresh(outputBuffer.storage) && fresh(inputBuffer.storage)
      ensures this.id == id && this.loop == loop
      ensures Value() == NewConn(sockfd, hasWriteCallback) && inputBuffer.Contents() == []
    {
      this.id := id;
      this.loop := loop;
      this.channel := new Channel(loop.poller, sockfd);
      this.outputBuffer := new Buffer();
      this.inputBuffer := new Buffer();
      this.hasWriteCallback := hasWriteCallback;
      state := Connecting;
      closed := false;
      wire := [];
      accepted := [];
      fins := [];
      completions := [];
    }

    /** write(2): the kernel takes some of `data`, or fails. */
    method Write(data: seq<Byte>, k: WriteResult) returns (n: int)
      modifies this`wire
      ensures k.WriteFailed? ==> n == -1
      ensures k.Wrote? ==> n == Taken(k, |data|)
      ensures wire == old(wire) + data[..Taken(k, |data|)]
    {
      match k
      case WriteFailed(_) =>
        n := -1;
        assert data[..0] == [];
      case Wrote(count) =>
        n := if count <= |data| then count else |data|;
        wire := wire + data[..n];
    }

    method QueueWriteComplete()
      requires outputBuffer.Valid()
      modifies this`completions, loop`pendingFunctors, loop`wakeupCounter, loop`history
      ensures completions ==
              old(completions) + if hasWriteCallback then [|outputBuffer.Contents()|] else []
      ensures loop.pendingFunctors ==
              old(loop.pendingFunctors) + if hasWriteCallback then [WriteComplete(id)] else []
    {
      if hasWriteCallback {
        completions := completions + [|outputBuffer.Contents()|];
        loop.QueueInLoop(WriteComplete(id), true);
      }
    }

    /** The first half of sendInLoop: write at once what the kernel takes, if nothing is waiting. */
    method WriteDirectly(message: seq<Byte>, k: WriteResult) returns (nwrote: nat)
      requires Valid()
      modifies this`wire, this`accepted, this`completions, loop`pendingFunctors, loop`wakeupCounter, loop`history
      ensures nwrote == TakenDirectly(old(Value()), message, k)
      ensures Value() == ConnectionSpec.WriteDirectly(old(Value()), message, k)
      ensures loop.pendingFunctors ==
              old(loop.pendingFunctors) + if completions != old(completions) then [WriteComplete(id)] else []
    {
      nwrote := 0;
      if !channel.IsWriting() && outputBuffer.ReadableBytes() == 0 {
        var n := Write(message, k);
        if n >= 0 {
          if n == |message| {
            QueueWriteComplete();
          }
          nwrote := n;
        }
      } else {
        assert wire + message[..0] == wire;
      }
      accepted := accepted + message;
    }

    /** Start watching for writability. */
    method WatchWritable()
      requires Valid() && 0 <= channel.index && channel.Updatable()
      modifies channel`events, channel`index, loop.poller
      ensures Valid() && 0 <= channel.index && channel.Updatable()
      ensures Value() == SetEvents(old(Value()), old(Value()).events.Union(WRITE_EVENT))
      ensures OthersUntouched()
    {
      channel.EnableWriting();
    }

    /** The second half: keep the rest in order behind earlier output, and watch for writability. */
    method BufferRest(rest: seq<Byte>)
      requires Valid() && 0 <= channel.index && channel.Updatable()
      modifies channel`events, channel`index, loop.poller, outputBuffer, outputBuffer.storage
      ensures Valid() && 0 <= channel.index && channel.Updatable()
      ensures Value() == ConnectionSpec.BufferRest(old(Value()), rest)
      ensures OthersUntouched()
      ensures outputBuffer.storage == old(outputBuffer.storage) || fresh(outputBuffer.storage)
    {
      outputBuffer.Append(rest);
      assert Value() == old(Value()).(output := old(Value()).output + rest);
      if !channel.IsWriting() {
        WatchWritable();
      }
    }

    /** No other descriptor's registration has changed. */
    twostate predicate OthersUntouched()
      reads loop.poller
    {
      && loop.poller.registry - {channel.fd} == old(loop.poller.registry) - {channel.fd}
      && loop.poller.channelMap - {channel.fd} == old(loop.poller.channelMap) - {channel.fd}
    }

    /** A write-complete callback has been queued if and only if the record of them has grown. */
    twostate predicate QueuedIfCompleted()
      reads this, loop
    {
      loop.pendingFunctors ==
      old(loop.pendingFunctors) + if completions != old(completions) then [WriteComplete(id)] else []
    }

    method SendInLoop(message: seq<Byte>, k: WriteResult)
      requires Valid() && 0 <= channel.index && channel.Updatable()
      modifies this`wire, this`accepted, this`completions, channel`events, channel`index, loop.poller,
               loop`pendingFunctors, loop`wakeupCounter, loop`history, outputBuffer, outputBuffer.storage
      ensures Valid() && 0 <= channel.index && channel.Updatable()
      ensures Value() == ConnectionSpec.SendInLoop(old(Value()), message, k)
      ensures QueuedIfCompleted() && OthersUntouched()
      ensures outputBuffer.storage == old(outputBuffer.storage) || fresh(outputBuffer.storage)
    {
      var nwrote := WriteDirectly(message, k);
      if nwrote < |message| {
        BufferRest(message[nwrote..]);
      }
    }

    method Send(message: seq<Byte>, k: WriteResult)
      requires Valid()
      modifies this`wire, this`accepted, this`completions, channel`events, channel`index, loop.poller,
               loop`pendingFunctors, loop`wakeupCounter, loop`history, outputBuffer, outputBuffer.storage
      ensures Valid()
      ensures Value() == ConnectionSpec.Send(old(Value()), message, k)
      ensures QueuedIfCompleted() && OthersUntouched()
      ensures old(state) != Connected ==> state == old(state) && unchanged(loop.poller) && unchanged(channel)
      ensures outputBuffer.storage == old(outputBuffer.storage) || fresh(outputBuffer.storage)
    {
      if state == Connected {
        SendInLoop(message, k);
      }
    }

    method ShutdownInLoop()
      requires Valid()
      modifies this`fins
      ensures Value() == ConnectionSpec.ShutdownInLoop(old(Value()))
    {
      if !channel.IsWriting() {
        fins := fins + [|outputBuffer.Contents()|];  // shutdown(SHUT_WR)
      }
    }

    method Shutdown()
      requires Valid()
      modifies this`state, this`fins
      ensures Valid()
      ensures Value() == ConnectionSpec.Shutdown(old(Value()))
    {
      if state == Connected {
        state := Disconnecting;
        ShutdownInLoop();
      }
    }

    /** One thing a callback does. */
    method UserAct(act: OwnAct)
      requires Valid()
      modifies this, channel`events, channel`index, loop.poller,
               loop`pendingFunctors, loop`wakeupCounter, loop`history, outputBuffer, outputBuffer.storage
      ensures Valid() && closed == old(closed)
      ensures Value() == OwnPerform(old(Value()), act)
      ensures loop.pendingFunctors == old(loop.pendingFunctors) + OwnQueued(id, old(Value()), act)
      ensures OthersUntouched()
      ensures old(state) == Disconnected ==> state == Disconnected && unchanged(loop.poller) && unchanged(channel)
      ensures outputBuffer.storage == old(outputBuffer.storage) || fresh(outputBuffer.storage)
    {
      match act {
        case OwnSend(message, k) => Send(message, k);
        case OwnShutdown => Shutdown();
        case OwnQueue(tag) => loop.QueueInLoop(User(tag), true);
      }
    }

    /** A callback of the user, acting on this connection. */
    method RunUser(script: seq<OwnAct>)
      requires Valid()
      modifies this, channel`events, channel`index, loop.poller,
               loop`pendingFunctors, loop`wakeupCounter, loop`history, outputBuffer, outputBuffer.storage
      ensures Valid() && closed == old(closed)
      ensures Value() == OwnScript(old(Value()), script)
      ensures loop.pendingFunctors == old(loop.pendingFunctors) + ScriptQueued(id, old(Value()), script)
      ensures OthersUntouched()
      ensures old(state) == Disconnected ==> state == Disconnected && unchanged(loop.poller) && unchanged(channel)
      ensures outputBuffer.storage == old(outputBuffer.storage) || fresh(outputBuffer.storage)
    {
      var i := 0;
      while i < |script|
        invariant 0 <= i <= |script|
        invariant Valid() && closed == old(closed)
        invariant OwnScript(Value(), script[i..]) == OwnScript(old(Value()), script)
        invariant loop.pendingFunctors + ScriptQueued(id, Value(), script[i..])
                  == old(loop.pendingFunctors) + ScriptQueued(id, old(Value()), script)
        invariant OthersUntouched()
        invariant old(state) == Disconnected ==> state == Disconnected && unchanged(loop.poller) && unchanged(channel)
        invariant outputBuffer.storage == old(outputBuffer.storage) || fresh(outputBuffer.storage)
      {
        ScriptTakesNext(id, Value(), script, i, loop.pendingFunctors);
        UserAct(script[i]);
        i := i + 1;
      }
    }

    /** Become connected and start reading. */
    method StartReading()
      requires Valid() && state == Connecting && channel.Updatable()
      modifies this`state, channel`events, channel`index, loop.poller
      ensures Valid()
      ensures Value() == Establish(old(Value()))
      ensures OthersUntouched()
    {
      state := Connected;
      channel.EnableReading();
    }

    /** Called once, by the server that accepted the connection. */
    method EstablishConnection(onUp: seq<OwnAct>)
      requires Valid() && state == Connecting && channel.Updatable()
      modifies this, channel`events, channel`index, loop.poller,
               loop`pendingFunctors, loop`wakeupCounter, loop`history, outputBuffer, outputBuffer.storage
      ensures Valid()
      ensures Value() == OwnScript(Establish(old(Value())), onUp)
      ensures loop.pendingFunctors == old(loop.pendingFunctors) + ScriptQueued(id, Establish(old(Value())), onUp)
      ensures OthersUntouched()
    {
      StartReading();
      RunUser(onUp);
    }

    /** Everything buffered has been written: stop watching, tell the user, and do a shutdown that waited. */
    method OutputDrained()
      requires Valid() && 0 <= channel.index && channel.Updatable()
      modifies this`fins, this`completions, channel`events, channel`index, loop.poller,
               loop`pendingFunctors, loop`wakeupCounter, loop`history
      ensures Valid()
      ensures Value() == Drained(old(Value()))
      ensures QueuedIfCompleted() && OthersUntouched()
    {
      StopWriting();
      QueueWriteComplete();
      if state == Disconnecting {
        ShutdownInLoop();
      }
    }

    method HandleWrite(k: WriteResult)
      requires Valid() && (channel.IsWriting() ==> 0 <= channel.index && channel.Updatable())
      modifies this`wire, this`fins, this`completions, channel`events, channel`index, loop.poller,
               loop`pendingFunctors, loop`wakeupCounter, loop`history, outputBuffer`readerIdx
      ensures Valid()
      ensures Value() == ConnectionSpec.HandleWrite(old(Value()), k)
      ensures QueuedIfCompleted() && OthersUntouched()
    {
      if channel.IsWriting() {
        var n := WriteBuffered(k);
        if n > 0 {
          if outputBuffer.ReadableBytes() == 0 {
            OutputDrained();
          }
        }
      }
    }

    /** Write what is buffered, and take out of the buffer what the kernel took. */
    method WriteBuffered(k: WriteResult) returns (n: int)
      requires Valid()
      modifies this`wire, outputBuffer`readerIdx
      ensures Valid()
      ensures n > 0 <==> Taken(k, |old(outputBuffer.Contents())|) > 0
      ensures Value() == Written(old(Value()), k)
    {
      var window := outputBuffer.Peek();
      n := Write(window, k);
      if n > 0 {
        outputBuffer.Retrieve(n);
      } else {
        assert window[..0] == [] && wire == old(wire) && window[0..] == window;
      }
    }

    method StopWriting()
      requires Valid() && 0 <= channel.index && channel.Updatable()
      modifies channel`events, channel`index, loop.poller
      ensures Valid()
      ensures Value() == SetEvents(old(Value()), old(Value()).events.(pollOut := false))
      ensures OthersUntouched()
    {
      channel.DisableWriting();
    }

    /** Drop all interest, as part of closing. */
    method StopAll()
      requires Valid() && (state == Connected || state == Disconnecting)
      modifies this`closed, channel`events, channel`index, loop.poller
      ensures Valid()
      ensures Value() == ConnectionSpec.HandleClose(old(Value()))
      ensures OthersUntouched()
    {
      channel.DisableAllEvents();
      closed := true;
    }

    method HandleClose(server: TcpServer)
      requires Valid() && (state == Connected || state == Disconnecting)
      requires server.loop == loop && id in server.connections
      modifies this`closed, channel`events, channel`index, loop.poller,
               server`connections, loop`pendingFunctors, loop`wakeupCounter, loop`history
      ensures Valid()
      ensures Value() == ConnectionSpec.HandleClose(old(Value()))
      ensures OthersUntouched()
      ensures server.connections == old(server.connections) - {id}
      ensures loop.pendingFunctors == old(loop.pendingFunctors) + [Destroy(id)]
    {
      StopAll();
      server.RemoveConnection(this);
    }

    /** Read once. Data goes to the user's message callback, the end of the stream closes the connection, and an
        error changes nothing. */
    method HandleRead(result: ReadResult, onMessage: seq<OwnAct>, server: TcpServer)
      requires Valid() && server.loop == loop
      requires result.Received? ==> Allowed(inputBuffer.GetShape(), ReadFd(result.bytes))
      requires result == Received([]) ==> (state == Connected || state == Disconnecting) && id in server.connections
      modifies this, channel`events, channel`index, loop.poller, server`connections,
               loop`pendingFunctors, loop`wakeupCounter, loop`history,
               outputBuffer, outputBuffer.storage, inputBuffer, inputBuffer.storage
      ensures Valid()
      ensures inputBuffer.Contents() == old(inputBuffer.Contents()) + if result.Received? then result.bytes else []
      ensures result == Received([]) ==>
                && Value() == ConnectionSpec.HandleClose(old(Value()))
                && server.connections == old(server.connections) - {id}
                && loop.pendingFunctors == old(loop.pendingFunctors) + [Destroy(id)]
      ensures result != Received([]) ==>
                && Value() == (if result.Received? then OwnScript(old(Value()), onMessage) else old(Value()))
                && server.connections == old(server.connections)
                && loop.pendingFunctors
                   == old(loop.pendingFunctors)
                      + (if result.Received? then ScriptQueued(id, old(Value()), onMessage) else [])
      ensures OthersUntouched()
    {
      var n, savedErrno := inputBuffer.ReadFd(result);
      assert Value() == old(Value());
      if n > 0 {
        RunUser(onMessage);
      } else if n == 0 {
        HandleClose(server);
      }
    }

    /** Become disconnected and drop all interest, before the user is told. */
    method Disconnect()
      requires Valid() && (state == Connected || state == Disconnecting)
      modifies this`state, channel`events, channel`index, loop.poller
      ensures Valid() && 0 <= channel.index && channel.Updatable() && channel.IsNoneEvent()
      ensures Value() == DestroyBeforeCallback(old(Value()))
      ensures OthersUntouched() && loop.poller.channels == old(loop.poller.channels)
    {
      state := Disconnected;
      LinkedLookup(loop.poller, loop.poller.channelMap, loop.poller.channels, loop.poller.registry.Keys, channel.fd);
      channel.DisableAllEvents();
    }

    /** Whatever the callback tries on the connection, the channel is then removed and no assertion fails. */
    method DestroyConnection(onDown: seq<OwnAct>)
      requires Valid() && (state == Connected || state == Disconnecting)
      modifies this, channel, loop.poller, loop.poller.channels`index,
               loop`pendingFunctors, loop`wakeupCounter, loop`history, outputBuffer, outputBuffer.storage
      ensures Valid()
      ensures Value() == DestroyAfterCallback(DestroyBeforeCallback(old(Value())))
      ensures loop.pendingFunctors == old(loop.pendingFunctors) + OnlyQueued(onDown)
      ensures OthersUntouched() && channel.fd !in loop.poller.channelMap && channel.fd !in loop.poller.registry
    {
      Disconnect();
      DisconnectedIgnoresUser(id, Value(), onDown);
      RunUser(onDown);
      Unregister();
    }

    /** Leave the poller, whose assertions hold. */
    method Unregister()
      requires Valid() && state == Disconnected
      requires 0 <= channel.index && channel.Updatable() && channel.IsNoneEvent()
      modifies loop.poller, loop.poller.channels`index
      ensures Valid()
      ensures Value() == DestroyAfterCallback(old(Value()))
      ensures OthersUntouched() && channel.fd !in loop.poller.channelMap && channel.fd !in loop.poller.registry
    {
      LinkedLookup(loop.poller, loop.poller.channelMap, loop.poller.channels, loop.poller.registry.Keys, channel.fd);
      loop.poller.RemoveChannel(channel);
    }
  }

  /** The functors a callback queues itself. */
  function OnlyQueued(script: seq<OwnAct>): seq<Functor>
    decreases |script|
  {
    if script == [] then []
    else (if script[0].OwnQueue? then [User(script[0].tag)] else []) + OnlyQueued(script[1..])
  }

  lemma {:induction false} DisconnectedIgnoresUser(id: ConnId, c: Conn, script: seq<OwnAct>)
    requires c.state == Disconnected
    ensures OwnScript(c, script) == c && ScriptQueued(id, c, script) == OnlyQueued(script)
    decreases |script|
  {
    if script != [] {
      DisconnectedIgnoresUser(id, c, script[1..]);
    }
  }

  /** The next act of a script. */
  lemma ScriptTakesNext(id: ConnId, c: Conn, script: seq<OwnAct>, i: nat, pending: seq<Functor>)
    requires i < |script|
    ensures OwnScript(c, script[i..]) == OwnScript(OwnPerform(c, script[i]), script[i + 1..])
    ensures pending + ScriptQueued(id, c, script[i..])
            == pending + OwnQueued(id, c, script[i]) + ScriptQueued(id, OwnPerform(c, script[i]), script[i + 1..])
  {
    assert script[i..][0] == script[i] && script[i..][1..] == script[i + 1..];
  }

  class TcpServer {
    const loop: EventLoop
    const hasWriteCallback: bool
    var connections: map<ConnId, TcpConnection>
    var nextConnId: nat

    constructor (loop: EventLoop, hasWriteCallback: bool)
      ensures this.loop == loop && this.hasWriteCallback == hasWriteCallback
      ensures connections == map[] && nextConnId == 1
    {
      this.loop := loop;
      this.hasWriteCallback := hasWriteCallback;
      connections := map[];
      nextConnId := 1;
    }

    /** `sockfd` comes from accept(2), so no registered channel uses it. */
    method NewConnection(sockfd: nat, onUp: seq<OwnAct>) returns (conn: TcpConnection)
      requires loop.poller.Valid() && sockfd !in loop.poller.channelMap
      modifies this, loop.poller, loop`pendingFunctors, loop`wakeupCounter, loop`history
      ensures fresh(conn) && conn.Valid() && conn.id == old(nextConnId) && conn.loop == loop
      ensures conn.Value() == OwnScript(Establish(NewConn(sockfd, hasWriteCallback)), onUp)
      ensures loop.pendingFunctors
              == old(loop.pendingFunctors)
                 + ScriptQueued(conn.id, Establish(NewConn(sockfd, hasWriteCallback)), onUp)
      ensures connections == old(connections)[conn.id := conn] && nextConnId == old(nextConnId) + 1
      ensures loop.poller.registry - {sockfd} == old(loop.poller.registry) - {sockfd}
    {
      LinkedLookup(loop.poller, loop.poller.channelMap, loop.poller.channels, loop.poller.registry.Keys, sockfd);
      conn := new TcpConnection(nextConnId, loop, sockfd, hasWriteCallback);
      nextConnId := nextConnId + 1;
      connections := connections[conn.id := conn];
      conn.EstablishConnection(onUp);
    }

    method RemoveConnection(conn: TcpConnection)
      requires conn.id in connections  // the source's own assertion
      modifies this`connections, loop`pendingFunctors, loop`wakeupCounter, loop`history
      ensures connections == old(connections) - {conn.id}
      ensures loop.pendingFunctors == old(loop.pendingFunctors) + [Destroy(conn.id)]
    {
      connections := connections - {conn.id};
      loop.QueueInLoop(Destroy(conn.id), true);
    }
  }
}
