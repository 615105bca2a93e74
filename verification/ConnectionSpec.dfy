/** What one TCP connection does, as functions on values: src/tcp_connection.cpp.

    `Conn` holds the fields of a connection that its behaviour depends on, together with a record of what
    the outside world has seen of it. Every assertion of the source is kept: a function sets `failed` where
    the source would abort. `Invariant` is what every operation keeps. */
module ConnectionSpec {
  import opened Buffers
  import opened Polling
  import opened Options
  import opened Folding

  datatype State = Connecting | Connected | Disconnecting | Disconnected

  /** The channel's place in the poller: never added, registered, or removed (its index is then stale). */
  datatype Slot = Unregistered | Registered(interest: Interest) | Removed

  /** What write() answered. A count is at most what was asked for, see `Taken`. */
  datatype WriteResult = Wrote(count: nat) | WriteFailed(errno: int)

  datatype Conn = Conn(
    fd: nat,
    state: State,
    events: Mask,              // the channel's mask
    slot: Slot,                // the channel's entry in the poller
    output: seq<Byte>,         // the readable bytes of the output buffer
    hasWriteCallback: bool,
    closed: bool,              // handleClose has run
    wire: seq<Byte>,           // bytes the kernel has taken
    accepted: seq<Byte>,       // all messages given to sendInLoop, concatenated
    fins: seq<nat>,            // for each shutdown of the write side, how many bytes were still unsent
    completions: seq<nat>,     // for each write-complete callback queued, how many bytes were still unsent
    failed: bool)              // an assertion of the source did not hold

  function NewConn(fd: nat, hasWriteCallback: bool): Conn {
    Conn(fd, Connecting, NONE_EVENT, Unregistered, [], hasWriteCallback, false, [], [], [], [], false)
  }

  /** The number of bytes taken of a request; every answer a kernel may give is some `Wrote(n)` with n within
      the request, and larger counts stand for a complete write. */
  function Taken(k: WriteResult, request: nat): (n: nat)
    ensures n <= request
  {
    match k
    case Wrote(count) => if count <= request then count else request
    case WriteFailed(_) => 0
  }

  // ---------------------------------------------------------------------------------------------
  // Operations
  // ---------------------------------------------------------------------------------------------

  /** Any of the channel's mask setters. */
  function SetEvents(c: Conn, events: Mask): Conn {
    match c.slot
    case Unregistered => c.(events := events, slot := Registered(Updated(None, events)))
    case Registered(i) => c.(events := events, slot := Registered(Updated(Some(i), events)))
    case Removed => c.(events := events, failed := true)
  }

  function QueueCompletion(c: Conn): Conn {
    if c.hasWriteCallback then c.(completions := c.completions + [|c.output|]) else c
  }

  /** What of a message is written at once: only if nothing is waiting before it. */
  predicate WritesDirectly(c: Conn) {
    !c.events.pollOut && c.output == []
  }

  function TakenDirectly(c: Conn, message: seq<Byte>, k: WriteResult): (n: nat)
    ensures n <= |message|
  {
    if WritesDirectly(c) then Taken(k, |message|) else 0
  }

  function WriteDirectly(c: Conn, message: seq<Byte>, k: WriteResult): Conn {
    var n := TakenDirectly(c, message, k);
    var d := c.(wire := c.wire + message[..n], accepted := c.accepted + message);
    if WritesDirectly(c) && k.Wrote? && n == |message| then QueueCompletion(d) else d
  }

  /** The rest goes behind what the output buffer holds. */
  function BufferRest(c: Conn, rest: seq<Byte>): Conn {
    var d := c.(output := c.output + rest);
    if d.events.pollOut then d else SetEvents(d, d.events.Union(WRITE_EVENT))
  }

  function SendInLoop(c: Conn, message: seq<Byte>, k: WriteResult): Conn {
    var n := TakenDirectly(c, message, k);
    var d := WriteDirectly(c, message, k);
    if n < |message| then BufferRest(d, message[n..]) else d
  }

  function Send(c: Conn, message: seq<Byte>, k: WriteResult): Conn {
    if c.state == Connected then SendInLoop(c, message, k) else c
  }

  function ShutdownInLoop(c: Conn): Conn {
    if c.events.pollOut then c else c.(fins := c.fins + [|c.output|])
  }

  function Shutdown(c: Conn): Conn {
    if c.state == Connected then ShutdownInLoop(c.(state := Disconnecting)) else c
  }

  function Establish(c: Conn): Conn {
    SetEvents(c.(state := Connected, failed := c.failed || c.state != Connecting), c.events.Union(READ_EVENT))
  }

  /** The output buffer has just become empty. */
  function Drained(c: Conn): Conn {
    var d := QueueCompletion(SetEvents(c, c.events.(pollOut := false)));
    if d.state == Disconnecting then ShutdownInLoop(d) else d
  }

  /** The front of the output buffer has been written. */
  function Written(c: Conn, k: WriteResult): Conn {
    var n := Taken(k, |c.output|);
    c.(wire := c.wire + c.output[..n], output := c.output[n..])
  }

  function HandleWrite(c: Conn, k: WriteResult): Conn {
    if !c.events.pollOut || Taken(k, |c.output|) == 0 then c
    else if Written(c, k).output == [] then Drained(Written(c, k))
    else Written(c, k)
  }

  /** `handleClose` up to its last line, the close callback. */
  function HandleClose(c: Conn): Conn {
    SetEvents(c.(closed := true, failed := c.failed || !(c.state == Connected || c.state == Disconnecting)),
              NONE_EVENT)
  }

  /** `destroyConnection` up to the connection callback. */
  function DestroyBeforeCallback(c: Conn): Conn {
    SetEvents(c.(state := Disconnected, failed := c.failed || !(c.state == Connected || c.state == Disconnecting)),
              NONE_EVENT)
  }

  /** The rest of it: `removeChannel`, with its assertions. */
  function DestroyAfterCallback(c: Conn): Conn {
    c.(slot := Removed,
       failed := c.failed || !(c.slot.Registered? && c.events == NONE_EVENT && c.slot.interest.events == c.events))
  }

  // ---------------------------------------------------------------------------------------------
  // The invariant
  // ---------------------------------------------------------------------------------------------

  /** Established and not yet closed. */
  predicate Open(c: Conn) {
    (c.state == Connected || c.state == Disconnecting) && !c.closed
  }

  /** The mask of an open connection: always reading, writing exactly while bytes are buffered. */
  function OpenMask(c: Conn): Mask {
    if c.output == [] then READ_EVENT else READ_EVENT.Union(WRITE_EVENT)
  }

  predicate Coherent(c: Conn) {
    && !c.failed
    // nothing lost, duplicated or reordered
    && c.wire + c.output == c.accepted
    // the write side is shut down at most once, after shutdown() and never while writing
    && |c.fins| <= 1
    && (c.fins != [] ==> (c.state == Disconnecting || c.state == Disconnected) && !c.events.pollOut)
    // ... and, before close, exactly when everything has been sent
    && (!c.closed ==> forall f :: f in c.fins ==> f == 0)
    && (c.state == Disconnecting && !c.closed ==> (c.fins == [] <==> c.output != []))
    && (forall f :: f in c.completions ==> f == 0)
    && match c.state {
         case Connecting =>
           c.slot == Unregistered && c.events == NONE_EVENT && c.output == [] && !c.closed
         case Disconnected =>
           c.events == NONE_EVENT && (c.slot == Removed || c.slot == Registered(Interest(NONE_EVENT, true)))
         case _ =>
           if c.closed then
             && c.slot == Registered(Interest(c.events, true))
             && (c.events == NONE_EVENT || (c.events == WRITE_EVENT && c.output != []))
           else
             c.slot == Registered(Interest(c.events, false)) && c.events == OpenMask(c)
       }
  }

  /** `Coherent`, folded. */
  ghost predicate Invariant(c: Conn) {
    forall key {:trigger Unfold(key)} :: Unfold(key) ==> Coherent(c)
  }

  lemma InvariantMeans(c: Conn)
    ensures Invariant(c) <==> Coherent(c)
  {
    assert Unfold(0);
  }

  function Rank(s: State): nat {
    match s
    case Connecting => 0
    case Connected => 1
    case Disconnecting => 2
    case Disconnected => 3
  }

  /** How a connection may change: forward only, and what the outside has seen is never taken back. */
  predicate AdvancesTo(c: Conn, d: Conn) {
    && d.fd == c.fd && d.hasWriteCallback == c.hasWriteCallback
    && Rank(c.state) <= Rank(d.state)
    && (c.closed ==> d.closed)
    && (c.failed ==> d.failed)
    && c.wire <= d.wire
    && c.accepted <= d.accepted
    && c.fins <= d.fins
    && c.completions <= d.completions
    // no byte is accepted after shutdown()
    && (Rank(c.state) >= Rank(Disconnecting) ==> d.accepted == c.accepted)
    // a shutdown of the write side is for good
    && (c.fins != [] ==> d.fins == c.fins && d.wire == c.wire)
  }

  /** `AdvancesTo`, folded. */
  ghost predicate Advances(c: Conn, d: Conn) {
    forall key {:trigger Unfold(key)} :: Unfold(key) ==> AdvancesTo(c, d)
  }

  lemma AdvancesMeans(c: Conn, d: Conn)
    ensures Advances(c, d) <==> AdvancesTo(c, d)
  {
    assert Unfold(0);
  }

  lemma AdvancesIsTransitive(a: Conn, b: Conn, c: Conn)
    requires Advances(a, b) && Advances(b, c)
    ensures Advances(a, c)
  {
    assert Unfold(0);
  }

  lemma NewConnHolds(fd: nat, hasWriteCallback: bool)
    ensures var c := NewConn(fd, hasWriteCallback);
            Invariant(c) && c.fd == fd && c.hasWriteCallback == hasWriteCallback
  {
    assert Unfold(0);
  }

  lemma EstablishKeeps(c: Conn)
    requires Invariant(c) && c.state == Connecting
    ensures var d := Establish(c);
            && Invariant(d) && Advances(c, d) && d.state == Connected && Open(d)
            && d.events.pollIn && d.events.pollPri && !d.events.pollOut
  {
    assert Unfold(0);
  }

  /** What is written at once is the front of the message, after everything sent before. */
  lemma WriteDirectlyConserves(c: Conn, message: seq<Byte>, k: WriteResult)
    requires c.wire + c.output == c.accepted
    ensures var n, d := TakenDirectly(c, message, k), WriteDirectly(c, message, k);
            && d.wire + (c.output + message[n..]) == d.accepted == c.accepted + message
            && c.wire <= d.wire
            && (d.completions == c.completions || (d.completions == c.completions + [0] && c.output == []))
            && d == c.(wire := d.wire, accepted := d.accepted, completions := d.completions)
  {
    var n := TakenDirectly(c, message, k);
    assert message == message[..n] + message[n..];
    if WritesDirectly(c) {
      assert c.wire + [] == c.wire;
      assert c.wire + message[..n] + ([] + message[n..]) == c.wire + message;
    } else {
      assert message[..0] == [] && c.wire + [] == c.wire && message[0..] == message;
      assert c.wire + (c.output + message) == c.wire + c.output + message;
    }
  }

  /** Bytes the kernel takes at once and bytes buffered behind earlier ones stay in order. */
  lemma SendUpdates(c: Conn, message: seq<Byte>, k: WriteResult)
    requires c.slot.Registered? && c.wire + c.output == c.accepted
    ensures var d := SendInLoop(c, message, k);
            && d.wire + d.output == d.accepted == c.accepted + message
            && c.wire <= d.wire
            && (d.completions == c.completions || d.completions == c.completions + [0])
            && (if d.output == c.output
                then d == c.(wire := d.wire, accepted := d.accepted, completions := d.completions)
                else d == SetEvents(c.(wire := d.wire, accepted := d.accepted, completions := d.completions,
                                       output := d.output),
                                    c.events.Union(WRITE_EVENT))
                     || (c.events.pollOut
                         && d == c.(wire := d.wire, accepted := d.accepted, completions := d.completions,
                                    output := d.output)))
            && (d.output == [] ==> c.output == [])
  {
    WriteDirectlyConserves(c, message, k);
    var n := TakenDirectly(c, message, k);
    if n == |message| {
      assert c.output + message[n..] == c.output;
    } else {
      assert |c.output + message[n..]| > |c.output|;
    }
  }

  lemma SentIsCoherent(c: Conn, message: seq<Byte>, k: WriteResult)
    requires Invariant(c) && c.state == Connected
    ensures Invariant(SendInLoop(c, message, k))
  {
    assert Unfold(0);
    SendUpdates(c, message, k);
  }

  lemma SentAdvances(c: Conn, message: seq<Byte>, k: WriteResult)
    requires Invariant(c) && c.state == Connected
    ensures var d := SendInLoop(c, message, k);
            && Advances(c, d) && d.state == c.state && d.closed == c.closed
            && d.accepted == c.accepted + message
            && d.slot.Registered? && c.slot.Registered?
            && (d.completions == c.completions || d.completions == c.completions + [0])
  {
    assert Unfold(0);
    SendUpdates(c, message, k);
  }

  lemma SendKeeps(c: Conn, message: seq<Byte>, k: WriteResult)
    requires Invariant(c)
    ensures var d := Send(c, message, k);
            && Invariant(d) && Advances(c, d) && d.state == c.state && d.closed == c.closed
            && d.accepted == c.accepted + (if c.state == Connected then message else [])
            && (d.slot == Removed <==> c.slot == Removed)
            && (d.completions == c.completions || d.completions == c.completions + [0])
  {
    if c.state == Connected {
      SentIsCoherent(c, message, k);
      SentAdvances(c, message, k);
    } else {
      AdvancesMeans(c, c);
      assert c.accepted + [] == c.accepted;
    }
  }

  lemma ShutdownKeeps(c: Conn)
    requires Invariant(c)
    ensures var d := Shutdown(c);
            && Invariant(d) && Advances(c, d) && d.closed == c.closed
            && d.accepted == c.accepted && d.wire == c.wire && d.output == c.output
            && d.slot == c.slot && d.completions == c.completions
            && (c.state == Connected <==> d.state == Disconnecting && c.state != d.state)
  {
    assert Unfold(0);
  }

  /** Writing moves bytes from the front of the buffer to the wire. */
  lemma WrittenConserves(c: Conn, k: WriteResult)
    requires c.wire + c.output == c.accepted
    ensures var d := Written(c, k);
            d.wire + d.output == d.accepted && c.wire <= d.wire && d == c.(wire := d.wire, output := d.output)
  {
    var n := Taken(k, |c.output|);
    assert c.output[..n] + c.output[n..] == c.output;
    assert c.wire + c.output[..n] + c.output[n..] == c.accepted;
  }

  lemma HandleWriteKeeps(c: Conn, k: WriteResult)
    requires Invariant(c)
    ensures var d := HandleWrite(c, k);
            && Invariant(d) && Advances(c, d) && d.state == c.state && d.closed == c.closed
            && d.accepted == c.accepted
            && (d.slot == Removed <==> c.slot == Removed)
            && (d.completions == c.completions || d.completions == c.completions + [0])
  {
    assert Unfold(0);
    WrittenConserves(c, k);
    if c.events.pollOut && Taken(k, |c.output|) > 0 && Written(c, k).output == [] {
      assert Drained(Written(c, k)).events == c.events.(pollOut := false);
    }
  }

  lemma HandleCloseKeeps(c: Conn)
    requires Invariant(c) && Open(c)
    ensures var d := HandleClose(c);
            && Invariant(d) && Advances(c, d) && d.state == c.state && d.closed && d.slot.Registered?
            && d.completions == c.completions
  {
    assert Unfold(0);
  }

  /** `destroyConnection`: whatever was done to the connection between its close and now, the assertions of
      `removeChannel` hold, because the callback in the middle finds it disconnected and so changes nothing. */
  lemma DestroyKeeps(c: Conn)
    requires Invariant(c) && (c.state == Connected || c.state == Disconnecting)
    ensures var d := DestroyBeforeCallback(c);
            && Invariant(d) && Advances(c, d) && d.state == Disconnected && d.closed == c.closed
            && d.slot == Registered(Interest(NONE_EVENT, true)) && d.events == NONE_EVENT
            && d.completions == c.completions
            && (forall message, k :: Send(d, message, k) == d) && Shutdown(d) == d
            && Invariant(DestroyAfterCallback(d)) && Advances(d, DestroyAfterCallback(d))
  {
    assert Unfold(0);
  }

  // ---------------------------------------------------------------------------------------------
  // Write-complete callbacks
  // ---------------------------------------------------------------------------------------------

  /** What a send does to the bytes, on an open connection: with nothing waiting, the kernel's share of the message
      is sent and exactly the rest waits; otherwise, or if the write fails, all of it waits behind what is there. */
  lemma SendMeans(c: Conn, message: seq<Byte>, k: WriteResult)
    requires Invariant(c) && Open(c) && c.state == Connected
    ensures var d := Send(c, message, k);
            && (c.output == [] && k.Wrote? && k.count <= |message| ==>
                  d.wire == c.wire + message[..k.count] && d.output == message[k.count..])
            && (c.output == [] && k.Wrote? && |message| < k.count ==> d.wire == c.wire + message && d.output == [])
            && (c.output != [] || k.WriteFailed? ==> d.wire == c.wire && d.output == c.output + message)
  {
    InvariantMeans(c);
    var d := Send(c, message, k);
    assert message[..0] == [] && message[0..] == message && c.wire + [] == c.wire && c.output + [] == c.output;
    assert message[..|message|] == message && message[|message|..] == [];
    assert [] + message == message;
    if c.output == [] && k.Wrote? && k.count <= |message| {
      assert [] + message[k.count..] == message[k.count..];
    }
  }

  /** What draining does to them: the kernel's share leaves the front of the buffer for the wire; a failed write
      moves nothing. */
  lemma HandleWriteMeans(c: Conn, k: WriteResult)
    requires Invariant(c) && Open(c)
    ensures var d := HandleWrite(c, k);
            && (k.Wrote? && k.count <= |c.output| ==>
                  d.wire == c.wire + c.output[..k.count] && d.output == c.output[k.count..])
            && (k.Wrote? && |c.output| < k.count ==> d.wire == c.wire + c.output && d.output == [])
            && (k.WriteFailed? ==> d == c)
  {
    InvariantMeans(c);
    assert c.output[..0] == [] && c.output[0..] == c.output && c.wire + [] == c.wire;
    assert c.output[..|c.output|] == c.output && c.output[|c.output|..] == [];
  }

  /** A send tells the user at once exactly when nothing was waiting before the message and the kernel took all
      of it, if there is a callback to tell; then everything accepted has been sent. */
  lemma SendCompletesIff(c: Conn, message: seq<Byte>, k: WriteResult)
    requires Invariant(c) && Open(c)
    ensures var d := Send(c, message, k);
            && (d.completions != c.completions <==>
                  c.hasWriteCallback && c.state == Connected && c.output == [] && k.Wrote? && |message| <= k.count)
            && (d.completions != c.completions ==> d.output == [] && d.wire == d.accepted == c.accepted + message)
  {
    SendKeeps(c, message, k);
    InvariantMeans(c);
    InvariantMeans(Send(c, message, k));
    if c.state == Connected && c.output == [] && k.Wrote? && |message| <= k.count {
      var d := Send(c, message, k);
      assert d.output == [];
      assert d.wire + [] == d.wire;
      assert c.hasWriteCallback ==> |d.completions| == |c.completions| + 1;
    }
  }

  /** Draining tells the user exactly when it empties the output buffer, that is, when what was sent catches up
      with what was accepted. */
  lemma HandleWriteCompletesIff(c: Conn, k: WriteResult)
    requires Invariant(c) && Open(c)
    ensures var d := HandleWrite(c, k);
            d.completions != c.completions <==> c.hasWriteCallback && c.wire != c.accepted && d.wire == d.accepted
  {
    HandleWriteKeeps(c, k);
    InvariantMeans(c);
    var d := HandleWrite(c, k);
    InvariantMeans(d);
    assert c.wire == c.accepted <==> c.output == [] by {
      assert |c.wire| + |c.output| == |c.accepted|;
      assert c.wire + [] == c.wire;
    }
    assert d.wire == d.accepted <==> d.output == [] by {
      assert |d.wire| + |d.output| == |d.accepted|;
      assert d.wire + [] == d.wire;
    }
    assert c.wire + c.output[..0] == c.wire;
    if c.output != [] && d.output == [] {
      assert c.hasWriteCallback ==> |d.completions| == |c.completions| + 1;
    }
  }

  // ---------------------------------------------------------------------------------------------
  // Shutting down the write side
  // ---------------------------------------------------------------------------------------------

  /** A shutdown of the write side now would cut off bytes that were accepted but not sent. */
  predicate LosesBytes(c: Conn) {
    exists f :: f in Shutdown(c).fins && f !in c.fins && f > 0
  }

  datatype SendCall = SendCall(message: seq<Byte>, k: WriteResult)

  function SendAll(c: Conn, sends: seq<SendCall>): Conn
    decreases |sends|
  {
    if sends == [] then c else SendAll(Send(c, sends[0].message, sends[0].k), sends[1..])
  }

  lemma LosesBytesIff(c: Conn)
    requires Invariant(c)
    ensures LosesBytes(c) <==> c.state == Connected && !c.events.pollOut && c.output != []
  {
    assert Unfold(0);
    if c.state == Connected && !c.events.pollOut && c.output != [] {
      assert Shutdown(c).fins == [|c.output|];
      assert |c.output| in Shutdown(c).fins;
    }
  }

  /** A connection that was closed with output left keeps losing it until a byte is sent. */
  lemma SendAfterClose(c: Conn, message: seq<Byte>, k: WriteResult)
    requires Invariant(c) && c.closed && c.state == Connected
    ensures var d := Send(c, message, k);
            && Invariant(d) && d.closed && d.state == Connected
            && (LosesBytes(d) <==> LosesBytes(c) && message == [])
  {
    SendKeeps(c, message, k);
    var d := Send(c, message, k);
    LosesBytesIff(c);
    LosesBytesIff(d);
    InvariantMeans(c);
    InvariantMeans(d);
    assert message[..0] == [] && message[0..] == message;
    if c.output == [] && d.output != [] {
      assert !c.events.pollOut;
    }
  }

  lemma {:induction false} SendsAfterClose(c: Conn, sends: seq<SendCall>)
    requires Invariant(c) && c.closed && c.state == Connected
    ensures LosesBytes(SendAll(c, sends))
            <==> LosesBytes(c) && forall i :: 0 <= i < |sends| ==> sends[i].message == []
    decreases |sends|
  {
    if sends != [] {
      SendAfterClose(c, sends[0].message, sends[0].k);
      SendsAfterClose(Send(c, sends[0].message, sends[0].k), sends[1..]);
      assert forall i :: 1 <= i < |sends| ==> sends[i] == sends[1..][i - 1];
    }
  }

  lemma {:induction false} SendsKeepOpen(c: Conn, sends: seq<SendCall>)
    requires Invariant(c) && Open(c)
    ensures Invariant(SendAll(c, sends)) && Open(SendAll(c, sends))
    decreases |sends|
  {
    if sends != [] {
      SendKeeps(c, sends[0].message, sends[0].k);
      SendsKeepOpen(Send(c, sends[0].message, sends[0].k), sends[1..]);
    }
  }

  /** When `shutdown()` cuts off bytes that were accepted: exactly if the connection has been closed with output
      left and nothing was sent since. `closes` says whether the peer was lost before the calls of send. */
  lemma ShutdownLosesBytesIff(c: Conn, closes: bool, sends: seq<SendCall>)
    requires Invariant(c) && Open(c) && c.state == Connected
    ensures LosesBytes(SendAll(if closes then HandleClose(c) else c, sends))
            <==> closes && c.output != [] && forall i :: 0 <= i < |sends| ==> sends[i].message == []
  {
    if closes {
      HandleCloseKeeps(c);
      LosesBytesIff(HandleClose(c));
      InvariantMeans(c);
      SendsAfterClose(HandleClose(c), sends);
    } else {
      SendsKeepOpen(c, sends);
      LosesBytesIff(SendAll(c, sends));
      InvariantMeans(SendAll(c, sends));
    }
  }

  function HandleWrites(c: Conn, ks: seq<WriteResult>): Conn
    decreases |ks|
  {
    if ks == [] then c else HandleWrites(HandleWrite(c, ks[0]), ks[1..])
  }

  function Successes(ks: seq<WriteResult>): nat {
    if ks == [] then 0
    else (if ks[0].Wrote? && ks[0].count > 0 then 1 else 0) + Successes(ks[1..])
  }

  /** A shutdown that had to wait: however the failures fall, it takes place after at most as many successful
      writes as there are bytes buffered, and then everything accepted has been sent. */
  lemma {:induction false} DeferredShutdownHappens(c: Conn, ks: seq<WriteResult>)
    requires Invariant(c) && c.state == Disconnecting && !c.closed
    requires |c.output| <= Successes(ks)
    ensures var d := HandleWrites(c, ks);
            d.fins == [0] && d.output == [] && d.wire == c.accepted && d.state == Disconnecting
    decreases |ks|
  {
    assert Unfold(0);
    HandleWriteKeeps(c, if ks == [] then Wrote(0) else ks[0]);
    if c.output == [] {
      assert c.fins == [c.fins[0]] && c.fins[0] in c.fins;
      NoMoreWrites(c, ks);
      assert c.wire + [] == c.wire;
    } else {
      DeferredShutdownHappens(HandleWrite(c, ks[0]), ks[1..]);
    }
  }

  lemma {:induction false} NoMoreWrites(c: Conn, ks: seq<WriteResult>)
    requires !c.events.pollOut
    ensures HandleWrites(c, ks) == c
    decreases |ks|
  {
    if ks != [] {
      NoMoreWrites(c, ks[1..]);
    }
  }
}
