/** What every run of the single-loop server keeps. */
module ServerSafety {
  import opened Buffers
  import opened Polling
  import opened ConnectionSpec
  import opened ServerSpec
  import opened Options
  import opened Folding

  // ---------------------------------------------------------------------------------------------
  // The life of a connection as its user sees it
  // ---------------------------------------------------------------------------------------------

  /** Unseen, then reported up, then reported down; anything else is broken. */
  datatype Stage = Unseen | Live | Ended | Broken

  function Advance(stage: Stage, r: Report): Stage {
    match (stage, r)
    case (Unseen, Up(_)) => Live
    case (Live, Message(_)) => Live
    case (Live, Down(_)) => Ended
    case _ => Broken
  }

  function StageOf(log: seq<Report>, id: ConnId): Stage {
    if log == [] then Unseen
    else
      var n := |log| - 1;
      if log[n].id == id then Advance(StageOf(log[..n], id), log[n]) else StageOf(log[..n], id)
  }

  /** The stage says which reports there have been. */
  lemma {:induction false} StageSeen(log: seq<Report>, id: ConnId)
    requires StageOf(log, id) != Broken
    ensures StageOf(log, id) == Unseen <==> forall i :: 0 <= i < |log| ==> log[i].id != id
    ensures StageOf(log, id) == Unseen <==> Up(id) !in log
    ensures StageOf(log, id) == Ended <==> Down(id) in log
  {
    if log != [] {
      var n := |log| - 1;
      StageSeen(log[..n], id);
      assert log == log[..n] + [log[n]];
      assert forall i :: 0 <= i < n ==> log[i] == log[..n][i];
    }
  }

  /** Of two reports the earlier is not a down and the later is not an up. */
  predicate OneLife(log: seq<Report>, id: ConnId) {
    forall i, j :: 0 <= i < j < |log| && log[i].id == id && log[j].id == id ==> !log[i].Down? && !log[j].Up?
  }

  lemma {:induction false} StageMeansOneLife(log: seq<Report>, id: ConnId)
    requires StageOf(log, id) != Broken
    ensures OneLife(log, id)
  {
    if log != [] {
      var n := |log| - 1;
      StageMeansOneLife(log[..n], id);
      StageSeen(log[..n], id);
      assert forall i :: 0 <= i < n ==> log[i] == log[..n][i] && log[i] in log[..n];
    }
  }

  lemma {:induction false} PrefixIsNotBroken(log: seq<Report>, id: ConnId, i: nat)
    requires StageOf(log, id) != Broken && i <= |log|
    ensures StageOf(log[..i], id) != Broken
  {
    if i < |log| {
      var n := |log| - 1;
      PrefixIsNotBroken(log[..n], id, i);
      assert log[..n][..i] == log[..i];
    } else {
      assert log[..i] == log;
    }
  }

  lemma UpComesFirst(log: seq<Report>, id: ConnId, i: nat)
    requires StageOf(log, id) != Broken && i < |log| && log[i].id == id && !log[i].Up?
    ensures exists u :: 0 <= u < i && log[u] == Up(id)
  {
    PrefixIsNotBroken(log, id, i);
    PrefixIsNotBroken(log, id, i + 1);
    assert log[..i + 1][..i] == log[..i];
    StageSeen(log[..i], id);
    var u :| 0 <= u < i && log[..i][u] == Up(id);
    assert log[u] == Up(id);
  }

  /** What the stages mean: reported up at one place, down at no more than one, messages only in between. */
  lemma StageMeansOnce(log: seq<Report>, id: ConnId)
    requires StageOf(log, id) != Broken
    ensures StageOf(log, id) == Unseen <==> forall i :: 0 <= i < |log| ==> log[i].id != id
    ensures StageOf(log, id) == Ended <==> Down(id) in log
    ensures forall i, j :: (0 <= i < |log| && 0 <= j < |log| && log[i] == log[j]
                            && log[i].id == id && !log[i].Message?) ==> i == j
    ensures forall i :: 0 <= i < |log| && log[i].id == id && !log[i].Up? ==>
              exists u :: 0 <= u < i && log[u] == Up(id)
    ensures forall i, d :: 0 <= i < |log| && 0 <= d < |log| && log[i].id == id && log[d] == Down(id) ==> i <= d
  {
    StageSeen(log, id);
    StageMeansOneLife(log, id);
    forall i | 0 <= i < |log| && log[i].id == id && !log[i].Up?
      ensures exists u :: 0 <= u < i && log[u] == Up(id)
    {
      UpComesFirst(log, id, i);
    }
  }

  // ---------------------------------------------------------------------------------------------
  // The invariant
  // ---------------------------------------------------------------------------------------------

  predicate Phases(s: Server) {
    && !s.failed
    && s.ran <= |s.batch|
    && s.next <= |s.active|
    && (s.phase != Running ==> s.batch == [])
    && (s.phase != Dispatching ==> s.active == [] && forall f :: f in s.pending ==> !f.Destroy?)
  }

  /** One connection; `busy` is the one whose destroyConnection is running, if any. */
  ghost predicate ConnOk(c: Conn, id: ConnId, inServer: bool, busy: Option<ConnId>) {
    && Invariant(c) && !c.failed
    && c.state != Connecting
    && (c.closed <==> !inServer)
    && (c.state == Disconnected ==> c.closed)
    && (c.slot == Removed ==> c.state == Disconnected)
    && (c.state == Disconnected && busy != Some(id) ==> c.slot == Removed)
  }

  ghost predicate ConnsOk(s: Server, busy: Option<ConnId>) {
    forall key {:trigger Unfold(key)} :: Unfold(key) ==>
      && (forall id :: id in s.conns ==> id < s.nextId && ConnOk(s.conns[id], id, id in s.connections, busy))
      && s.connections <= s.conns.Keys
  }

  /** The channel map holds exactly the registered connections, under their descriptors. */
  ghost predicate ChannelsOk(s: Server) {
    forall key {:trigger Unfold(key)} :: Unfold(key) ==>
      && (forall fd :: fd in s.channelMap ==>
            && s.channelMap[fd] in s.conns
            && s.conns[s.channelMap[fd]].fd == fd
            && s.conns[s.channelMap[fd]].slot != Removed)
      && (forall id :: id in s.conns && s.conns[id].slot != Removed ==>
            s.conns[id].fd in s.channelMap && s.channelMap[s.conns[id].fd] == id)
  }

  /** How many destroyConnection functors for `id` are still to run. */
  function DestroysDue(s: Server, id: ConnId): nat {
    multiset(s.pending)[Destroy(id)]
    + (if s.ran <= |s.batch| then multiset(s.batch[s.ran..])[Destroy(id)] else 0)
  }

  predicate AwaitsDestroy(s: Server, id: ConnId) {
    id in s.conns && s.conns[id].closed && s.conns[id].state != Disconnected
  }

  predicate DestroyOk(s: Server, id: ConnId) {
    DestroysDue(s, id) == if AwaitsDestroy(s, id) then 1 else 0
  }

  /** Exactly one for each closed connection that is not yet disconnected, none for any other. */
  ghost predicate DestroysOk(s: Server) {
    forall key {:trigger Unfold(key)} :: Unfold(key) ==> forall id: ConnId :: DestroyOk(s, id)
  }

  /** Every active channel is registered; those still to be dispatched are open. */
  ghost predicate ActiveOk(s: Server) {
    forall key {:trigger Unfold(key)} :: Unfold(key) ==>
      && (forall j :: 0 <= j < |s.active| && s.active[j].ConnReady? ==>
            && s.active[j].id in s.conns
            && s.conns[s.active[j].id].state != Disconnected
            && (s.next <= j ==> !s.conns[s.active[j].id].closed))
      && (forall i, j :: 0 <= i < j < |s.active| && s.active[i].ConnReady? && s.active[j].ConnReady? ==>
            s.active[i].id != s.active[j].id)
  }

  function ExpectedStage(s: Server, id: ConnId): Stage {
    if id !in s.conns then Unseen else if s.conns[id].state == Disconnected then Ended else Live
  }

  ghost predicate StagesOk(s: Server) {
    forall key {:trigger Unfold(key)} :: Unfold(key) ==>
      forall id: ConnId :: StageOf(s.log, id) == ExpectedStage(s, id)
  }

  /** How often a functor has been queued: it is pending, in the rest of the batch, or started. */
  function Tally(s: Server, f: Functor): nat {
    multiset(s.pending)[f]
    + (if s.ran <= |s.batch| then multiset(s.batch[s.ran..])[f] else 0)
    + multiset(s.executed)[f]
  }

  predicate CompletionOk(s: Server, id: ConnId) {
    Tally(s, WriteComplete(id)) == if id in s.conns then |s.conns[id].completions| else 0
  }

  /** Every write-complete callback a connection asked for is in the queue or has been started, once. */
  ghost predicate CompletionsOk(s: Server) {
    forall key {:trigger Unfold(key)} :: Unfold(key) ==> forall id: ConnId :: CompletionOk(s, id)
  }

  ghost predicate InvAt(s: Server, busy: Option<ConnId>) {
    && Phases(s) && ConnsOk(s, busy) && ChannelsOk(s) && DestroysOk(s) && CompletionsOk(s)
    && ActiveOk(s) && StagesOk(s)
  }

  ghost predicate Inv(s: Server) {
    InvAt(s, None)
  }

  /** How the server may change: connections only advance, reports are only added. */
  ghost predicate Evolves(s: Server, t: Server) {
    forall key {:trigger Unfold(key)} :: Unfold(key) ==>
      && (forall id :: id in s.conns ==> id in t.conns && Advances(s.conns[id], t.conns[id]))
      && s.log <= t.log
      && s.nextId <= t.nextId
  }

  lemma EvolvesIsTransitive(a: Server, b: Server, c: Server)
    requires Evolves(a, b) && Evolves(b, c)
    ensures Evolves(a, c)
  {
    assert Unfold(0);
    forall id | id in a.conns
      ensures id in c.conns && Advances(a.conns[id], c.conns[id])
    {
      AdvancesIsTransitive(a.conns[id], b.conns[id], c.conns[id]);
    }
  }

  // ---------------------------------------------------------------------------------------------
  // What the parts say of one connection
  // ---------------------------------------------------------------------------------------------

  lemma ConnMeans(s: Server, busy: Option<ConnId>, id: ConnId)
    requires ConnsOk(s, busy) && id in s.conns
    ensures id < s.nextId && ConnOk(s.conns[id], id, id in s.connections, busy)
  {
    assert Unfold(0);
  }

  lemma NextIdIsNew(s: Server, busy: Option<ConnId>)
    requires ConnsOk(s, busy)
    ensures s.nextId !in s.conns
  {
    assert Unfold(0);
  }

  lemma DestroyMeans(s: Server, id: ConnId)
    requires DestroysOk(s)
    ensures DestroyOk(s, id)
  {
    assert Unfold(0);
  }

  lemma CompletionMeans(s: Server, id: ConnId)
    requires CompletionsOk(s)
    ensures CompletionOk(s, id)
  {
    assert Unfold(0);
  }

  lemma StageMeans(s: Server, id: ConnId)
    requires StagesOk(s)
    ensures StageOf(s.log, id) == ExpectedStage(s, id)
  {
    assert Unfold(0);
  }

  // ---------------------------------------------------------------------------------------------
  // What a change of one connection, or of none, does to each part
  // ---------------------------------------------------------------------------------------------

  predicate Changes(s: Server, t: Server, id: ConnId, c: Conn) {
    t.conns == s.conns[id := c]
  }

  lemma ConnsAfter(s: Server, t: Server, id: ConnId, c: Conn, busy: Option<ConnId>, busy': Option<ConnId>)
    requires ConnsOk(s, busy) && Changes(s, t, id, c)
    requires s.nextId <= t.nextId && id < t.nextId
    requires t.connections == s.connections || t.connections == s.connections + {id}
             || t.connections == s.connections - {id}
    requires ConnOk(c, id, id in t.connections, busy')
    requires busy == busy' || busy == Some(id) || busy == None
    ensures ConnsOk(t, busy')
  {
    assert Unfold(0);
  }

  lemma ChannelsAfterUpdate(s: Server, t: Server, id: ConnId, c: Conn)
    requires ChannelsOk(s) && id in s.conns && Changes(s, t, id, c) && t.channelMap == s.channelMap
    requires c.fd == s.conns[id].fd && (c.slot == Removed <==> s.conns[id].slot == Removed)
    ensures ChannelsOk(t)
  {
    assert Unfold(0);
  }

  lemma ChannelsAfterAdd(s: Server, t: Server, id: ConnId, c: Conn)
    requires ChannelsOk(s) && id !in s.conns && Changes(s, t, id, c) && c.slot != Removed
    requires c.fd !in s.channelMap && t.channelMap == s.channelMap[c.fd := id]
    ensures ChannelsOk(t)
  {
    assert Unfold(0);
  }

  lemma ChannelsAfterRemove(s: Server, t: Server, id: ConnId, c: Conn)
    requires ChannelsOk(s) && id in s.conns && Changes(s, t, id, c)
    requires s.conns[id].slot != Removed && c.slot == Removed && c.fd == s.conns[id].fd
    requires t.channelMap == s.channelMap - {c.fd}
    ensures ChannelsOk(t) && c.fd in s.channelMap && s.channelMap[c.fd] == id
  {
    assert Unfold(0);
  }

  lemma DueAfterQueue(s: Server, t: Server, f: Functor, id: ConnId)
    requires t.pending == s.pending + [f] && t.batch == s.batch && t.ran == s.ran && t.executed == s.executed
    ensures DestroysDue(t, id) == DestroysDue(s, id) + if f == Destroy(id) then 1 else 0
    ensures Tally(t, WriteComplete(id)) == Tally(s, WriteComplete(id)) + if f == WriteComplete(id) then 1 else 0
  {
  }

  /** Taking the next functor off the batch. */
  lemma DueAfterTake(s: Server, t: Server, id: ConnId)
    requires s.ran < |s.batch| && t.pending == s.pending && t.batch == s.batch && t.ran == s.ran + 1
    requires t.executed == s.executed + [s.batch[s.ran]]
    ensures DestroysDue(t, id) == DestroysDue(s, id) - if s.batch[s.ran] == Destroy(id) then 1 else 0
    ensures Tally(t, WriteComplete(id)) == Tally(s, WriteComplete(id))
  {
    assert s.batch[s.ran..] == [s.batch[s.ran]] + s.batch[s.ran + 1..];
  }

  lemma DestroysAfter(s: Server, t: Server, id: ConnId, c: Conn)
    requires DestroysOk(s) && Changes(s, t, id, c)
    requires forall other: ConnId :: other != id ==> DestroysDue(t, other) == DestroysDue(s, other)
    requires DestroyOk(t, id)
    ensures DestroysOk(t)
  {
    forall other: ConnId
      ensures DestroyOk(t, other)
    {
      DestroyMeans(s, other);
      assert other != id ==> AwaitsDestroy(t, other) == AwaitsDestroy(s, other);
    }
  }

  lemma DestroysAfterNone(s: Server, t: Server)
    requires DestroysOk(s) && t.conns == s.conns
    requires forall other: ConnId :: DestroysDue(t, other) == DestroysDue(s, other)
    ensures DestroysOk(t)
  {
    forall other: ConnId
      ensures DestroyOk(t, other)
    {
      DestroyMeans(s, other);
      assert AwaitsDestroy(t, other) == AwaitsDestroy(s, other);
    }
  }

  lemma CompletionsAfter(s: Server, t: Server, id: ConnId, c: Conn)
    requires CompletionsOk(s) && Changes(s, t, id, c)
    requires forall other: ConnId :: other != id ==> Tally(t, WriteComplete(other)) == Tally(s, WriteComplete(other))
    requires CompletionOk(t, id)
    ensures CompletionsOk(t)
  {
    forall other: ConnId
      ensures CompletionOk(t, other)
    {
      CompletionMeans(s, other);
    }
  }

  lemma CompletionsAfterNone(s: Server, t: Server)
    requires CompletionsOk(s) && t.conns == s.conns
    requires forall id: ConnId :: Tally(t, WriteComplete(id)) == Tally(s, WriteComplete(id))
    ensures CompletionsOk(t)
  {
    forall id: ConnId
      ensures CompletionOk(t, id)
    {
      CompletionMeans(s, id);
    }
  }

  /** A step that leaves the queue, the batch and the connections' completions alone. */
  lemma SameQueue(s: Server, t: Server, id: ConnId, c: Conn)
    requires DestroysOk(s) && CompletionsOk(s) && Changes(s, t, id, c)
    requires t.pending == s.pending && t.batch == s.batch && t.ran == s.ran && t.executed == s.executed
    requires AwaitsDestroy(t, id) == AwaitsDestroy(s, id)
    requires |c.completions| == if id in s.conns then |s.conns[id].completions| else 0
    ensures DestroysOk(t) && CompletionsOk(t)
  {
    DestroyMeans(s, id);
    CompletionMeans(s, id);
    assert forall other: ConnId :: DestroysDue(t, other) == DestroysDue(s, other);
    assert forall other: ConnId :: Tally(t, WriteComplete(other)) == Tally(s, WriteComplete(other));
    DestroysAfter(s, t, id, c);
    CompletionsAfter(s, t, id, c);
  }

  /** The same without a change of any connection. */
  lemma SameQueueNone(s: Server, t: Server)
    requires DestroysOk(s) && CompletionsOk(s) && t.conns == s.conns
    requires t.pending == s.pending && t.batch == s.batch && t.ran == s.ran && t.executed == s.executed
    ensures DestroysOk(t) && CompletionsOk(t)
  {
    assert forall other: ConnId :: DestroysDue(t, other) == DestroysDue(s, other);
    assert forall other: ConnId :: Tally(t, WriteComplete(other)) == Tally(s, WriteComplete(other));
    DestroysAfterNone(s, t);
    CompletionsAfterNone(s, t);
  }

  /** `id` is not in the rest of the active list. */
  predicate Dispatched(s: Server, id: ConnId) {
    forall j :: s.next <= j < |s.active| && s.active[j].ConnReady? ==> s.active[j].id != id
  }

  lemma ActiveAfter(s: Server, t: Server, id: ConnId, c: Conn)
    requires ActiveOk(s) && t.active == s.active && t.next == s.next && Changes(s, t, id, c)
    requires s.active == [] || (id in s.conns && c.state == Disconnected ==> s.conns[id].state == Disconnected)
    requires Dispatched(s, id) || (id in s.conns && c.closed ==> s.conns[id].closed)
    ensures ActiveOk(t)
  {
    assert Unfold(0);
  }

  lemma StagesAfter(s: Server, t: Server, id: ConnId, c: Conn)
    requires StagesOk(s) && Changes(s, t, id, c)
    requires || (t.log == s.log && ExpectedStage(t, id) == ExpectedStage(s, id))
             || (|t.log| > 0 && t.log[..|t.log| - 1] == s.log && t.log[|t.log| - 1].id == id
                 && Advance(ExpectedStage(s, id), t.log[|t.log| - 1]) == ExpectedStage(t, id))
    ensures StagesOk(t)
  {
    forall other: ConnId
      ensures StageOf(t.log, other) == ExpectedStage(t, other)
    {
      StageMeans(s, other);
      assert other != id ==> ExpectedStage(t, other) == ExpectedStage(s, other);
    }
  }

  lemma EvolvesAfter(s: Server, t: Server, id: ConnId, c: Conn)
    requires Changes(s, t, id, c) && s.log <= t.log && s.nextId <= t.nextId
    requires id in s.conns ==> Advances(s.conns[id], c)
    ensures Evolves(s, t)
  {
    assert Unfold(0);
  }

  /** Only the loop's own variables differ. */
  predicate SameConns(s: Server, t: Server) {
    && t.conns == s.conns && t.connections == s.connections && t.channelMap == s.channelMap
    && t.nextId == s.nextId && t.log == s.log
  }

  lemma PartsAfterNone(s: Server, t: Server, busy: Option<ConnId>)
    requires ConnsOk(s, busy) && ChannelsOk(s) && StagesOk(s) && SameConns(s, t)
    ensures ConnsOk(t, busy) && ChannelsOk(t) && StagesOk(t) && Evolves(s, t)
  {
    assert Unfold(0);
    assert forall id: ConnId :: ExpectedStage(t, id) == ExpectedStage(s, id);
  }

  // ---------------------------------------------------------------------------------------------
  // User code
  // ---------------------------------------------------------------------------------------------

  lemma InitialHolds()
    ensures Inv(INITIAL)
  {
  }

  /** What user code leaves alone: everything but the connections' output side and new ordinary functors. */
  ghost predicate Quiet(s: Server, t: Server) {
    && t.connections == s.connections && t.channelMap == s.channelMap && t.nextId == s.nextId
    && t.batch == s.batch && t.ran == s.ran && t.executed == s.executed
    && t.active == s.active && t.next == s.next && t.phase == s.phase && t.log == s.log
    && Evolves(s, t)
    && forall id :: id in s.conns ==>
         && id in t.conns
         && t.conns[id].closed == s.conns[id].closed
         && (t.conns[id].state == Disconnected <==> s.conns[id].state == Disconnected)
         && (t.conns[id].slot == Removed <==> s.conns[id].slot == Removed)
  }

  lemma QuietIsTransitive(a: Server, b: Server, c: Server)
    requires Quiet(a, b) && Quiet(b, c)
    ensures Quiet(a, c)
  {
    EvolvesIsTransitive(a, b, c);
  }

  /** Queueing a functor of the user's. */
  lemma QueueKeeps(s: Server, f: Functor, busy: Option<ConnId>)
    requires InvAt(s, busy) && f.User?
    ensures var t := s.(pending := s.pending + [f]); InvAt(t, busy) && Quiet(s, t)
  {
    var t := s.(pending := s.pending + [f]);
    forall id: ConnId
      ensures DestroysDue(t, id) == DestroysDue(s, id)
      ensures Tally(t, WriteComplete(id)) == Tally(s, WriteComplete(id))
    {
      DueAfterQueue(s, t, f, id);
    }
    PartsAfterNone(s, t, busy);
    DestroysAfterNone(s, t);
    CompletionsAfterNone(s, t);
    assert ActiveOk(t) by {
      assert Unfold(0);
    }
  }

  /** `c` may replace `was`: it has advanced without closing, disconnecting or leaving the poller. */
  ghost predicate Replaces(was: Conn, c: Conn) {
    && Invariant(c) && !c.failed && Advances(was, c)
    && c.fd == was.fd && c.state != Connecting && c.closed == was.closed
    && (c.completions == was.completions || c.completions == was.completions + [0])
    && (c.state == Disconnected <==> was.state == Disconnected)
    && (c.slot == Removed <==> was.slot == Removed)
  }

  lemma StoreKeeps(s: Server, t: Server, id: ConnId, c: Conn, busy: Option<ConnId>)
    requires InvAt(s, busy) && id in s.conns && Replaces(s.conns[id], c)
    requires t == s.(conns := s.conns[id := c], pending := t.pending) && Phases(t)
    requires DestroysOk(t) && CompletionsOk(t)
    ensures InvAt(t, busy) && Quiet(s, t)
  {
    ConnMeans(s, busy, id);
    ConnsAfter(s, t, id, c, busy, busy);
    ChannelsAfterUpdate(s, t, id, c);
    ActiveAfter(s, t, id, c);
    StagesAfter(s, t, id, c);
    EvolvesAfter(s, t, id, c);
  }

  lemma PutKeeps(s: Server, id: ConnId, c: Conn, busy: Option<ConnId>)
    requires InvAt(s, busy) && id in s.conns && Replaces(s.conns[id], c) && c.completions == s.conns[id].completions
    ensures InvAt(Put(s, id, c), busy) && Quiet(s, Put(s, id, c))
  {
    SameQueue(s, Put(s, id, c), id, c);
    StoreKeeps(s, Put(s, id, c), id, c, busy);
  }

  lemma PutAndQueueKeeps(s: Server, id: ConnId, c: Conn, busy: Option<ConnId>)
    requires InvAt(s, busy) && id in s.conns && Replaces(s.conns[id], c)
    ensures InvAt(PutAndQueue(s, id, c), busy) && Quiet(s, PutAndQueue(s, id, c))
  {
    var t := PutAndQueue(s, id, c);
    if c.completions == s.conns[id].completions {
      PutKeeps(s, id, c, busy);
    } else {
      forall other: ConnId
        ensures DestroysDue(t, other) == DestroysDue(s, other)
        ensures Tally(t, WriteComplete(other)) == Tally(s, WriteComplete(other)) + if other == id then 1 else 0
      {
        DueAfterQueue(s, t, WriteComplete(id), other);
      }
      DestroyMeans(s, id);
      CompletionMeans(s, id);
      DestroysAfter(s, t, id, c);
      CompletionsAfter(s, t, id, c);
      StoreKeeps(s, t, id, c, busy);
    }
  }

  lemma SendReplaces(c: Conn, message: seq<Byte>, k: WriteResult)
    requires Invariant(c) && c.state != Connecting
    ensures Replaces(c, Send(c, message, k))
  {
    SendKeeps(c, message, k);
    InvariantMeans(Send(c, message, k));
    AdvancesMeans(c, Send(c, message, k));
  }

  lemma ShutdownReplaces(c: Conn)
    requires Invariant(c) && c.state != Connecting
    ensures Replaces(c, Shutdown(c))
  {
    ShutdownKeeps(c);
    InvariantMeans(Shutdown(c));
    AdvancesMeans(c, Shutdown(c));
  }

  lemma HandleWriteReplaces(c: Conn, k: WriteResult)
    requires Invariant(c) && (c.state == Connected || c.state == Disconnecting)
    ensures Replaces(c, HandleWrite(c, k))
  {
    HandleWriteKeeps(c, k);
    InvariantMeans(HandleWrite(c, k));
    AdvancesMeans(c, HandleWrite(c, k));
  }

  lemma QuietIsReflexive(s: Server)
    ensures Quiet(s, s)
  {
    forall id | id in s.conns
      ensures Advances(s.conns[id], s.conns[id])
    {
      AdvancesMeans(s.conns[id], s.conns[id]);
    }
  }

  lemma PerformKeeps(s: Server, act: Act, busy: Option<ConnId>)
    requires InvAt(s, busy)
    ensures InvAt(Perform(s, act), busy) && Quiet(s, Perform(s, act))
  {
    QuietIsReflexive(s);
    match act
    case SendOn(id, message, k) =>
      if id in s.conns {
        ConnMeans(s, busy, id);
        SendReplaces(s.conns[id], message, k);
        PutAndQueueKeeps(s, id, Send(s.conns[id], message, k), busy);
      }
    case ShutdownOn(id) =>
      if id in s.conns {
        ConnMeans(s, busy, id);
        ShutdownReplaces(s.conns[id]);
        PutKeeps(s, id, Shutdown(s.conns[id]), busy);
      }
    case QueueUser(tag) =>
      QueueKeeps(s, User(tag), busy);
  }

  /** Whatever user code does in a callback, the invariant survives it and nothing else moves. */
  lemma {:induction false} ScriptKeeps(s: Server, script: seq<Act>, busy: Option<ConnId>)
    requires InvAt(s, busy)
    ensures InvAt(RunScript(s, script), busy) && Quiet(s, RunScript(s, script))
    decreases |script|
  {
    if script == [] {
      QuietIsReflexive(s);
    } else {
      PerformKeeps(s, script[0], busy);
      ScriptKeeps(Perform(s, script[0]), script[1..], busy);
      QuietIsTransitive(s, Perform(s, script[0]), RunScript(s, script));
    }
  }

  /** The same at the end of a step that began in `s`. */
  lemma ScriptKeepsFrom(s: Server, u: Server, script: seq<Act>, busy: Option<ConnId>)
    requires Evolves(s, u) && InvAt(u, busy)
    ensures InvAt(RunScript(u, script), busy) && Evolves(s, RunScript(u, script))
  {
    ScriptKeeps(u, script, busy);
    EvolvesIsTransitive(s, u, RunScript(u, script));
  }

  // ---------------------------------------------------------------------------------------------
  // Dispatching a connection
  // ---------------------------------------------------------------------------------------------

  /** The connection being dispatched: it is registered and not in the rest of the active list. */
  ghost predicate Current(s: Server, id: ConnId) {
    && Inv(s) && s.phase == Dispatching && Dispatched(s, id)
    && id in s.conns && s.conns[id].state != Disconnected
  }

  /** The callbacks that end in handleClose: the close callback itself, and a read of nothing. */
  predicate Closes(callback: Callback, io: Io) {
    callback == OnClose || (callback == OnRead && io.read == Received([]))
  }

  function Closings(callbacks: seq<Callback>, io: Io): nat {
    if callbacks == [] then 0
    else (if Closes(callbacks[0], io) then 1 else 0) + Closings(callbacks[1..], io)
  }

  lemma CloseKeeps(s: Server, id: ConnId)
    requires Current(s, id) && !s.conns[id].closed
    ensures var t := Close(s, id); Current(t, id) && Evolves(s, t) && t.conns[id].closed
  {
    var c, d, t := s.conns[id], HandleClose(s.conns[id]), Close(s, id);
    ConnMeans(s, None, id);
    HandleCloseKeeps(c);
    InvariantMeans(d);
    AdvancesMeans(c, d);
    ConnsAfter(s, t, id, d, None, None);
    ChannelsAfterUpdate(s, t, id, d);
    forall other: ConnId
      ensures DestroysDue(t, other) == DestroysDue(s, other) + if other == id then 1 else 0
      ensures Tally(t, WriteComplete(other)) == Tally(s, WriteComplete(other))
    {
      DueAfterQueue(s, t, Destroy(id), other);
    }
    DestroyMeans(s, id);
    CompletionMeans(s, id);
    DestroysAfter(s, t, id, d);
    CompletionsAfter(s, t, id, d);
    ActiveAfter(s, t, id, d);
    StagesAfter(s, t, id, d);
    EvolvesAfter(s, t, id, d);
  }

  /** Reporting a message. */
  lemma MessageKeepsInv(s: Server, id: ConnId)
    requires Current(s, id)
    ensures var u := s.(log := s.log + [Message(id)]); Inv(u) && Evolves(s, u)
  {
    var c, u := s.conns[id], s.(log := s.log + [Message(id)]);
    assert Changes(s, u, id, c);
    ConnMeans(s, None, id);
    AdvancesMeans(c, c);
    ConnsAfter(s, u, id, c, None, None);
    ChannelsAfterUpdate(s, u, id, c);
    SameQueue(s, u, id, c);
    ActiveAfter(s, u, id, c);
    assert u.log[..|u.log| - 1] == s.log;
    StagesAfter(s, u, id, c);
    EvolvesAfter(s, u, id, c);
  }

  lemma MessageKeeps(s: Server, id: ConnId, onMessage: seq<Act>)
    requires Current(s, id)
    ensures var t := RunScript(s.(log := s.log + [Message(id)]), onMessage);
            Current(t, id) && Evolves(s, t) && t.conns[id].closed == s.conns[id].closed
  {
    var u := s.(log := s.log + [Message(id)]);
    MessageKeepsInv(s, id);
    ScriptKeeps(u, onMessage, None);
    EvolvesIsTransitive(s, u, RunScript(u, onMessage));
  }

  lemma InvokeKeeps(s: Server, id: ConnId, callback: Callback, io: Io)
    requires Current(s, id)
    requires Closes(callback, io) ==> !s.conns[id].closed
    ensures var t := Invoke(s, id, callback, io);
            && Current(t, id) && Evolves(s, t)
            && (t.conns[id].closed <==> s.conns[id].closed || Closes(callback, io))
  {
    QuietIsReflexive(s);
    if Closes(callback, io) {
      CloseKeeps(s, id);
    } else if callback == OnRead && io.read.Received? {
      MessageKeeps(s, id, io.onMessage);
    } else if callback == OnWrite {
      ConnMeans(s, None, id);
      HandleWriteReplaces(s.conns[id], io.write);
      PutAndQueueKeeps(s, id, HandleWrite(s.conns[id], io.write), None);
    }
  }

  /** A second close finds the connection gone from the server's map. */
  lemma SecondCloseFails(s: Server, id: ConnId, callback: Callback, io: Io)
    requires Current(s, id) && s.conns[id].closed && Closes(callback, io)
    ensures Invoke(s, id, callback, io).failed
  {
    ConnMeans(s, None, id);
  }

  lemma {:induction false} ScriptKeepsFailed(s: Server, script: seq<Act>)
    requires s.failed
    ensures RunScript(s, script).failed
    decreases |script|
  {
    if script != [] {
      ScriptKeepsFailed(Perform(s, script[0]), script[1..]);
    }
  }

  lemma {:induction false} InvokeAllKeepsFailed(s: Server, id: ConnId, callbacks: seq<Callback>, io: Io)
    requires s.failed
    ensures InvokeAll(s, id, callbacks, io).failed
    decreases |callbacks|
  {
    if callbacks != [] {
      if callbacks[0] == OnRead && io.read.Received? {
        ScriptKeepsFailed(s.(log := s.log + [Message(id)]), io.onMessage);
      }
      InvokeAllKeepsFailed(Invoke(s, id, callbacks[0], io), id, callbacks[1..], io);
    }
  }

  /** The callbacks of one dispatch violate an assertion exactly when they would close the connection twice. */
  lemma {:induction false} InvokeAllKeepsIff(s: Server, id: ConnId, callbacks: seq<Callback>, io: Io)
    requires Current(s, id)
    ensures var t := InvokeAll(s, id, callbacks, io);
            && (t.failed <==> Closings(callbacks, io) > (if s.conns[id].closed then 0 else 1))
            && (!t.failed ==> Current(t, id) && Evolves(s, t))
    decreases |callbacks|
  {
    if callbacks == [] {
      QuietIsReflexive(s);
    } else {
      var t := Invoke(s, id, callbacks[0], io);
      if Closes(callbacks[0], io) && s.conns[id].closed {
        SecondCloseFails(s, id, callbacks[0], io);
        InvokeAllKeepsFailed(t, id, callbacks[1..], io);
      } else {
        InvokeKeeps(s, id, callbacks[0], io);
        InvokeAllKeepsIff(t, id, callbacks[1..], io);
        if !InvokeAll(s, id, callbacks, io).failed {
          EvolvesIsTransitive(s, t, InvokeAll(s, id, callbacks, io));
        }
      }
    }
  }

  /** The message callback a callback makes: one if it is a read that brings data. */
  function MessageOf(callback: Callback, io: Io, id: ConnId): seq<Report> {
    if callback == OnRead && io.read.Received? && io.read.bytes != [] then [Message(id)] else []
  }

  function MessagesIn(callbacks: seq<Callback>, io: Io, id: ConnId): seq<Report> {
    if callbacks == [] then [] else MessageOf(callbacks[0], io, id) + MessagesIn(callbacks[1..], io, id)
  }

  lemma InvokeReports(s: Server, id: ConnId, callback: Callback, io: Io)
    requires Current(s, id)
    ensures Invoke(s, id, callback, io).log == s.log + MessageOf(callback, io, id)
  {
    if callback == OnRead && io.read.Received? && io.read.bytes != [] {
      var u := s.(log := s.log + [Message(id)]);
      assert Inv(u) by {
        MessageKeepsInv(s, id);
      }
      ScriptKeeps(u, io.onMessage, None);
    }
  }

  lemma MessagesFirst(log: seq<Report>, callbacks: seq<Callback>, io: Io, id: ConnId)
    requires callbacks != []
    ensures log + MessageOf(callbacks[0], io, id) + MessagesIn(callbacks[1..], io, id)
            == log + MessagesIn(callbacks, io, id)
  {
    var first, rest := MessageOf(callbacks[0], io, id), MessagesIn(callbacks[1..], io, id);
    assert log + first + rest == log + (first + rest);
  }

  /** What the callbacks of one dispatch report, and whether the connection is closed afterwards. */
  lemma {:induction false} InvokeAllOutcome(s: Server, id: ConnId, callbacks: seq<Callback>, io: Io)
    requires Current(s, id) && !InvokeAll(s, id, callbacks, io).failed
    ensures var t := InvokeAll(s, id, callbacks, io);
            && t.log == s.log + MessagesIn(callbacks, io, id)
            && id in t.conns && (t.conns[id].closed <==> s.conns[id].closed || Closings(callbacks, io) > 0)
    decreases |callbacks|
  {
    if callbacks != [] {
      var t := Invoke(s, id, callbacks[0], io);
      if Closes(callbacks[0], io) && s.conns[id].closed {
        SecondCloseFails(s, id, callbacks[0], io);
        InvokeAllKeepsFailed(t, id, callbacks[1..], io);
      } else {
        InvokeKeeps(s, id, callbacks[0], io);
        InvokeReports(s, id, callbacks[0], io);
        InvokeAllOutcome(t, id, callbacks[1..], io);
        MessagesFirst(s.log, callbacks, io, id);
      }
    }
  }

  lemma MessagesConcat(a: seq<Callback>, b: seq<Callback>, io: Io, id: ConnId)
    ensures MessagesIn(a + b, io, id) == MessagesIn(a, io, id) + MessagesIn(b, io, id)
    decreases |a|
  {
    if a == [] {
      assert a + b == b;
    } else {
      assert (a + b)[1..] == a[1..] + b;
      MessagesConcat(a[1..], b, io, id);
    }
  }

  lemma OneCallback(condition: bool, callback: Callback, io: Io, id: ConnId)
    ensures Closings(When(condition, callback), io) == if condition && Closes(callback, io) then 1 else 0
    ensures MessagesIn(When(condition, callback), io, id) == if condition then MessageOf(callback, io, id) else []
  {
  }

  /** One possible callback more. */
  lemma MessagesAfter(calls: seq<Callback>, condition: bool, callback: Callback, io: Io, id: ConnId)
    ensures MessagesIn(calls + When(condition, callback), io, id)
            == MessagesIn(calls, io, id) + if condition then MessageOf(callback, io, id) else []
  {
    MessagesConcat(calls, When(condition, callback), io, id);
    OneCallback(condition, callback, io, id);
  }

  /** One dispatch makes at most one message callback, exactly if it reads data. */
  lemma MessagesOf(revents: Mask, io: Io, id: ConnId)
    ensures MessagesIn(Callbacks(revents), io, id) == if Readable(revents) then MessageOf(OnRead, io, id) else []
  {
    var one := When(HungUp(revents), OnClose);
    var two := one + When(revents.pollErr || revents.pollNval, OnError);
    var three := two + When(Readable(revents), OnRead);
    OneCallback(HungUp(revents), OnClose, io, id);
    assert MessagesIn(one, io, id) == [];
    MessagesAfter(one, revents.pollErr || revents.pollNval, OnError, io, id);
    assert MessagesIn(two, io, id) == [];
    MessagesAfter(two, Readable(revents), OnRead, io, id);
    assert Callbacks(revents) == three + When(revents.pollOut, OnWrite);
    MessagesAfter(three, revents.pollOut, OnWrite, io, id);
  }

  /** One dispatch closes once for a hang-up and once for the end of the stream. */
  lemma ClosingsOf(revents: Mask, io: Io)
    ensures Closings(Callbacks(revents), io) ==
            (if HungUp(revents) then 1 else 0) + (if Readable(revents) && io.read == Received([]) then 1 else 0)
  {
    var hup, err := When(HungUp(revents), OnClose), When(revents.pollErr || revents.pollNval, OnError);
    var read, write := When(Readable(revents), OnRead), When(revents.pollOut, OnWrite);
    OneCallback(HungUp(revents), OnClose, io, 0);
    OneCallback(revents.pollErr || revents.pollNval, OnError, io, 0);
    OneCallback(Readable(revents), OnRead, io, 0);
    OneCallback(revents.pollOut, OnWrite, io, 0);
    ClosingsConcat(hup + err + read, write, io);
    ClosingsConcat(hup + err, read, io);
    ClosingsConcat(hup, err, io);
  }

  /** One dispatch closes twice exactly on a hang-up without input that also counts as readable, when the read
      then finds the end of the stream. */
  predicate DoubleClose(revents: Mask, io: Io) {
    && revents.pollHup && !revents.pollIn
    && (revents.pollPri || revents.pollRdHup)
    && io.read == Received([])
  }

  lemma ClosingsConcat(a: seq<Callback>, b: seq<Callback>, io: Io)
    ensures Closings(a + b, io) == Closings(a, io) + Closings(b, io)
    decreases |a|
  {
    if a == [] {
      assert a + b == b;
    } else {
      assert (a + b)[1..] == a[1..] + b;
      ClosingsConcat(a[1..], b, io);
    }
  }

  lemma DoubleCloseIff(revents: Mask, io: Io)
    ensures Closings(Callbacks(revents), io) > 1 <==> DoubleClose(revents, io)
  {
    ClosingsOf(revents, io);
  }

  // ---------------------------------------------------------------------------------------------
  // The other steps
  // ---------------------------------------------------------------------------------------------

  /** Moving on in the active list: the next channel is registered, open, and comes only once. */
  lemma AdvanceActive(s: Server)
    requires Inv(s) && s.phase == Dispatching && s.next < |s.active|
    ensures var t := s.(next := s.next + 1); Inv(t) && Evolves(s, t)
    ensures s.active[s.next].ConnReady? ==>
              var id := s.active[s.next].id;
              Current(s.(next := s.next + 1), id) && !s.conns[id].closed
  {
    var t := s.(next := s.next + 1);
    PartsAfterNone(s, t, None);
    SameQueueNone(s, t);
    QuietIsReflexive(s);
    assert Unfold(0);
  }

  /** One dispatch, seen from the state before it. */
  lemma DispatchKeepsIff(s: Server, u: Server, id: ConnId, callbacks: seq<Callback>, io: Io)
    requires Evolves(s, u) && Current(u, id) && !u.conns[id].closed
    ensures var t := InvokeAll(u, id, callbacks, io);
            && (t.failed <==> Closings(callbacks, io) > 1)
            && (!t.failed ==> Current(t, id) && Evolves(s, t))
  {
    InvokeAllKeepsIff(u, id, callbacks, io);
    if !InvokeAll(u, id, callbacks, io).failed {
      EvolvesIsTransitive(s, u, InvokeAll(u, id, callbacks, io));
    }
  }

  /** The server with a new connection, before its up callback. */
  function Opened(s: Server, fd: nat, hasWriteCallback: bool): Server {
    var id := s.nextId;
    s.(conns := s.conns[id := Establish(NewConn(fd, hasWriteCallback))], connections := s.connections + {id},
       nextId := id + 1, channelMap := s.channelMap[fd := id], log := s.log + [Up(id)])
  }

  lemma OpenedKeeps(s: Server, fd: nat, hasWriteCallback: bool)
    requires Inv(s) && fd !in s.channelMap
    ensures Inv(Opened(s, fd, hasWriteCallback)) && Evolves(s, Opened(s, fd, hasWriteCallback))
  {
    var id, blank, u := s.nextId, NewConn(fd, hasWriteCallback), Opened(s, fd, hasWriteCallback);
    var c := Establish(blank);
    NewConnHolds(fd, hasWriteCallback);
    EstablishKeeps(blank);
    InvariantMeans(c);
    AdvancesMeans(blank, c);
    NextIdIsNew(s, None);
    ConnsAfter(s, u, id, c, None, None);
    ChannelsAfterAdd(s, u, id, c);
    SameQueue(s, u, id, c);
    ActiveAfter(s, u, id, c);
    assert u.log[..|u.log| - 1] == s.log;
    StagesAfter(s, u, id, c);
    EvolvesAfter(s, u, id, c);
  }

  lemma NewConnectionOpens(s: Server, fd: nat, hasWriteCallback: bool, onUp: seq<Act>)
    requires !s.failed && fd !in s.channelMap
    ensures NewConnection(s, fd, hasWriteCallback, onUp) == RunScript(Opened(s, fd, hasWriteCallback), onUp)
  {
    assert !Establish(NewConn(fd, hasWriteCallback)).failed;
  }

  lemma NewConnectionKeeps(s: Server, fd: nat, hasWriteCallback: bool, onUp: seq<Act>)
    requires Inv(s) && fd !in s.channelMap
    ensures var t := NewConnection(s, fd, hasWriteCallback, onUp); Inv(t) && Evolves(s, t)
  {
    OpenedKeeps(s, fd, hasWriteCallback);
    NewConnectionOpens(s, fd, hasWriteCallback, onUp);
    ScriptKeepsFrom(s, Opened(s, fd, hasWriteCallback), onUp, None);
  }

  lemma OrdinaryFunctorKeeps(s: Server, script: seq<Act>)
    requires Inv(s) && s.phase == Running && s.ran < |s.batch| && !s.batch[s.ran].Destroy?
    ensures var t := RunScript(Take(s), script); Inv(t) && Evolves(s, t)
  {
    var u := Take(s);
    forall id: ConnId
      ensures DestroysDue(u, id) == DestroysDue(s, id)
      ensures Tally(u, WriteComplete(id)) == Tally(s, WriteComplete(id))
    {
      DueAfterTake(s, u, id);
    }
    PartsAfterNone(s, u, None);
    DestroysAfterNone(s, u);
    CompletionsAfterNone(s, u);
    assert ActiveOk(u) by {
      assert Unfold(0);
    }
    ScriptKeepsFrom(s, u, script, None);
  }

  lemma DestroyBeginKeeps(s: Server, id: ConnId)
    requires Inv(s) && s.phase == Running && s.ran < |s.batch| && s.batch[s.ran] == Destroy(id)
    ensures AwaitsDestroy(s, id)
    ensures var t := DestroyBegin(Take(s), id);
            && InvAt(t, Some(id)) && Evolves(s, t)
            && id in t.conns && t.conns[id].state == Disconnected && t.conns[id].slot.Registered?
  {
    DueAfterTake(s, Take(s), id);
    DestroyMeans(s, id);
    ConnMeans(s, None, id);
    var c, d, t := s.conns[id], DestroyBeforeCallback(s.conns[id]), DestroyBegin(Take(s), id);
    DestroyKeeps(c);
    InvariantMeans(d);
    AdvancesMeans(c, d);
    ConnsAfter(s, t, id, d, None, Some(id));
    ChannelsAfterUpdate(s, t, id, d);
    forall other: ConnId
      ensures DestroysDue(t, other) == DestroysDue(s, other) - if other == id then 1 else 0
      ensures Tally(t, WriteComplete(other)) == Tally(s, WriteComplete(other))
    {
      DueAfterTake(s, t, other);
    }
    CompletionMeans(s, id);
    DestroysAfter(s, t, id, d);
    CompletionsAfter(s, t, id, d);
    ActiveAfter(s, t, id, d);
    assert t.log[..|t.log| - 1] == s.log;
    StagesAfter(s, t, id, d);
    EvolvesAfter(s, t, id, d);
  }

  /** The assertions of removeChannel hold for a connection that destroyConnection has disconnected. */
  lemma RemoveChannelHolds(c: Conn)
    requires Invariant(c) && c.state == Disconnected && c.slot != Removed
    ensures var d := DestroyAfterCallback(c); Invariant(d) && !d.failed && Advances(c, d)
  {
    assert Unfold(0);
  }

  lemma DestroyEndKeeps(s: Server, id: ConnId)
    requires InvAt(s, Some(id)) && s.phase == Running
    requires id in s.conns && s.conns[id].state == Disconnected && s.conns[id].slot != Removed
    ensures var t := DestroyEnd(s, id); Inv(t) && Evolves(s, t)
  {
    var c, d, t := s.conns[id], DestroyAfterCallback(s.conns[id]), DestroyEnd(s, id);
    ConnMeans(s, Some(id), id);
    RemoveChannelHolds(c);
    ConnsAfter(s, t, id, d, Some(id), None);
    ChannelsAfterRemove(s, t, id, d);
    SameQueue(s, t, id, d);
    ActiveAfter(s, t, id, d);
    StagesAfter(s, t, id, d);
    EvolvesAfter(s, t, id, d);
  }

  lemma DestroyFunctorKeeps(s: Server, script: seq<Act>)
    requires Inv(s) && s.phase == Running && s.ran < |s.batch| && s.batch[s.ran].Destroy?
    ensures var t := Execute(Take(s), s.batch[s.ran], script); Inv(t) && Evolves(s, t)
  {
    var id := s.batch[s.ran].id;
    DestroyBeginKeeps(s, id);
    var t := DestroyBegin(Take(s), id);
    var u := RunScript(t, script);
    ScriptKeeps(t, script, Some(id));
    DestroyEndKeeps(u, id);
    EvolvesIsTransitive(s, t, u);
    EvolvesIsTransitive(s, u, DestroyEnd(u, id));
  }

  /** What poll() reports is registered and open: a closed connection is muted. */
  lemma ReportedIsOpen(s: Server, id: ConnId)
    requires Inv(s) && id in s.conns && s.conns[id].slot.Registered? && !s.conns[id].slot.interest.muted
    ensures Open(s.conns[id])
  {
    ConnMeans(s, None, id);
    InvariantMeans(s.conns[id]);
  }

  lemma PollKeeps(s: Server, ready: seq<Ready>)
    requires Inv(s) && Enabled(s, Poll(ready))
    ensures Inv(Next(s, Poll(ready))) && Evolves(s, Next(s, Poll(ready)))
  {
    var t := Next(s, Poll(ready));
    PartsAfterNone(s, t, None);
    SameQueueNone(s, t);
    forall j | 0 <= j < |t.active| && t.active[j].ConnReady?
      ensures t.active[j].id in t.conns && Open(t.conns[t.active[j].id])
    {
      ReportedIsOpen(s, ready[j].id);
    }
  }

  /** The swap and the end of a batch: nothing happens to any connection. */
  lemma BatchKeeps(s: Server, step: Step)
    requires Inv(s) && Enabled(s, step) && (step.Swap? || step.EndBatch?)
    ensures Inv(Next(s, step)) && Evolves(s, Next(s, step))
  {
    var t := Next(s, step);
    PartsAfterNone(s, t, None);
    assert s.batch[s.ran..] == [];
    assert t.batch[t.ran..] == t.batch;
    assert forall other: ConnId :: DestroysDue(t, other) == DestroysDue(s, other);
    assert forall other: ConnId :: Tally(t, WriteComplete(other)) == Tally(s, WriteComplete(other));
    DestroysAfterNone(s, t);
    CompletionsAfterNone(s, t);
    assert ActiveOk(t) by {
      assert Unfold(0);
    }
  }
}
