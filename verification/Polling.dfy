/** Channels and the poll(2) multiplexer: src/include/channel.h, src/channel.cpp, src/poller.cpp.

    Three heap structures describe the same registrations: the dense array handed to poll(), the map from
    file descriptor to channel, and the array position stored inside each channel. `Poller.Indexed` is
    their consistency, `Poller.Registry` the simple map they stand for. */
module Polling {
  import opened Options
  import opened Folding

  /** An event mask, one field a bit. */
  datatype Mask = Mask(pollIn: bool, pollPri: bool, pollOut: bool,
                       pollErr: bool, pollHup: bool, pollNval: bool, pollRdHup: bool)
  {
    function Union(m: Mask): Mask {
      Mask(pollIn || m.pollIn, pollPri || m.pollPri, pollOut || m.pollOut,
           pollErr || m.pollErr, pollHup || m.pollHup, pollNval || m.pollNval, pollRdHup || m.pollRdHup)
    }

    predicate Within(m: Mask) {
      Union(m) == m
    }
  }

  const NONE_EVENT: Mask := Mask(false, false, false, false, false, false, false)
  const READ_EVENT: Mask := NONE_EVENT.(pollIn := true, pollPri := true)
  const WRITE_EVENT: Mask := NONE_EVENT.(pollOut := true)

  /** The conditions poll() reports without being asked. */
  const ALWAYS_ON: Mask := NONE_EVENT.(pollErr := true, pollHup := true, pollNval := true)

  /** The masks bit by bit, and what it means for one to lie within another. */
  lemma MasksInBits(m: Mask, n: Mask)
    ensures m == NONE_EVENT <==>
            !(m.pollIn || m.pollPri || m.pollOut || m.pollErr || m.pollHup || m.pollNval || m.pollRdHup)
    ensures m == READ_EVENT <==>
            m.pollIn && m.pollPri && !(m.pollOut || m.pollErr || m.pollHup || m.pollNval || m.pollRdHup)
    ensures m == WRITE_EVENT <==>
            m.pollOut && !(m.pollIn || m.pollPri || m.pollErr || m.pollHup || m.pollNval || m.pollRdHup)
    ensures m.Within(n.Union(ALWAYS_ON)) <==>
            && (m.pollIn ==> n.pollIn) && (m.pollPri ==> n.pollPri) && (m.pollOut ==> n.pollOut)
            && (m.pollRdHup ==> n.pollRdHup)
  {
  }

  datatype PollFd = PollFd(fd: int, events: Mask, revents: Mask)

  /** The descriptor an array entry belongs to: a muted entry stores `-fd - 1`. */
  function Owner(fd: int): (owner: nat)
  {
    if fd < 0 then -1 - fd else fd
  }

  // ---------------------------------------------------------------------------------------------
  // The map the poller stands for
  // ---------------------------------------------------------------------------------------------

  /** What is registered for one descriptor; poll() ignores a muted entry. */
  datatype Interest = Interest(events: Mask, muted: bool)

  type Registry = map<nat, Interest>

  function Lookup(m: Registry, fd: nat): Option<Interest> {
    if fd in m then Some(m[fd]) else None
  }

  /** The entry after an update to `events`: a new one is never muted, an old one is never unmuted. */
  function Updated(prior: Option<Interest>, events: Mask): Interest {
    match prior
    case None => Interest(events, false)
    case Some(i) => Interest(events, i.muted || events == NONE_EVENT)
  }

  /** Poll watches the descriptor for what its channel asked for. */
  predicate Watching(i: Interest) {
    i.muted <==> i.events == NONE_EVENT
  }

  /** Muting means "no interest" only when the update registers some interest anew, drops all of it, or
      finds the entry not muted: an entry that was muted once stays muted. */
  lemma UpdateWatchesIff(prior: Option<Interest>, events: Mask)
    ensures Watching(Updated(prior, events)) <==>
            match prior {
              case None => events != NONE_EVENT
              case Some(i) => events == NONE_EVENT || !i.muted
            }
  {
  }

  function UpdatedAll(prior: Option<Interest>, masks: seq<Mask>): Option<Interest>
    decreases |masks|
  {
    if masks == [] then prior else UpdatedAll(Some(Updated(prior, masks[0])), masks[1..])
  }

  /** Over any history of updates of one registration: it is muted exactly when some update after the
      first one had an empty mask. */
  lemma {:induction false} MutedIffOnceEmptied(masks: seq<Mask>)
    requires masks != []
    ensures var last := UpdatedAll(None, masks);
            && last.Some?
            && last.value.events == masks[|masks| - 1]
            && (last.value.muted <==> exists i :: 1 <= i < |masks| && masks[i] == NONE_EVENT)
  {
    MutedIffOnceEmptiedFrom(Updated(None, masks[0]), masks[1..]);
    forall i | 1 <= i < |masks|
      ensures masks[i] == masks[1..][i - 1]
    {
    }
  }

  lemma {:induction false} MutedIffOnceEmptiedFrom(first: Interest, masks: seq<Mask>)
    ensures var last := UpdatedAll(Some(first), masks);
            && last.Some?
            && last.value.events == (if masks == [] then first.events else masks[|masks| - 1])
            && (last.value.muted <==> first.muted || exists i :: 0 <= i < |masks| && masks[i] == NONE_EVENT)
    decreases |masks|
  {
    if masks != [] {
      var next := Updated(Some(first), masks[0]);
      MutedIffOnceEmptiedFrom(next, masks[1..]);
      if i :| 0 <= i < |masks| && masks[i] == NONE_EVENT {
        assert i > 0 ==> masks[1..][i - 1] == NONE_EVENT;
      }
    }
  }

  // ---------------------------------------------------------------------------------------------
  // The dense array and the positions kept in the channels
  // ---------------------------------------------------------------------------------------------

  type Positions = map<nat, nat>

  function InterestOf(entry: PollFd): Interest {
    Interest(entry.events, entry.fd < 0)
  }

  /** Each registered descriptor's position names the one entry that belongs to it, no entry is left over,
      and the entries say what the registry says. */
  ghost predicate Consistent(fds: seq<PollFd>, positions: Positions, registry: Registry) {
    && (forall fd :: fd in positions ==> positions[fd] < |fds| && Owner(fds[positions[fd]].fd) == fd)
    && (forall i :: 0 <= i < |fds| ==> Owner(fds[i].fd) in positions && positions[Owner(fds[i].fd)] == i)
    && registry.Keys == positions.Keys
    && (forall fd :: fd in registry ==> registry[fd] == InterestOf(fds[positions[fd]]))
  }

  /** `Consistent`, kept folded: a proof sees the definition only where it mentions `Unfold`. */
  ghost predicate Represents(fds: seq<PollFd>, positions: Positions, registry: Registry) {
    forall key {:trigger Unfold(key)} :: Unfold(key) ==> Consistent(fds, positions, registry)
  }

  lemma RepresentsIsConsistent(fds: seq<PollFd>, positions: Positions, registry: Registry)
    ensures Represents(fds, positions, registry) <==> Consistent(fds, positions, registry)
  {
    assert Unfold(0);
  }

  /** The entry a registered descriptor's position names. */
  lemma PositionIsRight(fds: seq<PollFd>, positions: Positions, registry: Registry, fd: nat)
    requires Represents(fds, positions, registry) && fd in registry
    ensures fd in positions && positions[fd] < |fds|
    ensures Owner(fds[positions[fd]].fd) == fd && registry[fd] == InterestOf(fds[positions[fd]])
  {
    assert Unfold(0);
  }

  /** The descriptor an entry belongs to. */
  lemma EntryIsRegistered(fds: seq<PollFd>, positions: Positions, registry: Registry, i: nat)
    requires Represents(fds, positions, registry) && i < |fds|
    ensures var fd := Owner(fds[i].fd);
            fd in registry && fd in positions && positions[fd] == i && registry[fd] == InterestOf(fds[i])
  {
    assert Unfold(0);
  }

  /** Distinct entries belong to distinct descriptors, one for each registered one. */
  lemma EntriesAreDistinct(fds: seq<PollFd>, positions: Positions, registry: Registry)
    requires Represents(fds, positions, registry)
    ensures forall i, j :: 0 <= i < j < |fds| ==> Owner(fds[i].fd) != Owner(fds[j].fd)
    ensures |registry| == |fds|
  {
    assert Unfold(0);
    var owners := set i | 0 <= i < |fds| :: Owner(fds[i].fd);
    assert owners == registry.Keys;
    CountDistinct(fds, positions, registry, |fds|);
    assert (set i | 0 <= i < |fds| :: Owner(fds[i].fd)) == owners;
  }

  lemma {:induction false} CountDistinct(fds: seq<PollFd>, positions: Positions, registry: Registry, upto: nat)
    requires Represents(fds, positions, registry) && upto <= |fds|
    ensures |set i | 0 <= i < upto :: Owner(fds[i].fd)| == upto
  {
    assert Unfold(0);
    if upto > 0 {
      CountDistinct(fds, positions, registry, upto - 1);
      var shorter := set i | 0 <= i < upto - 1 :: Owner(fds[i].fd);
      var longer := set i | 0 <= i < upto :: Owner(fds[i].fd);
      assert longer == shorter + {Owner(fds[upto - 1].fd)};
    }
  }

  /** Pushing an entry for a new descriptor. */
  lemma AppendEntry(fds: seq<PollFd>, positions: Positions, registry: Registry, fd: nat, events: Mask)
    requires Represents(fds, positions, registry) && fd !in registry
    ensures Represents(fds + [PollFd(fd, events, NONE_EVENT)],
                       positions[fd := |fds|],
                       registry[fd := Interest(events, false)])
  {
    assert Unfold(0);
  }

  function Overwritten(entry: PollFd, fd: nat, events: Mask): PollFd {
    PollFd(if events == NONE_EVENT then -1 - fd else entry.fd, events, NONE_EVENT)
  }

  /** Overwriting the entry of a registered descriptor. */
  lemma OverwriteEntry(fds: seq<PollFd>, positions: Positions, registry: Registry, fd: nat, events: Mask)
    requires Represents(fds, positions, registry) && fd in registry && fd in positions && positions[fd] < |fds|
    ensures var idx := positions[fd];
            Represents(fds[idx := Overwritten(fds[idx], fd, events)],
                       positions,
                       registry[fd := Updated(Some(registry[fd]), events)])
  {
    assert Unfold(0);
  }

  /** The array after the entry at `idx` is swapped to the end and popped. */
  function SwappedOut(fds: seq<PollFd>, idx: nat): seq<PollFd>
    requires idx < |fds|
  {
    var last := |fds| - 1;
    if idx == last then fds[..last] else fds[idx := fds[last]][..last]
  }

  lemma SwapOutElements(fds: seq<PollFd>, idx: nat)
    requires idx < |fds|
    ensures |SwappedOut(fds, idx)| == |fds| - 1
    ensures forall i :: 0 <= i < |fds| - 1 ==> SwappedOut(fds, idx)[i] == fds[if i == idx then |fds| - 1 else i]
  {
  }

  /** Filling in what poll() answered. */
  lemma AnswerEntries(fds: seq<PollFd>, positions: Positions, registry: Registry, results: seq<Mask>)
    requires Represents(fds, positions, registry) && |results| == |fds|
    ensures Represents(WithResults(fds, results), positions, registry)
  {
    assert Unfold(0);
  }

  /** Swapping an entry out: the removed descriptor's position is gone, the moved one's repaired. */
  lemma SwapOutEntry(fds: seq<PollFd>, positions: Positions, registry: Registry, fd: nat, fds': seq<PollFd>)
    returns (positions': Positions)
    requires Represents(fds, positions, registry) && fd in registry && fd in positions && positions[fd] < |fds|
    requires fds' == SwappedOut(fds, positions[fd])
    ensures Represents(fds', positions', registry - {fd})
    ensures positions'.Keys == positions.Keys - {fd}
    ensures forall other :: other in positions' ==>
              positions'[other] == if positions[other] == |fds| - 1 then positions[fd] else positions[other]
  {
    var idx, last := positions[fd], |fds| - 1;
    EntryIsRegistered(fds, positions, registry, last);
    PositionIsRight(fds, positions, registry, fd);
    SwapOutElements(fds, idx);
    positions' := if idx == last then positions - {fd} else (positions - {fd})[Owner(fds[last].fd) := idx];
    forall other | other in positions'
      ensures positions'[other] == if positions[other] == last then idx else positions[other]
    {
      PositionIsRight(fds, positions, registry, other) by {
        assert Unfold(0);
      }
    }
    SwappedIsConsistent(fds, positions, registry, fd, fds', positions');
  }

  lemma SwappedIsConsistent(
    fds: seq<PollFd>, positions: Positions, registry: Registry, fd: nat, fds': seq<PollFd>, positions': Positions)
    requires Represents(fds, positions, registry) && fd in registry && fd in positions && positions[fd] < |fds|
    requires |fds'| == |fds| - 1
    requires forall i :: 0 <= i < |fds'| ==> fds'[i] == fds[if i == positions[fd] then |fds| - 1 else i]
    requires positions'.Keys == positions.Keys - {fd}
    requires forall other :: other in positions' ==>
               positions'[other] == if positions[other] == |fds| - 1 then positions[fd] else positions[other]
    ensures Represents(fds', positions', registry - {fd})
  {
    var idx, last := positions[fd], |fds| - 1;
    EntryIsRegistered(fds, positions, registry, last);
    PositionIsRight(fds, positions, registry, fd);
    forall other | other in positions'
      ensures other in registry && positions'[other] < |fds'|
      ensures Owner(fds'[positions'[other]].fd) == other && registry[other] == InterestOf(fds'[positions'[other]])
    {
      OwnerIsUnique(fds, positions, registry, other, fd);
    }
    forall i | 0 <= i < |fds'|
      ensures Owner(fds'[i].fd) in positions' && positions'[Owner(fds'[i].fd)] == i
    {
      EntryIsRegistered(fds, positions, registry, if i == idx then last else i);
    }
    assert registry.Keys == positions.Keys by {
      assert Unfold(0);
    }
    assert Consistent(fds', positions', registry - {fd});
    RepresentsIsConsistent(fds', positions', registry - {fd});
  }

  /** Two registered descriptors have different positions. */
  lemma OwnerIsUnique(fds: seq<PollFd>, positions: Positions, registry: Registry, a: nat, b: nat)
    requires Represents(fds, positions, registry) && a in positions && b in positions
    ensures a in registry && positions[a] < |fds|
    ensures Owner(fds[positions[a]].fd) == a && registry[a] == InterestOf(fds[positions[a]])
    ensures positions[a] == positions[b] <==> a == b
  {
    assert Unfold(0);
  }

  // ---------------------------------------------------------------------------------------------
  // Dispatch
  // ---------------------------------------------------------------------------------------------

  datatype Callback = OnClose | OnError | OnRead | OnWrite

  function When(condition: bool, callback: Callback): seq<Callback> {
    if condition then [callback] else []
  }

  predicate Readable(revents: Mask) {
    revents.pollIn || revents.pollPri || revents.pollRdHup
  }

  predicate HungUp(revents: Mask) {
    revents.pollHup && !revents.pollIn
  }

  /** The callbacks `handleEvents` makes for a mask, in order. */
  function Callbacks(revents: Mask): seq<Callback> {
    When(HungUp(revents), OnClose) + When(revents.pollErr || revents.pollNval, OnError)
    + When(Readable(revents), OnRead) + When(revents.pollOut, OnWrite)
  }

  /** The order in which handleEvents looks at the conditions. */
  function Place(callback: Callback): nat {
    match callback
    case OnClose => 0
    case OnError => 1
    case OnRead => 2
    case OnWrite => 3
  }

  predicate Ordered(calls: seq<Callback>) {
    forall i, j :: 0 <= i < j < |calls| ==> Place(calls[i]) < Place(calls[j])
  }

  /** One possible callback put behind those that come before it. */
  lemma OrderedWhen(calls: seq<Callback>, condition: bool, callback: Callback)
    requires Ordered(calls) && forall x :: x in calls ==> Place(x) < Place(callback)
    ensures Ordered(calls + When(condition, callback))
    ensures forall x :: x in calls + When(condition, callback) ==> x in calls || x == callback
  {
    var longer := calls + When(condition, callback);
    forall i, j | 0 <= i < j < |longer|
      ensures Place(longer[i]) < Place(longer[j])
    {
      assert longer[i] == calls[i] && calls[i] in calls;
    }
  }

  /** The condition under which handleEvents makes a callback. */
  predicate Due(revents: Mask, callback: Callback) {
    match callback
    case OnClose => HungUp(revents)
    case OnError => revents.pollErr || revents.pollNval
    case OnRead => Readable(revents)
    case OnWrite => revents.pollOut
  }

  lemma CallbacksAreOrdered(revents: Mask)
    ensures Ordered(Callbacks(revents))
    ensures forall callback :: callback in Callbacks(revents) <==> Due(revents, callback)
  {
    var one := When(HungUp(revents), OnClose);
    var two := one + When(revents.pollErr || revents.pollNval, OnError);
    var three := two + When(Readable(revents), OnRead);
    OrderedWhen(one, revents.pollErr || revents.pollNval, OnError);
    OrderedWhen(two, Readable(revents), OnRead);
    OrderedWhen(three, revents.pollOut, OnWrite);
  }

  /** The last callback of an ordered sequence comes after all others and is made once. */
  lemma LastOfOrdered(calls: seq<Callback>)
    requires Ordered(calls) && calls != []
    ensures var last := |calls| - 1;
            && Ordered(calls[..last])
            && (forall x :: x in calls ==> Place(x) <= Place(calls[last]))
            && (forall x :: x in calls[..last] <==> x in calls && x != calls[last])
  {
    var last := |calls| - 1;
    assert calls == calls[..last] + [calls[last]];
  }

  lemma HasElement(calls: seq<Callback>)
    ensures calls == [] || exists x :: x in calls
  {
    if calls != [] {
      assert calls[0] in calls;
    }
  }

  /** There is only one way to put given callbacks in order. */
  lemma {:induction false} OrderIsUnique(a: seq<Callback>, b: seq<Callback>)
    requires Ordered(a) && Ordered(b) && forall x :: x in a <==> x in b
    ensures a == b
    decreases |a|
  {
    if a == [] {
      HasElement(b);
    } else {
      var m, n := |a| - 1, |b| - 1;
      assert a[m] in a && a[m] in b;
      assert b[n] in b && b[n] in a;
      LastOfOrdered(a);
      LastOfOrdered(b);
      OrderIsUnique(a[..m], b[..n]);
      assert a == a[..m] + [a[m]] && b == b[..n] + [b[n]];
    }
  }

  lemma PlaceMeans(a: Callback, b: Callback)
    ensures Place(a) < Place(b) <==>
            && a != b && b != OnClose && a != OnWrite
            && (b == OnError ==> a == OnClose) && (a == OnRead ==> b == OnWrite)
  {
  }

  /** The order, said of pairs. */
  lemma OrderedMeans(calls: seq<Callback>)
    ensures Ordered(calls) <==>
            forall i, j :: 0 <= i < j < |calls| ==>
              && calls[i] != calls[j] && calls[j] != OnClose && calls[i] != OnWrite
              && (calls[j] == OnError ==> calls[i] == OnClose) && (calls[i] == OnRead ==> calls[j] == OnWrite)
  {
    if Ordered(calls) {
      forall i, j | 0 <= i < j < |calls|
        ensures calls[i] != calls[j] && calls[j] != OnClose && calls[i] != OnWrite
        ensures (calls[j] == OnError ==> calls[i] == OnClose) && (calls[i] == OnRead ==> calls[j] == OnWrite)
      {
        PlaceMeans(calls[i], calls[j]);
      }
    } else {
      var i, j :| 0 <= i < j < |calls| && Place(calls[i]) >= Place(calls[j]);
      PlaceMeans(calls[i], calls[j]);
    }
  }

  /** Membership of each callback, said one by one. */
  lemma SameCallbacks(revents: Mask, calls: seq<Callback>)
    ensures (forall x :: x in calls <==> Due(revents, x)) <==>
            && (OnClose in calls <==> revents.pollHup && !revents.pollIn)
            && (OnError in calls <==> revents.pollErr || revents.pollNval)
            && (OnRead in calls <==> revents.pollIn || revents.pollPri || revents.pollRdHup)
            && (OnWrite in calls <==> revents.pollOut)
  {
    assert Due(revents, OnClose) <==> revents.pollHup && !revents.pollIn;
    assert Due(revents, OnError) <==> revents.pollErr || revents.pollNval;
    assert Due(revents, OnRead) <==> revents.pollIn || revents.pollPri || revents.pollRdHup;
    assert Due(revents, OnWrite) <==> revents.pollOut;
  }

  /** What a dispatch makes is determined by this: the close callback for a hang-up without input, the error
      callback for POLLERR or POLLNVAL, the read callback for POLLIN, POLLPRI or POLLRDHUP, the write callback for
      POLLOUT, each once, none before one that is looked at earlier. */
  lemma CallbacksAreDetermined(revents: Mask, calls: seq<Callback>)
    ensures calls == Callbacks(revents) <==>
            && (OnClose in calls <==> revents.pollHup && !revents.pollIn)
            && (OnError in calls <==> revents.pollErr || revents.pollNval)
            && (OnRead in calls <==> revents.pollIn || revents.pollPri || revents.pollRdHup)
            && (OnWrite in calls <==> revents.pollOut)
            && (forall i, j :: 0 <= i < j < |calls| ==>
                  && calls[i] != calls[j] && calls[j] != OnClose && calls[i] != OnWrite
                  && (calls[j] == OnError ==> calls[i] == OnClose) && (calls[i] == OnRead ==> calls[j] == OnWrite))
  {
    CallbacksAreOrdered(revents);
    OrderedMeans(calls);
    SameCallbacks(revents, calls);
    if Ordered(calls) && forall x :: x in calls <==> Due(revents, x) {
      OrderIsUnique(calls, Callbacks(revents));
    }
  }

  /** The number of entries poll() reports. */
  function CountReady(fds: seq<PollFd>): nat {
    if fds == [] then 0
    else CountReady(fds[..|fds| - 1]) + (if fds[|fds| - 1].revents != NONE_EVENT then 1 else 0)
  }

  /** The positions of the reported entries, in array order. */
  function ReadyIndices(fds: seq<PollFd>): (indices: seq<nat>)
    ensures forall k :: 0 <= k < |indices| ==> indices[k] < |fds|
  {
    if fds == [] then []
    else
      var n := |fds| - 1;
      ReadyIndices(fds[..n]) + (if fds[n].revents != NONE_EVENT then [n] else [])
  }

  /** They are exactly the entries with events, each once, in increasing order, as many as poll() counted. */
  lemma {:induction false} ReadyIndicesAreExact(fds: seq<PollFd>)
    ensures var indices := ReadyIndices(fds);
            && |indices| == CountReady(fds)
            && (forall i, j :: 0 <= i < j < |indices| ==> indices[i] < indices[j])
            && (forall k :: 0 <= k < |fds| ==> (k in indices <==> fds[k].revents != NONE_EVENT))
  {
    if fds != [] {
      var n := |fds| - 1;
      var prior := ReadyIndices(fds[..n]);
      var indices := ReadyIndices(fds);
      ReadyIndicesAreExact(fds[..n]);
      assert indices == prior + if fds[n].revents != NONE_EVENT then [n] else [];
      forall k | 0 <= k < |fds|
        ensures k in indices <==> fds[k].revents != NONE_EVENT
      {
        assert k < n ==> (fds[..n][k] == fds[k] && (k in indices <==> k in prior));
        assert k == n ==> (forall j :: 0 <= j < |prior| ==> prior[j] != n);
      }
    }
  }

  /** Once the count is used up, no later entry has events. */
  lemma {:induction false} CountReadyUsedUp(fds: seq<PollFd>, upto: nat)
    requires upto <= |fds|
    ensures CountReady(fds[..upto]) <= CountReady(fds)
    ensures CountReady(fds[..upto]) == CountReady(fds) ==> ReadyIndices(fds[..upto]) == ReadyIndices(fds)
    decreases |fds|
  {
    if upto == |fds| {
      assert fds[..upto] == fds;
    } else {
      var n := |fds| - 1;
      assert fds[..n][..upto] == fds[..upto];
      CountReadyUsedUp(fds[..n], upto);
    }
  }

  /** Moving on by one entry. */
  lemma NextReady(fds: seq<PollFd>, i: nat)
    requires i < |fds|
    ensures CountReady(fds[..i + 1]) == CountReady(fds[..i]) + if fds[i].revents != NONE_EVENT then 1 else 0
    ensures ReadyIndices(fds[..i + 1]) == ReadyIndices(fds[..i]) + if fds[i].revents != NONE_EVENT then [i] else []
  {
    assert fds[..i + 1][..i] == fds[..i];
  }

  /** What poll() may answer (POSIX.1-2017, System Interfaces, poll): nothing for negative descriptors, and
      for the others only requested events or one of the three always-on conditions. */
  predicate KernelAnswer(fds: seq<PollFd>, results: seq<Mask>) {
    && |results| == |fds|
    && forall i :: 0 <= i < |fds| ==>
         if fds[i].fd < 0 then results[i] == NONE_EVENT else results[i].Within(fds[i].events.Union(ALWAYS_ON))
  }

  function WithResults(fds: seq<PollFd>, results: seq<Mask>): (answered: seq<PollFd>)
    requires |results| == |fds|
    ensures |answered| == |fds|
  {
    seq(|fds|, i requires 0 <= i < |fds| => fds[i].(revents := results[i]))
  }

  // ---------------------------------------------------------------------------------------------
  // The classes
  // ---------------------------------------------------------------------------------------------

  class Channel {
    const poller: Poller  // loop_->poller_
    const fd: nat
    var events: Mask
    var revents: Mask
    var index: int
    var eventsHandling: bool

    constructor (poller: Poller, fd: nat)
      ensures this.poller == poller && this.fd == fd
      ensures events == NONE_EVENT && revents == NONE_EVENT && index == -1 && !eventsHandling
    {
      this.poller := poller;
      this.fd := fd;
      events := NONE_EVENT;
      revents := NONE_EVENT;
      index := -1;
      eventsHandling := false;
    }

    predicate IsNoneEvent()
      reads this
    {
      events == NONE_EVENT
    }

    predicate IsWriting()
      reads this
    {
      events.pollOut
    }

    /** The poller can take an update of this channel: it is registered, or new with a free descriptor. */
    ghost predicate Updatable()
      reads this, poller, poller.channels
    {
      && poller.Valid()
      && (index < 0 ==> fd !in poller.channelMap && fd !in poller.registry)
      && (0 <= index ==> fd in poller.channelMap && poller.channelMap[fd] == this && fd in poller.registry)
    }

    /** Every setter replaces the mask and pushes it to the poller. */
    method SetEvents(mask: Mask)
      requires Updatable()
      modifies this`events, this`index, poller
      ensures Updatable() && 0 <= index && events == mask
      ensures poller.channelMap == old(poller.channelMap)[fd := this]
      ensures poller.channels == old(poller.channels) + {this}
      ensures poller.registry == old(poller.registry)[fd := Updated(old(Lookup(poller.registry, fd)), mask)]
    {
      events := mask;
      poller.UpdateChannel(this);
    }

    method EnableReading()
      requires Updatable()
      modifies this`events, this`index, poller
      ensures Updatable() && 0 <= index && events == old(events).(pollIn := true, pollPri := true)
      ensures poller.channelMap == old(poller.channelMap)[fd := this]
      ensures poller.channels == old(poller.channels) + {this}
      ensures poller.registry == old(poller.registry)[fd := Updated(old(Lookup(poller.registry, fd)), events)]
    {
      SetEvents(events.Union(READ_EVENT));
    }

    method EnableWriting()
      requires Updatable()
      modifies this`events, this`index, poller
      ensures Updatable() && 0 <= index && events == old(events).(pollOut := true)
      ensures poller.channelMap == old(poller.channelMap)[fd := this]
      ensures poller.channels == old(poller.channels) + {this}
      ensures poller.registry == old(poller.registry)[fd := Updated(old(Lookup(poller.registry, fd)), events)]
    {
      SetEvents(events.Union(WRITE_EVENT));
    }

    method DisableWriting()
      requires Updatable()
      modifies this`events, this`index, poller
      ensures Updatable() && 0 <= index && events == old(events).(pollOut := false)
      ensures poller.channelMap == old(poller.channelMap)[fd := this]
      ensures poller.channels == old(poller.channels) + {this}
      ensures poller.registry == old(poller.registry)[fd := Updated(old(Lookup(poller.registry, fd)), events)]
    {
      SetEvents(events.(pollOut := false));
    }

    method DisableAllEvents()
      requires Updatable()
      modifies this`events, this`index, poller
      ensures Updatable() && 0 <= index && events == NONE_EVENT
      ensures poller.channelMap == old(poller.channelMap)[fd := this]
      ensures poller.channels == old(poller.channels) + {this}
      ensures poller.registry == old(poller.registry)[fd := Updated(old(Lookup(poller.registry, fd)), events)]
    {
      SetEvents(NONE_EVENT);
    }

    /** `handleEvents`, with the callbacks it makes as its result. */
    method HandleEvents() returns (calls: seq<Callback>)
      modifies this`eventsHandling
      ensures calls == Callbacks(revents) && !eventsHandling
      ensures OnClose in calls <==> revents.pollHup && !revents.pollIn
      ensures OnError in calls <==> revents.pollErr || revents.pollNval
      ensures OnRead in calls <==> revents.pollIn || revents.pollPri || revents.pollRdHup
      ensures OnWrite in calls <==> revents.pollOut
    {
      eventsHandling := true;
      calls := [];
      if revents.pollHup && !revents.pollIn {
        calls := calls + [OnClose];
      }
      if revents.pollErr || revents.pollNval {
        calls := calls + [OnError];
      }
      if revents.pollIn || revents.pollPri || revents.pollRdHup {
        calls := calls + [OnRead];
      }
      if revents.pollOut {
        calls := calls + [OnWrite];
      }
      eventsHandling := false;
      assert calls == Callbacks(revents);
      CallbacksAreDetermined(revents, calls);
    }
  }

  /** The map holds exactly the registered channels, each under its own descriptor. */
  ghost predicate LinkedUnfolded(poller: Poller, channelMap: map<nat, Channel>, channels: set<Channel>, fds: set<nat>) {
    && channelMap.Keys == fds
    && (forall fd :: fd in channelMap ==> channelMap[fd] in channels && channelMap[fd].fd == fd)
    && (forall ch :: ch in channels ==> ch.poller == poller && ch.fd in channelMap && channelMap[ch.fd] == ch)
  }

  ghost predicate Linked(poller: Poller, channelMap: map<nat, Channel>, channels: set<Channel>, fds: set<nat>) {
    forall key {:trigger Unfold(key)} :: Unfold(key) ==> LinkedUnfolded(poller, channelMap, channels, fds)
  }

  lemma LinkedLookup(poller: Poller, channelMap: map<nat, Channel>, channels: set<Channel>, fds: set<nat>, fd: nat)
    requires Linked(poller, channelMap, channels, fds)
    ensures fd in fds <==> fd in channelMap
    ensures fd in fds ==> channelMap[fd] in channels && channelMap[fd].fd == fd && channelMap[fd].poller == poller
  {
    assert Unfold(0);
  }

  lemma LinkedMember(poller: Poller, channelMap: map<nat, Channel>, channels: set<Channel>, fds: set<nat>, ch: Channel)
    requires Linked(poller, channelMap, channels, fds) && ch in channels
    ensures ch.poller == poller && ch.fd in fds && ch.fd in channelMap && channelMap[ch.fd] == ch
    ensures forall other :: other in channels && other.fd == ch.fd ==> other == ch
  {
    assert Unfold(0);
  }

  lemma LinkedAdd(poller: Poller, channelMap: map<nat, Channel>, channels: set<Channel>, fds: set<nat>, ch: Channel)
    requires Linked(poller, channelMap, channels, fds) && ch.poller == poller && ch.fd !in fds
    ensures Linked(poller, channelMap[ch.fd := ch], channels + {ch}, fds + {ch.fd})
    ensures ch !in channels
  {
    assert Unfold(0);
  }

  lemma LinkedRemove(poller: Poller, channelMap: map<nat, Channel>, channels: set<Channel>, fds: set<nat>, ch: Channel)
    requires Linked(poller, channelMap, channels, fds) && ch in channels
    ensures Linked(poller, channelMap - {ch.fd}, channels - {ch}, fds - {ch.fd})
  {
    assert Unfold(0);
  }

  class Poller {
    var pollFds: seq<PollFd>
    var channelMap: map<nat, Channel>

    ghost var positions: Positions  // the back-indices of the registered channels
    ghost var channels: set<Channel>  // the registered channels
    ghost var registry: Registry  // the simple map the three structures stand for

    /** Array, map and back-indices are in bijection. */
    ghost predicate Indexed()
      reads this, channels
    {
      && Represents(pollFds, positions, registry)
      && Linked(this, channelMap, channels, registry.Keys)
      && forall ch :: ch in channels ==> ch.fd in positions && ch.index == positions[ch.fd]
    }

    /** Every entry, except possibly that of `channel`, carries its channel's mask. */
    ghost predicate InSyncExcept(channel: Channel)
      reads this, channels
    {
      forall ch :: ch in channels && ch != channel ==> ch.fd in registry && registry[ch.fd].events == ch.events
    }

    ghost predicate Valid()
      reads this, channels
    {
      Indexed() && forall ch :: ch in channels ==> ch.fd in registry && registry[ch.fd].events == ch.events
    }

    constructor ()
      ensures Valid() && channelMap == map[] && pollFds == [] && channels == {} && registry == map[]
    {
      pollFds := [];
      channelMap := map[];
      positions := map[];
      channels := {};
      registry := map[];
    }

    method UpdateChannel(channel: Channel)
      requires channel.poller == this && Indexed() && InSyncExcept(channel)
      requires channel.index < 0 ==> channel.fd !in channelMap
      requires 0 <= channel.index ==> channel.fd in channelMap && channelMap[channel.fd] == channel
      modifies this, channel`index
      ensures Valid() && 0 <= channel.index
      ensures channelMap == old(channelMap)[channel.fd := channel] && channels == old(channels) + {channel}
      ensures registry == old(registry)[channel.fd := Updated(old(Lookup(registry, channel.fd)), channel.events)]
      ensures |old(pollFds)| <= |pollFds| && channel.index < |pollFds|
      ensures pollFds[channel.index].events == channel.events && pollFds[channel.index].revents == NONE_EVENT
      ensures pollFds[channel.index].fd == if registry[channel.fd].muted then -1 - channel.fd else channel.fd
      ensures forall i :: 0 <= i < |old(pollFds)| && i != channel.index ==> pollFds[i] == old(pollFds[i])
    {
      if channel.index < 0 {
        LinkedLookup(this, channelMap, channels, registry.Keys, channel.fd);
        PushEntry(channel);
      } else {
        LinkedLookup(this, channelMap, channels, registry.Keys, channel.fd);
        PositionIsRight(pollFds, positions, registry, channel.fd);
        OverwriteEntryOf(channel);
        assert channelMap == channelMap[channel.fd := channel];
        EntryIsRegistered(pollFds, positions, registry, channel.index);
      }
    }

    method PushEntry(channel: Channel)
      requires channel.poller == this && Indexed() && InSyncExcept(channel)
      requires channel.index < 0 && channel.fd !in channelMap
      modifies this, channel`index
      ensures Valid() && 0 <= channel.index
      ensures channelMap == old(channelMap)[channel.fd := channel] && channels == old(channels) + {channel}
      ensures registry == old(registry)[channel.fd := Interest(channel.events, false)]
      ensures pollFds == old(pollFds) + [PollFd(channel.fd, channel.events, NONE_EVENT)]
      ensures channel.index == |old(pollFds)|
    {
      LinkedLookup(this, channelMap, channels, registry.Keys, channel.fd);
      LinkedAdd(this, channelMap, channels, registry.Keys, channel);
      AppendEntry(pollFds, positions, registry, channel.fd, channel.events);
      channel.index := |pollFds|;
      positions := positions[channel.fd := |pollFds|];
      assert (registry[channel.fd := Interest(channel.events, false)]).Keys == registry.Keys + {channel.fd};
      registry := registry[channel.fd := Interest(channel.events, false)];
      pollFds := pollFds + [PollFd(channel.fd, channel.events, NONE_EVENT)];
      channels := channels + {channel};
      channelMap := channelMap[channel.fd := channel];
    }

    method OverwriteEntryOf(channel: Channel)
      requires channel.poller == this && Indexed() && InSyncExcept(channel)
      requires 0 <= channel.index < |pollFds| && channel in channels && channel.fd in registry
      modifies this`pollFds, this`registry
      ensures Valid()
      ensures registry == old(registry)[channel.fd := Updated(Some(old(registry[channel.fd])), channel.events)]
      ensures pollFds ==
              old(pollFds)[channel.index := Overwritten(old(pollFds[channel.index]), channel.fd, channel.events)]
    {
      LinkedMember(this, channelMap, channels, registry.Keys, channel);
      PositionIsRight(pollFds, positions, registry, channel.fd);
      OverwriteEntry(pollFds, positions, registry, channel.fd, channel.events);
      var idx := channel.index;
      var entry := pollFds[idx];
      assert entry.fd == channel.fd || entry.fd == -1 - channel.fd;  // the source's own assertion
      entry := entry.(events := channel.events, revents := NONE_EVENT);
      if channel.IsNoneEvent() {
        entry := entry.(fd := -1 - channel.fd);
      }
      assert (registry[channel.fd := Updated(Some(registry[channel.fd]), channel.events)]).Keys == registry.Keys;
      registry := registry[channel.fd := Updated(Some(registry[channel.fd]), channel.events)];
      pollFds := pollFds[idx := entry];
    }

    /** Swap with the last entry, repair the moved channel's position, pop. */
    method RemoveChannel(channel: Channel)
      requires Valid()
      requires channel.fd in channelMap && channelMap[channel.fd] == channel && channel.IsNoneEvent()
      modifies this, channels`index
      ensures Valid()
      ensures channelMap == old(channelMap) - {channel.fd} && channels == old(channels) - {channel}
      ensures registry == old(registry) - {channel.fd}
      ensures 0 <= channel.index == old(channel.index) < |old(pollFds)|
      ensures pollFds == SwappedOut(old(pollFds), channel.index)
    {
      LinkedLookup(this, channelMap, channels, registry.Keys, channel.fd);
      PositionIsRight(pollFds, positions, registry, channel.fd);
      var idx := channel.index;
      assert pollFds[idx].fd == -1 - channel.fd || pollFds[idx].fd == channel.fd;  // the source's own assertions
      assert pollFds[idx].events == channel.events;
      if idx == |pollFds| - 1 {
        RemoveLastEntry(channel);
      } else {
        RemoveInnerEntry(channel);
      }
    }

    /** Take the channel out of the map. */
    method Forget(channel: Channel)
      requires Linked(this, channelMap, channels, registry.Keys) && channel in channels && channel.fd in registry
      modifies this`channelMap, this`channels, this`registry
      ensures channelMap == old(channelMap) - {channel.fd} && channels == old(channels) - {channel}
      ensures registry == old(registry) - {channel.fd}
      ensures Linked(this, channelMap, channels, registry.Keys)
    {
      LinkedRemove(this, channelMap, channels, registry.Keys, channel);
      assert (registry - {channel.fd}).Keys == registry.Keys - {channel.fd};
      channelMap := channelMap - {channel.fd};
      channels := channels - {channel};
      registry := registry - {channel.fd};
    }

    method RemoveLastEntry(channel: Channel)
      requires Valid()
      requires channel in channels && channel.fd in registry
      requires 0 <= channel.index == |pollFds| - 1
      modifies this
      ensures Valid()
      ensures channelMap == old(channelMap) - {channel.fd} && channels == old(channels) - {channel}
      ensures registry == old(registry) - {channel.fd}
      ensures 0 <= channel.index == old(channel.index) < |old(pollFds)|
      ensures pollFds == SwappedOut(old(pollFds), channel.index)
    {
      ghost var fds, ps, was := pollFds, positions, registry;
      LinkedMember(this, channelMap, channels, was.Keys, channel);
      PositionIsRight(fds, ps, was, channel.fd);
      Forget(channel);
      pollFds := pollFds[..channel.index];
      positions := SwapOutEntry(fds, ps, was, channel.fd, pollFds);
    }

    /** Swap with the last entry, tell its channel, pop. */
    method FillHole(idx: nat, moved: Channel)
      requires idx < |pollFds| - 1
      modifies this`pollFds, moved`index
      ensures pollFds == SwappedOut(old(pollFds), idx) && moved.index == idx
    {
      var last := |pollFds| - 1;
      pollFds := pollFds[idx := pollFds[last]][last := pollFds[idx]];
      moved.index := idx;
      pollFds := pollFds[..last];
    }

    method RemoveInnerEntry(channel: Channel)
      requires Valid()
      requires channel in channels && channel.fd in registry
      requires 0 <= channel.index < |pollFds| - 1
      modifies this, channels`index
      ensures Valid()
      ensures channelMap == old(channelMap) - {channel.fd} && channels == old(channels) - {channel}
      ensures registry == old(registry) - {channel.fd}
      ensures 0 <= channel.index == old(channel.index) < |old(pollFds)|
      ensures pollFds == SwappedOut(old(pollFds), channel.index)
    {
      ghost var fds, ps, was, links := pollFds, positions, registry, channelMap;
      LinkedMember(this, links, channels, was.Keys, channel);
      PositionIsRight(fds, ps, was, channel.fd);
      var idx, last := channel.index, |pollFds| - 1;
      EntryIsRegistered(fds, ps, was, last);
      var fdAtEnd := pollFds[last].fd;
      if fdAtEnd < 0 {
        fdAtEnd := -1 - fdAtEnd;
      }
      LinkedLookup(this, links, channels, was.Keys, fdAtEnd);
      var moved := channelMap[fdAtEnd];
      LinkedMember(this, links, channels, was.Keys, moved);
      Forget(channel);
      FillHole(idx, moved);
      positions := SwapOutEntry(fds, ps, was, channel.fd, pollFds);
      forall ch | ch in channels
        ensures ch.fd in positions && ch.index == positions[ch.fd]
      {
        PositionIsRight(fds, ps, was, ch.fd);
        assert ch.fd in ps.Keys - {channel.fd};
        assert ps[ch.fd] == last ==> ch == moved;
      }
    }

    /** `channel` is registered at position `i`, unmuted, and has been told what was reported there. */
    ghost predicate Reported(channel: Channel, i: nat)
      reads this, channels
    {
      && channel in channels && channel.index == i < |pollFds|
      && channel.fd == pollFds[i].fd && channel.fd in channelMap && channelMap[channel.fd] == channel
      && channel.revents == pollFds[i].revents
    }

    /** Look up the channel of a reported entry, and tell it the events. */
    method Activate(i: nat) returns (channel: Channel)
      requires Indexed() && i < |pollFds| && 0 <= pollFds[i].fd
      modifies channels`revents
      ensures Reported(channel, i)
      ensures forall ch :: ch in channels && ch != channel ==> ch.revents == old(ch.revents)
    {
      EntryIsRegistered(pollFds, positions, registry, i);
      LinkedLookup(this, channelMap, channels, registry.Keys, Owner(pollFds[i].fd));
      assert pollFds[i].fd in channelMap;  // the source's own assertions
      channel := channelMap[pollFds[i].fd];
      assert channel.fd == pollFds[i].fd;
      channel.revents := pollFds[i].revents;
    }

    /** `active` is what the scan has to find among the first `i` entries. */
    ghost predicate Scanned(active: seq<Channel>, i: nat)
      reads this, channels
    {
      && i <= |pollFds| && |active| == |ReadyIndices(pollFds[..i])|
      && forall k :: 0 <= k < |active| ==> Reported(active[k], ReadyIndices(pollFds[..i])[k])
    }

    /** One reported entry. */
    method ActivateNext(i: nat, active: seq<Channel>) returns (longer: seq<Channel>)
      requires Indexed() && Scanned(active, i)
      requires i < |pollFds| && 0 <= pollFds[i].fd && pollFds[i].revents != NONE_EVENT
      modifies channels`revents
      ensures Scanned(longer, i + 1) && |longer| == |active| + 1 && longer[..|active|] == active
      ensures forall ch :: ch in channels && ch != longer[|active|] ==> ch.revents == old(ch.revents)
    {
      NextReady(pollFds, i);
      assert forall k :: 0 <= k < |active| ==> ReadyIndices(pollFds[..i])[k] < i;
      var channel := Activate(i);
      longer := active + [channel];
    }

    /** The scan stops as soon as the reported number of entries has been found. */
    method FillActiveChannels(numEvents: nat) returns (active: seq<Channel>)
      requires Indexed() && numEvents == CountReady(pollFds)
      requires forall i :: 0 <= i < |pollFds| && pollFds[i].fd < 0 ==> pollFds[i].revents == NONE_EVENT
      modifies channels`revents
      ensures |active| == |ReadyIndices(pollFds)|
      ensures forall k :: 0 <= k < |active| ==> Reported(active[k], ReadyIndices(pollFds)[k])
      ensures forall ch :: ch in channels && ch !in active ==> ch.revents == old(ch.revents)
    {
      active := [];
      var remaining := numEvents;
      var i := 0;
      while i < |pollFds| && 0 < remaining
        invariant 0 <= i <= |pollFds|
        invariant remaining + CountReady(pollFds[..i]) == numEvents
        invariant Indexed() && Scanned(active, i)
        invariant forall ch :: ch in channels && ch !in active ==> ch.revents == old(ch.revents)
      {
        NextReady(pollFds, i);
        if pollFds[i].revents != NONE_EVENT {
          remaining := remaining - 1;
          active := ActivateNext(i, active);
        }
        i := i + 1;
      }
      CountReadyUsedUp(pollFds, i);
      assert i == |pollFds| ==> pollFds[..i] == pollFds;
    }

    /** `poll`: `answer` is what the system call reported, or None if it failed. */
    method Poll(answer: Option<seq<Mask>>) returns (active: seq<Channel>)
      requires Valid()
      requires answer.Some? ==> KernelAnswer(pollFds, answer.value)
      modifies this`pollFds, channels`revents
      ensures Valid()
      ensures answer.None? ==> active == [] && pollFds == old(pollFds)
      ensures answer.Some? ==>
                && pollFds == WithResults(old(pollFds), answer.value)
                && |active| == |ReadyIndices(pollFds)|
                && (forall k :: 0 <= k < |active| ==> Reported(active[k], ReadyIndices(pollFds)[k]))
                && (forall k :: 0 <= k < |active| ==> active[k].revents.Within(active[k].events.Union(ALWAYS_ON)))
    {
      if answer == None {
        return [];
      }
      AnswerEntries(pollFds, positions, registry, answer.value);
      pollFds := WithResults(pollFds, answer.value);
      active := FillActiveChannels(CountReady(pollFds));
      forall k | 0 <= k < |active|
        ensures active[k].revents.Within(active[k].events.Union(ALWAYS_ON))
      {
        assert Reported(active[k], ReadyIndices(pollFds)[k]);
        EntryIsRegistered(pollFds, positions, registry, ReadyIndices(pollFds)[k]);
      }
    }
  }
}
