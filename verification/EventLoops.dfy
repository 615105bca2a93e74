/** The event loop's own fields and methods: src/event_loop.cpp. `LoopProtocol` says what they amount to when
    other threads run in between. */
module EventLoops {
  import opened Polling
  import opened ConnectionSpec
  import opened ServerSpec
  import opened Options

  /** One call of queueInLoop. */
  datatype Request = Request(callback: Functor, inLoopThread: bool)

  function Queued(requests: seq<Request>): (fs: seq<Functor>)
    ensures |fs| == |requests|
    ensures forall i :: 0 <= i < |requests| ==> fs[i] == requests[i].callback
  {
    seq(|requests|, i requires 0 <= i < |requests| => requests[i].callback)
  }

  function Flatten(rounds: seq<seq<Request>>): seq<Request> {
    if rounds == [] then [] else Flatten(rounds[..|rounds| - 1]) + rounds[|rounds| - 1]
  }

  /** Every request of every round, in order. */
  lemma {:induction false} FlattenJoins(a: seq<seq<Request>>, b: seq<seq<Request>>)
    ensures Flatten(a + b) == Flatten(a) + Flatten(b)
    ensures forall round :: Flatten([round]) == round
    decreases |b|
  {
    forall round: seq<Request>
      ensures Flatten([round]) == round
    {
      assert [round][..0] == [];
    }
    if b == [] {
      assert a + b == a;
    } else {
      var n := |b| - 1;
      assert (a + b)[..|a + b| - 1] == a + b[..n];
      FlattenJoins(a, b[..n]);
    }
  }

  /** The poller has every registered connection of the server `s`, with the interest `s` says. */
  ghost predicate StandsFor(poller: Poller, s: Server)
    reads poller
  {
    forall fd :: fd in s.channelMap ==>
      && s.channelMap[fd] in s.conns && s.conns[s.channelMap[fd]].fd == fd
      && fd in poller.registry
      && s.conns[s.channelMap[fd]].slot == Registered(poller.registry[fd])
  }

  /** What an active channel is to the server: a connection, the acceptor on `acceptFd`, or another. */
  function ReadyOf(s: Server, acceptFd: nat, fd: nat, revents: Mask): Ready {
    if fd in s.channelMap then ConnReady(s.channelMap[fd], revents)
    else if fd == acceptFd then AcceptReady
    else OtherReady
  }

  ghost function ReadyList(s: Server, acceptFd: nat, active: seq<Channel>): (ready: seq<Ready>)
    reads set ch | ch in active
    ensures |ready| == |active|
    ensures forall i :: 0 <= i < |active| ==> ready[i] == ReadyOf(s, acceptFd, active[i].fd, active[i].revents)
  {
    var channels := set ch | ch in active;
    seq(|active|, i requires 0 <= i < |active| reads channels =>
      ReadyOf(s, acceptFd, active[i].fd, active[i].revents))
  }

  /** `active` holds, in array order and once each, the channels of exactly the entries the kernel reported
      something for, each told that; `at` says where they stand in the array. */
  ghost predicate Reports(fds: seq<PollFd>, results: seq<Mask>, active: seq<Channel>, at: seq<nat>)
    requires |results| == |fds|
    reads set ch | ch in active
  {
    && |at| == |active|
    && (forall j, k :: 0 <= j < k < |at| ==> at[j] < at[k])
    && (forall k :: 0 <= k < |at| ==>
          at[k] < |fds| && active[k].fd == fds[at[k]].fd && active[k].revents == results[at[k]])
    && (forall i :: 0 <= i < |fds| ==> (i in at <==> results[i] != NONE_EVENT))
  }

  lemma ScanReports(poller: Poller, fds: seq<PollFd>, results: seq<Mask>, active: seq<Channel>)
    requires |results| == |fds| && poller.pollFds == WithResults(fds, results)
    requires |active| == |ReadyIndices(poller.pollFds)|
    requires forall k :: 0 <= k < |active| ==> poller.Reported(active[k], ReadyIndices(poller.pollFds)[k])
    ensures Reports(fds, results, active, ReadyIndices(poller.pollFds))
  {
    ReadyIndicesAreExact(poller.pollFds);
  }

  /** One reported channel that belongs to a connection: the connection is registered, unmuted, and told something
      it asked for or an always-on condition. */
  lemma ReportedAnswers(poller: Poller, s: Server, ch: Channel, i: nat)
    requires poller.Valid() && StandsFor(poller, s) && poller.Reported(ch, i)
    requires poller.pollFds[i].revents != NONE_EVENT && ch.revents.Within(ch.events.Union(ALWAYS_ON))
    requires ch.fd in s.channelMap
    ensures var id := s.channelMap[ch.fd];
            && id in s.conns && s.conns[id].slot.Registered? && !s.conns[id].slot.interest.muted
            && ch.revents != NONE_EVENT && s.conns[id].fd == ch.fd
            && ch.revents.Within(s.conns[id].slot.interest.events.Union(ALWAYS_ON))
  {
    EntryIsRegistered(poller.pollFds, poller.positions, poller.registry, i);
  }

  /** The whole active list of one poll. */
  lemma ActiveAnswers(poller: Poller, s: Server, acceptFd: nat, active: seq<Channel>)
    requires poller.Valid() && StandsFor(poller, s)
    requires |active| == |ReadyIndices(poller.pollFds)|
    requires forall k :: 0 <= k < |active| ==> poller.Reported(active[k], ReadyIndices(poller.pollFds)[k])
    requires forall k :: 0 <= k < |active| ==> active[k].revents.Within(active[k].events.Union(ALWAYS_ON))
    ensures PollAnswer(s, ReadyList(s, acceptFd, active))
  {
    var indices, ready := ReadyIndices(poller.pollFds), ReadyList(s, acceptFd, active);
    ReadyIndicesAreExact(poller.pollFds);
    EntriesAreDistinct(poller.pollFds, poller.positions, poller.registry);
    forall k | 0 <= k < |ready| && ready[k].ConnReady?
      ensures ready[k].id in s.conns && s.conns[ready[k].id].slot.Registered?
      ensures !s.conns[ready[k].id].slot.interest.muted && ready[k].revents != NONE_EVENT
      ensures s.conns[ready[k].id].fd == active[k].fd
      ensures ready[k].revents.Within(s.conns[ready[k].id].slot.interest.events.Union(ALWAYS_ON))
    {
      assert indices[k] in indices;
      ReportedAnswers(poller, s, active[k], indices[k]);
    }
    forall j, k | 0 <= j < k < |active|
      ensures active[j].fd != active[k].fd
    {
      assert poller.Reported(active[j], indices[j]) && poller.Reported(active[k], indices[k]);
      assert Owner(poller.pollFds[indices[j]].fd) != Owner(poller.pollFds[indices[k]].fd);
    }
  }

  class EventLoop {
    const poller: Poller
    var quit: bool
    var callingPendingFunctors: bool
    var pendingFunctors: seq<Functor>
    var wakeupCounter: nat  // the counter behind wakeup_fd_
    ghost var history: seq<Functor>  // everything ever queued
    ghost var executed: seq<Functor>  // everything run from the queue

    constructor (poller: Poller)
      ensures this.poller == poller && quit && !callingPendingFunctors
      ensures pendingFunctors == [] && wakeupCounter == 0 && history == [] && executed == []
    {
      this.poller := poller;
      quit := true;
      callingPendingFunctors := false;
      pendingFunctors := [];
      wakeupCounter := 0;
      history := [];
      executed := [];
    }

    /** The poll phase of one round: the active list is exactly what the kernel reported, and is one the step
        machine allows. */
    method PollOnce(answer: Option<seq<Mask>>, ghost s: Server, ghost acceptFd: nat)
      returns (active: seq<Channel>, ghost at: seq<nat>)
      requires poller.Valid() && StandsFor(poller, s)
      requires answer.Some? ==> KernelAnswer(poller.pollFds, answer.value)
      modifies poller`pollFds, poller.channels`revents
      ensures poller.Valid() && StandsFor(poller, s)
      ensures answer.None? ==> active == []
      ensures answer.Some? ==> Reports(old(poller.pollFds), answer.value, active, at)
      ensures PollAnswer(s, ReadyList(s, acceptFd, active))
    {
      active := poller.Poll(answer);
      at := [];
      if answer.Some? {
        at := ReadyIndices(poller.pollFds);
        ScanReports(poller, old(poller.pollFds), answer.value, active);
        ActiveAnswers(poller, s, acceptFd, active);
      }
    }

    method Wakeup()
      modifies this`wakeupCounter
      ensures wakeupCounter == old(wakeupCounter) + 1
    {
      wakeupCounter := wakeupCounter + 1;
    }

    method HandleRead()
      modifies this`wakeupCounter
      ensures wakeupCounter == 0
    {
      wakeupCounter := 0;
    }

    method QueueInLoop(callback: Functor, inLoopThread: bool)
      modifies this`pendingFunctors, this`wakeupCounter, this`history
      ensures pendingFunctors == old(pendingFunctors) + [callback]
      ensures history == old(history) + [callback]
      ensures inLoopThread && !callingPendingFunctors ==> wakeupCounter == old(wakeupCounter)
      ensures !inLoopThread || callingPendingFunctors ==> wakeupCounter == old(wakeupCounter) + 1
    {
      pendingFunctors := pendingFunctors + [callback];
      history := history + [callback];
      if !inLoopThread || callingPendingFunctors {
        Wakeup();
      }
    }

    /** `runNow`: the callback is to be called at once instead of being queued. */
    method RunInLoop(callback: Functor, inLoopThread: bool) returns (runNow: bool)
      modifies this`pendingFunctors, this`wakeupCounter, this`history
      ensures runNow <==> inLoopThread
      ensures runNow ==> unchanged(this)
      ensures !runNow ==> pendingFunctors == old(pendingFunctors) + [callback]
                          && history == old(history) + [callback] && wakeupCounter == old(wakeupCounter) + 1
    {
      runNow := inLoopThread;
      if !inLoopThread {
        QueueInLoop(callback, inLoopThread);
      }
    }

    method QueueAll(requests: seq<Request>)
      requires callingPendingFunctors
      modifies this`pendingFunctors, this`wakeupCounter, this`history
      ensures pendingFunctors == old(pendingFunctors) + Queued(requests)
      ensures history == old(history) + Queued(requests)
      ensures wakeupCounter == old(wakeupCounter) + |requests|
    {
      for i := 0 to |requests|
        modifies this`pendingFunctors, this`wakeupCounter, this`history
        invariant pendingFunctors == old(pendingFunctors) + Queued(requests[..i])
        invariant history == old(history) + Queued(requests[..i])
        invariant wakeupCounter == old(wakeupCounter) + i
      {
        QueueInLoop(requests[i].callback, requests[i].inLoopThread);
        assert Queued(requests[..i + 1]) == Queued(requests[..i]) + [requests[i].callback];
      }
      assert requests[..|requests|] == requests;
    }

    /** Run what is pending. `during[i]` is what is queued, by the functor itself or by other threads, while the
        i-th functor runs: none of it joins this batch, and each of it raises the wakeup counter. */
    method DoPendingFunctors(during: seq<seq<Request>>)
      requires |during| == |pendingFunctors|
      modifies this`pendingFunctors, this`wakeupCounter, this`history, this`executed, this`callingPendingFunctors
      ensures !callingPendingFunctors
      ensures executed == old(executed) + old(pendingFunctors)
      ensures pendingFunctors == Queued(Flatten(during))
      ensures history == old(history) + pendingFunctors
      ensures wakeupCounter == old(wakeupCounter) + |pendingFunctors|
      ensures old(history) == old(executed + pendingFunctors) ==> history == executed + pendingFunctors
    {
      var functors: seq<Functor> := [];
      callingPendingFunctors := true;
      functors, pendingFunctors := pendingFunctors, functors;
      var i := 0;
      while i < |functors|
        modifies this`pendingFunctors, this`wakeupCounter, this`history, this`executed
        invariant 0 <= i <= |functors|
        invariant executed == old(executed) + functors[..i]
        invariant pendingFunctors == Queued(Flatten(during[..i]))
        invariant history == old(history) + pendingFunctors
        invariant wakeupCounter == old(wakeupCounter) + |pendingFunctors|
      {
        executed := executed + [functors[i]];
        QueueAll(during[i]);
        assert during[..i + 1][..i] == during[..i];
        assert Queued(Flatten(during[..i + 1])) == Queued(Flatten(during[..i])) + Queued(during[i]);
        i := i + 1;
      }
      assert during[..i] == during && functors[..i] == functors;
      callingPendingFunctors := false;
    }

    method Quit(inLoopThread: bool)
      modifies this`quit, this`wakeupCounter
      ensures quit
      ensures wakeupCounter == old(wakeupCounter) + if inLoopThread then 0 else 1
    {
      quit := true;
      if !inLoopThread {
        Wakeup();
      }
    }
  }
}
