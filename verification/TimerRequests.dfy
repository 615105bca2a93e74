/** The timers of a history in terms of the requests made: src/timer_queue.cpp, src/include/timer.h. */
module TimerRequests {
  import opened TimerSpec
  import opened TimerSafety
  import opened Options

  /** How many timers are due. */
  function DueBy(ts: seq<Entry>, now: int): nat {
    if ts == [] then 0 else (if ts[0].when <= now then 1 else 0) + DueBy(ts[1..], now)
  }

  lemma {:induction false} NoneDue(ts: seq<Entry>, now: int)
    requires forall i :: 0 <= i < |ts| ==> now < ts[i].when
    ensures DueBy(ts, now) == 0
    decreases |ts|
  {
    if ts != [] {
      assert forall i :: 0 <= i < |ts[1..]| ==> ts[1..][i] == ts[i + 1];
      NoneDue(ts[1..], now);
    }
  }

  /** The sentry finds all of them. */
  lemma {:induction false} BoundaryIsDue(ts: seq<Entry>, now: int, k: nat)
    requires k <= |ts|
    requires forall i :: 0 <= i < |ts| ==> (i < k <==> ts[i].when <= now)
    ensures DueBy(ts, now) == k
    decreases |ts|
  {
    if k == 0 {
      NoneDue(ts, now);
    } else {
      assert forall i :: 0 <= i < |ts[1..]| ==> ts[1..][i] == ts[i + 1];
      BoundaryIsDue(ts[1..], now, k - 1);
    }
  }

  /** The requests of the first `n` callbacks. */
  function FirstScripts(scripts: seq<seq<Request>>, n: nat): seq<Request> {
    if n == 0 || scripts == [] then [] else scripts[0] + FirstScripts(scripts[1..], n - 1)
  }

  /** The requests of one step: the caller's, or those of the callbacks of all timers that are due. */
  function Requests(q: Queue, step: Step): seq<Request> {
    match step
    case AddTimer(r) => [r]
    case TimerRead(now, scripts) => FirstScripts(scripts, DueBy(q.timers, now))
  }

  function RequestsIn(q: Queue, steps: seq<Step>): seq<Request>
    decreases |steps|
  {
    if steps == [] then [] else Requests(q, steps[0]) + RequestsIn(Next(q, steps[0]), steps[1..])
  }

  /** The n-th timer ever added is what the n-th request asked for. */
  predicate AddedAre(added: seq<Entry>, rs: seq<Request>) {
    && |added| == |rs|
    && forall n :: 0 <= n < |rs| ==>
         added[n].when == rs[n].when && added[n].interval == rs[n].interval && added[n].id == n
  }

  lemma AddIsAsked(q: Queue, rs: seq<Request>, r: Request)
    requires AddedAre(q.added, rs)
    ensures AddedAre(Add(q, r).added, rs + [r])
  {
  }

  lemma {:induction false} AddAllIsAsked(q: Queue, rs: seq<Request>, more: seq<Request>)
    requires AddedAre(q.added, rs)
    ensures AddedAre(AddAll(q, more).added, rs + more)
    decreases |more|
  {
    if more == [] {
      assert rs + [] == rs;
    } else {
      AddIsAsked(q, rs, more[0]);
      AddAllIsAsked(Add(q, more[0]), rs + [more[0]], more[1..]);
      assert rs + [more[0]] + more[1..] == rs + more;
    }
  }

  lemma {:induction false} CallbacksAreAsked(
    q: Queue, expired: seq<Entry>, now: int, scripts: seq<seq<Request>>, rs: seq<Request>)
    requires AddedAre(q.added, rs)
    ensures AddedAre(RunCallbacks(q, expired, now, scripts).added, rs + FirstScripts(scripts, |expired|))
    decreases |expired|
  {
    if expired == [] {
      assert rs + [] == rs;
    } else {
      var first := ScriptAt(scripts, 0);
      var rest := if scripts == [] then [] else scripts[1..];
      var t := AddAll(Fire(q, expired[0], now), first);
      AddAllIsAsked(Fire(q, expired[0], now), rs, first);
      CallbacksAreAsked(t, expired[1..], now, rest, rs + first);
      assert rs + first + FirstScripts(rest, |expired| - 1) == rs + FirstScripts(scripts, |expired|);
    }
  }

  lemma {:induction false} ReinsertAddsNothing(q: Queue, expired: seq<Entry>, now: int)
    ensures Reinsert(q, expired, now).added == q.added
    decreases |expired|
  {
    if expired != [] {
      ReinsertAddsNothing(if expired[0].IsRepeat() then Insert(q, expired[0].Restarted(now)) else q,
                          expired[1..], now);
    }
  }

  lemma StepIsAsked(q: Queue, step: Step, rs: seq<Request>)
    requires Conserved(q, []) && AddedAre(q.added, rs)
    ensures AddedAre(Next(q, step).added, rs + Requests(q, step))
  {
    match step
    case AddTimer(r) => AddIsAsked(q, rs, r);
    case TimerRead(now, scripts) =>
      var expired := Expired(q, now);
      GetExpiredSplits(q.timers, now);
      BoundaryIsDue(q.timers, now, |expired|);
      CallbacksAreAsked(WithoutExpired(q, now), expired, now, scripts, rs);
      ReinsertAddsNothing(RunCallbacks(WithoutExpired(q, now), expired, now, scripts), expired, now);
  }

  lemma Associates(a: seq<Request>, b: seq<Request>, c: seq<Request>)
    ensures a + b + c == a + (b + c)
  {
  }

  lemma {:induction false} RunIsAsked(q: Queue, steps: seq<Step>, rs: seq<Request>)
    requires Conserved(q, []) && AddedAre(q.added, rs)
    ensures AddedAre(Run(q, steps).added, rs + RequestsIn(q, steps))
    decreases |steps|
  {
    if steps == [] {
      assert rs + [] == rs;
    } else {
      var t := Next(q, steps[0]);
      StepIsAsked(q, steps[0], rs);
      NextConserves(q, steps[0]);
      RunIsAsked(t, steps[1..], rs + Requests(q, steps[0]));
      Associates(rs, Requests(q, steps[0]), RequestsIn(t, steps[1..]));
    }
  }

  /** In every history the timers added are exactly those asked for, in order, by callers and by the callbacks of
      the timers that were run, each with the time and interval of its request. */
  lemma RequestsBecomeTimers(steps: seq<Step>)
    ensures AddedAre(Run(EMPTY, steps).added, RequestsIn(EMPTY, steps))
  {
    EmptyHolds();
    RunIsAsked(EMPTY, steps, []);
    assert [] + RequestsIn(EMPTY, steps) == RequestsIn(EMPTY, steps);
  }

  /** When the runs of one timer come. */
  lemma RunsAreDue(q: Queue, n: nat)
    requires n < |q.added| && AccountedFor(q, n)
    ensures var fs := FiringsOf(q.runs, n);
            forall i :: 0 <= i < |fs| ==>
              fs[i].due == if i == 0 then q.added[n].when else fs[i - 1].now + q.added[n].interval
  {
    var fs := FiringsOf(q.runs, n);
    forall i | 0 <= i < |fs|
      ensures fs[i].due == if i == 0 then q.added[n].when else fs[i - 1].now + q.added[n].interval
    {
      assert i > 0 ==> fs[..i][|fs[..i]| - 1] == fs[i - 1];
      assert i == 0 ==> fs[..i] == [];
    }
  }

  /** What has become of the n-th request: asked for once, it is waiting or has been run, once; asked for repeatedly,
      it waits for its first time, or for one interval after its last run. No run was early, and each was due at the
      requested time or one interval after the run before it. */
  predicate Honoured(q: Queue, n: nat, r: Request) {
    var fs := FiringsOf(q.runs, n);
    && (r.interval == 0 ==> |fs| <= 1 && (fs == [] <==> Entry(r.when, n, 0) in q.timers))
    && (r.interval > 0 ==>
          Entry(if fs == [] then r.when else fs[|fs| - 1].now + r.interval, n, r.interval) in q.timers)
    && (forall i :: 0 <= i < |fs| ==> fs[i].due <= fs[i].now)
    && (forall i :: 0 <= i < |fs| ==> fs[i].due == if i == 0 then r.when else fs[i - 1].now + r.interval)
    && (forall e, f :: e in q.timers && f in q.timers && e.id == n && f.id == n ==> e == f)
  }

  lemma AccountedIsHonoured(q: Queue, n: nat, r: Request)
    requires n < |q.added| && AccountedFor(q, n) && q.added[n] == Entry(r.when, n, r.interval)
    ensures Honoured(q, n, r)
  {
    RunsAreDue(q, n);
  }

  /** In every history, each request made by a caller or by a callback that was run. */
  lemma EachRequestIsAccountedFor(steps: seq<Step>, n: nat)
    requires n < |RequestsIn(EMPTY, steps)|
    ensures Honoured(Run(EMPTY, steps), n, RequestsIn(EMPTY, steps)[n])
  {
    RequestsBecomeTimers(steps);
    EachTimerIsAccountedFor(steps, n);
    AccountedIsHonoured(Run(EMPTY, steps), n, RequestsIn(EMPTY, steps)[n]);
  }
}
