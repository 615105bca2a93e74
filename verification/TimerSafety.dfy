/** What every history of the timer queue keeps. */
module TimerSafety {
  import opened Options
  import opened Folding
  import opened TimerSpec

  lemma FiringsOfAppend(runs: seq<Firing>, f: Firing, id: nat)
    ensures FiringsOf(runs + [f], id) == FiringsOf(runs, id) + if f.id == id then [f] else []
  {
    assert (runs + [f])[..|runs|] == runs;
  }

  lemma {:induction false} FiringsOfUnknown(runs: seq<Firing>, id: nat)
    requires forall i :: 0 <= i < |runs| ==> runs[i].id != id
    ensures FiringsOf(runs, id) == []
  {
    if runs != [] {
      FiringsOfUnknown(runs[..|runs| - 1], id);
    }
  }

  /** An entry that belongs in the queue and is not in it collides with nothing there. */
  lemma MissingIsInsertable(q: Queue, e: Entry)
    requires forall x :: x in q.timers ==> x.id != e.id
    ensures Insertable(ByTimeAndIdentity, q.timers, e)
  {
    InsertableIff(q.timers, e);
  }

  /** The history of a timer that was never added is empty. */
  lemma HistoryMeans(q: Queue)
    requires HistoryOk(q)
    ensures FiringsOf(q.runs, |q.added|) == []
    ensures forall i :: 0 <= i < |q.added| ==> q.added[i].id == i && OnTime(q.added[i], FiringsOf(q.runs, i))
  {
    assert Unfold(0);
    FiringsOfUnknown(q.runs, |q.added|);
  }

  lemma AddIsInsertable(q: Queue, away: seq<Entry>, r: Request)
    requires Conserved(q, away)
    ensures Insertable(ByTimeAndIdentity, q.timers, Entry(r.when, |q.added|, r.interval))
  {
    assert Unfold(0);
    MissingIsInsertable(q, Entry(r.when, |q.added|, r.interval));
  }

  lemma AddKeeps(q: Queue, away: seq<Entry>, r: Request)
    requires Conserved(q, away)
    ensures Conserved(Add(q, r), away)
  {
    var e := Entry(r.when, |q.added|, r.interval);
    var t := Add(q, r);
    HistoryMeans(q);
    InsertedHasAll(ByTimeAndIdentity, q.timers, e);
    forall x | x in q.timers || x in away
      ensures x.id < e.id
    {
      assert Unfold(0);
    }
    MissingIsInsertable(q, e);
    InsertedIsSorted(ByTimeAndIdentity, q.timers, e);
    assert forall x :: Belongs(t, x) <==> Belongs(q, x) || x == e;
    assert HistoryOk(t) by {
      assert Unfold(0);
    }
    assert Complete(t, away) by {
      assert Unfold(0);
    }
    assert Apart(t, away) by {
      assert Unfold(0);
    }
  }

  lemma {:induction false} AddAllKeeps(q: Queue, away: seq<Entry>, rs: seq<Request>)
    requires Conserved(q, away)
    ensures Conserved(AddAll(q, rs), away)
    decreases |rs|
  {
    if rs != [] {
      AddKeeps(q, away, rs[0]);
      AddAllKeeps(Add(q, rs[0]), away, rs[1..]);
    }
  }

  function RestartedOf(e: Entry, now: int): seq<Entry> {
    if e.IsRepeat() then [e.Restarted(now)] else []
  }

  function RestartedAll(es: seq<Entry>, now: int): seq<Entry> {
    if es == [] then [] else RestartedOf(es[0], now) + RestartedAll(es[1..], now)
  }

  lemma RestartedAllSplits(es: seq<Entry>, put: seq<Entry>, now: int)
    requires es != []
    ensures put + RestartedOf(es[0], now) + RestartedAll(es[1..], now) == put + RestartedAll(es, now)
  {
    ConcatAssociates(put, RestartedOf(es[0], now), RestartedAll(es[1..], now));
  }

  lemma ConcatAssociates(a: seq<Entry>, b: seq<Entry>, c: seq<Entry>)
    ensures a + b + c == a + (b + c)
  {
  }

  lemma FiringsAfter(q: Queue, e: Entry, now: int, id: nat)
    ensures FiringsOf(Fire(q, e, now).runs, id)
            == FiringsOf(q.runs, id) + if id == e.id then [Firing(e.id, e.when, now)] else []
  {
    FiringsOfAppend(q.runs, Firing(e.id, e.when, now), id);
  }

  lemma OnTimeAfter(a: Entry, fs: seq<Firing>, f: Firing)
    requires OnTime(a, fs) && f.due <= f.now
    requires Expected(a, fs).Some? && f.due == Expected(a, fs).value.when
    ensures OnTime(a, fs + [f])
  {
    assert forall i :: 0 <= i <= |fs| ==> (fs + [f])[..i] == fs[..i];
    assert fs[..|fs|] == fs;
  }

  lemma FireHistory(q: Queue, e: Entry, now: int)
    requires HistoryOk(q) && Belongs(q, e) && e.when <= now
    ensures HistoryOk(Fire(q, e, now))
  {
    var t := Fire(q, e, now);
    HistoryMeans(q);
    forall i | 0 <= i < |t.added|
      ensures OnTime(t.added[i], FiringsOf(t.runs, i))
    {
      FiringsAfter(q, e, now, i);
      if i == e.id {
        OnTimeAfter(q.added[i], FiringsOf(q.runs, i), Firing(e.id, e.when, now));
      } else {
        assert FiringsOf(t.runs, i) == FiringsOf(q.runs, i);
      }
    }
    assert Unfold(0);
  }

  /** After the run the timer should be back one interval later, or gone. */
  lemma FireBelongs(q: Queue, e: Entry, now: int, x: Entry)
    requires HistoryOk(q) && Belongs(q, e)
    ensures Belongs(Fire(q, e, now), x) <==> if x.id == e.id then x in RestartedOf(e, now) else Belongs(q, x)
  {
    HistoryMeans(q);
    FiringsAfter(q, e, now, x.id);
    if x.id == e.id {
      var a, fs := q.added[e.id], FiringsOf(q.runs, e.id);
      assert a.interval == e.interval && a.id == e.id;
      assert (fs + [Firing(e.id, e.when, now)])[|fs|].now == now;
    }
  }

  lemma AwayIsApart(q: Queue, e: Entry, rest: seq<Entry>)
    requires Apart(q, [e] + rest)
    ensures forall x :: x in q.timers || x in rest ==> x.id != e.id
  {
    assert Unfold(0);
    var away := [e] + rest;
    assert away[0] == e && e in away;
    forall x | x in rest
      ensures x.id != e.id
    {
      var i :| 0 <= i < |rest| && rest[i] == x;
      assert away[i + 1] == x;
    }
  }

  lemma FewerAway(q: Queue, e: Entry, rest: seq<Entry>)
    requires Apart(q, [e] + rest)
    ensures Apart(q, rest)
  {
    assert Unfold(0);
    var away := [e] + rest;
    forall i, j | 0 <= i < j < |rest|
      ensures rest[i].id != rest[j].id
    {
      assert away[i + 1].id != away[j + 1].id;
    }
    forall x, y | x in rest && y in q.timers
      ensures x.id != y.id
    {
      assert x in away;
    }
  }

  lemma AwayMeans(q: Queue, e: Entry, rest: seq<Entry>)
    requires Apart(q, [e] + rest)
    ensures forall x :: x in q.timers || x in rest ==> x.id != e.id
    ensures Apart(q, rest)
  {
    AwayIsApart(q, e, rest);
    FewerAway(q, e, rest);
  }

  /** With nothing away, the queue holds exactly what belongs in it. */
  lemma CompleteMeans(q: Queue)
    requires Complete(q, [])
    ensures forall e :: e in q.timers <==> Belongs(q, e)
  {
    assert Unfold(0);
  }

  lemma FireComplete(q: Queue, e: Entry, rest: seq<Entry>, now: int)
    requires HistoryOk(q) && Complete(q, [e] + rest) && Belongs(q, e)
    requires forall x :: x in q.timers || x in rest ==> x.id != e.id
    ensures Complete(Fire(q, e, now), rest + RestartedOf(e, now))
  {
    assert Unfold(0);
    var t, away := Fire(q, e, now), rest + RestartedOf(e, now);
    assert forall x :: x in [e] + rest <==> x == e || x in rest;
    forall x: Entry
      ensures x in t.timers || x in away <==> Belongs(t, x)
    {
      FireBelongs(q, e, now, x);
      assert x in RestartedOf(e, now) ==> x.id == e.id;
      assert x in away <==> x in rest || x in RestartedOf(e, now);
    }
  }

  lemma FireApart(q: Queue, e: Entry, rest: seq<Entry>, now: int)
    requires Apart(q, rest)
    requires forall x :: x in q.timers || x in rest ==> x.id != e.id
    ensures Apart(Fire(q, e, now), rest + RestartedOf(e, now))
  {
    assert Unfold(0);
    var away := rest + RestartedOf(e, now);
    assert forall i :: 0 <= i < |away| ==>
             if i < |rest| then away[i] == rest[i] && away[i] in rest else away[i].id == e.id;
    assert forall x :: x in away ==> x in rest || x.id == e.id;
  }

  lemma FirstAwayBelongs(q: Queue, e: Entry, rest: seq<Entry>)
    requires Complete(q, [e] + rest)
    ensures Belongs(q, e)
  {
    assert Unfold(0);
    assert ([e] + rest)[0] == e;
  }

  /** One run of the timer `e`. */
  lemma FireKeeps(q: Queue, e: Entry, rest: seq<Entry>, now: int)
    requires Conserved(q, [e] + rest) && e.when <= now
    ensures Conserved(Fire(q, e, now), rest + RestartedOf(e, now))
  {
    FirstAwayBelongs(q, e, rest);
    AwayMeans(q, e, rest);
    FireHistory(q, e, now);
    FireComplete(q, e, rest, now);
    FireApart(q, e, rest, now);
  }

  /** One callback, with the timers it adds. */
  lemma CallbackKeeps(q: Queue, expired: seq<Entry>, put: seq<Entry>, now: int, script: seq<Request>)
    requires Conserved(q, expired + put) && expired != [] && expired[0].when <= now
    ensures var away := expired[1..] + (put + RestartedOf(expired[0], now));
            && Conserved(Fire(q, expired[0], now), away)
            && Conserved(AddAll(Fire(q, expired[0], now), script), away)
  {
    var e, rest := expired[0], expired[1..];
    assert expired + put == [e] + (rest + put);
    FireKeeps(q, e, rest + put, now);
    assert rest + put + RestartedOf(e, now) == rest + (put + RestartedOf(e, now));
    AddAllKeeps(Fire(q, e, now), rest + (put + RestartedOf(e, now)), script);
  }

  lemma {:induction false} RunCallbacksKeeps(
    q: Queue, expired: seq<Entry>, put: seq<Entry>, now: int, scripts: seq<seq<Request>>)
    requires Conserved(q, expired + put)
    requires forall e :: e in expired ==> e.when <= now
    ensures Conserved(RunCallbacks(q, expired, now, scripts), put + RestartedAll(expired, now))
    decreases |expired|
  {
    if expired == [] {
      assert expired + put == put && put + [] == put;
    } else {
      var e, rest := expired[0], expired[1..];
      CallbackKeeps(q, expired, put, now, ScriptAt(scripts, 0));
      assert forall x :: x in rest ==> x in expired;
      RunCallbacksKeeps(AddAll(Fire(q, e, now), ScriptAt(scripts, 0)), rest, put + RestartedOf(e, now), now,
                        if scripts == [] then [] else scripts[1..]);
      RestartedAllSplits(expired, put, now);
    }
  }

  lemma InsertKeeps(q: Queue, e: Entry, rest: seq<Entry>)
    requires Conserved(q, [e] + rest)
    ensures Conserved(Insert(q, e), rest)
  {
    AwayMeans(q, e, rest);
    MissingIsInsertable(q, e);
    InsertedIsSorted(ByTimeAndIdentity, q.timers, e);
    InsertedHasAll(ByTimeAndIdentity, q.timers, e);
    var t := Insert(q, e);
    assert forall x :: Belongs(t, x) <==> Belongs(q, x);
    assert forall x :: x in [e] + rest <==> x == e || x in rest;
    HistorySame(q, t);
    assert Complete(t, rest) by {
      assert Unfold(0);
    }
    assert Apart(t, rest) by {
      assert Unfold(0);
    }
  }

  lemma {:induction false} ReinsertKeeps(q: Queue, expired: seq<Entry>, now: int)
    requires Conserved(q, RestartedAll(expired, now))
    ensures Conserved(Reinsert(q, expired, now), [])
    decreases |expired|
  {
    if expired != [] {
      var e, rest := expired[0], RestartedAll(expired[1..], now);
      if e.IsRepeat() {
        InsertKeeps(q, e.Restarted(now), rest);
        ReinsertKeeps(Insert(q, e.Restarted(now)), expired[1..], now);
      } else {
        assert RestartedAll(expired, now) == rest;
        ReinsertKeeps(q, expired[1..], now);
      }
    }
  }

  /** Two entries of one queue are of different timers. */
  lemma TimersAreDistinct(q: Queue, away: seq<Entry>)
    requires Sorted(ByTimeAndIdentity, q.timers) && Complete(q, away)
    ensures forall i, j :: 0 <= i < j < |q.timers| ==> q.timers[i].id != q.timers[j].id
  {
    assert Unfold(0);
    forall i, j | 0 <= i < j < |q.timers|
      ensures q.timers[i].id != q.timers[j].id
    {
      assert q.timers[i] in q.timers && q.timers[j] in q.timers;
      assert Less(ByTimeAndIdentity, q.timers[i], q.timers[j]);
    }
  }

  /** Taking the first `k` timers out. */
  lemma TakeComplete(q: Queue, t: Queue, k: nat)
    requires Complete(q, []) && k <= |q.timers|
    requires t.timers == q.timers[k..] && t.added == q.added && t.runs == q.runs
    ensures Complete(t, q.timers[..k])
  {
    CompleteMeans(q);
    assert q.timers == q.timers[..k] + t.timers;
    assert forall x :: x in q.timers <==> x in q.timers[..k] || x in t.timers;
    assert forall x :: Belongs(t, x) <==> Belongs(q, x);
  }

  lemma TakeApart(q: Queue, t: Queue, k: nat)
    requires k <= |q.timers| && t.timers == q.timers[k..]
    requires forall i, j :: 0 <= i < j < |q.timers| ==> q.timers[i].id != q.timers[j].id
    ensures Apart(t, q.timers[..k])
  {
    var expired := q.timers[..k];
    forall e, x | e in expired && x in t.timers
      ensures e.id != x.id
    {
      var i :| 0 <= i < |expired| && expired[i] == e;
      var j :| 0 <= j < |t.timers| && t.timers[j] == x;
      assert e == q.timers[i] && x == q.timers[k + j];
    }
    assert forall i, j :: 0 <= i < j < |expired| ==> expired[i].id != expired[j].id;
  }

  lemma HistorySame(q: Queue, t: Queue)
    requires HistoryOk(q) && t.added == q.added && t.runs == q.runs
    ensures HistoryOk(t)
  {
    assert Unfold(0);
  }

  lemma TakeExpiredKeeps(q: Queue, now: int)
    requires Conserved(q, [])
    ensures Conserved(WithoutExpired(q, now), Expired(q, now))
    ensures forall e :: e in Expired(q, now) ==> e.when <= now
    ensures forall e :: e in WithoutExpired(q, now).timers ==> now < e.when
  {
    var k, t := Boundary(ByTimeAndIdentity, q.timers, now), WithoutExpired(q, now);
    GetExpiredSplits(q.timers, now);
    TimersAreDistinct(q, []);
    HistorySame(q, t);
    TakeComplete(q, t, k);
    TakeApart(q, t, k);
  }

  lemma RearmKeeps(q: Queue)
    requires Conserved(q, [])
    ensures Conserved(Rearm(q), [])
  {
    var t := Rearm(q);
    HistorySame(q, t);
    assert forall x :: Belongs(t, x) <==> Belongs(q, x);
    assert Unfold(0);
  }

  /** All the callbacks of one handleRead. */
  lemma CallbacksKeep(q: Queue, now: int, scripts: seq<seq<Request>>)
    requires Conserved(q, [])
    ensures Conserved(RunCallbacks(WithoutExpired(q, now), Expired(q, now), now, scripts),
                      RestartedAll(Expired(q, now), now))
  {
    var expired := Expired(q, now);
    TakeExpiredKeeps(q, now);
    assert expired + [] == expired;
    RunCallbacksKeeps(WithoutExpired(q, now), expired, [], now, scripts);
    assert [] + RestartedAll(expired, now) == RestartedAll(expired, now);
  }

  lemma HandleReadKeeps(q: Queue, now: int, scripts: seq<seq<Request>>)
    requires Conserved(q, [])
    ensures Conserved(HandleRead(q, now, scripts), [])
  {
    var expired, t := Expired(q, now), RunCallbacks(WithoutExpired(q, now), Expired(q, now), now, scripts);
    CallbacksKeep(q, now, scripts);
    ReinsertKeeps(t, expired, now);
    RearmKeeps(Reinsert(t, expired, now));
  }

  lemma EmptyHolds()
    ensures Conserved(EMPTY, [])
  {
  }

  lemma NextConserves(q: Queue, step: Step)
    requires Conserved(q, [])
    ensures Conserved(Next(q, step), [])
  {
    match step
    case AddTimer(r) => AddKeeps(q, [], r);
    case TimerRead(now, scripts) => HandleReadKeeps(q, now, scripts);
  }

  lemma {:induction false} RunConserves(q: Queue, steps: seq<Step>)
    requires Conserved(q, [])
    ensures Conserved(Run(q, steps), [])
    decreases |steps|
  {
    if steps != [] {
      NextConserves(q, steps[0]);
      RunConserves(Next(q, steps[0]), steps[1..]);
    }
  }

  /** The assertions of insert and getExpired hold in every history, simultaneous timers included. */
  lemma AssertionsHold(steps: seq<Step>)
    ensures !Run(EMPTY, steps).failed
  {
    EmptyHolds();
    RunConserves(EMPTY, steps);
  }

  /** A one-shot timer is in the queue or has run, exactly once, never both and never neither; a repeating one
      is in the queue, due at its first time or one interval after its last run; and no timer ran before it was
      due. */
  predicate AccountedFor(q: Queue, id: nat)
    requires id < |q.added|
  {
    var a, fs := q.added[id], FiringsOf(q.runs, id);
    && a.id == id && OnTime(a, fs)
    && (!a.IsRepeat() ==> |fs| <= 1 && (fs == [] <==> a in q.timers))
    && (a.IsRepeat() ==> Entry(if fs == [] then a.when else fs[|fs| - 1].now + a.interval, id, a.interval) in q.timers)
    && (forall e :: e in q.timers && e.id == id ==> Expected(a, fs) == Some(e))
  }

  lemma ConservedIsAccountedFor(q: Queue, id: nat)
    requires Conserved(q, []) && id < |q.added|
    ensures AccountedFor(q, id)
  {
    HistoryMeans(q);
    CompleteMeans(q);
    var a, fs := q.added[id], FiringsOf(q.runs, id);
    assert |fs| > 1 ==> Expected(a, fs[..1]).Some?;
    assert Expected(a, fs).Some? ==> Belongs(q, Expected(a, fs).value);
  }

  /** Timers are conserved over every history. */
  lemma EachTimerIsAccountedFor(steps: seq<Step>, id: nat)
    requires id < |Run(EMPTY, steps).added|
    ensures AccountedFor(Run(EMPTY, steps), id)
  {
    EmptyHolds();
    RunConserves(EMPTY, steps);
    ConservedIsAccountedFor(Run(EMPTY, steps), id);
  }

  function FiringsFor(es: seq<Entry>, now: int): seq<Firing> {
    if es == [] then [] else [Firing(es[0].id, es[0].when, now)] + FiringsFor(es[1..], now)
  }

  lemma {:induction false} AddAllRunsNothing(q: Queue, rs: seq<Request>)
    ensures AddAll(q, rs).runs == q.runs
    decreases |rs|
  {
    if rs != [] {
      AddAllRunsNothing(Add(q, rs[0]), rs[1..]);
    }
  }

  lemma {:induction false} RunCallbacksRuns(q: Queue, expired: seq<Entry>, now: int, scripts: seq<seq<Request>>)
    ensures RunCallbacks(q, expired, now, scripts).runs == q.runs + FiringsFor(expired, now)
    decreases |expired|
  {
    if expired != [] {
      AddAllRunsNothing(Fire(q, expired[0], now), ScriptAt(scripts, 0));
      RunCallbacksRuns(AddAll(Fire(q, expired[0], now), ScriptAt(scripts, 0)), expired[1..], now,
                       if scripts == [] then [] else scripts[1..]);
    }
  }

  lemma {:induction false} ReinsertRunsNothing(q: Queue, expired: seq<Entry>, now: int)
    ensures Reinsert(q, expired, now).runs == q.runs
    decreases |expired|
  {
    if expired != [] {
      ReinsertRunsNothing(if expired[0].IsRepeat() then Insert(q, expired[0].Restarted(now)) else q,
                          expired[1..], now);
    }
  }

  /** One handleRead runs exactly the timers that were due when it looked at the clock, in order of time, each
      once: not those added by the callbacks it runs. */
  lemma HandleReadRunsWhatIsDue(q: Queue, now: int, scripts: seq<seq<Request>>)
    requires Conserved(q, [])
    ensures var k := Boundary(ByTimeAndIdentity, q.timers, now);
            && HandleRead(q, now, scripts).runs == q.runs + FiringsFor(q.timers[..k], now)
            && (forall i :: 0 <= i < |q.timers| ==> (i < k <==> q.timers[i].when <= now))
  {
    GetExpiredSplits(q.timers, now);
    var expired := Expired(q, now);
    RunCallbacksRuns(WithoutExpired(q, now), expired, now, scripts);
    ReinsertRunsNothing(RunCallbacks(WithoutExpired(q, now), expired, now, scripts), expired, now);
  }

  // ---------------------------------------------------------------------------------------------
  // The kernel timer
  // ---------------------------------------------------------------------------------------------

  predicate ArmedForMinimum(q: Queue) {
    q.timers != [] ==> q.armed == q.timers[0].when
  }

  /** While callbacks run, a timer they added that is already due again is armed for. */
  predicate ArmedIfDue(q: Queue, now: int) {
    q.timers != [] && q.timers[0].when <= now ==> q.armed == q.timers[0].when
  }

  lemma FirstAfterInsert(ts: seq<Entry>, e: Entry)
    requires Sorted(ByTimeAndIdentity, ts) && Insertable(ByTimeAndIdentity, ts, e)
    ensures Inserted(ByTimeAndIdentity, ts, e)[0].when == if IsEarliest(ts, e.when) then e.when else ts[0].when
  {
    PlaceOfInsertion(ByTimeAndIdentity, ts, e);
  }

  lemma AddArms(q: Queue, away: seq<Entry>, r: Request)
    requires Conserved(q, away)
    ensures ArmedForMinimum(q) ==> ArmedForMinimum(Add(q, r))
    ensures forall now :: ArmedIfDue(q, now) ==> ArmedIfDue(Add(q, r), now)
  {
    var e := Entry(r.when, |q.added|, r.interval);
    forall x | x in q.timers
      ensures x.id != e.id
    {
      assert Unfold(0);
    }
    MissingIsInsertable(q, e);
    FirstAfterInsert(q.timers, e);
  }

  lemma {:induction false} AddAllArms(q: Queue, away: seq<Entry>, rs: seq<Request>, now: int)
    requires Conserved(q, away) && ArmedIfDue(q, now)
    ensures ArmedIfDue(AddAll(q, rs), now)
    decreases |rs|
  {
    if rs != [] {
      AddKeeps(q, away, rs[0]);
      AddArms(q, away, rs[0]);
      AddAllArms(Add(q, rs[0]), away, rs[1..], now);
    }
  }

  lemma {:induction false} RunCallbacksArms(
    q: Queue, expired: seq<Entry>, put: seq<Entry>, now: int, scripts: seq<seq<Request>>)
    requires Conserved(q, expired + put) && ArmedIfDue(q, now)
    requires forall e :: e in expired ==> e.when <= now
    ensures ArmedIfDue(RunCallbacks(q, expired, now, scripts), now)
    decreases |expired|
  {
    if expired != [] {
      var e, rest := expired[0], expired[1..];
      CallbackKeeps(q, expired, put, now, ScriptAt(scripts, 0));
      AddAllArms(Fire(q, e, now), rest + (put + RestartedOf(e, now)), ScriptAt(scripts, 0), now);
      RunCallbacksArms(AddAll(Fire(q, e, now), ScriptAt(scripts, 0)), rest, put + RestartedOf(e, now), now,
                       if scripts == [] then [] else scripts[1..]);
    }
  }

  lemma {:induction false} ReinsertArms(q: Queue, expired: seq<Entry>, now: int)
    requires Conserved(q, RestartedAll(expired, now)) && ArmedIfDue(q, now)
    ensures ArmedIfDue(Reinsert(q, expired, now), now)
    decreases |expired|
  {
    if expired != [] {
      var e, rest := expired[0], RestartedAll(expired[1..], now);
      if e.IsRepeat() {
        var again := e.Restarted(now);
        assert RestartedAll(expired, now) == [again] + rest;
        AwayMeans(q, again, rest);
        MissingIsInsertable(q, again);
        FirstAfterInsert(q.timers, again);
        InsertKeeps(q, again, rest);
        ReinsertArms(Insert(q, again), expired[1..], now);
      } else {
        assert RestartedAll(expired, now) == rest;
        ReinsertArms(q, expired[1..], now);
      }
    }
  }

  /** Whatever the callbacks add between extraction and reset, the kernel timer ends up armed for the first. */
  lemma HandleReadArms(q: Queue, now: int, scripts: seq<seq<Request>>)
    requires Conserved(q, []) && 0 < now
    ensures ArmedForMinimum(HandleRead(q, now, scripts))
  {
    var expired := Expired(q, now);
    TakeExpiredKeeps(q, now);
    assert expired + [] == expired;
    CallbacksKeep(q, now, scripts);
    RunCallbacksArms(WithoutExpired(q, now), expired, [], now, scripts);
    ReinsertArms(RunCallbacks(WithoutExpired(q, now), expired, now, scripts), expired, now);
  }

  lemma {:induction false} RunArms(q: Queue, steps: seq<Step>)
    requires Conserved(q, []) && ArmedForMinimum(q) && ClockIsValid(steps)
    ensures ArmedForMinimum(Run(q, steps))
    decreases |steps|
  {
    if steps != [] {
      match steps[0] {
        case AddTimer(r) =>
          AddKeeps(q, [], r);
          AddArms(q, [], r);
        case TimerRead(now, scripts) =>
          HandleReadKeeps(q, now, scripts);
          HandleReadArms(q, now, scripts);
      }
      forall i | 0 <= i < |steps[1..]|
        ensures steps[1..][i] == steps[i + 1]
      {
      }
      RunArms(Next(q, steps[0]), steps[1..]);
    }
  }

  /** After every completed addTimerInLoop and handleRead of every history, the kernel timer was last armed for
      the earliest time in the queue. */
  lemma KernelTimerTracksMinimum(steps: seq<Step>)
    requires ClockIsValid(steps)
    ensures var q := Run(EMPTY, steps);
            forall i :: 0 <= i < |q.timers| ==> q.armed <= q.timers[i].when && (i == 0 ==> q.armed == q.timers[i].when)
  {
    EmptyHolds();
    RunConserves(EMPTY, steps);
    RunArms(EMPTY, steps);
    var q := Run(EMPTY, steps);
    forall i | 0 < i < |q.timers|
      ensures q.timers[0].when <= q.timers[i].when
    {
      assert Less(ByTimeAndIdentity, q.timers[0], q.timers[i]);
    }
  }

  // ---------------------------------------------------------------------------------------------
  // How long to arm for
  // ---------------------------------------------------------------------------------------------

  const MICROSECONDS_PER_SECOND: int := 1000 * 1000

  /** `howMuchTimeFromNow`: at least 100 microseconds, as seconds and nanoseconds. After the clamp the dividend is
      positive, so the source's truncating division is the one here. */
  function HowMuchTimeFromNow(when: int, now: int): (int, int) {
    var microseconds := if when - now < 100 then 100 else when - now;
    (microseconds / MICROSECONDS_PER_SECOND, (microseconds % MICROSECONDS_PER_SECOND) * 1000)
  }

  /** It is a well-formed timespec; the timer goes off no earlier than its time, exactly then when that is at
      least 100 microseconds ahead, and never more than 100 microseconds late. */
  lemma ArmsNeverEarly(when: int, now: int)
    ensures var (sec, nsec) := HowMuchTimeFromNow(when, now);
            && 0 <= sec && 0 <= nsec < 1_000_000_000 && 0 < sec * 1_000_000_000 + nsec
            && var fires := now * 1000 + sec * 1_000_000_000 + nsec;
               when * 1000 <= fires && (fires == when * 1000 <==> now + 100 <= when)
               && fires <= (if when < now then now else when) * 1000 + 100_000
  {
  }

  /** When the kernel timer goes off at or after the time it was armed for, at least one timer is run. */
  lemma ExpiryRunsSomething(q: Queue, now: int, scripts: seq<seq<Request>>)
    requires Conserved(q, []) && ArmedForMinimum(q) && q.timers != [] && q.armed <= now
    ensures |HandleRead(q, now, scripts).runs| > |q.runs|
    ensures HandleRead(q, now, scripts).runs[|q.runs|] == Firing(q.timers[0].id, q.armed, now)
  {
    HandleReadRunsWhatIsDue(q, now, scripts);
    var k := Boundary(ByTimeAndIdentity, q.timers, now);
    assert q.timers[..k][0] == q.timers[0];
  }
}
