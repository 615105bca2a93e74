/** The timer queue with its mutable timers: src/timer_queue.cpp, src/include/timer.h. Each method is proved
    against the function of the same name in `TimerSpec`. */
module TimerQueues {
  import opened TimerSpec
  import opened TimerSafety

  class Timer {
    const id: nat  // stands for the address of the object
    var expiration: int
    const interval: nat

    constructor (id: nat, expiration: int, interval: nat)
      ensures this.id == id && this.expiration == expiration && this.interval == interval
    {
      this.id := id;
      this.expiration := expiration;
      this.interval := interval;
    }

    predicate IsRepeat() {
      0 < interval
    }

    /** A one-shot timer is given the invalid time. */
    method Restart(now: int)
      modifies this
      ensures expiration == if IsRepeat() then now + interval else 0
    {
      if IsRepeat() {
        expiration := now + interval;
      } else {
        expiration := 0;
      }
    }
  }

  /** An element of the set: the time it is ordered by, and the timer. */
  datatype TimerEntry = TimerEntry(when: int, timer: Timer)

  function EntryOf(e: TimerEntry): Entry {
    Entry(e.when, e.timer.id, e.timer.interval)
  }

  function EntriesOf(es: seq<TimerEntry>): (r: seq<Entry>)
    ensures |r| == |es|
    ensures forall i :: 0 <= i < |es| ==> r[i] == EntryOf(es[i])
  {
    seq(|es|, i requires 0 <= i < |es| => EntryOf(es[i]))
  }

  lemma EntriesOfSlices(es: seq<TimerEntry>, k: nat)
    requires k <= |es|
    ensures EntriesOf(es[..k]) == EntriesOf(es)[..k] && EntriesOf(es[k..]) == EntriesOf(es)[k..]
  {
  }

  class TimerQueue {
    var timers: seq<TimerEntry>
    var armed: int  // the time the kernel timer was last armed for
    var nextId: nat
    ghost var added: seq<Entry>
    ghost var runs: seq<Firing>

    ghost function Value(): Queue
      reads this
    {
      Queue(EntriesOf(timers), armed, added, runs, false)
    }

    /** Each timer in the set is due when the set says. */
    ghost predicate InSync()
      reads this, set e | e in timers :: e.timer
    {
      forall i :: 0 <= i < |timers| ==> timers[i].timer.expiration == timers[i].when
    }

    ghost predicate ValidWith(away: seq<Entry>)
      reads this, set e | e in timers :: e.timer
    {
      InSync() && nextId == |added| && Conserved(Value(), away)
    }

    ghost predicate Valid()
      reads this, set e | e in timers :: e.timer
    {
      ValidWith([])
    }

    constructor ()
      ensures Valid() && Value() == EMPTY
    {
      timers := [];
      armed := 0;
      nextId := 0;
      added := [];
      runs := [];
      new;
      EmptyHolds();
      assert Value() == EMPTY;
    }

    /** Arm the kernel timer; `now` is what the clock then says. */
    method ResetTimerfd(expiration: int, now: int) returns (sec: int, nsec: int)
      modifies this`armed
      ensures armed == expiration
      ensures (sec, nsec) == HowMuchTimeFromNow(expiration, now)
    {
      armed := expiration;
      var pair := HowMuchTimeFromNow(expiration, now);
      sec, nsec := pair.0, pair.1;
    }

    method Insert(timer: Timer) returns (earliestToAlarm: bool)
      requires InSync() && Sorted(ByTimeAndIdentity, EntriesOf(timers))
      requires Insertable(ByTimeAndIdentity, EntriesOf(timers), EntryOf(TimerEntry(timer.expiration, timer)))
      modifies this`timers
      ensures InSync()
      ensures earliestToAlarm == IsEarliest(old(EntriesOf(timers)), timer.expiration)
      ensures EntriesOf(timers) == Inserted(ByTimeAndIdentity, old(EntriesOf(timers)),
                                            EntryOf(TimerEntry(timer.expiration, timer)))
      ensures forall e :: e in timers ==> e in old(timers) || e.timer == timer
    {
      var when := timer.expiration;
      earliestToAlarm := timers == [] || when < timers[0].when;
      var entry := TimerEntry(when, timer);
      ghost var before := EntriesOf(timers);
      var k := LowerBound(ByTimeAndIdentity, EntriesOf(timers), KeyOf(EntryOf(entry)));
      EntriesOfSlices(timers, k);
      timers := timers[..k] + [entry] + timers[k..];
      assert EntriesOf(timers) == before[..k] + [EntryOf(entry)] + before[k..];
    }

    /** `away` is what a running handleRead has taken out of the set. */
    method AddTimerInLoop(r: Request, now: int, ghost away: seq<Entry>)
      requires ValidWith(away)
      modifies this
      ensures ValidWith(away)
      ensures Value() == Add(old(Value()), r)
      ensures forall e :: e in timers ==> e in old(timers) || fresh(e.timer)
    {
      var timer := new Timer(nextId, r.when, r.interval);
      ghost var e := Entry(r.when, nextId, r.interval);
      AddKeeps(Value(), away, r);
      AddIsInsertable(Value(), away, r);
      var earliest := Insert(timer);
      nextId := nextId + 1;
      added := added + [e];
      if earliest {
        var _, _ := ResetTimerfd(timer.expiration, now);
      }
      assert Value() == Add(old(Value()), r);
    }

    /** Take out the timers due at `now`: those before the sentry. */
    method GetExpired(now: int) returns (expired: seq<TimerEntry>)
      requires Valid()
      modifies this`timers
      ensures InSync() && old(timers) == expired + timers
      ensures EntriesOf(expired) == Expired(old(Value()), now)
      ensures Value() == WithoutExpired(old(Value()), now)
    {
      var k := Boundary(ByTimeAndIdentity, EntriesOf(timers), now);
      GetExpiredSplits(EntriesOf(timers), now);
      assert k == |timers| || now < timers[k].when;  // the source's own assertion
      EntriesOfSlices(timers, k);
      expired := timers[..k];
      timers := timers[k..];
    }

    method RunScript(script: seq<Request>, now: int, ghost away: seq<Entry>)
      requires ValidWith(away)
      modifies this
      ensures ValidWith(away)
      ensures Value() == AddAll(old(Value()), script)
      ensures forall e :: e in timers ==> e in old(timers) || fresh(e.timer)
    {
      var j := 0;
      while j < |script|
        invariant 0 <= j <= |script|
        invariant ValidWith(away)
        invariant AddAll(Value(), script[j..]) == AddAll(old(Value()), script)
        invariant forall e :: e in timers ==> e in old(timers) || fresh(e.timer)
      {
        assert script[j..][1..] == script[j + 1..];
        AddTimerInLoop(script[j], now, away);
        j := j + 1;
      }
    }

    /** Run one expired timer's callback, which adds the timers of `script`. */
    method RunTimer(entry: TimerEntry, now: int, script: seq<Request>, ghost rest: seq<Entry>, ghost put: seq<Entry>)
      requires ValidWith([EntryOf(entry)] + rest + put) && entry.when <= now
      modifies this
      ensures ValidWith(rest + (put + RestartedOf(EntryOf(entry), now)))
      ensures Value() == AddAll(Fire(old(Value()), EntryOf(entry), now), script)
      ensures forall e :: e in timers ==> e in old(timers) || fresh(e.timer)
    {
      ghost var before, e := Value(), EntryOf(entry);
      assert ([e] + rest)[0] == e && ([e] + rest)[1..] == rest;
      CallbackKeeps(before, [e] + rest, put, now, script);
      runs := runs + [Firing(e.id, e.when, now)];
      assert Value() == Fire(before, e, now);
      RunScript(script, now, rest + (put + RestartedOf(e, now)));
    }

    /** One round of the loop that runs the expired timers; `put` is what those before have to put back. */
    method RunTimerAt(expired: seq<TimerEntry>, i: nat, now: int, scripts: seq<seq<Request>>, ghost put: seq<Entry>)
      requires i < |expired| && expired[i].when <= now
      requires ValidWith(EntriesOf(expired)[i..] + put)
      modifies this
      ensures ValidWith(EntriesOf(expired)[i + 1..] + (put + RestartedOf(EntryOf(expired[i]), now)))
      ensures RunCallbacks(Value(), EntriesOf(expired)[i + 1..], now, ScriptsFrom(scripts, i + 1))
              == RunCallbacks(old(Value()), EntriesOf(expired)[i..], now, ScriptsFrom(scripts, i))
      ensures forall e :: e in timers ==> e in old(timers) || fresh(e.timer)
    {
      ghost var es := EntriesOf(expired);
      RunCallbacksNext(Value(), es, now, scripts, i);
      FirstOfRest(es, put, i);
      RunTimer(expired[i], now, if i < |scripts| then scripts[i] else [], es[i + 1..], put);
    }

    method RunExpired(expired: seq<TimerEntry>, now: int, scripts: seq<seq<Request>>)
      requires ValidWith(EntriesOf(expired))
      requires forall i :: 0 <= i < |expired| ==> expired[i].when <= now
      modifies this
      ensures ValidWith(RestartedAll(EntriesOf(expired), now))
      ensures Value() == RunCallbacks(old(Value()), EntriesOf(expired), now, scripts)
      ensures forall e :: e in timers ==> e in old(timers) || fresh(e.timer)
    {
      ghost var es, start := EntriesOf(expired), Value();
      ghost var put: seq<Entry> := [];
      var i := 0;
      WholeAndEmpty(es, put);
      WholeAndEmpty(RestartedAll(es, now), put);
      assert es[0..] == es;
      while i < |expired|
        invariant 0 <= i <= |expired|
        invariant ValidWith(es[i..] + put)
        invariant put + RestartedAll(es[i..], now) == RestartedAll(es, now)
        invariant RunCallbacks(Value(), es[i..], now, ScriptsFrom(scripts, i)) == RunCallbacks(start, es, now, scripts)
        invariant forall e :: e in timers ==> e in old(timers) || fresh(e.timer)
      {
        RestartedNext(es, put, now, i);
        RunTimerAt(expired, i, now, scripts, put);
        put := put + RestartedOf(es[i], now);
        i := i + 1;
      }
      WholeAndEmpty(put, es[i..]);
    }

    /** Put a repeating timer back, one interval from now. */
    method PutBack(entry: TimerEntry, now: int, ghost rest: seq<Entry>)
      requires ValidWith(RestartedOf(EntryOf(entry), now) + rest)
      requires forall x :: x in timers ==> x.timer != entry.timer
      modifies this`timers, entry.timer
      ensures ValidWith(rest)
      ensures Value() == if EntryOf(entry).IsRepeat()
                         then TimerSpec.Insert(old(Value()), EntryOf(entry).Restarted(now)) else old(Value())
      ensures forall x :: x in timers ==> x in old(timers) || x.timer == entry.timer
    {
      ghost var before, again := Value(), EntryOf(entry).Restarted(now);
      var timer := entry.timer;
      if timer.IsRepeat() {
        timer.Restart(now);
        assert EntryOf(TimerEntry(timer.expiration, timer)) == again;
        InsertKeeps(before, again, rest);
        AwayMeans(before, again, rest);
        MissingIsInsertable(before, again);
        var _ := Insert(timer);
        assert Value() == TimerSpec.Insert(before, again);
      } else {
        assert RestartedOf(EntryOf(entry), now) + rest == rest;
      }
    }

    /** The timers of `expired` from the i-th on are out of the set. */
    ghost predicate AllOut(expired: seq<TimerEntry>, i: nat)
      reads this
    {
      forall j, x :: i <= j < |expired| && x in timers ==> x.timer != expired[j].timer
    }

    /** One round of the loop that puts timers back. */
    method PutBackAt(expired: seq<TimerEntry>, i: nat, now: int)
      requires i < |expired| && ValidWith(RestartedAll(EntriesOf(expired)[i..], now)) && AllOut(expired, i)
      requires forall i, j :: 0 <= i < j < |expired| ==> expired[i].timer != expired[j].timer
      modifies this`timers, expired[i].timer
      ensures ValidWith(RestartedAll(EntriesOf(expired)[i + 1..], now)) && AllOut(expired, i + 1)
      ensures Reinsert(Value(), EntriesOf(expired)[i + 1..], now)
              == Reinsert(old(Value()), EntriesOf(expired)[i..], now)
    {
      ghost var es := EntriesOf(expired);
      assert es[i..][0] == es[i] && es[i..][1..] == es[i + 1..];
      PutBack(expired[i], now, RestartedAll(es[i + 1..], now));
    }

    /** Arm for the first timer there is. */
    method RearmFirst(now: int)
      requires Valid()
      modifies this`armed
      ensures Valid()
      ensures Value() == Rearm(old(Value()))
    {
      RearmKeeps(Value());
      if timers != [] {
        var nextExpire := timers[0].timer.expiration;
        if 0 < nextExpire {
          var _, _ := ResetTimerfd(nextExpire, now);
        }
      }
      assert Value() == Rearm(old(Value()));
    }

    /** Put the repeating timers back, and arm for the first timer there is. */
    method Reset(expired: seq<TimerEntry>, now: int)
      requires ValidWith(RestartedAll(EntriesOf(expired), now)) && AllOut(expired, 0)
      requires forall i, j :: 0 <= i < j < |expired| ==> expired[i].timer != expired[j].timer
      modifies this`timers, this`armed, set e | e in expired :: e.timer
      ensures Valid()
      ensures Value() == Rearm(Reinsert(old(Value()), EntriesOf(expired), now))
    {
      ghost var es, start := EntriesOf(expired), Value();
      var i := 0;
      assert es[0..] == es;
      while i < |expired|
        invariant 0 <= i <= |expired|
        invariant ValidWith(RestartedAll(es[i..], now)) && AllOut(expired, i)
        invariant Reinsert(Value(), es[i..], now) == Reinsert(start, es, now)
      {
        assert expired[i] in expired;
        PutBackAt(expired, i, now);
        i := i + 1;
      }
      RearmFirst(now);
    }

    /** Distinct entries hold distinct timers. */
    lemma TimersAreDistinctObjects()
      requires Valid()
      ensures forall i, j :: 0 <= i < j < |timers| ==> timers[i].timer != timers[j].timer
    {
      TimersAreDistinct(Value(), []);
      assert forall i :: 0 <= i < |timers| ==> EntriesOf(timers)[i].id == timers[i].timer.id;
    }

    /** The alarm: `scripts[i]` is what the callback of the i-th due timer adds. */
    method HandleRead(now: int, scripts: seq<seq<Request>>)
      requires Valid()
      modifies this, set e | e in timers :: e.timer
      ensures Valid()
      ensures Value() == TimerSpec.HandleRead(old(Value()), now, scripts)
    {
      TakeExpiredKeeps(Value(), now);
      TimersAreDistinctObjects();
      ghost var all := timers;
      var expired := GetExpired(now);
      SplitIsApart(all, expired, timers);
      forall i | 0 <= i < |expired|
        ensures expired[i].when <= now
      {
        assert EntriesOf(expired)[i] in EntriesOf(expired);
      }
      RunExpired(expired, now, scripts);
      Reset(expired, now);
    }
  }

  /** The two parts of a set of distinct timers have none in common. */
  lemma SplitIsApart(all: seq<TimerEntry>, expired: seq<TimerEntry>, rest: seq<TimerEntry>)
    requires all == expired + rest
    requires forall i, j :: 0 <= i < j < |all| ==> all[i].timer != all[j].timer
    ensures forall j, x :: 0 <= j < |expired| && x in rest ==> x.timer != expired[j].timer
    ensures forall i, j :: 0 <= i < j < |expired| ==> expired[i].timer != expired[j].timer
    ensures forall e :: e in expired ==> e in all
  {
    forall j, x | 0 <= j < |expired| && x in rest
      ensures x.timer != expired[j].timer
    {
      var i :| 0 <= i < |rest| && rest[i] == x;
      assert all[j] == expired[j] && all[|expired| + i] == x;
    }
    assert forall i :: 0 <= i < |expired| ==> all[i] == expired[i];
  }

  lemma FirstOfRest(es: seq<Entry>, put: seq<Entry>, i: nat)
    requires i < |es|
    ensures es[i..] + put == [es[i]] + es[i + 1..] + put
  {
    assert es[i..] == [es[i]] + es[i + 1..];
  }

  lemma WholeAndEmpty(es: seq<Entry>, none: seq<Entry>)
    requires none == []
    ensures es + none == es == none + es
  {
  }

  /** The scripts of the callbacks still to run. */
  function ScriptsFrom(scripts: seq<seq<Request>>, i: nat): seq<seq<Request>> {
    if i < |scripts| then scripts[i..] else []
  }

  lemma ScriptsFromNext(scripts: seq<seq<Request>>, i: nat)
    ensures ScriptAt(ScriptsFrom(scripts, i), 0) == ScriptAt(scripts, i)
    ensures (if ScriptsFrom(scripts, i) == [] then [] else ScriptsFrom(scripts, i)[1..]) == ScriptsFrom(scripts, i + 1)
  {
  }

  lemma RunCallbacksNext(q: Queue, es: seq<Entry>, now: int, scripts: seq<seq<Request>>, i: nat)
    requires i < |es|
    ensures RunCallbacks(q, es[i..], now, ScriptsFrom(scripts, i))
            == RunCallbacks(AddAll(Fire(q, es[i], now), ScriptAt(scripts, i)), es[i + 1..], now,
                            ScriptsFrom(scripts, i + 1))
  {
    assert es[i..][1..] == es[i + 1..] && es[i..][0] == es[i];
    ScriptsFromNext(scripts, i);
  }

  lemma RestartedNext(es: seq<Entry>, put: seq<Entry>, now: int, i: nat)
    requires i < |es|
    ensures put + RestartedAll(es[i..], now) == put + RestartedOf(es[i], now) + RestartedAll(es[i + 1..], now)
  {
    assert es[i..][1..] == es[i + 1..] && es[i..][0] == es[i];
    RestartedAllSplits(es[i..], put, now);
  }
}
