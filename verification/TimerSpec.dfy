/** Timers as values: src/timer_queue.cpp, src/include/timer_queue.h, timer.h and timestamp.h.

    Times are microseconds since the Epoch, intervals whole microseconds, zero for a one-shot timer. The set of
    timers is ordered by time and then by the identity of the timer, as the sentry in getExpired presumes. */
module TimerSpec {
  import opened Options
  import opened Folding

  datatype Entry = Entry(when: int, id: nat, interval: nat) {
    predicate IsRepeat() {
      0 < interval
    }

    /** `Timer::restart` of a repeating timer. */
    function Restarted(now: int): Entry {
      Entry(now + interval, id, interval)
    }
  }

  /** The identity a set key compares by: a timer's, or the all-ones pointer of the sentry. */
  datatype Identity = Of(id: nat) | AllOnes

  datatype Key = Key(when: int, identity: Identity)

  /** Times and identities, or only times, as the comparator in timer_queue.h is written. */
  datatype Order = ByTimeAndIdentity | ByTimeOnly

  function KeyOf(e: Entry): Key {
    Key(e.when, Of(e.id))
  }

  predicate Before(order: Order, a: Key, b: Key) {
    || a.when < b.when
    || (order == ByTimeAndIdentity && a.when == b.when && a.identity.Of?
        && (b.identity.AllOnes? || a.identity.id < b.identity.id))
  }

  predicate Less(order: Order, a: Entry, b: Entry) {
    Before(order, KeyOf(a), KeyOf(b))
  }

  predicate Sorted(order: Order, ts: seq<Entry>) {
    forall i, j :: 0 <= i < j < |ts| ==> Less(order, ts[i], ts[j])
  }

  /** The number of leading entries before `key`, which in a sorted set is what lower_bound finds. */
  function LowerBound(order: Order, ts: seq<Entry>, key: Key): (k: nat)
    ensures k <= |ts|
  {
    if ts == [] || !Before(order, KeyOf(ts[0]), key) then 0 else 1 + LowerBound(order, ts[1..], key)
  }

  lemma {:induction false} LowerBoundSplits(order: Order, ts: seq<Entry>, key: Key)
    requires Sorted(order, ts)
    ensures var k := LowerBound(order, ts, key);
            && (forall i :: 0 <= i < k ==> Before(order, KeyOf(ts[i]), key))
            && (forall i :: k <= i < |ts| ==> !Before(order, KeyOf(ts[i]), key))
  {
    if ts != [] {
      if Before(order, KeyOf(ts[0]), key) {
        LowerBoundSplits(order, ts[1..], key);
        forall i | 1 <= i < |ts|
          ensures ts[i] == ts[1..][i - 1]
        {
        }
      } else {
        forall i | 1 <= i < |ts|
          ensures !Before(order, KeyOf(ts[i]), key)
        {
          assert Less(order, ts[0], ts[i]);
        }
      }
    }
  }

  /** Whether std::set takes a new entry: no entry of the set is equivalent to it. */
  predicate Insertable(order: Order, ts: seq<Entry>, e: Entry) {
    forall i :: 0 <= i < |ts| ==> Less(order, ts[i], e) || Less(order, e, ts[i])
  }

  function Inserted(order: Order, ts: seq<Entry>, e: Entry): seq<Entry> {
    var k := LowerBound(order, ts, KeyOf(e));
    ts[..k] + [e] + ts[k..]
  }

  /** Everything before the place of insertion is before the new entry, everything after it after. */
  lemma PlaceOfInsertion(order: Order, ts: seq<Entry>, e: Entry)
    requires Sorted(order, ts) && Insertable(order, ts, e)
    ensures var k := LowerBound(order, ts, KeyOf(e));
            && (forall i :: 0 <= i < k ==> Less(order, ts[i], e))
            && (forall i :: k <= i < |ts| ==> Less(order, e, ts[i]))
  {
    LowerBoundSplits(order, ts, KeyOf(e));
  }

  lemma InsertedIsSorted(order: Order, ts: seq<Entry>, e: Entry)
    requires Sorted(order, ts) && Insertable(order, ts, e)
    ensures Sorted(order, Inserted(order, ts, e))
  {
    PlaceOfInsertion(order, ts, e);
    var k := LowerBound(order, ts, KeyOf(e));
    var us := Inserted(order, ts, e);
    forall i, j | 0 <= i < j < |us|
      ensures Less(order, us[i], us[j])
    {
      assert us[i] == if i < k then ts[i] else if i == k then e else ts[i - 1];
      assert us[j] == if j < k then ts[j] else if j == k then e else ts[j - 1];
    }
  }

  lemma InsertedHasAll(order: Order, ts: seq<Entry>, e: Entry)
    ensures forall x :: x in Inserted(order, ts, e) <==> x in ts || x == e
  {
    var k := LowerBound(order, ts, KeyOf(e));
    assert ts == ts[..k] + ts[k..];
  }

  /** Entries of different timers never collide; under the order by time alone, those due at one time do. */
  lemma InsertableIff(ts: seq<Entry>, e: Entry)
    ensures Insertable(ByTimeAndIdentity, ts, e) <==> forall x :: x in ts ==> x.when != e.when || x.id != e.id
    ensures Insertable(ByTimeOnly, ts, e) <==> forall x :: x in ts ==> x.when != e.when
  {
    assert forall i :: 0 <= i < |ts| ==> ts[i] in ts;
  }

  // ---------------------------------------------------------------------------------------------
  // getExpired
  // ---------------------------------------------------------------------------------------------

  /** Where the sentry splits the set. */
  function Boundary(order: Order, ts: seq<Entry>, now: int): nat {
    LowerBound(order, ts, Key(now, AllOnes))
  }

  /** The split is exact, ties included, and the assertion on the boundary entry holds. */
  lemma GetExpiredSplits(ts: seq<Entry>, now: int)
    requires Sorted(ByTimeAndIdentity, ts)
    ensures var k := Boundary(ByTimeAndIdentity, ts, now);
            && k <= |ts|
            && (forall i :: 0 <= i < k ==> ts[i].when <= now)
            && (forall i :: k <= i < |ts| ==> now < ts[i].when)
  {
    LowerBoundSplits(ByTimeAndIdentity, ts, Key(now, AllOnes));
  }

  /** Under the order by time alone the assertion fails exactly when a timer is due at this very time. */
  lemma BoundaryAssertionByTimeOnlyIff(ts: seq<Entry>, now: int)
    requires Sorted(ByTimeOnly, ts)
    ensures var k := Boundary(ByTimeOnly, ts, now);
            k <= |ts| && ((k == |ts| || now < ts[k].when) <==> forall x :: x in ts ==> x.when != now)
  {
    var k := Boundary(ByTimeOnly, ts, now);
    LowerBoundSplits(ByTimeOnly, ts, Key(now, AllOnes));
    if k < |ts| && now < ts[k].when {
      forall i | k < i < |ts|
        ensures now < ts[i].when
      {
        assert Less(ByTimeOnly, ts[k], ts[i]);
      }
    }
  }

  // ---------------------------------------------------------------------------------------------
  // The queue and its history
  // ---------------------------------------------------------------------------------------------

  /** One run of a timer's callback: when it was due, and the time handleRead went by. */
  datatype Firing = Firing(id: nat, due: int, now: int)

  datatype Queue = Queue(
    timers: seq<Entry>,
    armed: int,          // what the kernel timer was last armed for
    added: seq<Entry>,   // every timer ever added, by identity
    runs: seq<Firing>,   // every run of a callback, in order
    failed: bool)        // an assertion of the source did not hold

  const EMPTY: Queue := Queue([], 0, [], [], false)

  datatype Request = Request(when: int, interval: nat)

  predicate IsEarliest(ts: seq<Entry>, when: int) {
    ts == [] || when < ts[0].when
  }

  /** `insert`, with its assertion. */
  function Insert(q: Queue, e: Entry): Queue {
    q.(timers := Inserted(ByTimeAndIdentity, q.timers, e),
       failed := q.failed || !Insertable(ByTimeAndIdentity, q.timers, e))
  }

  /** `addTimerInLoop`. The new timer's identity is the next one. */
  function Add(q: Queue, r: Request): Queue {
    var e := Entry(r.when, |q.added|, r.interval);
    Insert(q, e).(armed := if IsEarliest(q.timers, r.when) then r.when else q.armed, added := q.added + [e])
  }

  function AddAll(q: Queue, rs: seq<Request>): Queue
    decreases |rs|
  {
    if rs == [] then q else AddAll(Add(q, rs[0]), rs[1..])
  }

  function Fire(q: Queue, e: Entry, now: int): Queue {
    q.(runs := q.runs + [Firing(e.id, e.when, now)])
  }

  function ScriptAt(scripts: seq<seq<Request>>, i: nat): seq<Request> {
    if i < |scripts| then scripts[i] else []
  }

  /** Run the callbacks; the i-th adds the timers of `scripts[i]`. */
  function RunCallbacks(q: Queue, expired: seq<Entry>, now: int, scripts: seq<seq<Request>>): Queue
    decreases |expired|
  {
    if expired == [] then q
    else RunCallbacks(AddAll(Fire(q, expired[0], now), ScriptAt(scripts, 0)), expired[1..], now,
                      if scripts == [] then [] else scripts[1..])
  }

  function Reinsert(q: Queue, expired: seq<Entry>, now: int): Queue
    decreases |expired|
  {
    if expired == [] then q
    else
      Reinsert(if expired[0].IsRepeat() then Insert(q, expired[0].Restarted(now)) else q, expired[1..], now)
  }

  /** The end of `reset`: only a valid time, one after the Epoch, is armed for. */
  function Rearm(q: Queue): Queue {
    if q.timers != [] && 0 < q.timers[0].when then q.(armed := q.timers[0].when) else q
  }

  function Expired(q: Queue, now: int): seq<Entry> {
    q.timers[..Boundary(ByTimeAndIdentity, q.timers, now)]
  }

  /** `getExpired`, with its assertion. */
  function WithoutExpired(q: Queue, now: int): Queue {
    var k := Boundary(ByTimeAndIdentity, q.timers, now);
    q.(timers := q.timers[k..], failed := q.failed || !(k == |q.timers| || now < q.timers[k].when))
  }

  function HandleRead(q: Queue, now: int, scripts: seq<seq<Request>>): Queue {
    var expired := Expired(q, now);
    Rearm(Reinsert(RunCallbacks(WithoutExpired(q, now), expired, now, scripts), expired, now))
  }

  datatype Step = AddTimer(r: Request) | TimerRead(now: int, scripts: seq<seq<Request>>)

  function Next(q: Queue, step: Step): Queue {
    match step
    case AddTimer(r) => Add(q, r)
    case TimerRead(now, scripts) => HandleRead(q, now, scripts)
  }

  function Run(q: Queue, steps: seq<Step>): Queue
    decreases |steps|
  {
    if steps == [] then q else Run(Next(q, steps[0]), steps[1..])
  }

  /** The clock reads a time after the Epoch. */
  predicate ClockIsValid(steps: seq<Step>) {
    forall i :: 0 <= i < |steps| && steps[i].TimerRead? ==> 0 < steps[i].now
  }

  // ---------------------------------------------------------------------------------------------
  // Conservation
  // ---------------------------------------------------------------------------------------------

  function FiringsOf(runs: seq<Firing>, id: nat): seq<Firing> {
    if runs == [] then []
    else
      var n := |runs| - 1;
      FiringsOf(runs[..n], id) + (if runs[n].id == id then [runs[n]] else [])
  }

  /** What should be in the queue for a timer that was added as `a` and has fired `fs` so far. */
  function Expected(a: Entry, fs: seq<Firing>): Option<Entry> {
    if fs == [] then Some(a)
    else if a.IsRepeat() then Some(a.Restarted(fs[|fs| - 1].now))
    else None
  }

  /** Each run came when it was due or later, and was due when the run before it had put the timer. */
  predicate OnTime(a: Entry, fs: seq<Firing>) {
    && (forall i :: 0 <= i < |fs| ==> fs[i].due <= fs[i].now)
    && (forall i :: 0 <= i < |fs| ==> Expected(a, fs[..i]).Some? && fs[i].due == Expected(a, fs[..i]).value.when)
  }

  /** Every timer ran on time, and only timers that were added ran. */
  ghost predicate HistoryOk(q: Queue) {
    forall key {:trigger Unfold(key)} :: Unfold(key) ==>
      && (forall i :: 0 <= i < |q.added| ==> q.added[i].id == i && OnTime(q.added[i], FiringsOf(q.runs, i)))
      && (forall i :: 0 <= i < |q.runs| ==> q.runs[i].id < |q.added|)
  }

  /** `e` is what should be in the queue for its timer. */
  predicate Belongs(q: Queue, e: Entry) {
    e.id < |q.added| && Expected(q.added[e.id], FiringsOf(q.runs, e.id)) == Some(e)
  }

  /** The queue's timers and those `away` from it, taken out to be run and put back, are exactly the timers
      there should be. */
  ghost predicate Complete(q: Queue, away: seq<Entry>) {
    forall key {:trigger Unfold(key)} :: Unfold(key) ==>
      && (forall e :: e in q.timers || e in away ==> Belongs(q, e))
      && (forall e :: Belongs(q, e) ==> e in q.timers || e in away)
  }

  /** No timer is both in the queue and away, or away twice. */
  ghost predicate Apart(q: Queue, away: seq<Entry>) {
    forall key {:trigger Unfold(key)} :: Unfold(key) ==>
      && (forall e, x :: e in away && x in q.timers ==> e.id != x.id)
      && (forall i, j :: 0 <= i < j < |away| ==> away[i].id != away[j].id)
  }

  ghost predicate Conserved(q: Queue, away: seq<Entry>) {
    && !q.failed && Sorted(ByTimeAndIdentity, q.timers)
    && HistoryOk(q) && Complete(q, away) && Apart(q, away)
  }
}
