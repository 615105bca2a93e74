/** The server as its users and the kernel see it: for each connection what was accepted, how much of it was sent and
    how its life has gone, and the functors queued and reports made, in order. There are no buffers, masks, poll
    entries or batches here. `ServerBooks` proves that the server keeps exactly these books. */
module Ledgers {
  import opened Buffers
  import opened ConnectionSpec
  import opened ServerSpec

  datatype Ledger = Ledger(
    fd: nat,
    hasWriteCallback: bool,
    state: State,
    closed: bool,
    watching: bool,        // the loop is asked to say when the descriptor is writable
    accepted: seq<Byte>,   // every message sent on the connection, concatenated
    sent: nat,             // how many of these bytes the kernel has taken
    completions: nat,      // how many write-complete callbacks have been asked for
    fins: seq<nat>)        // for each shutdown of the write side, how many bytes were still unsent

  /** A connection that has just been accepted. */
  function Opened(fd: nat, hasWriteCallback: bool): Ledger {
    Ledger(fd, hasWriteCallback, Connected, false, false, [], 0, 0, [])
  }

  function Unsent(l: Ledger): nat {
    if l.sent <= |l.accepted| then |l.accepted| - l.sent else 0
  }

  /** The kernel's share of a request. */
  function Share(k: WriteResult, request: nat): nat {
    match k
    case WriteFailed(_) => 0
    case Wrote(count) => if count < request then count else request
  }

  function AddCompletion(l: Ledger): Ledger {
    if l.hasWriteCallback then l.(completions := l.completions + 1) else l
  }

  /** send: taken only while connected, written at once only if nothing is unsent. */
  function Send(l: Ledger, message: seq<Byte>, k: WriteResult): Ledger {
    if l.state != Connected then l
    else if Unsent(l) > 0 then
      l.(accepted := l.accepted + message, watching := l.watching || message != [])
    else
      var n := Share(k, |message|);
      var m := l.(accepted := l.accepted + message, sent := l.sent + n);
      if n < |message| then m.(watching := true)
      else if k.Wrote? then AddCompletion(m)
      else m
  }

  /** shutdown: at once if nothing is being waited for, else when the rest has been sent. */
  function ShutDown(l: Ledger): Ledger {
    if l.state != Connected then l
    else l.(state := Disconnecting, fins := if l.watching then l.fins else l.fins + [Unsent(l)])
  }

  /** The descriptor is writable: the kernel takes its share of what is unsent. */
  function Drain(l: Ledger, k: WriteResult): Ledger {
    var n := Share(k, Unsent(l));
    if !l.watching || n == 0 then l
    else if n < Unsent(l) then l.(sent := l.sent + n)
    else
      var m := AddCompletion(l.(sent := l.sent + n, watching := false));
      if m.state == Disconnecting then m.(fins := m.fins + [0]) else m
  }

  /** The peer is lost: nothing is waited for any more. */
  function Close(l: Ledger): Ledger {
    l.(closed := true, watching := false)
  }

  function Destroy(l: Ledger): Ledger {
    l.(state := Disconnected, watching := false)
  }

  datatype Book = Book(
    ledgers: map<ConnId, Ledger>,
    queued: seq<Functor>,   // every functor ever queued, in order
    reports: seq<Report>,
    next: ConnId)           // the number of the next connection

  const EMPTY_BOOK: Book := Book(map[], [], [], 1)

  /** What happens to a server. */
  datatype Event =
    | Accepted(fd: nat, hasWriteCallback: bool)
    | Did(act: Act)         // a call by user code, or a functor from another thread
    | Arrived(id: ConnId)   // data
    | Lost(id: ConnId)      // a hang-up, or the end of the stream
    | Writable(id: ConnId, k: WriteResult)
    | Ended(id: ConnId)     // the destruction of a lost connection is run

  /** A new state of one ledger, with the write-complete callback it may have asked for. */
  function Enter(b: Book, id: ConnId, l: Ledger): Book
    requires id in b.ledgers
  {
    b.(ledgers := b.ledgers[id := l],
       queued := if l.completions != b.ledgers[id].completions then b.queued + [WriteComplete(id)] else b.queued)
  }

  function After(b: Book, e: Event): Book {
    match e
    case Accepted(fd, hasWriteCallback) =>
      b.(ledgers := b.ledgers[b.next := Opened(fd, hasWriteCallback)], reports := b.reports + [Up(b.next)],
         next := b.next + 1)
    case Did(SendOn(id, message, k)) =>
      if id in b.ledgers then Enter(b, id, Send(b.ledgers[id], message, k)) else b
    case Did(ShutdownOn(id)) => if id in b.ledgers then Enter(b, id, ShutDown(b.ledgers[id])) else b
    case Did(QueueUser(tag)) => b.(queued := b.queued + [User(tag)])
    case Arrived(id) => b.(reports := b.reports + [Message(id)])
    case Lost(id) =>
      if id in b.ledgers
      then b.(ledgers := b.ledgers[id := Close(b.ledgers[id])], queued := b.queued + [Functor.Destroy(id)])
      else b
    case Writable(id, k) => if id in b.ledgers then Enter(b, id, Drain(b.ledgers[id], k)) else b
    case Ended(id) =>
      if id in b.ledgers
      then b.(ledgers := b.ledgers[id := Destroy(b.ledgers[id])], reports := b.reports + [Down(id)])
      else b
  }

  function AfterAll(b: Book, es: seq<Event>): Book
    decreases |es|
  {
    if es == [] then b else AfterAll(After(b, es[0]), es[1..])
  }

  lemma {:induction false} AfterConcat(b: Book, es: seq<Event>, fs: seq<Event>)
    ensures AfterAll(b, es + fs) == AfterAll(AfterAll(b, es), fs)
    decreases |es|
  {
    if es == [] {
      assert es + fs == fs;
    } else {
      assert (es + fs)[0] == es[0] && (es + fs)[1..] == es[1..] + fs;
      AfterConcat(After(b, es[0]), es[1..], fs);
    }
  }

  lemma AfterOne(b: Book, e: Event)
    ensures AfterAll(b, [e]) == After(b, e)
  {
    assert [e][1..] == [];
  }

  /** The calls of one callback. */
  function Calls(script: seq<Act>): seq<Event> {
    if script == [] then [] else [Did(script[0])] + Calls(script[1..])
  }

  // ---------------------------------------------------------------------------------------------
  // What the books say, in the words of a user
  // ---------------------------------------------------------------------------------------------

  /** Connections are numbered in the order in which they are accepted. */
  predicate Numbered(b: Book) {
    forall id :: id in b.ledgers ==> id < b.next
  }

  function AcceptedOn(b: Book, id: ConnId): seq<Byte> {
    if id in b.ledgers then b.ledgers[id].accepted else []
  }

  /** The message of an event, if it is a send on `id` while that is connected. */
  function MessageTo(b: Book, e: Event, id: ConnId): seq<Byte> {
    match e
    case Did(SendOn(to, message, _)) =>
      if to == id && id in b.ledgers && b.ledgers[id].state == Connected then message else []
    case _ => []
  }

  function MessagesTo(b: Book, es: seq<Event>, id: ConnId): seq<Byte>
    decreases |es|
  {
    if es == [] then [] else MessageTo(b, es[0], id) + MessagesTo(After(b, es[0]), es[1..], id)
  }

  lemma AcceptedAfter(b: Book, e: Event, id: ConnId)
    requires Numbered(b)
    ensures Numbered(After(b, e)) && AcceptedOn(After(b, e), id) == AcceptedOn(b, id) + MessageTo(b, e, id)
  {
    assert AcceptedOn(b, id) + [] == AcceptedOn(b, id);
  }

  /** What a connection has accepted is the messages sent on it while it was connected, one after the other. */
  lemma {:induction false} AcceptedIsWhatWasSent(b: Book, es: seq<Event>, id: ConnId)
    requires Numbered(b)
    ensures AcceptedOn(AfterAll(b, es), id) == AcceptedOn(b, id) + MessagesTo(b, es, id)
    decreases |es|
  {
    if es == [] {
      assert AcceptedOn(b, id) + [] == AcceptedOn(b, id);
    } else {
      var c, first, rest := After(b, es[0]), MessageTo(b, es[0], id), MessagesTo(After(b, es[0]), es[1..], id);
      AcceptedAfter(b, es[0], id);
      AcceptedIsWhatWasSent(c, es[1..], id);
      assert AcceptedOn(b, id) + first + rest == AcceptedOn(b, id) + (first + rest);
    }
  }

  /** The functors of the user's own among `fs`. */
  function Users(fs: seq<Functor>): seq<int> {
    if fs == [] then []
    else
      var n := |fs| - 1;
      Users(fs[..n]) + (if fs[n].User? then [fs[n].tag] else [])
  }

  lemma UsersAppend(fs: seq<Functor>, f: Functor)
    ensures Users(fs + [f]) == Users(fs) + if f.User? then [f.tag] else []
  {
    assert (fs + [f])[..|fs|] == fs;
  }

  /** The functor that user code or another thread asks for, if the event is that. */
  function AskedBy(e: Event): seq<int> {
    if e.Did? && e.act.QueueUser? then [e.act.tag] else []
  }

  function Asked(es: seq<Event>): seq<int> {
    if es == [] then [] else AskedBy(es[0]) + Asked(es[1..])
  }

  /** An event queues at most one functor, one of the user's exactly if it asks for that. */
  lemma QueueAfter(b: Book, e: Event)
    ensures var q, r := b.queued, After(b, e).queued;
            || (r == q && AskedBy(e) == [])
            || (exists f :: r == q + [f] && AskedBy(e) == if f.User? then [f.tag] else [])
  {
    var q, r := b.queued, After(b, e).queued;
    if r != q {
      var f := r[|q|];
      assert r == q + [f];
    }
  }

  lemma UsersAfter(b: Book, e: Event)
    ensures Users(After(b, e).queued) == Users(b.queued) + AskedBy(e)
  {
    QueueAfter(b, e);
    var q, r := b.queued, After(b, e).queued;
    if r == q && AskedBy(e) == [] {
      assert Users(q) + [] == Users(q);
    } else {
      var f :| r == q + [f] && AskedBy(e) == if f.User? then [f.tag] else [];
      UsersAppend(q, f);
    }
  }

  /** Exactly these are queued, in that order. */
  lemma {:induction false} UsersAreQueuedInOrder(b: Book, es: seq<Event>)
    ensures Users(AfterAll(b, es).queued) == Users(b.queued) + Asked(es)
    decreases |es|
  {
    if es == [] {
      assert Users(b.queued) + [] == Users(b.queued);
    } else {
      UsersAfter(b, es[0]);
      UsersAreQueuedInOrder(After(b, es[0]), es[1..]);
      Associates(Users(b.queued), AskedBy(es[0]), Asked(es[1..]));
    }
  }

  lemma Associates(a: seq<int>, b: seq<int>, c: seq<int>)
    ensures a + b + c == a + (b + c)
  {
  }
}
