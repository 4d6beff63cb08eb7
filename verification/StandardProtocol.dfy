/** Standard mode as atomic steps: HTTP handlers that block on a full queue
    (producer.go), one event-loop goroutine that drains the queue, asks for the
    next event and flushes at the end (sumologic-extension.go, processEvents, and
    consumer.go).  A failed drain puts its batch back with blocking sends. */
module StandardProtocol {
  import opened Telemetry

  datatype Setup = Setup(capacity: nat, posts: seq<string>, enableFailover: bool, maxConcurrentRequests: int) {
    predicate Valid() { maxConcurrentRequests > 0 }

    /** Drains of a flush without failover, after its first. */
    function MoreDrains(length: nat): nat
      requires Valid()
    {
      length / maxConcurrentRequests
    }
  }

  /** Who asked for a drain.  OnCancel carries the drains of the flush still to come. */
  datatype Job = BeforeNext | OnShutdown | OnCancel(left: nat) | OnFlushAll

  datatype NextEvent = NextError | Invoke | Shutdown

  datatype Reason = RegisterFailed | NextFailed | ByShutdown | ByCancel

  datatype Phase =
    | Start
    | Asking(first: bool)   // inside nextEvent; the first call belongs to registration
    | Loop                  // at the select of processEvents
    | Draining(job: Job, batch: seq<Message>)
    | Sending(job: Job, batch: seq<Message>)
    | Requeueing(job: Job, batch: seq<Message>, next: nat)
    | Returned(job: Job)    // DrainQueue, or FlushAll and its requeue, is over
    | Stopped(why: Reason)

  /** What a run shows to the outside: next-event calls, completed drains and
      flushes with the error they met, and the closing of the queue. */
  datatype Event = NextCalled | Drained(ok: bool) | Flushed(ok: bool) | Closed

  datatype State = State(
    queue: seq<Message>,
    closed: bool,
    accepted: seq<bool>,     // which POSTs are in
    phase: Phase,
    // history
    sinceEmpty: nat,         // messages accepted since a drain last saw the queue empty
    settled: bool,           // no batch was put back since then
    offered: seq<Message>,   // accepted messages
    acked: seq<Message>,     // messages of sends and flushes that returned nil
    events: seq<Event>,
    answers: seq<NextEvent>) // what the next-event calls have returned

  function Init(c: Setup): State {
    State([], false, seq(|c.posts|, i => false), Start, 0, true, [], [], [], [])
  }

  /** Every POST of the run has been accepted. */
  predicate AllIn(s: State) {
    forall i :: 0 <= i < |s.accepted| ==> s.accepted[i]
  }

  datatype Action =
    | Produce(i: nat)        // the blocking push of handler i goes into the queue
    | HandOver(i: nat)       // without a buffer: a drain's receive meets the blocked push of handler i
    | Register(ok: bool)
    | NextReturned(event: NextEvent)
    | Cancel                 // the select takes ctx.Done
    | Default                // the select takes its default branch
    | Receive
    | SeeEmpty
    | SendDone(ok: bool)
    | PutBack
    | FinishPutBack
    | Return                 // the caller of the drain goes on

  predicate Enabled(c: Setup, s: State, a: Action) {
    match a
    case Produce(i) => i < |s.accepted| && i < |c.posts| && !s.accepted[i] && !s.closed && |s.queue| < c.capacity
    case HandOver(i) =>
      c.capacity == 0 && s.phase.Draining? && i < |s.accepted| && i < |c.posts| && !s.accepted[i] && !s.closed
    case Register(_) => s.phase.Start?
    case NextReturned(_) => s.phase.Asking?
    case Cancel => s.phase.Loop? && c.Valid()
    case Default => s.phase.Loop?
    case Receive => s.phase.Draining? && s.queue != []
    case SeeEmpty => s.phase.Draining? && s.queue == []
    case SendDone(ok) => s.phase.Sending? && (s.phase.batch == [] ==> ok)
    case PutBack => s.phase.Requeueing? && s.phase.next < |s.phase.batch| && |s.queue| < c.capacity
    case FinishPutBack => s.phase.Requeueing? && s.phase.next >= |s.phase.batch|
    case Return => s.phase.Returned?
  }

  function DoneEvent(job: Job, ok: bool): Event {
    if job.OnFlushAll? then Flushed(ok) else Drained(ok)
  }

  function Next(c: Setup, s: State, a: Action): State
    requires Enabled(c, s, a)
  {
    match a
    case Produce(i) =>
      var m := Message(i, c.posts[i]);
      s.(queue := s.queue + [m], accepted := s.accepted[i := true], sinceEmpty := s.sinceEmpty + 1,
         offered := s.offered + [m])
    case HandOver(i) =>
      var m := Message(i, c.posts[i]);
      s.(phase := Draining(s.phase.job, s.phase.batch + [m]), accepted := s.accepted[i := true],
         sinceEmpty := s.sinceEmpty + 1, offered := s.offered + [m])
    case Register(ok) =>
      if ok then s.(phase := Asking(true), events := s.events + [NextCalled]) else s.(phase := Stopped(RegisterFailed))
    case NextReturned(event) =>
      s.(phase := if event.NextError? then Stopped(NextFailed)
                  else if event.Shutdown? && !s.phase.first then Draining(OnShutdown, [])
                  else Loop,
         answers := s.answers + [event])
    case Cancel =>
      s.(phase := if c.enableFailover then Draining(OnFlushAll, [])
                  else Draining(OnCancel(c.MoreDrains(|s.queue|)), []))
    case Default => s.(phase := Draining(BeforeNext, []))
    case Receive => s.(queue := s.queue[1..], phase := Draining(s.phase.job, s.phase.batch + [s.queue[0]]))
    case SeeEmpty => s.(phase := Sending(s.phase.job, s.phase.batch), sinceEmpty := 0, settled := true)
    case SendDone(ok) =>
      if ok then s.(phase := Returned(s.phase.job), acked := s.acked + s.phase.batch,
                    events := s.events + [DoneEvent(s.phase.job, true)])
      else s.(phase := Requeueing(s.phase.job, s.phase.batch, 0), settled := false)
    case PutBack =>
      var Requeueing(job, b, n) := s.phase;
      s.(queue := s.queue + [b[n]], phase := Requeueing(job, b, n + 1))
    case FinishPutBack =>
      s.(phase := Returned(s.phase.job), events := s.events + [DoneEvent(s.phase.job, false)])
    case Return =>
      match s.phase.job
      case BeforeNext => s.(phase := Asking(false), events := s.events + [NextCalled])
      case OnShutdown => s.(phase := Stopped(ByShutdown))
      case OnCancel(left) =>
        s.(phase := if left == 0 then Stopped(ByCancel) else Draining(OnCancel(left - 1), []))
      case OnFlushAll => s.(phase := Stopped(ByCancel), closed := true, events := s.events + [Closed])
  }

  function After(c: Setup, s: State, acts: seq<Action>): Option<State> {
    if acts == [] then Some(s) else
    match After(c, s, acts[..|acts| - 1])
    case None => None
    case Some(m) => if Enabled(c, m, acts[|acts| - 1]) then Some(Next(c, m, acts[|acts| - 1])) else None
  }

  lemma AfterSnoc(c: Setup, s: State, acts: seq<Action>, a: Action)
    ensures After(c, s, acts + [a]) ==
              match After(c, s, acts)
              case None => None
              case Some(m) => if Enabled(c, m, a) then Some(Next(c, m, a)) else None
  {
    assert (acts + [a])[..|acts|] == acts;
  }

  /** Handlers whose push is still to come. */
  function Waiting(accepted: seq<bool>): nat {
    if accepted == [] then 0 else
    Waiting(accepted[..|accepted| - 1]) + if accepted[|accepted| - 1] then 0 else 1
  }

  lemma {:induction false} WaitingUpdate(accepted: seq<bool>, i: nat)
    requires i < |accepted| && !accepted[i]
    ensures Waiting(accepted[i := true]) == Waiting(accepted) - 1
  {
    var n := |accepted| - 1;
    if i == n {
      assert accepted[i := true][..n] == accepted[..n];
    } else {
      WaitingUpdate(accepted[..n], i);
      assert accepted[i := true][..n] == accepted[..n][i := true];
    }
  }

  ghost predicate Reachable(c: Setup, s: State) {
    exists acts :: After(c, Init(c), acts) == Some(s)
  }

  // ------------------------------------------------------------ invariants

  function InHand(p: Phase): seq<Message> {
    match p
    case Draining(_, b) => b
    case Sending(_, b) => b
    case Requeueing(_, b, n) => if n <= |b| then b[n..] else []
    case _ => []
  }

  /** Nothing is lost: every accepted message is queued, in hand or acknowledged. */
  ghost predicate Ledger(s: State) {
    multiset(s.offered) == multiset(s.queue) + multiset(InHand(s.phase)) + multiset(s.acked)
  }

  ghost predicate Offers(c: Setup, s: State) {
    && |s.accepted| == |c.posts|
    && (forall i :: 0 <= i < |c.posts| ==>
          multiset(s.offered)[Message(i, c.posts[i])] == if s.accepted[i] then 1 else 0)
  }

  predicate Hand(c: Setup, s: State) {
    && |s.queue| <= c.capacity
    && (!s.phase.Draining? && s.settled ==> |s.queue| == s.sinceEmpty)
    && match s.phase
       case Sending(_, b) => s.settled && Restrict(s.queue, b) == []
       case Requeueing(_, b, n) =>
         n <= |b| && !s.settled && |s.queue| == s.sinceEmpty + n && Restrict(s.queue, b) == b[..n]
       case _ => true
  }

  lemma LedgerKept(c: Setup, s: State, a: Action)
    requires Ledger(s) && (s.phase.Requeueing? ==> s.phase.next <= |s.phase.batch|) && Enabled(c, s, a)
    ensures Ledger(Next(c, s, a))
  {
    hide Next, Ledger;
    match a
    case Produce(i) => LedgerKeptByProduce(c, s, i);
    case HandOver(i) => LedgerKeptByHandOver(c, s, i);
    case Receive => LedgerKeptByReceive(c, s);
    case PutBack => LedgerKeptByPutBack(c, s);
    case SendDone(ok) => LedgerKeptBySendDone(c, s, ok);
    case _ => LedgerKeptOtherwise(c, s, a);
  }

  lemma Unmoved(c: Setup, s: State, a: Action)
    requires (s.phase.Requeueing? ==> s.phase.next <= |s.phase.batch|) && Enabled(c, s, a)
    requires !a.Produce? && !a.HandOver? && !a.Receive? && !a.PutBack? && !a.SendDone?
    ensures var s' := Next(c, s, a);
            && s'.queue == s.queue && s'.offered == s.offered && s'.acked == s.acked
            && InHand(s'.phase) == InHand(s.phase)
  {
    hide Setup.MoreDrains;
  }

  lemma LedgerKeptOtherwise(c: Setup, s: State, a: Action)
    requires Ledger(s) && (s.phase.Requeueing? ==> s.phase.next <= |s.phase.batch|) && Enabled(c, s, a)
    requires !a.Produce? && !a.HandOver? && !a.Receive? && !a.PutBack? && !a.SendDone?
    ensures Ledger(Next(c, s, a))
  {
    Unmoved(c, s, a);
    hide Next, InHand;
  }

  lemma LedgerKeptByProduce(c: Setup, s: State, i: nat)
    requires Ledger(s) && Enabled(c, s, Produce(i))
    ensures Ledger(Next(c, s, Produce(i)))
  {
  }

  lemma LedgerKeptByHandOver(c: Setup, s: State, i: nat)
    requires Ledger(s) && Enabled(c, s, HandOver(i))
    ensures Ledger(Next(c, s, HandOver(i)))
  {
  }

  lemma ReceiveMoves(c: Setup, s: State)
    requires Enabled(c, s, Receive)
    ensures var s', m := Next(c, s, Receive), s.queue[0];
            && s.queue == [m] + s'.queue && InHand(s'.phase) == InHand(s.phase) + [m]
            && s'.offered == s.offered && s'.acked == s.acked
  {
  }

  lemma LedgerKeptByReceive(c: Setup, s: State)
    requires Ledger(s) && Enabled(c, s, Receive)
    ensures Ledger(Next(c, s, Receive))
  {
    ReceiveMoves(c, s);
    hide Next, InHand;
    var s', m := Next(c, s, Receive), s.queue[0];
    OneMoved(multiset(s.offered), multiset(s.queue), multiset(s'.queue),
             multiset(InHand(s.phase)), multiset(InHand(s'.phase)), multiset(s.acked), m);
  }

  lemma LedgerKeptBySendDone(c: Setup, s: State, ok: bool)
    requires Ledger(s) && Enabled(c, s, SendDone(ok))
    ensures Ledger(Next(c, s, SendDone(ok)))
  {
    assert s.phase.batch[0..] == s.phase.batch;
    assert InHand(Next(c, s, SendDone(ok)).phase) == if ok then [] else s.phase.batch;
  }

  lemma PutBackMoves(c: Setup, s: State)
    requires Enabled(c, s, PutBack)
    ensures var s', m := Next(c, s, PutBack), s.phase.batch[s.phase.next];
            && InHand(s.phase) == [m] + InHand(s'.phase) && s'.queue == s.queue + [m]
            && s'.offered == s.offered && s'.acked == s.acked
  {
  }

  lemma LedgerKeptByPutBack(c: Setup, s: State)
    requires Ledger(s) && Enabled(c, s, PutBack)
    ensures Ledger(Next(c, s, PutBack))
  {
    PutBackMoves(c, s);
    hide Next, InHand;
    var s', m := Next(c, s, PutBack), s.phase.batch[s.phase.next];
    OneMoved(multiset(s.offered), multiset(InHand(s.phase)), multiset(InHand(s'.phase)),
             multiset(s.queue), multiset(s'.queue), multiset(s.acked), m);
  }

  lemma OffersKept(c: Setup, s: State, a: Action)
    requires Offers(c, s) && Enabled(c, s, a)
    ensures Offers(c, Next(c, s, a))
  {
    hide Setup.MoreDrains;
  }

  lemma NewcomerNotInBatch(c: Setup, s: State, i: nat)
    requires Ledger(s) && Offers(c, s) && Hand(c, s) && i < |c.posts| && !s.accepted[i]
    requires s.phase.Sending? || s.phase.Requeueing?
    ensures Message(i, c.posts[i]) !in s.phase.batch
  {
    var m := Message(i, c.posts[i]);
    assert multiset(s.offered)[m] == 0;
    assert multiset(InHand(s.phase))[m] == 0 && multiset(s.queue)[m] == 0;
    assert m !in InHand(s.phase) && m !in s.queue;
    if s.phase.Requeueing? {
      var Requeueing(_, b, n) := s.phase;
      if m in b[..n] { RestrictContains(s.queue, b, m); }
      assert b == b[..n] + b[n..];
    }
  }

  lemma HandKeptByProduce(c: Setup, s: State, i: nat)
    requires Ledger(s) && Offers(c, s) && Hand(c, s) && Enabled(c, s, Produce(i))
    ensures Hand(c, Next(c, s, Produce(i)))
  {
    if s.phase.Sending? || s.phase.Requeueing? {
      hide Ledger, Offers;
      NewcomerNotInBatch(c, s, i);
      RestrictSnoc(s.queue, Message(i, c.posts[i]), s.phase.batch);
    }
  }

  lemma HandKeptByPutBack(c: Setup, s: State)
    requires Hand(c, s) && Enabled(c, s, PutBack)
    ensures Hand(c, Next(c, s, PutBack))
  {
    var Requeueing(_, b, n) := s.phase;
    RestrictSnoc(s.queue, b[n], b);
    assert b[..n] + [b[n]] == b[..n + 1];
  }

  lemma HandKeptOtherwise(c: Setup, s: State, a: Action)
    requires Hand(c, s) && Enabled(c, s, a) && !a.Produce? && !a.PutBack?
    ensures Hand(c, Next(c, s, a))
  {
    hide Setup.MoreDrains;
    if !a.SeeEmpty? { hide Restrict; }
  }

  lemma HandKept(c: Setup, s: State, a: Action)
    requires Ledger(s) && Offers(c, s) && Hand(c, s) && Enabled(c, s, a)
    ensures Hand(c, Next(c, s, a))
  {
    hide Next;
    match a
    case Produce(i) => HandKeptByProduce(c, s, i);
    case PutBack => HandKeptByPutBack(c, s);
    case _ => HandKeptOtherwise(c, s, a);
  }

  // ---------------------------------------------------------------- events

  /** Every next-event call but the first follows a completed drain at once, the
      first event is the call made by registration, and nothing follows a flush
      but the closing of the queue. */
  predicate Shape(events: seq<Event>) {
    && (events != [] ==> events[0] == NextCalled)
    && (forall k :: 0 < k < |events| && events[k] == NextCalled ==> events[k - 1].Drained?)
    && (forall k :: 0 <= k < |events| && events[k] == Closed ==> k == |events| - 1 && 0 < k && events[k - 1].Flushed?)
    && (forall k :: 0 <= k < |events| && events[k].Flushed? ==>
          k >= |events| - 2 && (k == |events| - 2 ==> events[k + 1] == Closed))
  }

  predicate Unflushed(events: seq<Event>) {
    forall k :: 0 <= k < |events| ==> !events[k].Flushed? && events[k] != Closed
  }

  function Last(events: seq<Event>): Option<Event> {
    if events == [] then None else Some(events[|events| - 1])
  }

  /** Where the run stands in its event sequence. */
  predicate Track(c: Setup, s: State) {
    && Shape(s.events)
    && (s.closed <==> Last(s.events) == Some(Closed))
    && (s.phase.Start? || s.phase == Stopped(RegisterFailed) <==> s.events == [])
    && match s.phase
       case Asking(_) => Last(s.events) == Some(NextCalled) && Unflushed(s.events)
       case Returned(job) =>
         && |s.events| >= 2 && !s.closed && s.events[|s.events| - 1] == DoneEvent(job, s.settled)
         && Unflushed(s.events[..|s.events| - 1])
         && (job.OnFlushAll? ==> c.enableFailover) && (job.OnCancel? ==> !c.enableFailover)
       case Draining(job, _) => !s.closed && Unflushed(s.events) && JobFits(c, job)
       case Sending(job, _) => !s.closed && Unflushed(s.events) && JobFits(c, job)
       case Requeueing(job, _, _) => !s.closed && Unflushed(s.events) && JobFits(c, job)
       case Stopped(ByShutdown) =>
         |s.events| >= 2 && s.events[|s.events| - 1] == Drained(s.settled) && Unflushed(s.events)
       case Stopped(ByCancel) =>
         if c.enableFailover then
           && s.closed && |s.events| >= 3
           && s.events[|s.events| - 2] == Flushed(s.settled) && s.events[|s.events| - 1] == Closed
           && Unflushed(s.events[..|s.events| - 2])
         else |s.events| >= 2 && s.events[|s.events| - 1] == Drained(s.settled) && Unflushed(s.events)
       case Stopped(NextFailed) => Last(s.events) == Some(NextCalled) && Unflushed(s.events)
       case _ => Unflushed(s.events)
  }

  predicate JobFits(c: Setup, job: Job) {
    (job.OnFlushAll? ==> c.enableFailover) && (job.OnCancel? ==> !c.enableFailover)
  }

  /** Appending an event to an unflushed sequence keeps its shape. */
  lemma ShapeSnoc(events: seq<Event>, e: Event)
    requires Shape(events) && Unflushed(events) && events != []
    requires e != Closed && (e == NextCalled ==> events[|events| - 1].Drained?)
    ensures Shape(events + [e])
  {
  }

  lemma TrackKept(c: Setup, s: State, a: Action)
    requires Hand(c, s) && Track(c, s) && Enabled(c, s, a)
    ensures Track(c, Next(c, s, a))
  {
    hide Restrict, Next, Track;
    match a
    case Register(ok) => TrackKeptByRegister(c, s, ok);
    case SendDone(ok) => if ok { TrackKeptByDone(c, s, a); } else { TrackKeptOtherwise(c, s, a); }
    case FinishPutBack => TrackKeptByDone(c, s, a);
    case Return => TrackKeptByReturn(c, s);
    case _ => TrackKeptOtherwise(c, s, a);
  }

  /** Steps that show nothing to the outside. */
  lemma TrackKeptOtherwise(c: Setup, s: State, a: Action)
    requires Hand(c, s) && Track(c, s) && Enabled(c, s, a)
    requires !a.Register? && a != SendDone(true) && !a.FinishPutBack? && !a.Return?
    ensures Track(c, Next(c, s, a))
  {
    hide Setup.MoreDrains;
    hide Restrict, Shape;
  }

  lemma TrackKeptByRegister(c: Setup, s: State, ok: bool)
    requires Track(c, s) && Enabled(c, s, Register(ok))
    ensures Track(c, Next(c, s, Register(ok)))
  {
  }

  lemma TrackKeptByDone(c: Setup, s: State, a: Action)
    requires Hand(c, s) && Track(c, s) && Enabled(c, s, a)
    requires a == SendDone(true) || a == FinishPutBack
    ensures Track(c, Next(c, s, a))
  {
    hide Restrict, Shape, Unflushed;
    var e := DoneEvent(s.phase.job, a.SendDone?);
    ShapeSnoc(s.events, e);
    assert (s.events + [e])[..|s.events|] == s.events;
  }

  lemma ShapeClose(events: seq<Event>)
    requires |events| >= 2 && Shape(events) && events[|events| - 1].Flushed? && Unflushed(events[..|events| - 1])
    ensures Shape(events + [Closed])
    ensures (events + [Closed])[..|events| - 1] == events[..|events| - 1]
  {
    var n := |events| - 1;
    forall k | 0 <= k < n ensures !events[k].Flushed? && events[k] != Closed {
      assert events[..n][k] == events[k];
    }
  }

  lemma UnflushedSnoc(events: seq<Event>)
    requires events != [] && Unflushed(events[..|events| - 1]) && events[|events| - 1].Drained?
    ensures Unflushed(events)
  {
    var n := |events| - 1;
    forall k | 0 <= k < n ensures !events[k].Flushed? && events[k] != Closed {
      assert events[..n][k] == events[k];
    }
  }

  lemma TrackKeptByReturn(c: Setup, s: State)
    requires Track(c, s) && Enabled(c, s, Return)
    ensures Track(c, Next(c, s, Return))
  {
    if s.phase.job.OnFlushAll? {
      TrackKeptByClose(c, s);
    } else {
      hide Shape, Unflushed;
      UnflushedSnoc(s.events);
      if s.phase.job.BeforeNext? {
        ShapeSnoc(s.events, NextCalled);
        UnflushedNext(s.events);
      }
    }
  }

  lemma TrackKeptByClose(c: Setup, s: State)
    requires Track(c, s) && s.phase == Returned(OnFlushAll)
    ensures Track(c, Next(c, s, Return))
  {
    hide Shape, Unflushed;
    ShapeClose(s.events);
    var e := s.events + [Closed];
    assert e[|e| - 2] == s.events[|s.events| - 1] && e[..|e| - 2] == s.events[..|s.events| - 1];
  }

  lemma UnflushedNext(events: seq<Event>)
    requires Unflushed(events)
    ensures Unflushed(events + [NextCalled])
  {
  }

  // --------------------------------------------------------------- answers

  /** Answers that let the run go on: no error, and no shutdown but perhaps as the
      answer to the call of the registration. */
  predicate Going(answers: seq<NextEvent>) {
    forall k :: 0 <= k < |answers| ==> answers[k] != NextError && (k >= 1 ==> answers[k] != Shutdown)
  }

  /** All answers but the last let the run go on, and the last is `event`. */
  predicate EndsWith(answers: seq<NextEvent>, event: NextEvent) {
    answers != [] && Going(answers[..|answers| - 1]) && answers[|answers| - 1] == event
  }

  predicate HeardFor(job: Job, answers: seq<NextEvent>) {
    if job.OnShutdown? then |answers| >= 2 && EndsWith(answers, Shutdown) else answers != [] && Going(answers)
  }

  /** What the answers so far have to do with where the run is. */
  predicate Heard(s: State) {
    match s.phase
    case Start => s.answers == []
    case Asking(first) => (first <==> s.answers == []) && Going(s.answers)
    case Loop => s.answers != [] && Going(s.answers)
    case Draining(job, _) => HeardFor(job, s.answers)
    case Sending(job, _) => HeardFor(job, s.answers)
    case Requeueing(job, _, _) => HeardFor(job, s.answers)
    case Returned(job) => HeardFor(job, s.answers)
    case Stopped(RegisterFailed) => s.answers == []
    case Stopped(NextFailed) => EndsWith(s.answers, NextError)
    case Stopped(ByShutdown) => |s.answers| >= 2 && EndsWith(s.answers, Shutdown)
    case Stopped(ByCancel) => s.answers != [] && Going(s.answers)
  }

  lemma HeardKept(c: Setup, s: State, a: Action)
    requires Heard(s) && Enabled(c, s, a)
    ensures Heard(Next(c, s, a))
  {
    hide Setup.MoreDrains;
    if a.NextReturned? {
      assert (s.answers + [a.event])[..|s.answers|] == s.answers;
    }
  }

  ghost predicate Inv(c: Setup, s: State) {
    Ledger(s) && Offers(c, s) && Hand(c, s) && Track(c, s) && Heard(s)
  }

  lemma InvKept(c: Setup, s: State, a: Action)
    requires Inv(c, s) && Enabled(c, s, a)
    ensures Inv(c, Next(c, s, a))
  {
    hide Next;
    LedgerKept(c, s, a);
    OffersKept(c, s, a);
    HandKept(c, s, a);
    TrackKept(c, s, a);
    HeardKept(c, s, a);
  }

  lemma {:induction false} InvAfter(c: Setup, s: State, acts: seq<Action>)
    requires Inv(c, s) && After(c, s, acts).Some?
    ensures Inv(c, After(c, s, acts).value)
  {
    if acts != [] {
      InvAfter(c, s, acts[..|acts| - 1]);
      InvKept(c, After(c, s, acts[..|acts| - 1]).value, acts[|acts| - 1]);
    }
  }

  lemma InvReachable(c: Setup, s: State)
    requires Reachable(c, s)
    ensures Inv(c, s)
  {
    var acts :| After(c, Init(c), acts) == Some(s);
    InvAfter(c, Init(c), acts);
  }
}
