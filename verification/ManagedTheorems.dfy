/** What the managed-instance protocol guarantees in every reachable state and
    over whole runs. */
module ManagedTheorems {
  import opened Telemetry
  import opened ManagedProtocol
  import opened Utils

  // ------------------------------------------------------------ accounting

  /** The ledger: every offered POST is, once, queued, in the consumer's hands,
      acknowledged, dropped by its handler or dropped while being put back; both
      channels respect their capacities and each drop met a full queue. */
  lemma ReachableLedger(c: Setup, s: State)
    requires Reachable(c, s)
    ensures |s.queue| <= c.capacity && |s.signals| <= 10 && |s.handlers| == |c.posts|
    ensures multiset(s.offered) ==
              multiset(s.queue) + multiset(InHand(s.phase)) + multiset(s.acked) +
              multiset(Messages(s.refused)) + multiset(Messages(s.lost))
    ensures forall i :: 0 <= i < |c.posts| ==>
              multiset(s.offered)[Message(i, c.posts[i])] == if s.handlers[i].Arrived? then 0 else 1
    ensures forall d :: d in s.refused + s.lost ==> d.depth == c.capacity
  {
    InvReachable(c, s);
  }

  /** Loss on requeue is exact and hits the newest: when a batch has been offered
      back, what was kept is a prefix of it, in queue order, as long as the space
      left by the arrivals since the queue was seen empty; the rest is lost. */
  lemma RequeueLoss(c: Setup, s: State)
    requires Reachable(c, s) && Enabled(c, s, FinishPutBack)
    ensures var b, kept := s.phase.batch, s.phase.kept;
            && kept == Min(|b|, c.capacity - s.sinceEmpty)
            && Restrict(s.queue, b) == b[..kept]
            && |b| - kept <= |s.lost| && Messages(s.lost)[|s.lost| - (|b| - kept)..] == b[kept..]
            && (kept < |b| ==> |b| - kept == |b| + s.sinceEmpty - c.capacity)
  {
    hide Reachable, Inv, Restrict, Messages;
    HandAndBounds(c, s);
    HandAtTheEnd(c, s);
  }

  lemma HandAndBounds(c: Setup, s: State)
    requires Reachable(c, s)
    ensures Bounds(c, s) && Hand(c, s)
  {
    InvReachable(c, s);
  }

  lemma HandAtTheEnd(c: Setup, s: State)
    requires Bounds(c, s) && Hand(c, s) && s.phase.Requeueing? && s.phase.next == |s.phase.batch|
    ensures var b, kept := s.phase.batch, s.phase.kept;
            && kept == Min(|b|, c.capacity - s.sinceEmpty)
            && Restrict(s.queue, b) == b[..kept]
            && |b| - kept <= |s.lost| && Messages(s.lost)[|s.lost| - (|b| - kept)..] == b[kept..]
            && (kept < |b| ==> |b| - kept == |b| + s.sinceEmpty - c.capacity)
  {
  }

  // -------------------------------------------------------------- wake-ups

  predicate Finished(h: Handler) { h == Reporting(0) }

  /** A queue length that calls for a drain: four fifths of the capacity, rounded down,
      and not empty. */
  predicate Long(c: Setup, length: nat) {
    length >= 1 && 5 * length + 4 >= 4 * c.capacity
  }

  lemma AlarmInNumbers(c: Setup, length: nat)
    ensures length >= c.Alarm() <==> Long(c, length)
    ensures length >= c.Threshold() <==> 5 * length + 4 >= 4 * c.capacity
  {
  }

  /** The handler of such a payload reads a report event in it. */
  predicate HoldsReport(c: Setup, body: string) {
    c.eventTypes(body).Some? && "platform.report" in c.eventTypes(body).value
  }

  lemma ReportsInNumbers(c: Setup, body: string)
    ensures c.ReportsIn(body) > 0 <==> HoldsReport(c, body)
  {
  }

  predicate HasReport(c: Setup, queue: seq<Message>) {
    exists k :: 0 <= k < |queue| && HoldsReport(c, queue[k].body)
  }

  /** No lost wake-up: unless a drain is under way or the last one put its batch
      back, a queue at the alarm length has a signal pending or a handler between
      its push and its signal, and a queued report whose handler is done has a
      signal pending.  Signals dropped on a full channel never break this. */
  lemma NoLostWakeUp(c: Setup, s: State)
    requires Reachable(c, s) && !s.phase.Draining? && !s.requeued
    ensures Long(c, |s.queue|) ==> s.signals != [] || SomeoneChecking(s)
    ensures forall m :: m in s.queue ==>
              m.id < |s.handlers| && m.id < |c.posts| && m.body == c.posts[m.id] &&
              (HoldsReport(c, m.body) && Finished(s.handlers[m.id]) ==> s.signals != [])
  {
    AlarmInNumbers(c, |s.queue|);
    InvReachable(c, s);
    forall m | m in s.queue
      ensures m.id < |s.handlers| && m.id < |c.posts| && m.body == c.posts[m.id]
      ensures HoldsReport(c, m.body) && Finished(s.handlers[m.id]) ==> s.signals != []
    {
      QueuedIsOffered(s, m);
      ReportsInNumbers(c, m.body);
      assert c.ReportsIn(m.body) > 0 && Finished(s.handlers[m.id]) ==> Announced(c, s, m);
    }
  }

  lemma QueuedIsOffered(s: State, m: Message)
    requires Ledger(s) && m in s.queue
    ensures m in s.offered
  {
    assert multiset(s.queue)[m] > 0;
    assert multiset(s.offered)[m] > 0;
  }

  /** Nothing is going on: no handler is under way and no signal is pending. */
  predicate Quiet(s: State) {
    s.signals == [] && forall i :: 0 <= i < |s.handlers| ==> Finished(s.handlers[i])
  }

  /** No signal is pending, and every handler is done or has not reached the queue. */
  predicate AtRest(s: State) {
    s.signals == [] && forall i :: 0 <= i < |s.handlers| ==> Finished(s.handlers[i]) || s.handlers[i].Arrived?
  }

  /** A lost wake-up: all is at rest, the consumer is idle, and the queue should
      have been drained. */
  predicate Stranded(c: Setup, s: State) {
    s.phase.Idle? && AtRest(s) && (Long(c, |s.queue|) || HasReport(c, s.queue))
  }

  function PutBacks(n: nat): seq<Action> { seq(n, i => PutBack) }

  /** What the consumer does once SendAllLogs has returned. */
  function AfterSend(batch: seq<Message>, ok: bool): seq<Action> {
    [SendDone(ok)] + if ok then [] else PutBacks(|batch|) + [FinishPutBack]
  }

  /** The state after n messages have been offered back. */
  function PutBackState(c: Setup, s: State, n: nat): State
    requires s.phase.Requeueing? && n <= |s.phase.batch| && |s.queue| <= c.capacity
  {
    var b, kept := s.phase.batch, Min(n, c.capacity - |s.queue|);
    s.(queue := s.queue + b[..kept], phase := Requeueing(b, n, kept),
       lost := s.lost + seq(n - kept, i requires 0 <= i < n - kept => Drop(b[kept + i], c.capacity)))
  }

  lemma PutBackStep(c: Setup, s: State, n: nat)
    requires s.phase.Requeueing? && n < |s.phase.batch| && |s.queue| <= c.capacity
    ensures Enabled(c, PutBackState(c, s, n), PutBack)
    ensures Next(c, PutBackState(c, s, n), PutBack) == PutBackState(c, s, n + 1)
  {
    var b, room := s.phase.batch, c.capacity - |s.queue|;
    var got, end := Next(c, PutBackState(c, s, n), PutBack), PutBackState(c, s, n + 1);
    if n < room {
      assert s.queue + b[..n] + [b[n]] == s.queue + b[..n + 1];
      assert got.lost == end.lost;
    } else {
      assert got.lost == end.lost;
    }
  }

  lemma {:induction false} PutBackRun(c: Setup, s: State, n: nat)
    requires s.phase.Requeueing? && s.phase.next == 0 && s.phase.kept == 0 && n <= |s.phase.batch|
    requires |s.queue| <= c.capacity
    ensures After(c, s, PutBacks(n)) == Some(PutBackState(c, s, n))
  {
    if n == 0 {
      assert s.queue + s.phase.batch[..0] == s.queue;
      assert PutBackState(c, s, 0).lost == s.lost;
    } else {
      hide After, Next, Enabled, PutBackState;
      PutBackRun(c, s, n - 1);
      PutBackStep(c, s, n - 1);
      assert PutBacks(n) == PutBacks(n - 1) + [PutBack];
      AfterSnoc(c, s, PutBacks(n - 1), PutBack);
    }
  }

  lemma AfterSendRun(c: Setup, s: State, ok: bool)
    requires s.phase.Sending? && |s.queue| <= c.capacity
    ensures var b := s.phase.batch;
            var end := After(c, s, AfterSend(b, ok));
            && end.Some? && end.value.phase.Idle?
            && end.value.queue == (if ok then s.queue else s.queue + b[..Min(|b|, c.capacity - |s.queue|)])
            && end.value.signals == s.signals && end.value.handlers == s.handlers
  {
    var b := s.phase.batch;
    AfterSnoc(c, s, [], SendDone(ok));
    assert [] + [SendDone(ok)] == [SendDone(ok)];
    if ok {
      assert AfterSend(b, ok) == [SendDone(ok)];
    } else {
      var sent := Next(c, s, SendDone(ok));
      PutBackRun(c, sent, |b|);
      AfterSnoc(c, sent, PutBacks(|b|), FinishPutBack);
      AfterConcat(c, s, [SendDone(ok)], PutBacks(|b|) + [FinishPutBack]);
    }
  }

  lemma RestNotStranded(c: Setup, s: State)
    requires Reachable(c, s) && !s.phase.Draining? && !s.requeued && AtRest(s)
    ensures !Long(c, |s.queue|) && !HasReport(c, s.queue)
  {
    hide Reachable;
    NoLostWakeUp(c, s);
    assert !SomeoneChecking(s);
    forall k | 0 <= k < |s.queue| ensures !HoldsReport(c, s.queue[k].body) {
      assert s.queue[k] in s.queue;
      QueuedHasLeft(c, s, s.queue[k]);
    }
  }

  lemma QueuedHasLeft(c: Setup, s: State, m: Message)
    requires Reachable(c, s) && m in s.queue && m.id < |s.handlers| && m.id < |c.posts| && m.body == c.posts[m.id]
    ensures !s.handlers[m.id].Arrived?
  {
    InvReachable(c, s);
    QueuedIsOffered(s, m);
    assert m == Message(m.id, c.posts[m.id]) && multiset(s.offered)[m] > 0;
  }

  /** Where the wake-up guarantee ends, over all reachable states: an idle consumer
      leaves a queue that no one will drain if and only if all is at rest, the last
      drain put its batch back, and what is queued reaches the alarm length or holds
      a report. */
  lemma StrandedExactlyWhen(c: Setup, s: State)
    requires Reachable(c, s) && s.phase.Idle?
    ensures Stranded(c, s) <==> AtRest(s) && s.requeued && (Long(c, |s.queue|) || HasReport(c, s.queue))
  {
    if Stranded(c, s) && !s.requeued {
      RestNotStranded(c, s);
    }
  }

  /** The same at the end of a requeue, whatever handlers did while it ran: what
      counts is the batch together with the messages accepted since the queue was
      seen empty, and the reports among what is queued. */
  lemma StrandedByRequeueExactlyWhen(c: Setup, s: State)
    requires Reachable(c, s) && Enabled(c, s, FinishPutBack) && AtRest(s)
    ensures Stranded(c, Next(c, s, FinishPutBack)) <==>
              Long(c, s.sinceEmpty + |s.phase.batch|) || HasReport(c, s.queue)
  {
    hide Reachable, Restrict, Messages, HasReport;
    HandAndBounds(c, s);
    HandAtTheEnd(c, s);
  }

  /** The boundary seen from the send, when nothing else is going on while it runs:
      the finished drain leaves a stranded queue if and only if the send failed and
      the messages that remain reach the alarm length or what fits back holds a
      report. */
  lemma StrandedExactlyWhenSendFails(c: Setup, s: State, ok: bool)
    requires Reachable(c, s) && s.phase.Sending? && AtRest(s)
    ensures var b := s.phase.batch;
            var end := After(c, s, AfterSend(b, ok));
            && end.Some? && end.value.phase.Idle?
            && (Stranded(c, end.value) <==>
                  !ok && (Long(c, |s.queue| + |b|) ||
                          HasReport(c, b[..Min(|b|, c.capacity - |s.queue|)])))
  {
    hide After, AfterSend, Reachable, HasReport;
    HandAndBounds(c, s);
    RestNotStranded(c, s);
    AfterSendRun(c, s, ok);
    ReportsOfConcat(c, s.queue, s.phase.batch[..Min(|s.phase.batch|, c.capacity - |s.queue|)]);
  }

  // ------------------------------------------------- what ends a lost wake-up

  function Steps(i: nat, n: nat): seq<Action> { seq(n, k => Handle(i)) }

  /** Queue length after one more push. */
  function LengthAfterPush(c: Setup, s: State): nat {
    if |s.queue| < c.capacity then |s.queue| + 1 else |s.queue|
  }

  /** All steps of a handler that has just arrived, if nobody interferes. */
  function HandlerRun(c: Setup, s: State, i: nat): seq<Action>
    requires i < |c.posts|
  {
    Steps(i, if 5 * LengthAfterPush(c, s) + 4 >= 4 * c.capacity then 3 else 2) +
    Steps(i, ReportEvents(c, c.posts[i]))
  }

  /** What a channel of ten slots keeps of these signals. */
  function FirstTen(signals: seq<Signal>): seq<Signal> {
    if |signals| <= 10 then signals else signals[..10]
  }

  lemma OneMoreSignal(signals: seq<Signal>, signal: Signal)
    ensures Signalled(FirstTen(signals), signal) == FirstTen(signals + [signal])
  {
  }

  /** The parts of a state that a handler's steps may change. */
  predicate ChangedTo(s: State, s': State, i: nat, h: Handler, queue: seq<Message>, signals: seq<Signal>) {
    && s'.queue == queue && s'.signals == signals && s'.phase == s.phase
    && |s'.handlers| == |s.handlers| && i < |s.handlers| && s'.handlers[i] == h
  }

  lemma ReportStep(c: Setup, s: State, i: nat)
    requires i < |s.handlers| && i < |c.posts| && s.handlers[i].Reporting? && s.handlers[i].left > 0
    ensures ChangedTo(s, Next(c, s, Handle(i)), i, Reporting(s.handlers[i].left - 1), s.queue,
                      Signalled(s.signals, PlatformReport))
  {
  }

  function ReportSignals(n: nat): seq<Signal> { seq(n, k => PlatformReport) }

  lemma {:induction false} ReportRun(c: Setup, s: State, i: nat, n: nat, sent: seq<Signal>)
    requires i < |s.handlers| && i < |c.posts| && s.handlers[i].Reporting? && n <= s.handlers[i].left
    requires s.signals == FirstTen(sent)
    ensures var end := After(c, s, Steps(i, n));
            && end.Some?
            && ChangedTo(s, end.value, i, Reporting(s.handlers[i].left - n), s.queue, FirstTen(sent + ReportSignals(n)))
  {
    if n == 0 {
      assert sent + ReportSignals(0) == sent;
    } else {
      hide After, Next, FirstTen, Signalled;
      ReportRun(c, s, i, n - 1, sent);
      ReportStep(c, After(c, s, Steps(i, n - 1)).value, i);
      OneMoreSignal(sent + ReportSignals(n - 1), PlatformReport);
      assert sent + ReportSignals(n - 1) + [PlatformReport] == sent + ReportSignals(n);
      NextStep(c, s, i, n - 1);
    }
  }

  /** The queue after one more push. */
  function Pushed(c: Setup, s: State, i: nat): seq<Message>
    requires i < |c.posts|
  {
    if |s.queue| < c.capacity then s.queue + [Message(i, c.posts[i])] else s.queue
  }

  /** The push: the handler goes on to its check. */
  lemma PushStep(c: Setup, s: State, i: nat)
    requires i < |s.handlers| && i < |c.posts| && s.handlers[i].Arrived?
    ensures ChangedTo(s, Next(c, s, Handle(i)), i, Offered, Pushed(c, s, i), s.signals)
  {
  }

  /** The check. */
  lemma CheckStep(c: Setup, s: State, i: nat)
    requires i < |s.handlers| && i < |c.posts| && s.handlers[i].Offered?
    ensures ChangedTo(s, Next(c, s, Handle(i)), i,
                      if |s.queue| < c.Threshold() then Reporting(c.Reports(i)) else Alarmed, s.queue, s.signals)
  {
    hide Setup.Reports;
  }

  /** The signal of a check that raised the alarm. */
  lemma AlarmStep(c: Setup, s: State, i: nat)
    requires i < |s.handlers| && i < |c.posts| && s.handlers[i].Alarmed?
    ensures ChangedTo(s, Next(c, s, Handle(i)), i, Reporting(c.Reports(i)), s.queue,
                      Signalled(s.signals, QueueThreshold))
  {
    hide Setup.Reports;
  }

  function AlarmSignals(alarm: bool): seq<Signal> { if alarm then [QueueThreshold] else [] }

  lemma PushRun(c: Setup, s: State, i: nat)
    requires |s.handlers| == |c.posts| && i < |c.posts| && s.handlers[i].Arrived? && s.signals == FirstTen(s.signals)
    ensures var alarm := |Pushed(c, s, i)| >= c.Threshold();
            var end := After(c, s, Steps(i, if alarm then 3 else 2));
            && end.Some?
            && ChangedTo(s, end.value, i, Reporting(c.Reports(i)), Pushed(c, s, i),
                         FirstTen(s.signals + AlarmSignals(alarm)))
  {
    assert After(c, s, Steps(i, 0)) == Some(s);
    assert s.signals + [] == s.signals;
    hide After, Next, Pushed, Setup.Threshold, Setup.Reports, FirstTen, Signalled;
    PushStep(c, s, i);
    NextStep(c, s, i, 0);
    CheckStep(c, After(c, s, Steps(i, 1)).value, i);
    NextStep(c, s, i, 1);
    if |Pushed(c, s, i)| >= c.Threshold() {
      AlarmStep(c, After(c, s, Steps(i, 2)).value, i);
      NextStep(c, s, i, 2);
      OneMoreSignal(s.signals, QueueThreshold);
    }
  }

  lemma NextStep(c: Setup, s: State, i: nat, n: nat)
    requires After(c, s, Steps(i, n)).Some?
    ensures var m := After(c, s, Steps(i, n)).value;
            Enabled(c, m, Handle(i)) ==> After(c, s, Steps(i, n + 1)) == Some(Next(c, m, Handle(i)))
  {
    AfterSnoc(c, s, Steps(i, n), Handle(i));
    hide After, Next, Enabled;
    assert Steps(i, n + 1) == Steps(i, n) + [Handle(i)];
  }

  /** Report events that the handler of a body reads. */
  function ReportEvents(c: Setup, body: string): nat {
    match c.eventTypes(body) case None => 0 case Some(types) => multiset(types)["platform.report"]
  }

  /** What a whole handler run does, with no one in between: the message is appended if
      there is room, and the signals offered are one for a queue at the threshold and
      one for each report event, of which the channel keeps what its ten slots hold. */
  lemma HandlerRunExactly(c: Setup, s: State, i: nat)
    requires |s.handlers| == |c.posts| && i < |c.posts| && s.handlers[i].Arrived? && |s.signals| <= 10
    ensures var queue := if |s.queue| < c.capacity then s.queue + [Message(i, c.posts[i])] else s.queue;
            var alarm := if 5 * |queue| + 4 >= 4 * c.capacity then [QueueThreshold] else [];
            var end := After(c, s, HandlerRun(c, s, i));
            && end.Some?
            && ChangedTo(s, end.value, i, Reporting(0), queue,
                         FirstTen(s.signals + alarm + ReportSignals(ReportEvents(c, c.posts[i]))))
  {
    hide After, Steps;
    AlarmInNumbers(c, LengthAfterPush(c, s));
    assert |Pushed(c, s, i)| == LengthAfterPush(c, s) && c.Reports(i) == ReportEvents(c, c.posts[i]);
    var alarm := LengthAfterPush(c, s) >= c.Threshold();
    var push := Steps(i, if alarm then 3 else 2);
    PushRun(c, s, i);
    ReportRun(c, After(c, s, push).value, i, c.Reports(i), s.signals + AlarmSignals(alarm));
    AfterConcat(c, s, push, Steps(i, c.Reports(i)));
  }

  /** What the next POST does for a lost wake-up: it leaves a signal pending if and
      only if the queue is at the threshold after its push or it reports itself. */
  lemma NextPostWakesExactlyWhen(c: Setup, s: State, i: nat)
    requires |s.handlers| == |c.posts| && i < |c.posts| && s.handlers[i].Arrived? && s.signals == []
    ensures var end := After(c, s, HandlerRun(c, s, i));
            && end.Some? && end.value.phase == s.phase && Finished(end.value.handlers[i])
            && (end.value.signals != [] <==>
                  5 * LengthAfterPush(c, s) + 4 >= 4 * c.capacity || HoldsReport(c, c.posts[i]))
  {
    hide After, HandlerRun;
    HandlerRunExactly(c, s, i);
  }

  /** In particular it ends every lost wake-up of a queue at the alarm length. */
  lemma NextPostWakesLongQueue(c: Setup, s: State, i: nat)
    requires Reachable(c, s) && Stranded(c, s) && Long(c, |s.queue|)
    requires i < |s.handlers| && s.handlers[i].Arrived?
    ensures i < |c.posts|
    ensures var end := After(c, s, HandlerRun(c, s, i));
            end.Some? && end.value.phase.Idle? && end.value.signals != []
  {
    hide After, HandlerRun, Reachable;
    HandAndBounds(c, s);
    NextPostWakesExactlyWhen(c, s, i);
  }

  lemma ReportsOfConcat(c: Setup, a: seq<Message>, b: seq<Message>)
    ensures HasReport(c, a + b) <==> HasReport(c, a) || HasReport(c, b)
  {
    if HasReport(c, a) {
      var k :| 0 <= k < |a| && HoldsReport(c, a[k].body);
      assert (a + b)[k] == a[k];
    }
    if HasReport(c, b) {
      var k :| 0 <= k < |b| && HoldsReport(c, b[k].body);
      assert (a + b)[|a| + k] == b[k];
    }
  }

  // ------------------------------------------------------------ quiescence

  /** Steps a handler has left. */
  function StepsLeft(c: Setup, i: nat, h: Handler): nat
    requires i < |c.posts|
  {
    match h
    case Arrived => 3 + c.Reports(i)
    case Offered => 2 + c.Reports(i)
    case Alarmed => 1 + c.Reports(i)
    case Reporting(left) => left
  }

  function Work(c: Setup, hs: seq<Handler>): nat
    requires |hs| <= |c.posts|
  {
    if hs == [] then 0 else Work(c, hs[..|hs| - 1]) + StepsLeft(c, |hs| - 1, hs[|hs| - 1])
  }

  lemma {:induction false} WorkUpdate(c: Setup, hs: seq<Handler>, i: nat, h: Handler)
    requires |hs| <= |c.posts| && i < |hs|
    ensures Work(c, hs[i := h]) == Work(c, hs) - StepsLeft(c, i, hs[i]) + StepsLeft(c, i, h)
  {
    var n := |hs| - 1;
    if i == n {
      assert hs[i := h][..n] == hs[..n];
    } else {
      WorkUpdate(c, hs[..n], i, h);
      assert hs[i := h][..n] == hs[..n][i := h];
    }
  }

  /** Steps the consumer has left before it is idle, if nobody interferes. */
  function DrainWork(s: State): nat {
    match s.phase
    case Idle => 0
    case Draining(b) => 2 * |s.queue| + |b| + 3
    case Sending(b) => |b| + 2
    case Requeueing(b, n, _) => if n <= |b| then |b| - n + 1 else 0
  }

  function DrainCost(c: Setup): nat { 2 * c.capacity + 5 }

  /** Bound on the steps still possible: a handler step can cost a signal and a
      message, and a signal can cost a drain of a full queue. */
  function StepsBound(c: Setup, s: State): nat
    requires |s.handlers| <= |c.posts|
  {
    Work(c, s.handlers) * (DrainCost(c) + 3) + (|s.signals| + s.drainsOwed) * DrainCost(c) + DrainWork(s)
  }

  lemma Scaled(w: nat, w': nat, k: nat, n: nat, n': nat, d: nat)
    requires w' < w && n' <= n + 1
    ensures w' * (k + 3) + n' * k + d + 3 <= w * (k + 3) + n * k + d
  {
    assert w' * (k + 3) <= (w - 1) * (k + 3);
    assert n' * k <= (n + 1) * k;
  }

  lemma HandlerStepCounts(c: Setup, s: State, i: nat)
    requires Bounds(c, s) && Enabled(c, s, Handle(i))
    ensures |Next(c, s, Handle(i)).handlers| <= |c.posts|
    ensures StepsBound(c, Next(c, s, Handle(i))) < StepsBound(c, s)
  {
    hide Work;
    var s' := Next(c, s, Handle(i));
    WorkUpdate(c, s.handlers, i, s'.handlers[i]);
    assert s'.handlers == s.handlers[i := s'.handlers[i]];
    assert StepsLeft(c, i, s'.handlers[i]) < StepsLeft(c, i, s.handlers[i]);
    assert DrainWork(s') <= DrainWork(s) + 2;
    assert |s'.signals| <= |s.signals| + 1;
    Scaled(Work(c, s.handlers), Work(c, s'.handlers), DrainCost(c),
           |s.signals| + s.drainsOwed, |s'.signals| + s'.drainsOwed, DrainWork(s));
  }

  lemma EveryStepCounts(c: Setup, s: State, a: Action)
    requires Bounds(c, s) && Enabled(c, s, a)
    ensures |Next(c, s, a).handlers| <= |c.posts|
    ensures StepsBound(c, Next(c, s, a)) < StepsBound(c, s)
  {
    hide Work;
    match a
    case Handle(i) => HandlerStepCounts(c, s, i);
    case TakeSignal => OneDrainLess(c, |s.signals| + s.drainsOwed);
    case StartFlushDrain => OneDrainLess(c, |s.signals| + s.drainsOwed);
    case _ =>
  }

  lemma OneDrainLess(c: Setup, n: nat)
    requires n > 0
    ensures n * DrainCost(c) == (n - 1) * DrainCost(c) + DrainCost(c)
  {
  }

  /** Termination with a number: a run never has more steps than the bound of the
      state it starts in. */
  lemma {:induction false} RunsAreBounded(c: Setup, s: State, acts: seq<Action>)
    requires Inv(c, s) && After(c, s, acts).Some?
    ensures Inv(c, After(c, s, acts).value)
    ensures |acts| + StepsBound(c, After(c, s, acts).value) <= StepsBound(c, s)
  {
    if acts != [] {
      var init, a := acts[..|acts| - 1], acts[|acts| - 1];
      RunsAreBounded(c, s, init);
      EveryStepCounts(c, After(c, s, init).value, a);
      InvKept(c, After(c, s, init).value, a);
    }
  }

  /** At the start the bound is linear in the POSTs and their report events. */
  lemma {:induction false} InitialWork(c: Setup, n: nat)
    requires n <= |c.posts|
    ensures Work(c, seq(n, i => Arrived)) == 3 * n + TotalReports(c, n)
  {
    if n > 0 {
      InitialWork(c, n - 1);
      assert seq(n, i => Arrived)[..n - 1] == seq(n - 1, i => Arrived);
    }
  }

  function TotalReports(c: Setup, n: nat): nat
    requires n <= |c.posts|
  {
    if n == 0 then 0 else TotalReports(c, n - 1) + c.Reports(n - 1)
  }

  lemma InitInv(c: Setup, owed: nat)
    ensures Inv(c, Init(c, owed))
  {
    InvReachable(c, Init(c, owed)) by { assert After(c, Init(c, owed), []) == Some(Init(c, owed)); }
  }

  lemma WholeRunsAreBounded(c: Setup, owed: nat, acts: seq<Action>)
    requires After(c, Init(c, owed), acts).Some?
    ensures |acts| <= (3 * |c.posts| + TotalReports(c, |c.posts|)) * (2 * c.capacity + 8) + owed * (2 * c.capacity + 5)
  {
    hide After, Inv, Work, TotalReports;
    InitInv(c, owed);
    RunsAreBounded(c, Init(c, owed), acts);
    InitialWork(c, |c.posts|);
  }

  predicate Quiescent(s: State) {
    s.phase.Idle? && s.drainsOwed == 0 && Quiet(s)
  }

  /** A run can stop exactly in a quiescent state: elsewhere some step is enabled. */
  lemma StuckExactlyWhenQuiescent(c: Setup, s: State)
    requires Inv(c, s)
    ensures Quiescent(s) <==> forall a :: !Enabled(c, s, a)
  {
    if Quiescent(s) {
    } else if s.phase.Idle? && s.signals == [] && s.drainsOwed == 0 {
      var i :| 0 <= i < |s.handlers| && !Finished(s.handlers[i]);
      assert Enabled(c, s, Handle(i));
    } else {
      var a := match s.phase
        case Idle => if s.signals != [] then TakeSignal else StartFlushDrain
        case Draining(_) => if s.queue != [] then Receive else SeeEmpty
        case Sending(_) => SendDone(true)
        case Requeueing(b, n, _) => if n < |b| then PutBack else FinishPutBack;
      assert Enabled(c, s, a);
    }
  }

  /** Every run can be continued to a quiescent state, whatever the sends do. */
  lemma {:induction false} ReachesQuiescence(c: Setup, s: State) returns (acts: seq<Action>)
    requires Inv(c, s)
    ensures After(c, s, acts).Some? && Quiescent(After(c, s, acts).value)
    decreases StepsBound(c, s)
  {
    StuckExactlyWhenQuiescent(c, s);
    if Quiescent(s) {
      acts := [];
    } else {
      var a :| Enabled(c, s, a);
      InvKept(c, s, a);
      EveryStepCounts(c, s, a);
      var rest := ReachesQuiescence(c, Next(c, s, a));
      AfterSnoc(c, s, [], a);
      assert [] + [a] == [a];
      AfterConcat(c, s, [a], rest);
      acts := [a] + rest;
    }
  }

  predicate AllSendsOk(acts: seq<Action>) {
    forall k :: 0 <= k < |acts| ==> acts[k] != SendDone(false)
  }

  lemma {:induction false} NoFailureNoRequeue(c: Setup, owed: nat, acts: seq<Action>)
    requires After(c, Init(c, owed), acts).Some? && AllSendsOk(acts)
    ensures !After(c, Init(c, owed), acts).value.requeued
    ensures !After(c, Init(c, owed), acts).value.phase.Requeueing?
  {
    if acts != [] {
      NoFailureNoRequeue(c, owed, acts[..|acts| - 1]);
    }
  }

  /** If every send of a run succeeded, it ends with a queue below the alarm length
      and without a report payload. */
  lemma SuccessfulRunsEndDrained(c: Setup, owed: nat, acts: seq<Action>)
    requires After(c, Init(c, owed), acts).Some? && AllSendsOk(acts)
    requires Quiescent(After(c, Init(c, owed), acts).value)
    ensures var s := After(c, Init(c, owed), acts).value;
            !Long(c, |s.queue|) && !HasReport(c, s.queue)
  {
    var s := After(c, Init(c, owed), acts).value;
    assert Reachable(c, s);
    NoFailureNoRequeue(c, owed, acts);
    RestNotStranded(c, s);
  }

  // --------------------------------------------------- the guarantee can fail

  function Script(): seq<Action> {
    [Handle(0), Handle(0), Handle(0), TakeSignal, Receive, SeeEmpty, SendDone(false), PutBack, FinishPutBack]
  }

  lemma ScriptStep(c: Setup, n: nat)
    requires c.capacity == 1 && |c.posts| == 1 && c.eventTypes(c.posts[0]).None? && n < |Script()|
    ensures Enabled(c, Scripted(c, n), Script()[n]) && Next(c, Scripted(c, n), Script()[n]) == Scripted(c, n + 1)
  {
    assert Init(c, 0).handlers == [Arrived];
    assert c.Reports(0) == 0 && c.Threshold() == 0;
    var m := Message(0, c.posts[0]);
    var got, end := Next(c, Scripted(c, n), Script()[n]), Scripted(c, n + 1);
    assert got.queue == end.queue && got.signals == end.signals && got.handlers == end.handlers;
    assert got.offered == end.offered && got.phase == end.phase;
  }

  lemma {:induction false} ScriptRun(c: Setup, n: nat)
    requires c.capacity == 1 && |c.posts| == 1 && c.eventTypes(c.posts[0]).None? && n <= |Script()|
    ensures After(c, Init(c, 0), Script()[..n]) == Some(Scripted(c, n))
  {
    if n > 0 {
      hide After, Scripted;
      ScriptRun(c, n - 1);
      ScriptStep(c, n - 1);
      AfterSnoc(c, Init(c, 0), Script()[..n - 1], Script()[n - 1]);
      assert Script()[..n] == Script()[..n - 1] + [Script()[n - 1]];
    }
  }

  /** A run on a queue of one slot that loses a wake-up: one POST, one drain, one
      failed send. */
  lemma StrandedIsReachable(c: Setup)
    requires c.capacity == 1 && |c.posts| == 1 && c.eventTypes(c.posts[0]).None?
    ensures exists s :: Reachable(c, s) && Stranded(c, s)
  {
    ScriptRun(c, |Script()|);
    assert Script()[..|Script()|] == Script();
    assert Reachable(c, Scripted(c, 9));
    assert Stranded(c, Scripted(c, 9));
  }

  function Scripted(c: Setup, n: nat): State
    requires |c.posts| == 1
  {
    var s := Init(c, 0);
    var m := Message(0, c.posts[0]);
    match n
    case 0 => s
    case 1 => s.(queue := [m], handlers := [Offered], sinceEmpty := 1, offered := [m])
    case 2 => s.(queue := [m], handlers := [Alarmed], sinceEmpty := 1, offered := [m])
    case 3 => s.(queue := [m], handlers := [Reporting(0)], sinceEmpty := 1, offered := [m], signals := [QueueThreshold])
    case 4 => s.(queue := [m], handlers := [Reporting(0)], sinceEmpty := 1, offered := [m], phase := Draining([]))
    case 5 => s.(handlers := [Reporting(0)], sinceEmpty := 1, offered := [m], phase := Draining([m]))
    case 6 => s.(handlers := [Reporting(0)], offered := [m], phase := Sending([m]))
    case 7 => s.(handlers := [Reporting(0)], offered := [m], phase := Requeueing([m], 0, 0), requeued := true)
    case 8 =>
      s.(queue := [m], handlers := [Reporting(0)], offered := [m], phase := Requeueing([m], 1, 1), requeued := true)
    case _ => s.(queue := [m], handlers := [Reporting(0)], offered := [m], requeued := true)
  }
}
