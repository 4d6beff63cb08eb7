/** What standard mode guarantees in every reachable state and over whole runs. */
module StandardTheorems {
  import opened Telemetry
  import opened StandardProtocol

  // ---------------------------------------------------------- conservation

  /** Nothing is ever lost: every accepted POST is, once, queued, in the hands of
      the event loop or acknowledged. */
  lemma Conservation(c: Setup, s: State)
    requires Reachable(c, s)
    ensures |s.queue| <= c.capacity && |s.accepted| == |c.posts|
    ensures multiset(s.offered) == multiset(s.queue) + multiset(InHand(s.phase)) + multiset(s.acked)
    ensures forall i :: 0 <= i < |c.posts| ==>
              multiset(s.offered)[Message(i, c.posts[i])] == if s.accepted[i] then 1 else 0
  {
    InvReachable(c, s);
  }

  lemma HandReachable(c: Setup, s: State)
    requires Reachable(c, s)
    ensures Hand(c, s)
  {
    InvReachable(c, s);
  }

  /** A failed drain leaves its whole batch in the queue, in its old order, among
      exactly the messages accepted since the queue was seen empty. */
  lemma FailedDrainRestores(c: Setup, s: State)
    requires Reachable(c, s) && Enabled(c, s, FinishPutBack)
    ensures Restrict(s.queue, s.phase.batch) == s.phase.batch
    ensures |s.queue| == s.sinceEmpty + |s.phase.batch|
  {
    hide Reachable, Restrict;
    HandReachable(c, s);
    assert s.phase.batch[..s.phase.next] == s.phase.batch;
  }

  // ------------------------------------------------- the no-block boundary

  function PutBacks(n: nat): seq<Action> { seq(n, i => PutBack) }

  /** The state after k messages have been put back. */
  function PutBackState(s: State, k: nat): State
    requires s.phase.Requeueing? && s.phase.next + k <= |s.phase.batch|
  {
    var Requeueing(job, b, n) := s.phase;
    s.(queue := s.queue + b[n..n + k], phase := Requeueing(job, b, n + k))
  }

  lemma PutBackStep(c: Setup, s: State, k: nat)
    requires s.phase.Requeueing? && s.phase.next + k < |s.phase.batch| && |s.queue| + k < c.capacity
    ensures Enabled(c, PutBackState(s, k), PutBack)
    ensures Next(c, PutBackState(s, k), PutBack) == PutBackState(s, k + 1)
  {
    var Requeueing(job, b, n) := s.phase;
    assert (s.queue + b[n..n + k]) + [b[n + k]] == s.queue + b[n..n + k + 1];
  }

  lemma {:induction false} PutBackRun(c: Setup, s: State, k: nat)
    requires s.phase.Requeueing? && s.phase.next + k <= |s.phase.batch| && |s.queue| + k <= c.capacity
    ensures After(c, s, PutBacks(k)) == Some(PutBackState(s, k))
  {
    if k == 0 {
      assert s.queue + s.phase.batch[s.phase.next..s.phase.next] == s.queue;
    } else {
      hide Next, Enabled, After, PutBackState;
      PutBackRun(c, s, k - 1);
      PutBackStep(c, s, k - 1);
      assert PutBacks(k) == PutBacks(k - 1) + [PutBack];
      AfterSnoc(c, s, PutBacks(k - 1), PutBack);
    }
  }

  lemma CrowdedStep(c: Setup, s: State, a: Action)
    requires s.phase.Requeueing? && Hand(c, s) && s.sinceEmpty + |s.phase.batch| > c.capacity && Enabled(c, s, a)
    ensures var s' := Next(c, s, a);
            s'.phase.Requeueing? && s'.phase.batch == s.phase.batch && s'.sinceEmpty >= s.sinceEmpty
  {
    hide Setup.MoreDrains;
    hide Restrict;
  }

  /** Once batch and arrivals exceed the capacity, no continuation of the run ever
      ends the requeue: the event loop is blocked for good. */
  lemma {:induction false} CrowdedNeverFinishes(c: Setup, s: State, acts: seq<Action>)
    requires s.phase.Requeueing? && Inv(c, s) && s.sinceEmpty + |s.phase.batch| > c.capacity
    requires After(c, s, acts).Some?
    ensures var s' := After(c, s, acts).value;
            && Inv(c, s') && s'.phase.Requeueing? && s'.phase.batch == s.phase.batch && s'.sinceEmpty >= s.sinceEmpty
  {
    if acts != [] {
      hide Next, Hand, Ledger, Offers, Track;
      var init, a := acts[..|acts| - 1], acts[|acts| - 1];
      CrowdedNeverFinishes(c, s, init);
      CrowdedStep(c, After(c, s, init).value, a);
      InvKept(c, After(c, s, init).value, a);
    }
  }

  ghost predicate CanFinish(c: Setup, s: State) {
    exists acts :: After(c, s, acts).Some? && Enabled(c, After(c, s, acts).value, FinishPutBack)
  }

  lemma RoomyFinishes(c: Setup, s: State)
    requires s.phase.Requeueing? && Hand(c, s) && s.sinceEmpty + |s.phase.batch| <= c.capacity
    ensures CanFinish(c, s)
  {
    hide Restrict, After, Next;
    var k := |s.phase.batch| - s.phase.next;
    PutBackRun(c, s, k);
    assert Enabled(c, PutBackState(s, k), FinishPutBack);
  }

  /** The exact boundary of the blocking requeue: it can be completed if and only if
      the batch and the messages accepted since the queue was seen empty fit into
      the queue together. */
  lemma RequeueFinishesIffFits(c: Setup, s: State)
    requires Reachable(c, s) && s.phase.Requeueing?
    ensures CanFinish(c, s) <==> s.sinceEmpty + |s.phase.batch| <= c.capacity
  {
    InvReachable(c, s);
    if s.sinceEmpty + |s.phase.batch| <= c.capacity {
      RoomyFinishes(c, s);
    } else {
      hide Inv, Enabled, After, Reachable;
      if CanFinish(c, s) {
        var acts :| After(c, s, acts).Some? && Enabled(c, After(c, s, acts).value, FinishPutBack);
        CrowdedNeverFinishes(c, s, acts);
        CrowdedNotDone(c, After(c, s, acts).value);
      }
    }
  }

  lemma CrowdedNotDone(c: Setup, s: State)
    requires s.phase.Requeueing? && Inv(c, s) && s.sinceEmpty + |s.phase.batch| > c.capacity
    ensures !Enabled(c, s, FinishPutBack)
  {
    hide Ledger, Offers, Track, Restrict;
  }

  // ------------------------------------------------------------- deadlock

  /** The event loop has a message to put back and the queue has no room for it. */
  predicate FullRequeue(c: Setup, s: State) {
    s.phase.Requeueing? && s.phase.next < |s.phase.batch| && |s.queue| >= c.capacity
  }

  /** A run can stop exactly in two ways: the requeue meets a full queue, so that
      event loop and handlers wait for each other; or the event loop has ended and no
      handler can push any more. */
  lemma StuckExactlyWhen(c: Setup, s: State)
    requires c.Valid() && Reachable(c, s)
    ensures (forall a :: !Enabled(c, s, a)) <==>
            FullRequeue(c, s) || (s.phase.Stopped? && (s.closed || |s.queue| >= c.capacity || AllIn(s)))
  {
    hide Reachable, Next;
    Conservation(c, s);
    if s.phase.Stopped? {
      if !s.closed && |s.queue| < c.capacity && !AllIn(s) {
        var i :| 0 <= i < |s.accepted| && !s.accepted[i];
        assert Enabled(c, s, Produce(i));
      }
    } else if !FullRequeue(c, s) {
      var a := match s.phase
        case Start => Register(true)
        case Asking(_) => NextReturned(Invoke)
        case Loop => Default
        case Draining(_, _) => if s.queue != [] then Receive else SeeEmpty
        case Sending(_, _) => SendDone(true)
        case Requeueing(_, b, n) => if n < |b| then PutBack else FinishPutBack
        case _ => Return;
      assert Enabled(c, s, a);
    }
  }

  lemma {:induction false} OfferedCount(c: Setup, acts: seq<Action>)
    requires After(c, Init(c), acts).Some?
    ensures var s := After(c, Init(c), acts).value;
            |s.offered| + Waiting(s.accepted) == |c.posts|
  {
    if acts == [] {
      NoneAccepted(|c.posts|);
    } else {
      var init, a := acts[..|acts| - 1], acts[|acts| - 1];
      OfferedCount(c, init);
      OfferedCountKept(c, After(c, Init(c), init).value, a);
    }
  }

  lemma OfferedCountKept(c: Setup, s: State, a: Action)
    requires Enabled(c, s, a)
    ensures var s' := Next(c, s, a);
            |s'.offered| + Waiting(s'.accepted) == |s.offered| + Waiting(s.accepted)
  {
    hide Setup.MoreDrains;
    hide Waiting;
    if a.Produce? || a.HandOver? { WaitingUpdate(s.accepted, a.i); }
  }

  lemma {:induction false} NoneAccepted(n: nat)
    ensures Waiting(seq(n, i => false)) == n
  {
    if n > 0 {
      NoneAccepted(n - 1);
      assert seq(n, i => false)[..n - 1] == seq(n - 1, i => false);
    }
  }

  /** The states up to the first send: registration, one event, one POST that is
      drained. */
  function Opened(c: Setup, n: nat): State
    requires |c.posts| > 0
  {
    var s := Init(c).(events := if n == 0 then [] else [NextCalled], answers := if n < 2 then [] else [Invoke]);
    var m := Message(0, c.posts[0]);
    var first := seq(|c.posts|, i => i == 0);
    match n
    case 0 => s
    case 1 => s.(phase := Asking(true))
    case 2 => s.(phase := Loop)
    case 3 => s.(phase := Draining(BeforeNext, []))
    case 4 => s.(phase := Draining(BeforeNext, []), queue := [m], accepted := first, sinceEmpty := 1, offered := [m])
    case 5 => s.(phase := Draining(BeforeNext, [m]), accepted := first, sinceEmpty := 1, offered := [m])
    case _ => s.(phase := Sending(BeforeNext, [m]), accepted := first, offered := [m])
  }

  /** `a` leads from opening state n to opening state n'. */
  predicate Opens(c: Setup, n: nat, a: Action, n': nat) {
    if a == HandOver(0) then c.capacity == 0 && n == 3 && n' == 5
    else if a == Produce(0) then c.capacity > 0 && n == 3 && n' == 4
    else n' == n + 1 && match n
                        case 0 => a == Register(true)
                        case 1 => a == NextReturned(Invoke)
                        case 2 => a == Default
                        case 4 => a == Receive
                        case 5 => a == SeeEmpty
                        case _ => false
  }

  lemma OpeningStep(c: Setup, n: nat, a: Action, n': nat, acts: seq<Action>)
    requires |c.posts| > 0 && Opens(c, n, a, n') && After(c, Init(c), acts) == Some(Opened(c, n))
    ensures After(c, Init(c), acts + [a]) == Some(Opened(c, n'))
  {
    AfterSnoc(c, Init(c), acts, a);
    hide After;
    assert Init(c).accepted[0 := true] == seq(|c.posts|, i => i == 0);
    var s, s' := Next(c, Opened(c, n), a), Opened(c, n');
    assert s.queue == s'.queue && s.offered == s'.offered && s.acked == s'.acked && s.events == s'.events;
    assert s.phase == s'.phase && s.accepted == s'.accepted && s.answers == s'.answers;
  }

  /** Up to the first drain. */
  lemma StartRun(c: Setup) returns (acts: seq<Action>)
    requires |c.posts| > 0
    ensures After(c, Init(c), acts) == Some(Opened(c, 3))
  {
    assert After(c, Init(c), []) == Some(Opened(c, 0));
    hide After, Opened;
    OpeningStep(c, 0, Register(true), 1, []);
    acts := [] + [Register(true)];
    OpeningStep(c, 1, NextReturned(Invoke), 2, acts);
    acts := acts + [NextReturned(Invoke)];
    OpeningStep(c, 2, Default, 3, acts);
    acts := acts + [Default];
  }

  lemma OpeningRun(c: Setup) returns (acts: seq<Action>)
    requires |c.posts| > 0
    ensures After(c, Init(c), acts) == Some(Opened(c, 6))
  {
    hide After, Opened;
    acts := StartRun(c);
    if c.capacity == 0 {
      OpeningStep(c, 3, HandOver(0), 5, acts);
      acts := acts + [HandOver(0)];
    } else {
      OpeningStep(c, 3, Produce(0), 4, acts);
      acts := acts + [Produce(0)];
      OpeningStep(c, 4, Receive, 5, acts);
      acts := acts + [Receive];
    }
    OpeningStep(c, 5, SeeEmpty, 6, acts);
    acts := acts + [SeeEmpty];
  }

  /** While the first batch is out, the next k POSTs get into the queue. */
  function Filled(c: Setup, k: nat): State
    requires k < |c.posts|
  {
    var arrived := seq(k, i requires 0 <= i < k => Message(i + 1, c.posts[i + 1]));
    Opened(c, 6).(queue := arrived, accepted := seq(|c.posts|, i => i <= k), sinceEmpty := k,
                  offered := [Message(0, c.posts[0])] + arrived)
  }

  lemma FillStep(c: Setup, k: nat)
    requires k + 1 < |c.posts| && k < c.capacity
    ensures Enabled(c, Filled(c, k), Produce(k + 1)) && Next(c, Filled(c, k), Produce(k + 1)) == Filled(c, k + 1)
  {
    var s, s' := Next(c, Filled(c, k), Produce(k + 1)), Filled(c, k + 1);
    assert s.queue == s'.queue && s.accepted == s'.accepted && s.offered == s'.offered;
  }

  lemma {:induction false} FillRun(c: Setup, k: nat) returns (acts: seq<Action>)
    requires k < |c.posts| && k <= c.capacity
    ensures After(c, Init(c), acts) == Some(Filled(c, k))
  {
    if k == 0 {
      acts := OpeningRun(c);
      var s, s' := Filled(c, 0), Opened(c, 6);
      assert s.accepted == s'.accepted && s.queue == s'.queue && s.offered == s'.offered;
    } else {
      hide After, Filled, Next, Enabled;
      acts := FillRun(c, k - 1);
      FillStep(c, k - 1);
      AfterSnoc(c, Init(c), acts, Produce(k));
      acts := acts + [Produce(k)];
    }
  }

  lemma FullRequeueOccurs(c: Setup) returns (s: State)
    requires c.capacity < |c.posts|
    ensures Reachable(c, s) && FullRequeue(c, s)
  {
    hide After;
    var acts := FillRun(c, c.capacity);
    AfterSnoc(c, Init(c), acts, SendDone(false));
    s := Next(c, Filled(c, c.capacity), SendDone(false));
  }

  /** The deadlock is real: a run of some setup can reach it if and only if the run
      has more POSTs than the queue has slots.  Without a buffer, one POST and one
      failed send are enough. */
  lemma DeadlockReachableExactlyWhen(c: Setup)
    ensures (exists s :: Reachable(c, s) && FullRequeue(c, s)) <==> c.capacity < |c.posts|
  {
    if c.capacity < |c.posts| {
      var s := FullRequeueOccurs(c);
    }
    forall s | Reachable(c, s) && FullRequeue(c, s) ensures c.capacity < |c.posts| {
      FullRequeueNeeds(c, s);
    }
  }

  lemma FullRequeueNeeds(c: Setup, s: State)
    requires Reachable(c, s) && FullRequeue(c, s)
    ensures c.capacity < |c.posts|
  {
    hide After;
    var acts :| After(c, Init(c), acts) == Some(s);
    OfferedCount(c, acts);
    Conservation(c, s);
    assert |multiset(s.offered)| == |s.offered|;
    assert |s.offered| == |s.queue| + |InHand(s.phase)| + |s.acked|;
  }

  // ---------------------------------------------------------- whole runs

  lemma TrackReachable(c: Setup, s: State)
    requires Reachable(c, s)
    ensures Track(c, s)
  {
    hide Ledger, Offers, Hand, Track, Reachable;
    InvReachable(c, s);
  }

  /** The event loop over whole runs.  A completed drain lies between any two
      next-event calls; a run ended by Shutdown ends with a drain; a run ended by
      cancellation ends with a drain when failover is off, and with one flush and
      the closing of the queue, neither of which happened before, when it is on; a
      run ended by a failed next-event call drains and flushes nothing after it;
      nothing is received after the end. */
  lemma EventLoopRuns(c: Setup, s: State)
    requires Reachable(c, s)
    ensures forall i, j :: 0 <= i < j < |s.events| && s.events[i] == NextCalled && s.events[j] == NextCalled ==>
              i < j - 1 && s.events[j - 1].Drained?
    ensures s.phase == Stopped(ByShutdown) ==> s.events != [] && s.events[|s.events| - 1].Drained? && !s.closed
    ensures s.phase == Stopped(ByCancel) && !c.enableFailover ==>
              s.events != [] && s.events[|s.events| - 1].Drained? && !s.closed
    ensures s.phase == Stopped(ByCancel) && c.enableFailover ==>
              && |s.events| >= 2 && s.closed
              && s.events[|s.events| - 2].Flushed? && s.events[|s.events| - 1] == Closed
              && (forall k :: 0 <= k < |s.events| - 2 ==> !s.events[k].Flushed? && s.events[k] != Closed)
    ensures s.phase == Stopped(NextFailed) ==>
              && s.events != [] && s.events[|s.events| - 1] == NextCalled && !s.closed
              && (forall k :: 0 <= k < |s.events| ==> !s.events[k].Flushed?)
    ensures s.phase.Stopped? ==> !Enabled(c, s, Receive) && forall i :: !Enabled(c, s, HandOver(i))
  {
    hide Reachable;
    TrackReachable(c, s);
    var n := |s.events|;
    forall i, j | 0 <= i < j < n && s.events[i] == NextCalled && s.events[j] == NextCalled
      ensures i < j - 1 && s.events[j - 1].Drained?
    {
    }
    if s.phase == Stopped(ByCancel) && c.enableFailover {
      assert forall k :: 0 <= k < n - 2 ==> s.events[k] == s.events[..n - 2][k];
    }
  }

  /** What the next-event calls of a run returned. */
  function AnswersOf(acts: seq<Action>): seq<NextEvent> {
    if acts == [] then [] else
    AnswersOf(acts[..|acts| - 1]) +
      match acts[|acts| - 1] case NextReturned(event) => [event] case _ => []
  }

  lemma {:induction false} AnswersRecorded(c: Setup, acts: seq<Action>)
    requires After(c, Init(c), acts).Some?
    ensures After(c, Init(c), acts).value.answers == AnswersOf(acts)
  {
    if acts != [] {
      AnswersRecorded(c, acts[..|acts| - 1]);
      AnswersKept(c, After(c, Init(c), acts[..|acts| - 1]).value, acts[|acts| - 1]);
      hide Next, Enabled;
    }
  }

  lemma AnswersKept(c: Setup, s: State, a: Action)
    requires Enabled(c, s, a)
    ensures Next(c, s, a).answers == s.answers + match a case NextReturned(event) => [event] case _ => []
  {
    hide Setup.MoreDrains;
  }

  /** The event loop is serving a shutdown. */
  predicate ShuttingDown(p: Phase) {
    match p
    case Draining(job, _) => job.OnShutdown?
    case Sending(job, _) => job.OnShutdown?
    case Requeueing(job, _, _) => job.OnShutdown?
    case Returned(job) => job.OnShutdown?
    case Stopped(why) => why.ByShutdown?
    case _ => false
  }

  /** The answers decide how a run goes on.  Only the last one can be an error or,
      after the registration's, a shutdown; the run has failed exactly when it is an
      error, and drains for a shutdown or has ended with it exactly when it is one. */
  lemma AnswersDecide(c: Setup, acts: seq<Action>)
    requires After(c, Init(c), acts).Some?
    ensures var s, answers := After(c, Init(c), acts).value, AnswersOf(acts);
            var n := |answers|;
            && (forall k :: 0 <= k < n - 1 ==> answers[k] != NextError)
            && (forall k :: 1 <= k < n - 1 ==> answers[k] != Shutdown)
            && (s.phase == Stopped(NextFailed) <==> n >= 1 && answers[n - 1] == NextError)
            && (ShuttingDown(s.phase) <==> n >= 2 && answers[n - 1] == Shutdown)
            && (s.phase == Stopped(RegisterFailed) ==> n == 0)
  {
    var s := After(c, Init(c), acts).value;
    AnswersRecorded(c, acts);
    assert Reachable(c, s);
    HeardReachable(c, s);
    hide After, Reachable;
    HeardMeans(s);
  }

  lemma HeardReachable(c: Setup, s: State)
    requires Reachable(c, s)
    ensures Heard(s)
  {
    hide Ledger, Offers, Hand, Track, Heard, Reachable;
    InvReachable(c, s);
  }

  lemma HeardMeans(s: State)
    requires Heard(s)
    ensures var answers := s.answers;
            var n := |answers|;
            && (forall k :: 0 <= k < n - 1 ==> answers[k] != NextError)
            && (forall k :: 1 <= k < n - 1 ==> answers[k] != Shutdown)
            && (s.phase == Stopped(NextFailed) <==> n >= 1 && answers[n - 1] == NextError)
            && (ShuttingDown(s.phase) <==> n >= 2 && answers[n - 1] == Shutdown)
            && (s.phase == Stopped(RegisterFailed) ==> n == 0)
  {
    var n := |s.answers|;
    assert forall k :: 0 <= k < n - 1 ==> s.answers[..n - 1][k] == s.answers[k];
  }

  /** What a run leaves behind: if the batch of its last drain or flush was not put
      back, the queue holds only what was accepted since that drain saw it empty;
      if nothing was, everything accepted is acknowledged. */
  lemma NothingLeftBehind(c: Setup, s: State)
    requires Reachable(c, s) && s.phase.Stopped? && s.settled
    ensures |s.queue| == s.sinceEmpty
    ensures s.sinceEmpty == 0 ==> multiset(s.offered) == multiset(s.acked)
  {
    InvReachable(c, s);
  }

  /** The flag of NothingLeftBehind is the outcome that the last event reports. */
  lemma LastOutcome(c: Setup, s: State)
    requires Reachable(c, s)
    ensures s.phase == Stopped(ByShutdown) || (s.phase == Stopped(ByCancel) && !c.enableFailover) ==>
              s.events != [] && s.events[|s.events| - 1] == Drained(s.settled)
    ensures s.phase == Stopped(ByCancel) && c.enableFailover ==>
              |s.events| >= 2 && s.events[|s.events| - 2] == Flushed(s.settled)
  {
    hide Reachable;
    TrackReachable(c, s);
  }
}
