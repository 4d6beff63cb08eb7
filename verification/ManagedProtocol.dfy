/** The managed-instance pipeline as atomic steps: many HTTP handlers
    (managed_instance_producer.go) offer payloads to a bounded queue and signals
    to a ten-slot channel, neither of which ever blocks them, and one consumer
    (managed_instance_consumer.go) drains the queue when it takes a signal. */
module ManagedProtocol {
  import opened Telemetry

  datatype Signal = QueueThreshold | PlatformReport

  const SIGNAL_SLOTS := 10

  /** A run's fixed part: the queue capacity, the bodies of the finitely many
      POSTs of the run, and how the handler reads event types from a body. */
  datatype Setup = Setup(capacity: nat, posts: seq<string>, eventTypes: string -> Option<seq<string>>) {
    /** int(float64(cap) * 0.8), which is 4 * cap / 5 for 32-bit capacities. */
    function Threshold(): nat { 4 * capacity / 5 }

    /** Queue length that calls for a drain; an empty queue never does. */
    function Alarm(): nat { if Threshold() == 0 then 1 else Threshold() }

    /** platform.report events of a body: as many signals does its handler offer. */
    function ReportsIn(body: string): nat {
      match eventTypes(body) case None => 0 case Some(types) => multiset(types)["platform.report"]
    }

    function Reports(i: nat): nat
      requires i < |posts|
    {
      ReportsIn(posts[i])
    }
  }

  /** Where one logsHandler call stands. */
  datatype Handler =
    | Arrived               // body read, not yet offered to the queue
    | Offered               // queue select done, queue length not yet read
    | Alarmed               // read a length at or above the threshold, not yet signalled
    | Reporting(left: nat)  // report signals still to offer; none left means finished

  /** Where the consumer stands. */
  datatype Phase =
    | Idle
    | Draining(batch: seq<Message>)
    | Sending(batch: seq<Message>)
    | Requeueing(batch: seq<Message>, next: nat, kept: nat)

  /** A message given up, with the queue length at that moment. */
  datatype Drop = Drop(message: Message, depth: nat)

  datatype State = State(
    queue: seq<Message>,
    signals: seq<Signal>,
    handlers: seq<Handler>,
    phase: Phase,
    drainsOwed: nat,         // drains of a shutdown flush still to start
    // history
    sinceEmpty: nat,         // messages accepted since a drain last saw the queue empty
    requeued: bool,          // whether the last drain put its batch back
    offered: seq<Message>,   // messages whose handler has tried the queue
    acked: seq<Message>,     // messages of sends that returned nil
    refused: seq<Drop>,      // dropped by a handler
    lost: seq<Drop>)         // dropped when putting a batch back

  function Init(c: Setup, drainsOwed: nat): State {
    State([], [], seq(|c.posts|, i => Arrived), Idle, drainsOwed, 0, false, [], [], [], [])
  }

  datatype Action =
    | Handle(i: nat)      // one step of handler i
    | TakeSignal          // consumer receives a signal
    | StartFlushDrain     // consumer starts a drain of the shutdown loop
    | Receive             // consumer receives a message
    | SeeEmpty            // consumer takes the default branch
    | SendDone(ok: bool)  // SendAllLogs returned
    | PutBack             // consumer offers one message back
    | FinishPutBack

  predicate Enabled(c: Setup, s: State, a: Action) {
    match a
    case Handle(i) => i < |s.handlers| && i < |c.posts| && s.handlers[i] != Reporting(0)
    case TakeSignal => s.phase.Idle? && s.signals != []
    case StartFlushDrain => s.phase.Idle? && s.drainsOwed > 0
    case Receive => s.phase.Draining? && s.queue != []
    case SeeEmpty => s.phase.Draining? && s.queue == []
    case SendDone(_) => s.phase.Sending?
    case PutBack => s.phase.Requeueing? && s.phase.next < |s.phase.batch|
    case FinishPutBack => s.phase.Requeueing? && s.phase.next >= |s.phase.batch|
  }

  /** A non-blocking send on the signal channel. */
  function Signalled(signals: seq<Signal>, signal: Signal): seq<Signal> {
    if |signals| < SIGNAL_SLOTS then signals + [signal] else signals
  }

  function HandlerNext(c: Setup, s: State, i: nat): State
    requires i < |s.handlers| && i < |c.posts| && s.handlers[i] != Reporting(0)
  {
    match s.handlers[i]
    case Arrived =>
      var m := Message(i, c.posts[i]);
      var s' := s.(handlers := s.handlers[i := Offered], offered := s.offered + [m]);
      if |s.queue| < c.capacity then s'.(queue := s.queue + [m], sinceEmpty := s.sinceEmpty + 1)
      else s'.(refused := s.refused + [Drop(m, |s.queue|)])
    case Offered =>
      s.(handlers := s.handlers[i := if |s.queue| >= c.Threshold() then Alarmed else Reporting(c.Reports(i))])
    case Alarmed =>
      s.(handlers := s.handlers[i := Reporting(c.Reports(i))], signals := Signalled(s.signals, QueueThreshold))
    case Reporting(left) =>
      s.(handlers := s.handlers[i := Reporting(left - 1)], signals := Signalled(s.signals, PlatformReport))
  }

  function Next(c: Setup, s: State, a: Action): State
    requires Enabled(c, s, a)
  {
    match a
    case Handle(i) => HandlerNext(c, s, i)
    case TakeSignal => s.(signals := s.signals[1..], phase := Draining([]))
    case StartFlushDrain => s.(drainsOwed := s.drainsOwed - 1, phase := Draining([]))
    case Receive => s.(queue := s.queue[1..], phase := Draining(s.phase.batch + [s.queue[0]]))
    case SeeEmpty =>
      s.(phase := if s.phase.batch == [] then Idle else Sending(s.phase.batch), sinceEmpty := 0, requeued := false)
    case SendDone(ok) =>
      if ok then s.(phase := Idle, acked := s.acked + s.phase.batch)
      else s.(phase := Requeueing(s.phase.batch, 0, 0), requeued := true)
    case PutBack =>
      var Requeueing(b, n, k) := s.phase;
      if |s.queue| < c.capacity then s.(queue := s.queue + [b[n]], phase := Requeueing(b, n + 1, k + 1))
      else s.(lost := s.lost + [Drop(b[n], |s.queue|)], phase := Requeueing(b, n + 1, k))
    case FinishPutBack => s.(phase := Idle)
  }

  /** The state after a sequence of actions, if each was enabled in turn. */
  function After(c: Setup, s: State, acts: seq<Action>): Option<State> {
    if acts == [] then Some(s) else
    match After(c, s, acts[..|acts| - 1])
    case None => None
    case Some(m) => if Enabled(c, m, acts[|acts| - 1]) then Some(Next(c, m, acts[|acts| - 1])) else None
  }

  lemma AfterSnoc(c: Setup, s: State, acts: seq<Action>, a: Action)
    ensures After(c, s, acts + [a]) ==
              match After(c, s, acts)
              case None => None
              case Some(m) => if Enabled(c, m, a) then Some(Next(c, m, a)) else None
  {
    assert (acts + [a])[..|acts|] == acts;
  }

  lemma LastOfSum<T>(a: seq<T>, b: seq<T>)
    requires b != []
    ensures a + b == (a + b[..|b| - 1]) + [b[|b| - 1]] && b == b[..|b| - 1] + [b[|b| - 1]]
  {
  }

  lemma {:induction false} AfterConcat(c: Setup, s: State, a: seq<Action>, b: seq<Action>)
    requires After(c, s, a).Some?
    ensures After(c, s, a + b) == After(c, After(c, s, a).value, b)
  {
    if b == [] {
      assert a + b == a;
    } else {
      hide Next, Enabled;
      var init, x := b[..|b| - 1], b[|b| - 1];
      hide After, Next, Enabled;
      AfterConcat(c, s, a, init);
      AfterSnoc(c, s, a + init, x);
      AfterSnoc(c, After(c, s, a).value, init, x);
      LastOfSum(a, b);
    }
  }

  lemma OweMoreStep(c: Setup, s: State, n: nat, a: Action)
    requires Enabled(c, s, a)
    ensures Enabled(c, s.(drainsOwed := s.drainsOwed + n), a)
    ensures var s' := Next(c, s, a);
            Next(c, s.(drainsOwed := s.drainsOwed + n), a) == s'.(drainsOwed := s'.drainsOwed + n)
  {
  }

  /** Owing more drains from the start changes nothing else in a run. */
  lemma {:induction false} OweMore(c: Setup, owed: nat, n: nat, acts: seq<Action>)
    requires After(c, Init(c, owed), acts).Some?
    ensures var s := After(c, Init(c, owed), acts).value;
            After(c, Init(c, owed + n), acts) == Some(s.(drainsOwed := s.drainsOwed + n))
  {
    hide Next, Enabled;
    if acts != [] {
      OweMore(c, owed, n, acts[..|acts| - 1]);
      OweMoreStep(c, After(c, Init(c, owed), acts[..|acts| - 1]).value, n, acts[|acts| - 1]);
    }
  }

  ghost predicate Reachable(c: Setup, s: State) {
    exists owed: nat, acts :: After(c, Init(c, owed), acts) == Some(s)
  }

  // -------------------------------------------------- bounds and the ledger

  function InHand(p: Phase): seq<Message> {
    match p
    case Idle => []
    case Draining(b) => b
    case Sending(b) => b
    case Requeueing(b, n, _) => if n <= |b| then b[n..] else []
  }

  function Messages(drops: seq<Drop>): seq<Message> {
    seq(|drops|, i requires 0 <= i < |drops| => drops[i].message)
  }

  predicate Bounds(c: Setup, s: State) {
    && |s.queue| <= c.capacity && |s.signals| <= SIGNAL_SLOTS && |s.handlers| == |c.posts|
    && (forall i :: 0 <= i < |s.handlers| && s.handlers[i].Reporting? ==> s.handlers[i].left <= c.Reports(i))
    && (s.phase.Requeueing? ==> s.phase.kept <= s.phase.next <= |s.phase.batch|)
    && (c.capacity == 0 && !s.phase.Idle? ==> s.phase.batch == [])
  }

  /** Every offered message is in exactly one of five places. */
  ghost predicate Ledger(s: State) {
    multiset(s.offered) ==
      multiset(s.queue) + multiset(InHand(s.phase)) + multiset(s.acked) +
      multiset(Messages(s.refused)) + multiset(Messages(s.lost))
  }

  /** A POST is offered once, when its handler leaves Arrived. */
  ghost predicate Offers(c: Setup, s: State) {
    && |s.handlers| == |c.posts|
    && (forall i :: 0 <= i < |c.posts| ==>
          multiset(s.offered)[Message(i, c.posts[i])] == if s.handlers[i].Arrived? then 0 else 1)
    && (forall m :: m in s.offered ==> m.id < |c.posts| && m.body == c.posts[m.id])
  }

  predicate DroppedWhenFull(c: Setup, s: State) {
    forall d :: d in s.refused + s.lost ==> d.depth == c.capacity
  }

  lemma BoundsKept(c: Setup, s: State, a: Action)
    requires Bounds(c, s) && Enabled(c, s, a)
    ensures Bounds(c, Next(c, s, a))
  {
  }

  lemma LedgerKeptByHandler(c: Setup, s: State, i: nat)
    requires Ledger(s) && Enabled(c, s, Handle(i))
    ensures Ledger(Next(c, s, Handle(i)))
  {
    HandlerMoves(c, s, i);
    hide Next, InHand, Messages;
  }

  /** What a handler's step does to the heaps of the ledger. */
  lemma HandlerMoves(c: Setup, s: State, i: nat)
    requires Enabled(c, s, Handle(i))
    ensures var s', m := Next(c, s, Handle(i)), Message(i, c.posts[i]);
            && s'.phase == s.phase && s'.acked == s.acked && s'.lost == s.lost && s'.requeued == s.requeued
            && s'.sinceEmpty == s.sinceEmpty + |s'.queue| - |s.queue|
            && if !s.handlers[i].Arrived? then
                 s'.offered == s.offered && s'.queue == s.queue && s'.refused == s.refused
               else
                 && s'.offered == s.offered + [m]
                 && if |s.queue| < c.capacity then s'.queue == s.queue + [m] && s'.refused == s.refused
                    else s'.queue == s.queue && Messages(s'.refused) == Messages(s.refused) + [m]
  {
  }

  /** What a put-back does to the heaps of the ledger. */
  lemma PutBackMoves(c: Setup, s: State)
    requires Bounds(c, s) && Enabled(c, s, PutBack)
    ensures var s' := Next(c, s, PutBack);
            var m := s.phase.batch[s.phase.next];
            && s'.offered == s.offered && s'.acked == s.acked && s'.refused == s.refused
            && InHand(s.phase) == [m] + InHand(s'.phase)
            && if |s.queue| < c.capacity then s'.queue == s.queue + [m] && s'.lost == s.lost
               else s'.queue == s.queue && Messages(s'.lost) == Messages(s.lost) + [m]
  {
  }

  lemma LedgerKeptByPutBack(c: Setup, s: State)
    requires Bounds(c, s) && Ledger(s) && Enabled(c, s, PutBack)
    ensures Ledger(Next(c, s, PutBack))
  {
    hide Next, InHand, Messages;
    PutBackMoves(c, s);
    var s' := Next(c, s, PutBack);
    var m := s.phase.batch[s.phase.next];
    var hand, hand' := multiset(InHand(s.phase)), multiset(InHand(s'.phase));
    var acked, refused := multiset(s.acked), multiset(Messages(s.refused));
    if |s.queue| < c.capacity {
      OneMoved(multiset(s.offered), hand, hand', multiset(s.queue), multiset(s'.queue),
               acked + refused + multiset(Messages(s.lost)), m);
    } else {
      OneMoved(multiset(s.offered), hand, hand', multiset(Messages(s.lost)), multiset(Messages(s'.lost)),
               multiset(s.queue) + acked + refused, m);
    }
  }

  lemma LedgerKept(c: Setup, s: State, a: Action)
    requires Bounds(c, s) && Ledger(s) && Enabled(c, s, a)
    ensures Ledger(Next(c, s, a))
  {
    hide Next, Ledger;
    match a
    case Handle(i) => LedgerKeptByHandler(c, s, i);
    case PutBack => LedgerKeptByPutBack(c, s);
    case Receive => LedgerKeptByReceive(c, s);
    case SendDone(ok) => LedgerKeptBySendDone(c, s, ok);
    case _ => LedgerKeptOtherwise(c, s, a);
  }

  lemma LedgerKeptByReceive(c: Setup, s: State)
    requires Ledger(s) && Enabled(c, s, Receive)
    ensures Ledger(Next(c, s, Receive))
  {
    assert s.queue == [s.queue[0]] + s.queue[1..];
  }

  lemma LedgerKeptBySendDone(c: Setup, s: State, ok: bool)
    requires Ledger(s) && Enabled(c, s, SendDone(ok))
    ensures Ledger(Next(c, s, SendDone(ok)))
  {
    assert s.phase.batch[0..] == s.phase.batch;
  }

  lemma Unmoved(c: Setup, s: State, a: Action)
    requires Bounds(c, s) && Enabled(c, s, a)
    requires !a.Handle? && !a.PutBack? && !a.Receive? && !a.SendDone?
    ensures var s' := Next(c, s, a);
            && s'.queue == s.queue && s'.offered == s.offered && s'.acked == s.acked
            && InHand(s'.phase) == InHand(s.phase) && s'.refused == s.refused && s'.lost == s.lost
  {
  }

  lemma LedgerKeptOtherwise(c: Setup, s: State, a: Action)
    requires Bounds(c, s) && Ledger(s) && Enabled(c, s, a)
    requires !a.Handle? && !a.PutBack? && !a.Receive? && !a.SendDone?
    ensures Ledger(Next(c, s, a))
  {
    Unmoved(c, s, a);
    hide Next, InHand;
  }

  lemma OffersKept(c: Setup, s: State, a: Action)
    requires Offers(c, s) && Enabled(c, s, a)
    ensures Offers(c, Next(c, s, a))
  {
    OfferedOrNot(c, s, a);
    hide Next;
    var s' := Next(c, s, a);
    if s'.offered != s.offered {
      forall i | 0 <= i < |c.posts|
        ensures multiset(s'.offered)[Message(i, c.posts[i])] == if s'.handlers[i].Arrived? then 0 else 1
      {
        assert multiset(s'.offered)[Message(i, c.posts[i])] ==
          multiset(s.offered)[Message(i, c.posts[i])] + if i == a.i then 1 else 0;
      }
    }
  }

  lemma OfferedOrNot(c: Setup, s: State, a: Action)
    requires |s.handlers| == |c.posts| && Enabled(c, s, a)
    ensures var s' := Next(c, s, a);
            && |s'.handlers| == |s.handlers|
            && if a.Handle? && s.handlers[a.i].Arrived? then
                 && s'.offered == s.offered + [Message(a.i, c.posts[a.i])]
                 && forall i :: 0 <= i < |s.handlers| ==>
                      s'.handlers[i].Arrived? == (i != a.i && s.handlers[i].Arrived?)
               else
                 && s'.offered == s.offered
                 && forall i :: 0 <= i < |s.handlers| ==> s'.handlers[i].Arrived? == s.handlers[i].Arrived?
  {
  }

  lemma DroppedWhenFullKept(c: Setup, s: State, a: Action)
    requires Bounds(c, s) && DroppedWhenFull(c, s) && Enabled(c, s, a)
    ensures DroppedWhenFull(c, Next(c, s, a))
  {
  }

  // ------------------------------------------------------- the drain's hand

  /** While a batch is out, the queue holds what arrived since it was seen empty
      and, once the batch is being put back, a prefix of it in order; anything
      the consumer could not put back found the queue full. */
  predicate Hand(c: Setup, s: State) {
    match s.phase
    case Idle => true
    case Draining(_) => true
    case Sending(b) => b != [] && |s.queue| == s.sinceEmpty && Restrict(s.queue, b) == [] && !s.requeued
    case Requeueing(b, n, k) =>
      && k <= n <= |b| && s.requeued
      && |s.queue| == s.sinceEmpty + k && Restrict(s.queue, b) == b[..k]
      && (k < n ==> |s.queue| == c.capacity)
      && n - k <= |s.lost| && Messages(s.lost)[|s.lost| - (n - k)..] == b[k..n]
  }

  /** A POST that has not been offered is nowhere. */
  lemma NewcomerNowhere(c: Setup, s: State, i: nat)
    requires Ledger(s) && Offers(c, s) && i < |c.posts| && s.handlers[i].Arrived?
    ensures var m := Message(i, c.posts[i]);
            m !in InHand(s.phase) && m !in s.queue && m !in Messages(s.lost)
  {
    var m := Message(i, c.posts[i]);
    assert multiset(s.offered)[m] == 0;
    hide InHand, Messages, Offers;
    assert multiset(InHand(s.phase))[m] == 0 && multiset(s.queue)[m] == 0 && multiset(Messages(s.lost))[m] == 0;
  }

  lemma HandKept(c: Setup, s: State, a: Action)
    requires Bounds(c, s) && Ledger(s) && Offers(c, s) && Hand(c, s) && Enabled(c, s, a)
    ensures Hand(c, Next(c, s, a))
  {
    match a
    case Handle(i) => HandKeptByHandler(c, s, i);
    case PutBack => HandKeptByPutBack(c, s);
    case _ =>
  }

  lemma HandKeptByHandler(c: Setup, s: State, i: nat)
    requires Bounds(c, s) && Ledger(s) && Offers(c, s) && Hand(c, s) && Enabled(c, s, Handle(i))
    ensures Hand(c, Next(c, s, Handle(i)))
  {
    HandlerMoves(c, s, i);
    hide Next, Ledger, Offers, Restrict, Messages;
    if s.handlers[i].Arrived? && |s.queue| < c.capacity && (s.phase.Sending? || s.phase.Requeueing?) {
      NewcomerNotInBatch(c, s, i);
      RestrictSnoc(s.queue, Message(i, c.posts[i]), s.phase.batch);
    }
  }

  /** What has been put back is in the queue, and what could not be is in `lost`. */
  lemma NewcomerNotInBatch(c: Setup, s: State, i: nat)
    requires Ledger(s) && Offers(c, s) && Hand(c, s) && i < |c.posts| && s.handlers[i].Arrived?
    requires s.phase.Sending? || s.phase.Requeueing?
    ensures Message(i, c.posts[i]) !in s.phase.batch
  {
    NewcomerNowhere(c, s, i);
    hide Ledger, Offers;
    if s.phase.Requeueing? {
      var m := Message(i, c.posts[i]);
      var Requeueing(b, n, k) := s.phase;
      assert m !in Messages(s.lost)[|s.lost| - (n - k)..];
      if m in b[..k] { RestrictContains(s.queue, b, m); }
      assert b == b[..k] + b[k..n] + b[n..];
    }
  }

  lemma HandKeptByPutBack(c: Setup, s: State)
    requires Bounds(c, s) && Hand(c, s) && Enabled(c, s, PutBack)
    ensures Hand(c, Next(c, s, PutBack))
  {
    var Requeueing(b, n, k) := s.phase;
    hide Restrict, Messages;
    if |s.queue| < c.capacity {
      assert k == n;
      RestrictSnoc(s.queue, b[n], b);
      FirstPlusOne(b, n);
      assert Messages(s.lost)[|s.lost|..] == [];
    } else {
      DropSnoc(s.lost, Drop(b[n], |s.queue|), n - k);
      FromPlusOne(b, k, n);
    }
  }

  lemma FirstPlusOne<T>(b: seq<T>, n: nat)
    requires n < |b|
    ensures b[..n] + [b[n]] == b[..n + 1] && b[n + 1..n + 1] == []
  {
  }

  lemma FromPlusOne<T>(b: seq<T>, k: nat, n: nat)
    requires k <= n < |b|
    ensures b[k..n] + [b[n]] == b[k..n + 1]
  {
  }

  lemma DropSnoc(drops: seq<Drop>, d: Drop, n: nat)
    requires n <= |drops| && |Messages(drops)| == |drops|
    ensures |Messages(drops + [d])| == |drops| + 1
    ensures Messages(drops + [d])[|drops| - n..] == Messages(drops)[|drops| - n..] + [d.message]
  {
    assert Messages(drops + [d]) == Messages(drops) + [d.message];
  }

  // ------------------------------------------------------------- wake-ups

  /** A handler that has pushed and has not yet acted on the queue length. */
  predicate BetweenPushAndSignal(h: Handler) { h.Offered? || h.Alarmed? }

  ghost predicate SomeoneChecking(s: State) {
    exists i :: 0 <= i < |s.handlers| && BetweenPushAndSignal(s.handlers[i])
  }

  /** The handler has offered its first report signal. */
  predicate Announced(c: Setup, s: State, m: Message) {
    m.id < |s.handlers| && m.id < |c.posts| && s.handlers[m.id].Reporting? && s.handlers[m.id].left < c.Reports(m.id)
  }

  /** Outside a drain that has not yet seen the queue empty, and unless the last
      drain put its batch back: a long queue has a signal pending or a handler
      about to look at it, and a queued report that was announced has a signal
      pending. */
  ghost predicate WakeUp(c: Setup, s: State) {
    !s.phase.Draining? && !s.requeued ==>
      && (|s.queue| >= c.Alarm() ==> s.signals != [] || SomeoneChecking(s))
      && (forall m :: m in s.queue && Announced(c, s, m) ==> s.signals != [])
  }

  lemma WakeUpKept(c: Setup, s: State, a: Action)
    requires Bounds(c, s) && Hand(c, s) && WakeUp(c, s) && Enabled(c, s, a)
    ensures WakeUp(c, Next(c, s, a))
  {
    match a
    case Handle(i) => WakeUpKeptByHandler(c, s, i);
    case _ =>
      var s' := Next(c, s, a);
      assert s'.handlers == s.handlers;
      assert forall m :: Announced(c, s', m) == Announced(c, s, m);
  }

  lemma WakeUpKeptByHandler(c: Setup, s: State, i: nat)
    requires Bounds(c, s) && WakeUp(c, s) && Enabled(c, s, Handle(i))
    ensures WakeUp(c, Next(c, s, Handle(i)))
  {
    var s' := Next(c, s, Handle(i));
    assert s'.handlers[i] == HandlerNext(c, s, i).handlers[i];
    if s'.handlers[i].Offered? || s'.handlers[i].Alarmed? {
      assert SomeoneChecking(s');
    } else if s.handlers[i].Offered? && |s.queue| >= c.Alarm() {
      assert false;
    } else if SomeoneChecking(s) && s'.signals == [] {
      var k :| 0 <= k < |s.handlers| && BetweenPushAndSignal(s.handlers[k]);
      if k != i { assert BetweenPushAndSignal(s'.handlers[k]); }
    }
    forall m | m in s'.queue && Announced(c, s', m) && s'.signals == []
      ensures m in s.queue && Announced(c, s, m)
    {
    }
  }

  // -------------------------------------------------- every reachable state

  ghost predicate Inv(c: Setup, s: State) {
    && Bounds(c, s) && Ledger(s) && Offers(c, s) && DroppedWhenFull(c, s) && Hand(c, s) && WakeUp(c, s)
  }

  lemma InvKept(c: Setup, s: State, a: Action)
    requires Inv(c, s) && Enabled(c, s, a)
    ensures Inv(c, Next(c, s, a))
  {
    hide Next;
    BoundsKept(c, s, a);
    LedgerKept(c, s, a);
    OffersKept(c, s, a);
    DroppedWhenFullKept(c, s, a);
    HandKept(c, s, a);
    WakeUpKept(c, s, a);
  }

  lemma {:induction false} InvAfter(c: Setup, s: State, acts: seq<Action>)
    requires Inv(c, s) && After(c, s, acts).Some?
    ensures Inv(c, After(c, s, acts).value)
  {
    if acts != [] {
      InvAfter(c, s, acts[..|acts| - 1]);
      InvKept(c, After(c, s, acts[..|acts| - 1]).value, acts[|acts| - 1]);
    }
  }

  lemma InvReachable(c: Setup, s: State)
    requires Reachable(c, s)
    ensures Inv(c, s)
  {
    var owed: nat, acts :| After(c, Init(c, owed), acts) == Some(s);
    InvAfter(c, Init(c, owed), acts);
  }
}
