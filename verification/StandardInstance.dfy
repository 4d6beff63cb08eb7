/** The standard-mode producer, consumer and event loop as imperative code over the
    shared queue.  Every operation is one step of StandardProtocol, and blocked
    handlers may get in between any two of them. */
module StandardInstance {
  import opened Telemetry
  import opened Wire
  import opened SumoClient
  import opened StandardProtocol
  import D = Delivery
  import T = StandardTheorems

  /** strings.Contains */
  predicate Contains(s: string, part: string) {
    exists i :: 0 <= i <= |s| && part <= s[i..]
  }

  const RUNTIME_DONE := "platform.runtimeDone"

  predicate Parts(s: string, a: string, part: string, b: string) {
    s == a + part + b
  }

  lemma ContainsExactly(s: string, part: string)
    ensures Contains(s, part) <==> exists a, b :: Parts(s, a, part, b)
  {
    if Contains(s, part) {
      var i :| 0 <= i <= |s| && part <= s[i..];
      assert Parts(s, s[..i], part, s[i + |part|..]);
    }
    if a, b :| Parts(s, a, part, b) {
      assert s[|a|..] == part + b;
    }
  }

  /** Some payload of the batch has this text somewhere in its body. */
  ghost predicate MentionsRuntimeDone(batch: seq<Message>) {
    exists k, a, b :: 0 <= k < |batch| && Parts(batch[k].body, a, "platform.runtimeDone", b)
  }

  /** How a call ends: it returns, or its goroutine blocks for ever. */
  datatype Outcome = Back(runtimeDone: int) | BlockedForever

  /** How processEvents ends in a finite run: it returns, it waits for an event
      that never comes, or a requeue blocks. */
  datatype RunEnd = Finished | Frozen | Stuck

  class Instance {
    const setup: Setup
    const client: Client
    const schedule: nat -> seq<nat>   // handlers that try to push at each opportunity
    const meets: nat -> nat           // which handler a receive finds blocked on a queue without a buffer, if any
    const cancelled: nat -> bool      // whether the context is done at each look
    const registers: bool             // whether registration and subscription succeed
    const script: seq<NextEvent>      // what the next-event calls of the run return
    var dataQueue: seq<Message>
    var closed: bool
    var world: State
    var ticks: nat
    var asked: nat
    ghost var trace: seq<Action>
    ghost var receipts: seq<D.Call>   // why each acknowledged message counts as such

    ghost predicate Valid()
      reads this, client, client.net
    {
      && client.Valid() && setup.Valid()
      && client.cfg.enableFailover == setup.enableFailover
      && client.cfg.maxConcurrentRequests == setup.maxConcurrentRequests
      && Linked()
    }

    ghost predicate Linked()
      reads this
    {
      && After(setup, Init(setup), trace) == Some(world)
      && dataQueue == world.queue && closed == world.closed
      && Hand(setup, world) && |world.accepted| == |setup.posts|
      && asked <= |script| && world.answers == script[..asked]
    }

    /** Every acknowledged message has its receipt. */
    ghost predicate Accounted()
      requires client.codec.Valid()
      reads this, client
    {
      D.Accounts(client, client.log, receipts, world.acked)
    }

    constructor (setup: Setup, client: Client, schedule: nat -> seq<nat>, meets: nat -> nat, cancelled: nat -> bool,
                 registers: bool, script: seq<NextEvent>)
      requires client.Valid() && setup.Valid()
      requires client.cfg.enableFailover == setup.enableFailover
      requires client.cfg.maxConcurrentRequests == setup.maxConcurrentRequests
      ensures Valid() && Accounted() && world == Init(setup)
    {
      this.setup, this.client, this.schedule, this.meets := setup, client, schedule, meets;
      this.cancelled := cancelled;
      this.registers, this.script := registers, script;
      dataQueue, closed, world, ticks, asked := [], false, Init(setup), 0, 0;
      trace, receipts := [], [];
      new;
      assert Reachable(setup, Init(setup)) by { assert After(setup, Init(setup), []) == Some(Init(setup)); }
      InvReachable(setup, world);
    }

    lemma WorldReachable()
      requires Linked()
      ensures Reachable(setup, world) && Inv(setup, world)
    {
      InvReachable(setup, world);
    }

    /** The code at hand has just done `a`. */
    method Record(a: Action)
      requires After(setup, Init(setup), trace) == Some(world) && Enabled(setup, world, a)
      requires dataQueue == Next(setup, world, a).queue && closed == Next(setup, world, a).closed
      requires asked <= |script| && Next(setup, world, a).answers == script[..asked]
      modifies this`world, this`trace
      ensures Linked() && world == Next(setup, old(world), a)
    {
      hide Next, Enabled, Init;
      AfterSnoc(setup, Init(setup), trace, a);
      world := Next(setup, world, a);
      trace := trace + [a];
      InvReachable(setup, world);
    }

    /** What handlers cannot touch. */
    ghost predicate Untouched(s: State, s': State) {
      && s'.phase == s.phase && s'.settled == s.settled && s'.acked == s.acked && s'.events == s.events
      && s'.closed == s.closed && s.queue <= s'.queue && |s'.queue| - s'.sinceEmpty == |s.queue| - s.sinceEmpty
      && |s'.accepted| == |s.accepted| && (AllIn(s) ==> s' == s)
    }

    ghost function Remaining(s: State): nat { 2 * Waiting(s.accepted) + |s.queue| }

    lemma ProduceUntouched(s: State, i: nat)
      requires Enabled(setup, s, Produce(i))
      ensures Untouched(s, Next(setup, s, Produce(i)))
      ensures Remaining(Next(setup, s, Produce(i))) < Remaining(s)
    {
      WaitingUpdate(s.accepted, i);
    }

    /** logsHandler of POST i tries its push; while the queue is full it is blocked
        and tries again at its next turn.  A queue without a buffer is always full for
        it: there TakeFromHandler lets it through. */
    method LogsHandler(i: nat) returns (blocked: bool)
      requires Linked() && i < |world.accepted| && !world.accepted[i] && !closed
      modifies this`dataQueue, this`world, this`trace
      ensures Linked() && Untouched(old(world), world) && Remaining(world) <= Remaining(old(world))
      ensures blocked == (|old(dataQueue)| >= setup.capacity)
      ensures blocked ==> world == old(world)
      ensures !blocked ==> world.accepted[i] && dataQueue == old(dataQueue) + [Message(i, setup.posts[i])]
    {
      blocked := |dataQueue| >= setup.capacity;
      if !blocked {
        ProduceUntouched(world, i);
        dataQueue := dataQueue + [Message(i, setup.posts[i])];
        Record(Produce(i));
      }
    }

    /** Handlers run for a while. */
    method Interfere()
      requires Linked()
      modifies this`dataQueue, this`world, this`ticks, this`trace
      ensures Linked() && Untouched(old(world), world) && Remaining(world) <= Remaining(old(world))
    {
      hide Next, After, Restrict;
      var turns := schedule(ticks);
      ticks := ticks + 1;
      var n := 0;
      while n < |turns|
        invariant Linked() && Untouched(old(world), world) && Remaining(world) <= Remaining(old(world))
      {
        var i := turns[n];
        if i < |world.accepted| && !world.accepted[i] && !closed {
          var _ := LogsHandler(i);
        }
        n := n + 1;
      }
    }

    // ------------------------------------------------------------- drains

    predicate HandlerBlocked(i: nat)
      reads this
    {
      setup.capacity == 0 && i < |world.accepted| && !world.accepted[i] && !closed
    }

    /** A drain's receive takes its message from logsHandler of POST i, which is blocked
        in its push on a queue without a buffer. */
    method TakeFromHandler(i: nat) returns (rawmsg: Message)
      requires Linked() && HandlerBlocked(i) && world.phase.Draining?
      modifies this`world, this`trace
      ensures Linked() && rawmsg == Message(i, setup.posts[i]) && world.accepted == old(world.accepted)[i := true]
      ensures world.phase == Draining(old(world.phase.job), old(world.phase.batch) + [rawmsg])
      ensures world.acked == old(world.acked) && world.events == old(world.events)
      ensures Remaining(world) < Remaining(old(world)) && !AllIn(old(world))
    {
      hide After, Restrict;
      WaitingUpdate(world.accepted, i);
      rawmsg := Message(i, setup.posts[i]);
      Record(HandOver(i));
    }

    /** The receiving case and the default case of the drain loops' select. */
    method TryReceive() returns (got: Option<Message>)
      requires Linked() && world.phase.Draining?
      modifies this`dataQueue, this`world, this`ticks, this`trace
      ensures Linked() && world.acked == old(world.acked) && world.events == old(world.events) && closed == old(closed)
      ensures AllIn(old(world)) ==> AllIn(world)
      ensures var Draining(job, b) := old(world.phase);
              match got
              case Some(m) =>
                && world.phase == Draining(job, b + [m]) && old(dataQueue) <= [m] + dataQueue
                && Remaining(world) < Remaining(old(world))
                && (AllIn(old(world)) ==> [m] + dataQueue == old(dataQueue))
              case None =>
                && world.phase == Sending(job, b) && world.settled && world.sinceEmpty == 0
                && old(dataQueue) == [] && dataQueue == []
    {
      hide After, Restrict, Waiting;
      Interfere();
      if |dataQueue| > 0 {
        got := Some(dataQueue[0]);
        assert dataQueue == [dataQueue[0]] + dataQueue[1..];
        dataQueue := dataQueue[1..];
        Record(Receive);
      } else if HandlerBlocked(meets(ticks)) {
        var rawmsg := TakeFromHandler(meets(ticks));
        got := Some(rawmsg);
      } else {
        got := None;
        Record(SeeEmpty);
      }
    }

    /** The receive loop; runtimeDone is set when a payload mentions the event. */
    method ReceiveAll() returns (rawMsgArr: seq<Message>, runtimeDone: int)
      requires Linked() && world.phase.Draining? && world.phase.batch == []
      modifies this`dataQueue, this`world, this`ticks, this`trace
      ensures Linked() && world.phase == Sending(old(world.phase.job), rawMsgArr)
      ensures world.acked == old(world.acked) && world.events == old(world.events) && closed == old(closed)
      ensures dataQueue == [] && world.sinceEmpty == 0 && world.settled && old(dataQueue) <= rawMsgArr
      ensures AllIn(old(world)) ==> AllIn(world) && rawMsgArr == old(dataQueue)
      ensures runtimeDone == if MentionsRuntimeDone(rawMsgArr) then 1 else 0
    {
      hide After, Next, Restrict, Waiting, Contains;
      rawMsgArr, runtimeDone := [], 0;
      while true
        invariant Linked() && world.phase == Draining(old(world.phase.job), rawMsgArr)
        invariant world.acked == old(world.acked) && world.events == old(world.events) && closed == old(closed)
        invariant old(dataQueue) <= rawMsgArr + dataQueue
        invariant AllIn(old(world)) ==> AllIn(world) && rawMsgArr + dataQueue == old(dataQueue)
        invariant runtimeDone == if MentionsRuntimeDone(rawMsgArr) then 1 else 0
        decreases Remaining(world)
      {
        ghost var was := dataQueue;
        var got := TryReceive();
        match got
        case Some(rawmsg) =>
          assert rawMsgArr + ([rawmsg] + dataQueue) == (rawMsgArr + [rawmsg]) + dataQueue;
          assert rawMsgArr + was <= rawMsgArr + ([rawmsg] + dataQueue);
          MentionsSnoc(rawMsgArr, rawmsg);
          rawMsgArr := rawMsgArr + [rawmsg];
          if Contains(rawmsg.body, RUNTIME_DONE) {
            runtimeDone := 1;
          }
        case None =>
          assert rawMsgArr + [] == rawMsgArr;
          return;
      }
    }

    lemma MentionsSnoc(batch: seq<Message>, m: Message)
      ensures MentionsRuntimeDone(batch + [m]) <==> MentionsRuntimeDone(batch) || Contains(m.body, RUNTIME_DONE)
    {
      hide Contains, Parts;
      ContainsExactly(m.body, RUNTIME_DONE);
      assert (batch + [m])[|batch|] == m;
      forall k | 0 <= k < |batch| ensures (batch + [m])[k] == batch[k] {}
      if MentionsRuntimeDone(batch) {
        var k, a, b :| 0 <= k < |batch| && Parts(batch[k].body, a, "platform.runtimeDone", b);
        assert Parts((batch + [m])[k].body, a, "platform.runtimeDone", b);
      }
      if Contains(m.body, RUNTIME_DONE) {
        var a, b :| Parts(m.body, a, RUNTIME_DONE, b);
        assert Parts((batch + [m])[|batch|].body, a, "platform.runtimeDone", b);
      }
    }

    /** One blocking send of the requeue loop. */
    method PutBackOne(msg: Message) returns (blocked: bool)
      requires Linked() && world.phase.Requeueing? && world.phase.next < |world.phase.batch|
      requires msg == world.phase.batch[world.phase.next]
      modifies this`dataQueue, this`world, this`ticks, this`trace
      ensures Linked() && world.acked == old(world.acked) && world.events == old(world.events) && closed == old(closed)
      ensures AllIn(old(world)) ==> AllIn(world)
      ensures var Requeueing(job, b, n) := old(world.phase);
              && world.phase == Requeueing(job, b, if blocked then n else n + 1)
              && (blocked ==> |dataQueue| >= setup.capacity)
              && (AllIn(old(world)) ==>
                    && blocked == (|old(dataQueue)| >= setup.capacity)
                    && (!blocked ==> dataQueue == old(dataQueue) + [msg]))
    {
      hide After, Restrict, Waiting;
      Interfere();
      blocked := |dataQueue| >= setup.capacity;
      if !blocked {
        dataQueue := dataQueue + [msg];
        Record(PutBack);
      }
    }

    /** The requeue loop of a failed drain or flush. */
    method PutBackAll(rawMsgArr: seq<Message>) returns (blocked: bool)
      requires Linked() && world.phase.Requeueing? && world.phase.batch == rawMsgArr && world.phase.next == 0
      modifies this`dataQueue, this`world, this`ticks, this`trace
      ensures Linked() && world.acked == old(world.acked) && closed == old(closed)
      ensures blocked ==> world.phase.Requeueing? && world.phase.batch == rawMsgArr && !CanFinishNow()
      ensures !blocked ==>
        && world.phase == Returned(old(world.phase.job)) && !world.settled
        && world.events == old(world.events) + [DoneEvent(old(world.phase.job), false)]
        && Restrict(dataQueue, rawMsgArr) == rawMsgArr && |dataQueue| == world.sinceEmpty + |rawMsgArr|
      ensures AllIn(old(world)) && |old(dataQueue)| + |rawMsgArr| <= setup.capacity ==>
        !blocked && AllIn(world) && dataQueue == old(dataQueue) + rawMsgArr
    {
      hide After, Restrict, Waiting;
      var n := 0;
      while n < |rawMsgArr|
        invariant 0 <= n <= |rawMsgArr| && Linked() && closed == old(closed)
        invariant world.phase == Requeueing(old(world.phase.job), rawMsgArr, n)
        invariant world.acked == old(world.acked) && world.events == old(world.events)
        invariant AllIn(old(world)) ==> AllIn(world) && dataQueue == old(dataQueue) + rawMsgArr[..n]
      {
        blocked := PutBackOne(rawMsgArr[n]);
        if blocked {
          return;
        }
        assert rawMsgArr[..n + 1] == rawMsgArr[..n] + [rawMsgArr[n]];
        n := n + 1;
      }
      assert rawMsgArr[..n] == rawMsgArr;
      blocked := false;
      Record(FinishPutBack);
    }

    /** The requeue under way fits into the queue. */
    ghost predicate CanFinishNow()
      reads this
    {
      world.phase.Requeueing? ==> world.sinceEmpty + |world.phase.batch| <= setup.capacity
    }

    /** What a drain did. */
    twostate predicate DrainDone(outcome: Outcome, batch: seq<Message>, sent: bool)
      requires old(world).phase.Draining?
      reads this
    {
      && closed == old(closed) && old(dataQueue) <= batch
      && (match outcome
         case BlockedForever =>
           && !sent && world.acked == old(world.acked)
           && world.phase.Requeueing? && world.phase.batch == batch && !CanFinishNow()
         case Back(runtimeDone) =>
           && world.phase == Returned(old(world).phase.job) && world.settled == sent
           && world.events == old(world.events) + [DoneEvent(old(world).phase.job, sent)]
           && world.acked == old(world.acked) + (if sent then batch else [])
           && runtimeDone == (if MentionsRuntimeDone(batch) then 1 else 0)
           && (!sent ==> Restrict(dataQueue, batch) == batch && |dataQueue| == world.sinceEmpty + |batch|))
      && (AllIn(old(world)) ==>
            outcome.Back? && AllIn(world) && batch == old(dataQueue) && dataQueue == if sent then [] else batch)
    }

    /** What the return of SendAllLogs or FlushAll means for the batch in hand. */
    twostate predicate SendFinished(ok: bool)
      requires old(world).phase.Sending?
      reads this
    {
      var Sending(job, b) := old(world).phase;
      && closed == old(closed) && (AllIn(old(world)) ==> AllIn(world) && dataQueue == old(dataQueue))
      && world.phase == (if ok then Returned(job) else Requeueing(job, b, 0)) && world.settled == ok
      && world.acked == old(world.acked) + (if ok then b else [])
      && world.events == old(world.events) + (if ok then [DoneEvent(job, true)] else [])
    }

    /** SendAllLogs or FlushAll has returned. */
    method FinishSend(ok: bool)
      requires Linked() && world.phase.Sending? && (world.phase.batch == [] ==> ok)
      modifies this`dataQueue, this`world, this`ticks, this`trace
      ensures Linked() && SendFinished(ok)
    {
      hide After, Restrict, Waiting;
      Interfere();
      Record(SendDone(ok));
    }

    /** DrainQueue's call of SendAllLogs. */
    method SendDrained(rawMsgArr: seq<Message>) returns (ok: bool, ghost call: D.Call)
      requires Valid() && Accounted() && world.phase.Sending? && world.phase.batch == rawMsgArr
      modifies this`dataQueue, this`world, this`ticks, this`trace, this`receipts
      modifies client`log, client`ticks, client.net
      ensures Valid() && Accounted() && SendFinished(ok)
      ensures D.Called(client, old(client.log), client.log, Post, old(client.ticks), call)
      ensures call.batch == rawMsgArr && call.ok == ok
    {
      hide After, Next, Restrict, Waiting, BatchItems, ItemCount, Hand, Lines, AllOk, AllOf;
      hide D.Accounts, Faithful, AllRequests, AllPuts;
      assert Bodies(rawMsgArr) == [] <==> rawMsgArr == [];
      ok := client.SendAllLogs(Bodies(rawMsgArr));
      call := D.Call(Post, old(client.ticks), rawMsgArr, |old(client.log)|, |client.log|, ok);
      assert client.log[call.from..call.upto] == client.log[|old(client.log)|..];
      assert D.TookPlace(client, client.log, call);
      hide D.TookPlace;
      FinishSend(ok);
      D.FiledAccounts(client, old(client.log), client.log, receipts, old(world.acked), call);
      receipts := D.Filed(receipts, call);
    }

    /** DrainQueue; `call` is its call of SendAllLogs. */
    method DrainQueue() returns (outcome: Outcome, ghost call: D.Call)
      requires Valid() && Accounted()
      requires world.phase.Draining? && world.phase.batch == [] && !world.phase.job.OnFlushAll?
      modifies this`dataQueue, this`world, this`ticks, this`trace, this`receipts
      modifies client`log, client`ticks, client.net
      ensures Valid() && Accounted() && DrainDone(outcome, call.batch, call.ok)
      ensures D.Called(client, old(client.log), client.log, Post, old(client.ticks), call)
    {
      hide After, Next, Restrict, Waiting, BatchItems, ItemCount, MentionsRuntimeDone;
      hide D.Accounts, D.TookPlace, Faithful, AllFaithful, AllRequests, AllPuts;
      var rawMsgArr, runtimeDone := ReceiveAll();
      var ok;
      ok, call := SendDrained(rawMsgArr);
      if !ok {
        var blocked := PutBackAll(rawMsgArr);
        if blocked {
          return BlockedForever, call;
        }
      }
      outcome := Back(runtimeDone);
    }

  // -------------------------------------------------- control of the loop

    /** runTimeAPIInit up to its next-event call. */
    method RegisterExtension()
      requires Linked() && world.phase.Start?
      modifies this`world, this`trace
      ensures Linked() && world.acked == old(world.acked)
      ensures world.phase == if registers then Asking(true) else Stopped(RegisterFailed)
    {
      hide After, Restrict;
      Record(Register(registers));
    }

    /** The default branch of the select starts a drain. */
    method TakeDefault()
      requires Linked() && world.phase.Loop?
      modifies this`world, this`trace
      ensures Linked() && world == old(world).(phase := Draining(BeforeNext, []))
    {
      hide After, Restrict;
      Record(Default);
    }

    /** The cancelled branch of the select starts a flush. */
    method TakeCancel()
      requires Linked() && world.phase.Loop? && setup.Valid()
      modifies this`world, this`trace
      ensures Linked()
      ensures world == old(world).(phase :=
        if setup.enableFailover then Draining(OnFlushAll, [])
        else Draining(OnCancel(setup.MoreDrains(|dataQueue|)), []))
    {
      hide After, Restrict, Setup.MoreDrains;
      Record(Cancel);
    }

    /** A drain returned to its caller. */
    method GoOn()
      requires Linked() && world.phase.Returned? && !world.phase.job.OnFlushAll?
      modifies this`world, this`trace
      ensures Linked() && world.queue == old(world.queue) && world.acked == old(world.acked)
      ensures world.accepted == old(world.accepted)
      ensures world.phase ==
        match old(world.phase.job)
        case BeforeNext => Asking(false)
        case OnCancel(left) => if left == 0 then Stopped(ByCancel) else Draining(OnCancel(left - 1), [])
        case _ => Stopped(ByShutdown)
    {
      hide After, Restrict;
      Record(Return);
    }

    /** close(dataQueue), the end of a flush with failover. */
    method CloseQueue()
      requires Linked() && world.phase == Returned(OnFlushAll)
      modifies this`world, this`trace, this`closed
      ensures Linked() && closed
      ensures world ==
        old(world).(phase := Stopped(ByCancel), closed := true, events := old(world.events) + [Closed])
    {
      hide After, Restrict;
      closed := true;
      Record(Return);
    }

    // -------------------------------------------------------------- flush

    /** FlushDataQueue's call of FlushAll. */
    method SendFlushed(rawMsgArr: seq<Message>) returns (ok: bool, ghost call: D.Call)
      requires Valid() && Accounted() && world.phase.Sending? && world.phase.batch == rawMsgArr && setup.enableFailover
      modifies this`dataQueue, this`world, this`ticks, this`trace, this`receipts
      modifies client`log, client`ticks, client.net`puts
      ensures Valid() && Accounted() && SendFinished(ok)
      ensures D.Called(client, old(client.log), client.log, Flush, old(client.ticks), call)
      ensures call.batch == rawMsgArr && call.ok == ok
    {
      hide After, Next, Restrict, Waiting, BatchItems, ItemCount, Hand, Lines, AllOk, AllOf;
      hide D.Accounts, Faithful, AllRequests, AllPuts;
      assert Bodies(rawMsgArr) == [] <==> rawMsgArr == [];
      ok := client.FlushAll(Bodies(rawMsgArr));
      call := D.Call(Flush, old(client.ticks), rawMsgArr, |old(client.log)|, |client.log|, ok);
      assert client.log[call.from..call.upto] == client.log[|old(client.log)|..];
      assert D.TookPlace(client, client.log, call);
      hide D.TookPlace;
      FinishSend(ok);
      D.FiledAccounts(client, old(client.log), client.log, receipts, old(world.acked), call);
      receipts := D.Filed(receipts, call);
    }

    /** FlushDataQueue with failover: one FlushAll for everything queued, requeue on
        error, then the channel is closed.  The handlers are done by then: a push
        on a closed channel would panic. */
    method FlushWithFailover() returns (ghost call: D.Call)
      requires Valid() && Accounted() && world.phase.Loop? && !closed && setup.enableFailover && AllIn(world)
      modifies this`dataQueue, this`world, this`ticks, this`trace, this`closed, this`receipts
      modifies client`log, client`ticks, client.net`puts
      ensures Valid() && Accounted() && world.phase == Stopped(ByCancel) && closed
      ensures world.events == old(world.events) + [Flushed(call.ok), Closed]
      ensures D.Called(client, old(client.log), client.log, Flush, old(client.ticks), call)
      ensures call.batch == old(dataQueue)
      ensures dataQueue == if call.ok then [] else old(dataQueue)
      ensures world.acked == old(world.acked) + if call.ok then old(dataQueue) else []
    {
      hide After, Next, Restrict, Waiting, BatchItems, ItemCount, MentionsRuntimeDone;
      hide D.Accounts, D.TookPlace, Faithful, AllFaithful, AllRequests, AllPuts;
      TakeCancel();
      var rawMsgArr, _ := ReceiveAll();
      var ok;
      ok, call := SendFlushed(rawMsgArr);
      if !ok {
        var blocked := PutBackAll(rawMsgArr);
      }
      CloseQueue();
      assert old(world.events) + [Flushed(ok)] + [Closed] == old(world.events) + [Flushed(ok), Closed];
    }

    /** FlushDataQueue without failover: len / MaxConcurrentRequests + 1 drains;
        `calls` are their calls of SendAllLogs.  With quiet handlers every call gets
        the whole queue until one of them succeeds. */
    method FlushByDraining() returns (stuck: bool, ghost calls: seq<D.Call>)
      requires Valid() && Accounted() && world.phase.Loop? && !closed && !setup.enableFailover
      modifies this`dataQueue, this`world, this`ticks, this`trace, this`receipts
      modifies client`log, client`ticks, client.net
      ensures Valid() && Accounted() && !closed && old(client.log) <= client.log
      ensures D.Chain(client, client.log, Post, |old(client.log)|, calls)
      ensures stuck ==> world.phase.Requeueing? && !CanFinishNow()
      ensures !stuck ==> world.phase == Stopped(ByCancel)
      ensures !stuck ==> |calls| == |old(dataQueue)| / setup.maxConcurrentRequests + 1
      ensures calls != [] && old(dataQueue) <= calls[0].batch
      ensures AllIn(old(world)) ==>
        !stuck && D.FlushLeft(old(dataQueue), old(world.acked), calls, dataQueue, world.acked)
    {
      hide After, Next, Restrict, Waiting, BatchItems, ItemCount, MentionsRuntimeDone;
      hide D.Accounts, D.TookPlace, D.Chain, D.FlushLeft, Faithful, AllFaithful, AllRequests, AllPuts;
      var maxCalls := |dataQueue| / client.cfg.maxConcurrentRequests + 1;
      TakeCancel();
      calls := [];
      D.NoCalls(client, client.log, Post);
      D.FlushLeftStart(dataQueue, world.acked);
      var i := 0;
      while i < maxCalls
        invariant 0 <= i <= maxCalls && Valid() && Accounted() && !closed && |calls| == i
        invariant old(client.log) <= client.log && D.Chain(client, client.log, Post, |old(client.log)|, calls)
        invariant if i == 0 then dataQueue == old(dataQueue) else old(dataQueue) <= calls[0].batch
        invariant i < maxCalls ==> world.phase == Draining(OnCancel(maxCalls - 1 - i), [])
        invariant i == maxCalls ==> world.phase == Stopped(ByCancel)
        invariant AllIn(old(world)) ==>
          AllIn(world) && D.FlushLeft(old(dataQueue), old(world.acked), calls, dataQueue, world.acked)
      {
        ghost var waslog, queue, acked := client.log, dataQueue, world.acked;
        var blocked, call := FlushRound();
        D.ChainGrows(client, waslog, client.log, Post, |old(client.log)|, calls, call);
        if AllIn(old(world)) { D.FlushLeftNext(old(dataQueue), old(world.acked), calls, call, queue, acked); }
        calls := calls + [call];
        if blocked {
          return true, calls;
        }
        i := i + 1;
      }
      stuck := false;
    }

    /** One round of the draining flush. */
    method FlushRound() returns (blocked: bool, ghost call: D.Call)
      requires Valid() && Accounted() && world.phase.Draining? && world.phase.job.OnCancel? && world.phase.batch == []
      modifies this`dataQueue, this`world, this`ticks, this`trace, this`receipts
      modifies client`log, client`ticks, client.net
      ensures Valid() && Accounted() && closed == old(closed)
      ensures D.Called(client, old(client.log), client.log, Post, old(client.ticks), call)
      ensures old(dataQueue) <= call.batch
      ensures blocked ==> world.phase.Requeueing? && !CanFinishNow()
      ensures !blocked ==>
        world.phase == var left := old(world.phase.job.left);
                       if left == 0 then Stopped(ByCancel) else Draining(OnCancel(left - 1), [])
      ensures AllIn(old(world)) ==>
        && !blocked && AllIn(world) && call.batch == old(dataQueue)
        && dataQueue == (if call.ok then [] else old(dataQueue)) && world.acked == old(world.acked) + D.Gained(call)
    {
      hide After, Next, Restrict, Waiting, BatchItems, ItemCount, MentionsRuntimeDone, Hand;
      hide D.Accounts, D.TookPlace, Faithful, AllFaithful, AllRequests, AllPuts;
      var outcome;
      outcome, call := DrainQueue();
      blocked := outcome.BlockedForever?;
      if !blocked {
        GoOn();
      }
    }

    // --------------------------------------------------------- event loop

    /** Whether a next-event call of this finite run returns at all. */
    method AskNext() returns (event: Option<NextEvent>)
      requires Valid() && world.phase.Asking?
      modifies this`dataQueue, this`world, this`ticks, this`trace, this`asked
      ensures Valid() && closed == old(closed) && world.acked == old(world.acked)
      ensures event.None? ==> world.phase == old(world.phase) && asked == old(asked) == |script|
      ensures event.Some? ==> old(asked) < |script| && asked == old(asked) + 1 && event.value == script[old(asked)]
      ensures event.Some? ==> world.phase == AfterNext(event.value, old(world.phase.first))
    {
      hide After, Restrict, Waiting;
      Interfere();
      if asked == |script| {
        return None;
      }
      event := Some(script[asked]);
      asked := asked + 1;
      assert script[..asked] == script[..asked - 1] + [script[asked - 1]];
      Record(NextReturned(event.value));
    }

    /** A call of DrainQueue in the event loop, up to its caller's next statement. */
    method DrainOnce() returns (stuck: bool)
      requires Valid() && Accounted() && world.phase.Draining? && world.phase.batch == []
      requires world.phase.job.BeforeNext? || world.phase.job.OnShutdown?
      modifies this`dataQueue, this`world, this`ticks, this`trace, this`receipts
      modifies client`log, client`ticks, client.net
      ensures Valid() && Accounted() && closed == old(closed) && old(client.log) <= client.log
      ensures stuck ==> world.phase.Requeueing? && !T.CanFinish(setup, world)
      ensures !stuck ==> world.phase == if old(world.phase.job).BeforeNext? then Asking(false) else Stopped(ByShutdown)
    {
      hide After, Next, Restrict, Waiting, BatchItems, ItemCount, MentionsRuntimeDone;
      var outcome, _ := DrainQueue();
      stuck := outcome.BlockedForever?;
      if stuck {
        StuckForGood();
      } else {
        GoOn();
      }
    }

    function AfterNext(event: NextEvent, first: bool): Phase {
      if event.NextError? then Stopped(NextFailed)
      else if event.Shutdown? && !first then Draining(OnShutdown, [])
      else Loop
    }

    /** Whether the select finds the context done, and what it saw.  A flush that will
        close the queue starts only when no handler can push any more. */
    method Cancelled() returns (done: bool, ghost look: D.Look)
      requires Linked() && world.phase.Loop? && !closed
      modifies this`dataQueue, this`world, this`ticks, this`trace
      ensures Linked() && world.phase.Loop? && !closed && world.acked == old(world.acked)
      ensures look.quiet == AllIn(world)
      ensures done == (cancelled(look.at) && (!setup.enableFailover || look.quiet))
    {
      Interfere();
      look := D.Look(ticks, AllIn(world));
      done := cancelled(ticks) && (setup.enableFailover ==> AllIn(world));
    }

    /** Where each way to end a run leaves the event loop. */
    ghost predicate Ended(end: RunEnd)
      reads this
    {
      match end
      case Finished => world.phase.Stopped?
      case Frozen => world.phase.Asking? && asked == |script|
      case Stuck => world.phase.Requeueing? && !T.CanFinish(setup, world)
    }

    /** runTimeAPIInit: register, subscribe and ask for the first event. */
    method RunTimeAPIInit() returns (end: Option<RunEnd>)
      requires Valid() && Accounted() && world.phase.Start? && !closed
      modifies this`dataQueue, this`world, this`ticks, this`trace, this`asked
      ensures Valid() && Accounted() && !closed
      ensures if end.None? then world.phase.Loop? && asked == old(asked) + 1
              else Ended(end.value) && world.phase != Stopped(ByCancel) && old(asked) <= asked <= old(asked) + 1
      ensures world.phase == Stopped(RegisterFailed) <==> !registers
    {
      hide After, Next, Restrict, Waiting, Hand, D.Accounts, Faithful, AllFaithful, AllRequests, AllPuts;
      RegisterExtension();
      if !registers {
        return Some(Finished);
      }
      var event := AskNext();
      end :=
        if event.None? then Some(Frozen)
        else if event.value.NextError? then Some(Finished)
        else None;
    }

    /** The default branch of the select: drain, ask for the next event, and drain
        once more when it is a shutdown. */
    method DrainAndNext() returns (end: Option<RunEnd>)
      requires Valid() && Accounted() && world.phase.Loop? && !closed
      modifies this`dataQueue, this`world, this`ticks, this`trace, this`asked, this`receipts
      modifies client`log, client`ticks, client.net
      ensures Valid() && Accounted() && !closed && old(client.log) <= client.log
      ensures if end.None? then world.phase.Loop? && asked == old(asked) + 1
              else Ended(end.value) && world.phase != Stopped(ByCancel) && old(asked) <= asked <= old(asked) + 1
      ensures world.phase != Stopped(RegisterFailed)
    {
      hide After, Next, Restrict, Waiting, BatchItems, ItemCount, Hand, T.CanFinish;
      hide D.Accounts, Faithful, AllFaithful, AllRequests, AllPuts;
      TakeDefault();
      var stuck := DrainOnce();
      if stuck {
        return Some(Stuck);
      }
      var event := AskNext();
      if event.None? {
        return Some(Frozen);
      }
      if event.value.NextError? {
        return Some(Finished);
      }
      if event.value.Shutdown? {
        stuck := DrainOnce();
        return Some(if stuck then Stuck else Finished);
      }
      end := None;
    }

    /** processEvents: register, then drain and ask for the next event until a
        shutdown, an error or a cancelled context.  `looks` are its looks at the
        context, one before each drain, and `report` tells of the flush. */
    method ProcessEvents() returns (end: RunEnd, ghost report: D.FlushReport, ghost looks: seq<D.Look>)
      requires Valid() && Accounted() && world.phase.Start? && !closed
      modifies this`dataQueue, this`world, this`ticks, this`trace, this`closed, this`asked, this`receipts
      modifies client`log, client`ticks, client.net
      ensures Valid() && Accounted() && Reachable(setup, world) && old(client.log) <= client.log
      ensures forall m :: m in world.acked ==> D.MessageDelivered(client, receipts, m)
      ensures Ended(end)
      ensures world.phase == Stopped(RegisterFailed) <==> !registers
      ensures asked <= |script| && forall k :: 0 <= k < asked - 1 ==> script[k] != NextError
      ensures forall k :: 1 <= k < asked - 1 ==> script[k] != NextEvent.Shutdown
      ensures world.phase == Stopped(NextFailed) <==> end.Finished? && asked >= 1 && script[asked - 1] == NextError
      ensures world.phase == Stopped(ByShutdown) <==>
                end.Finished? && asked >= 2 && script[asked - 1] == NextEvent.Shutdown
      ensures exists flushed ::
                && D.FirstToFlush(looks, cancelled, setup.enableFailover, flushed)
                && (world.phase == Stopped(ByCancel) <==> end.Finished? && flushed)
      ensures |looks| <= asked <= |looks| + 1
      ensures world.phase == Stopped(ByCancel) ==> FlushOver(report) && |old(client.log)| <= report.start
    {
      hide After, Next, Restrict, Waiting, BatchItems, ItemCount, T.CanFinish;
      hide D.Accounts, D.MessageDelivered, D.Reported, D.FirstToFlush, Faithful, AllFaithful, AllRequests, AllPuts;
      hide Hand, Inv, Reachable;
      report, looks := D.FlushReport(false, [], [], 0, []), [];
      D.NoLooks(cancelled, setup.enableFailover);
      NotAskedYet();
      ghost var flushed := false;
      var over := RunTimeAPIInit();
      while over.None?
        invariant Valid() && Accounted() && old(client.log) <= client.log
        invariant if over.None? then world.phase.Loop? && !closed else Ended(over.value)
        invariant world.phase == Stopped(RegisterFailed) <==> !registers
        invariant D.FirstToFlush(looks, cancelled, setup.enableFailover, flushed)
        invariant over.None? ==> !flushed && |looks| == asked - 1
        invariant |looks| <= asked <= |looks| + 1
        invariant world.phase == Stopped(ByCancel) <==> over == Some(Finished) && flushed
        invariant world.phase == Stopped(ByCancel) ==> FlushOver(report) && |old(client.log)| <= report.start
        decreases over.None?, |script| - asked
      {
        var done, look := Cancelled();
        D.LookedOnce(looks, cancelled, setup.enableFailover, look);
        looks := looks + [look];
        flushed := done;
        if done {
          var ended;
          ended, report := FlushDataQueue();
          over := Some(ended);
        } else {
          over := DrainAndNext();
        }
      }
      end := over.value;
      WorldReachable();
      AnswersMean();
      D.AllDelivered(client, receipts, world.acked);
    }

    lemma NotAskedYet()
      requires Linked() && world.phase.Start?
      ensures asked == 0
    {
      WorldReachable();
      T.HeardReachable(setup, world);
      assert |world.answers| == asked;
    }

    /** What the answers used so far say about where the run is. */
    lemma AnswersMean()
      requires Linked()
      ensures forall k :: 0 <= k < asked - 1 ==> script[k] != NextError
      ensures forall k :: 1 <= k < asked - 1 ==> script[k] != NextEvent.Shutdown
      ensures world.phase == Stopped(NextFailed) <==> asked >= 1 && script[asked - 1] == NextError
      ensures T.ShuttingDown(world.phase) <==> asked >= 2 && script[asked - 1] == NextEvent.Shutdown
    {
      WorldReachable();
      T.HeardReachable(setup, world);
      T.HeardMeans(world);
      assert forall k :: 0 <= k < asked ==> world.answers[k] == script[k];
    }

    lemma StuckForGood()
      requires Linked() && world.phase.Requeueing? && !CanFinishNow()
      ensures Reachable(setup, world) && !T.CanFinish(setup, world)
    {
      WorldReachable();
      T.RequeueFinishesIffFits(setup, world);
    }

    /** The cancelled branch of processEvents, with a report of what it met and did. */
    method FlushDataQueue() returns (end: RunEnd, ghost report: D.FlushReport)
      requires Valid() && Accounted() && world.phase.Loop? && !closed && (setup.enableFailover ==> AllIn(world))
      modifies this`dataQueue, this`world, this`ticks, this`trace, this`closed, this`receipts
      modifies client`log, client`ticks, client.net
      ensures Valid() && Accounted() && Reachable(setup, world) && !end.Frozen? && old(client.log) <= client.log
      ensures end.Finished? ==> world.phase == Stopped(ByCancel) && FlushOver(report)
      ensures end.Stuck? ==> world.phase.Requeueing? && !T.CanFinish(setup, world)
      ensures end.Stuck? ==> D.Chain(client, client.log, Post, report.start, report.calls)
      ensures report.queued == old(dataQueue) && report.acked == old(world.acked)
      ensures report.quiet == AllIn(old(world)) && report.start == |old(client.log)|
    {
      hide After, Next, Restrict, Waiting, BatchItems, ItemCount, MentionsRuntimeDone, Hand;
      hide D.Accounts, D.TookPlace, D.Chain, D.FlushLeft, Faithful, AllFaithful, AllRequests, AllPuts;
      end := Finished;
      report := D.FlushReport(AllIn(world), dataQueue, world.acked, |client.log|, []);
      if setup.enableFailover {
        ghost var call := FlushWithFailover();
        D.OneCallReported(client, old(client.log), client.log, old(dataQueue), old(world.acked), call);
        report := report.(calls := [call]);
      } else {
        var stuck;
        ghost var calls;
        stuck, calls := FlushByDraining();
        report := report.(calls := calls);
        if stuck {
          StuckForGood();
          end := Stuck;
        }
      }
      WorldReachable();
    }

    /** The flush that this report describes is over, and with failover the queue is
        closed. */
    ghost predicate FlushOver(report: D.FlushReport)
      requires client.codec.Valid() && client.cfg.maxConcurrentRequests > 0
      reads this, client
    {
      closed == client.cfg.enableFailover && D.Reported(client, client.log, report, dataQueue, world.acked)
    }
  }
}
