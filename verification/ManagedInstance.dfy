/** The managed-instance producer and consumer as imperative code over the shared
    channels.  Every channel operation is one step of ManagedProtocol, and other
    agents may run between any two of them, so whatever holds in every reachable
    protocol state holds here at every point of the code. */
module ManagedInstance {
  import opened Telemetry
  import opened Wire
  import opened SumoClient
  import opened Utils
  import opened ManagedProtocol
  import D = Delivery
  import T = ManagedTheorems

  datatype Agent = Consumer | Poster(i: nat)

  predicate Belongs(a: Action, me: Agent) {
    match me case Consumer => !a.Handle? case Poster(i) => a == Handle(i)
  }

  predicate HandlersDone(s: State) {
    forall i :: 0 <= i < |s.handlers| ==> s.handlers[i] == Reporting(0)
  }

  class Instance {
    const setup: Setup
    const client: Client
    const schedule: nat -> seq<Action>   // what the other agents do at each opportunity
    const cancelled: nat -> bool         // whether the context is done at each look
    var dataQueue: seq<Message>          // the buffered channel of payloads
    var flushSignal: seq<Signal>         // the buffered channel of signals
    var closed: bool
    var world: State                     // every agent's control point, and the ledger
    var ticks: nat
    ghost var owed: nat
    ghost var trace: seq<Action>         // the run so far
    ghost var receipts: seq<D.Call>      // why each acknowledged message counts as such

    ghost predicate Valid()
      reads this, client, client.net
    {
      client.Valid() && Linked()
    }

    ghost predicate Linked()
      reads this
    {
      && After(setup, Init(setup, owed), trace) == Some(world)
      && dataQueue == world.queue && flushSignal == world.signals
      && Bounds(setup, world) && Hand(setup, world)
    }

    /** Every acknowledged message has its receipt. */
    ghost predicate Accounted()
      requires client.codec.Valid()
      reads this, client
    {
      D.Accounts(client, client.log, receipts, world.acked)
    }

    constructor (setup: Setup, client: Client, schedule: nat -> seq<Action>, cancelled: nat -> bool)
      requires client.Valid()
      ensures Valid() && Accounted() && world == Init(setup, 0) && !closed
      ensures this.setup == setup && this.client == client
    {
      this.setup, this.client, this.schedule, this.cancelled := setup, client, schedule, cancelled;
      dataQueue, flushSignal, closed := [], [], false;
      world, ticks := Init(setup, 0), 0;
      owed, trace, receipts := 0, [], [];
      T.InitInv(setup, 0);
    }

    lemma WorldInv()
      requires Linked()
      ensures Inv(setup, world) && Reachable(setup, world)
    {
      InvReachable(setup, world);
    }

    /** The code at hand has just done `a` on the channels. */
    method Record(a: Action)
      requires After(setup, Init(setup, owed), trace) == Some(world)
      requires Bounds(setup, world) && Hand(setup, world) && Enabled(setup, world, a)
      requires dataQueue == Next(setup, world, a).queue && flushSignal == Next(setup, world, a).signals
      modifies this`world, this`trace
      ensures Linked() && world == Next(setup, old(world), a) && trace == old(trace) + [a]
    {
      hide Next, Enabled, Init, Restrict, Messages;
      AfterSnoc(setup, Init(setup, owed), trace, a);
      world := Next(setup, world, a);
      trace := trace + [a];
      InvReachable(setup, world);
    }

    /** What the others cannot touch while `me` is between two operations. */
    ghost predicate Untouched(me: Agent, s: State, s': State) {
      match me
      case Consumer =>
        && s'.phase == s.phase && s'.drainsOwed == s.drainsOwed && s'.requeued == s.requeued
        && s'.acked == s.acked && s'.lost == s.lost
        && s.queue <= s'.queue && |s'.queue| - s'.sinceEmpty == |s.queue| - s.sinceEmpty
        && |s'.handlers| == |s.handlers|
        && (HandlersDone(s) ==> s' == s)
      case Poster(i) => |s'.handlers| == |s.handlers| && (i < |s.handlers| ==> s'.handlers[i] == s.handlers[i])
    }

    lemma StepUntouched(me: Agent, s: State, a: Action)
      requires Enabled(setup, s, a) && !Belongs(a, me)
      ensures Untouched(me, s, Next(setup, s, a))
    {
    }

    lemma UntouchedTrans(me: Agent, s: State, m: State, s': State)
      requires Untouched(me, s, m) && Untouched(me, m, s')
      ensures Untouched(me, s, s')
    {
    }

    /** One scheduled step of another agent. */
    method OtherStep(me: Agent, a: Action)
      requires Linked() && !Belongs(a, me) && Enabled(setup, world, a)
      modifies this`dataQueue, this`flushSignal, this`world, this`trace
      ensures Linked() && Untouched(me, old(world), world) && old(trace) <= trace
      ensures T.StepsBound(setup, world) < T.StepsBound(setup, old(world))
    {
      hide T.Work;
      WorldInv();
      StepUntouched(me, world, a);
      T.EveryStepCounts(setup, world, a);
      dataQueue, flushSignal := Next(setup, world, a).queue, Next(setup, world, a).signals;
      Record(a);
    }

    /** Others run: the scheduled steps that are enabled, in order. */
    method Interfere(me: Agent)
      requires Linked()
      modifies this`dataQueue, this`flushSignal, this`world, this`ticks, this`trace
      ensures Linked() && Untouched(me, old(world), world) && old(trace) <= trace
      ensures T.StepsBound(setup, world) <= T.StepsBound(setup, old(world))
    {
      WorldInv();
      hide T.StepsBound, Next, After;
      var acts := schedule(ticks);
      ticks := ticks + 1;
      var n := 0;
      while n < |acts|
        invariant Linked() && Untouched(me, old(world), world) && old(trace) <= trace
        invariant T.StepsBound(setup, world) <= T.StepsBound(setup, old(world))
      {
        var a := acts[n];
        if !Belongs(a, me) && Enabled(setup, world, a) {
          ghost var before := world;
          OtherStep(me, a);
          UntouchedTrans(me, old(world), before, world);
        }
        n := n + 1;
      }
    }

    // ----------------------------------------------------------- producer

    /** The state after the first n steps of the run. */
    ghost function At(n: nat): Option<State>
      requires n <= |trace|
      reads this
    {
      After(setup, Init(setup, owed), trace[..n])
    }

    /** Step n of the run was one of handler i, which stood at h. */
    ghost predicate Stepped(n: nat, i: nat, h: Handler)
      reads this
    {
      && n < |trace| && trace[n] == Handle(i) && At(n).Some?
      && i < |At(n).value.handlers| && At(n).value.handlers[i] == h
    }

    /** checkQueueThreshold, run by handler i after its push.  At step `look` it reads
        the queue length; a length at the threshold makes its last step a signal,
        which is dropped only if the signal channel is full, and a shorter one makes
        the look its last step. */
    method CheckQueueThreshold(i: nat) returns (ghost look: nat)
      requires Linked() && i < |world.handlers| && i < |setup.posts| && world.handlers[i] == Offered
      modifies this`dataQueue, this`flushSignal, this`world, this`ticks, this`trace
      ensures Linked() && world.handlers[i] == Reporting(setup.Reports(i))
      ensures old(trace) <= trace && |old(trace)| <= look && Stepped(look, i, Offered)
      ensures if 5 * |At(look).value.queue| + 4 < 4 * setup.capacity
              then look == |trace| - 1 && flushSignal == At(look).value.signals
              else
                && look < |trace| - 1 && Stepped(|trace| - 1, i, Alarmed)
                && var pending := At(|trace| - 1).value.signals;
                   flushSignal == if |pending| < 10 then pending + [QueueThreshold] else pending
    {
      hide T.StepsBound, After;
      Interfere(Poster(i));
      look := |trace|;
      assert trace[..look] == trace;
      var queueLen := |dataQueue|;
      T.AlarmInNumbers(setup, queueLen);
      ghost var looked := trace;
      Record(Handle(i));
      assert trace[..look] == looked;
      if queueLen >= setup.Threshold() {
        Interfere(Poster(i));
        assert trace[..look] == looked && trace[look] == Handle(i);
        ghost var alarmed := trace;
        assert trace[..|trace|] == trace;
        if |flushSignal| < SIGNAL_SLOTS {
          flushSignal := flushSignal + [QueueThreshold];
        }
        Record(Handle(i));
        assert trace[..|alarmed|] == alarmed;
        assert trace[..look] == looked;
      }
    }

    /** The non-blocking push of logsHandler. */
    method TryPush(i: nat)
      requires Linked() && i < |world.handlers| && i < |setup.posts| && world.handlers[i] == Arrived
      modifies this`dataQueue, this`flushSignal, this`world, this`ticks, this`trace
      ensures Linked() && world.handlers[i] == Offered
    {
      hide T.StepsBound, After;
      var payload := Message(i, setup.posts[i]);
      Interfere(Poster(i));
      if |dataQueue| < setup.capacity {
        dataQueue := dataQueue + [payload];
      }
      Record(Handle(i));
    }

    /** The non-blocking report signal of logsHandler. */
    method TryReport(i: nat)
      requires Linked() && i < |world.handlers| && i < |setup.posts|
      requires world.handlers[i].Reporting? && world.handlers[i].left > 0
      modifies this`dataQueue, this`flushSignal, this`world, this`ticks, this`trace
      ensures Linked() && world.handlers[i] == Reporting(old(world.handlers[i].left) - 1)
    {
      hide T.StepsBound, After;
      Interfere(Poster(i));
      if |flushSignal| < SIGNAL_SLOTS {
        flushSignal := flushSignal + [PlatformReport];
      }
      Record(Handle(i));
    }

    /** logsHandler for POST i: from a read body to the 200 answer. */
    method LogsHandler(i: nat)
      requires Linked() && i < |world.handlers| && i < |setup.posts| && world.handlers[i] == Arrived
      modifies this`dataQueue, this`flushSignal, this`world, this`ticks, this`trace
      ensures Linked() && world.handlers[i] == Reporting(0)
      ensures multiset(world.offered)[Message(i, setup.posts[i])] == 1
    {
      hide T.StepsBound, After, Next;
      TryPush(i);
      var _ := CheckQueueThreshold(i);
      var events := setup.eventTypes(setup.posts[i]);
      if events.Some? {
        var types, n := events.value, 0;
        assert types[0..] == types;
        while n < |types|
          invariant 0 <= n <= |types| && Linked()
          invariant world.handlers[i] == Reporting(multiset(types[n..])["platform.report"])
        {
          assert types[n..] == [types[n]] + types[n + 1..];
          if types[n] == "platform.report" {
            TryReport(i);
          }
          n := n + 1;
        }
      }
      WorldInv();
    }

    // ----------------------------------------------------------- consumer

    /** The consumer's own step leaves the others and these parts of the ledger alone. */
    ghost predicate Steady(s: State, s': State) {
      && s'.acked == s.acked && s'.drainsOwed == s.drainsOwed
      && |s'.handlers| == |s.handlers| && (HandlersDone(s) ==> HandlersDone(s'))
    }

    /** select { case rawmsg := <-dataQueue: ... default: ... } in a drain. */
    method TryReceive() returns (got: Option<Message>)
      requires Linked() && world.phase.Draining?
      modifies this`dataQueue, this`flushSignal, this`world, this`ticks, this`trace
      ensures Linked() && Steady(old(world), world) && world.lost == old(world.lost)
      ensures T.StepsBound(setup, world) < T.StepsBound(setup, old(world))
      ensures var b := old(world.phase.batch);
              match got
              case Some(m) =>
                && world.phase == Draining(b + [m]) && old(dataQueue) <= [m] + dataQueue
                && (HandlersDone(old(world)) ==> [m] + dataQueue == old(dataQueue))
              case None =>
                && world.phase == (if b == [] then Idle else Sending(b))
                && old(dataQueue) == [] && dataQueue == [] && world.sinceEmpty == 0 && !world.requeued
    {
      hide T.StepsBound, After;
      Interfere(Consumer);
      if |dataQueue| > 0 {
        T.EveryStepCounts(setup, world, Receive);
        got := Some(dataQueue[0]);
        assert dataQueue == [dataQueue[0]] + dataQueue[1..];
        dataQueue := dataQueue[1..];
        Record(Receive);
      } else {
        T.EveryStepCounts(setup, world, SeeEmpty);
        got := None;
        Record(SeeEmpty);
      }
    }

    /** select { case dataQueue <- msg: default: } while putting a batch back. */
    method TryPutBack(msg: Message)
      requires Linked() && world.phase.Requeueing? && world.phase.next < |world.phase.batch|
      requires msg == world.phase.batch[world.phase.next]
      modifies this`dataQueue, this`flushSignal, this`world, this`ticks, this`trace
      ensures Linked() && Steady(old(world), world)
      ensures T.StepsBound(setup, world) < T.StepsBound(setup, old(world))
      ensures var Requeueing(b, n, k) := old(world.phase);
              && world.phase.Requeueing? && world.phase.batch == b && world.phase.next == n + 1
              && world.requeued == old(world.requeued)
              && world.phase.kept <= n + 1
              && old(world.lost) <= world.lost && |world.lost| + world.phase.kept == |old(world.lost)| + k + 1
              && (HandlersDone(old(world)) ==>
                    if |old(dataQueue)| < setup.capacity
                    then dataQueue == old(dataQueue) + [msg] && world.phase.kept == k + 1
                    else dataQueue == old(dataQueue) && world.phase.kept == k)
    {
      hide T.StepsBound, After;
      Interfere(Consumer);
      T.EveryStepCounts(setup, world, PutBack);
      if |dataQueue| < setup.capacity {
        dataQueue := dataQueue + [msg];
      }
      Record(PutBack);
    }

    /** The receive loop of DrainQueue and FlushDataQueue, up to the default branch. */
    method ReceiveAll() returns (rawMsgArr: seq<Message>)
      requires Linked() && world.phase == Draining([])
      modifies this`dataQueue, this`flushSignal, this`world, this`ticks, this`trace
      ensures Linked() && world.phase == if rawMsgArr == [] then Idle else Sending(rawMsgArr)
      ensures dataQueue == [] && world.sinceEmpty == 0 && !world.requeued && old(dataQueue) <= rawMsgArr
      ensures Steady(old(world), world) && world.lost == old(world.lost)
      ensures HandlersDone(old(world)) ==> rawMsgArr == old(dataQueue)
      ensures T.StepsBound(setup, world) < T.StepsBound(setup, old(world))
    {
      hide T.StepsBound, After, Next;
      rawMsgArr := [];
      while true
        invariant Linked() && world.phase == Draining(rawMsgArr)
        invariant Steady(old(world), world) && world.lost == old(world.lost)
        invariant old(dataQueue) <= rawMsgArr + dataQueue
        invariant HandlersDone(old(world)) ==> rawMsgArr + dataQueue == old(dataQueue)
        invariant T.StepsBound(setup, world) <= T.StepsBound(setup, old(world))
        decreases T.StepsBound(setup, world)
      {
        ghost var was := dataQueue;
        var got := TryReceive();
        match got
        case Some(rawmsg) =>
          assert rawMsgArr + ([rawmsg] + dataQueue) == (rawMsgArr + [rawmsg]) + dataQueue;
          assert rawMsgArr + was <= rawMsgArr + ([rawmsg] + dataQueue);
          rawMsgArr := rawMsgArr + [rawmsg];
        case None =>
          assert rawMsgArr + [] == rawMsgArr;
          return;
      }
    }

    /** The requeue loop: every message is offered back without blocking. */
    method PutBackAll(rawMsgArr: seq<Message>)
      requires Linked() && world.phase == Requeueing(rawMsgArr, 0, 0) && world.requeued
      modifies this`dataQueue, this`flushSignal, this`world, this`ticks, this`trace
      ensures Linked() && world.phase == Idle && world.requeued && Steady(old(world), world)
      ensures KeptAndLost(rawMsgArr, old(world.lost))
      ensures HandlersDone(old(world)) ==>
        dataQueue == old(dataQueue) + rawMsgArr[..Min(|rawMsgArr|, setup.capacity - |old(dataQueue)|)]
      ensures T.StepsBound(setup, world) < T.StepsBound(setup, old(world))
    {
      hide T.StepsBound, After, Restrict, Messages;
      var n := 0;
      while n < |rawMsgArr|
        invariant 0 <= n <= |rawMsgArr|
        invariant Linked() && world.requeued && Steady(old(world), world)
        invariant world.phase.Requeueing? && world.phase.batch == rawMsgArr && world.phase.next == n
        invariant old(world.lost) <= world.lost && |world.lost| + world.phase.kept == |old(world.lost)| + n
        invariant HandlersDone(old(world)) ==>
          world.phase.kept == Min(n, setup.capacity - |old(dataQueue)|)
        invariant HandlersDone(old(world)) ==> dataQueue == old(dataQueue) + rawMsgArr[..world.phase.kept]
        invariant T.StepsBound(setup, world) <= T.StepsBound(setup, old(world))
      {
        ghost var k := world.phase.kept;
        TryPutBack(rawMsgArr[n]);
        if world.phase.kept == k + 1 && k == n {
          assert rawMsgArr[..k + 1] == rawMsgArr[..k] + [rawMsgArr[n]];
        }
        n := n + 1;
      }
      T.HandAtTheEnd(setup, world);
      T.EveryStepCounts(setup, world, FinishPutBack);
      Record(FinishPutBack);
    }

    /** After a failed drain: the queue holds a prefix of the batch, in order, next
        to what arrived since it was seen empty, and exactly the rest is lost. */
    ghost predicate KeptAndLost(batch: seq<Message>, waslost: seq<Drop>)
      reads this
    {
      var kept := Min(|batch|, setup.capacity - world.sinceEmpty);
      && 0 <= kept && |dataQueue| == world.sinceEmpty + kept
      && Restrict(dataQueue, batch) == batch[..kept]
      && waslost <= world.lost && Messages(world.lost)[|waslost|..] == batch[kept..]
    }

    /** What the return of SendAllLogs or FlushAll means for the batch in hand. */
    twostate predicate SendFinished(ok: bool)
      requires old(world).phase.Sending?
      reads this
    {
      var b := old(world).phase.batch;
      && world.lost == old(world.lost) && world.drainsOwed == old(world.drainsOwed)
      && world.phase == (if ok then Idle else Requeueing(b, 0, 0))
      && world.acked == old(world.acked) + (if ok then b else [])
      && (if ok then world.requeued == old(world.requeued) else world.requeued)
      && (HandlersDone(old(world)) ==> HandlersDone(world) && dataQueue == old(dataQueue))
    }

    /** SendAllLogs or FlushAll has returned while others went on. */
    method FinishSend(ok: bool)
      requires Linked() && world.phase.Sending?
      modifies this`dataQueue, this`flushSignal, this`world, this`ticks, this`trace
      ensures Linked() && SendFinished(ok)
      ensures T.StepsBound(setup, world) < T.StepsBound(setup, old(world))
    {
      hide T.StepsBound, After;
      Interfere(Consumer);
      T.EveryStepCounts(setup, world, SendDone(ok));
      Record(SendDone(ok));
    }

    /** What a drain did: its batch begins with everything that was queued; it was
        acknowledged as a whole, or put back as far as it fits. */
    twostate predicate Drained(batch: seq<Message>, sent: bool)
      reads this
    {
      && world.phase == Idle && world.drainsOwed == old(world.drainsOwed) && old(dataQueue) <= batch
      && (sent ==> world.acked == old(world.acked) + batch && world.lost == old(world.lost) && !world.requeued)
      && (!sent ==> world.acked == old(world.acked) && world.requeued && KeptAndLost(batch, old(world.lost)))
      && (HandlersDone(old(world)) ==>
            HandlersDone(world) && batch == old(dataQueue) && dataQueue == if sent then [] else batch)
    }

    lemma NothingToCall(kind: Kind)
      requires client.codec.Valid() && (kind.Flush? ==> client.cfg.enableFailover)
      ensures var call := D.Call(kind, client.ticks, [], |client.log|, |client.log|, true);
              D.Called(client, client.log, client.log, kind, client.ticks, call)
    {
      hide BatchItems;
      assert Bodies([]) == [];
    }

    /** The call of SendAllLogs or FlushAll on a batch that is not empty. */
    method Send(kind: Kind, rawMsgArr: seq<Message>) returns (ok: bool, ghost call: D.Call)
      requires Valid() && Accounted() && world.phase == Sending(rawMsgArr) && rawMsgArr != []
      requires kind.Flush? ==> client.cfg.enableFailover
      modifies this`dataQueue, this`flushSignal, this`world, this`ticks, this`trace, this`receipts
      modifies client`log, client`ticks, client.net
      ensures Valid() && Accounted() && SendFinished(ok)
      ensures D.Called(client, old(client.log), client.log, kind, old(client.ticks), call)
      ensures call.batch == rawMsgArr && call.ok == ok
      ensures T.StepsBound(setup, world) < T.StepsBound(setup, old(world))
    {
      hide T.StepsBound, After, Next, Restrict, Messages, BatchItems, ItemCount, Lines, AllOk, AllOf, Hand;
      hide D.Accounts, Faithful, AllRequests, AllPuts;
      assert Bodies(rawMsgArr) != [];
      if kind.Post? {
        ok := client.SendAllLogs(Bodies(rawMsgArr));
      } else {
        ok := client.FlushAll(Bodies(rawMsgArr));
      }
      call := D.Call(kind, old(client.ticks), rawMsgArr, |old(client.log)|, |client.log|, ok);
      assert client.log[call.from..call.upto] == client.log[|old(client.log)|..];
      assert D.TookPlace(client, client.log, call);
      hide D.TookPlace;
      FinishSend(ok);
      D.FiledAccounts(client, old(client.log), client.log, receipts, old(world.acked), call);
      receipts := D.Filed(receipts, call);
    }

    /** The loop that DrainQueue (kind Post) and the flush with failover (kind Flush)
        share: receive everything, send it, put it back as far as it fits on an
        error.  `call` is the call of SendAllLogs or FlushAll. */
    method Drain(kind: Kind) returns (ghost call: D.Call)
      requires Valid() && Accounted() && world.phase == Draining([])
      requires kind.Flush? ==> client.cfg.enableFailover
      modifies this`dataQueue, this`flushSignal, this`world, this`ticks, this`trace, this`receipts
      modifies client`log, client`ticks, client.net
      ensures Valid() && Accounted() && Drained(call.batch, call.ok)
      ensures T.StepsBound(setup, world) < T.StepsBound(setup, old(world))
      ensures D.Called(client, old(client.log), client.log, kind, old(client.ticks), call)
    {
      hide T.StepsBound, After, Next, Restrict, Messages, Hand, D.Accounts, D.TookPlace;
      hide Faithful, AllFaithful, AllRequests, AllPuts;
      var rawMsgArr := ReceiveAll();
      NothingToCall(kind);
      call := D.Call(kind, client.ticks, [], |client.log|, |client.log|, true);
      if |rawMsgArr| > 0 {
        var ok;
        ok, call := Send(kind, rawMsgArr);
        if !ok {
          PutBackAll(rawMsgArr);
        }
      }
    }

    /** DrainQueue, entered by a received signal or by the shutdown loop; always
        returns 0.  `call` is its call of SendAllLogs. */
    method DrainQueue() returns (runtimeDone: int, ghost call: D.Call)
      requires Valid() && Accounted() && world.phase == Draining([])
      modifies this`dataQueue, this`flushSignal, this`world, this`ticks, this`trace, this`receipts
      modifies client`log, client`ticks, client.net
      ensures Valid() && Accounted() && runtimeDone == 0 && Drained(call.batch, call.ok)
      ensures T.StepsBound(setup, world) < T.StepsBound(setup, old(world))
      ensures D.Called(client, old(client.log), client.log, Post, old(client.ticks), call)
    {
      hide *;
      runtimeDone := 0;
      call := Drain(Post);
    }

    /** The shutdown flush is about to start n drains without a signal. */
    method OweDrains(n: nat)
      requires Linked()
      modifies this`world, this`owed
      ensures Linked() && world == old(world).(drainsOwed := old(world).drainsOwed + n)
    {
      hide After, Restrict, Messages, Init;
      OweMore(setup, owed, n, trace);
      owed := owed + n;
      world := world.(drainsOwed := world.drainsOwed + n);
    }

    /** A drain of the shutdown flush starts. */
    method StartDrain()
      requires Linked() && world.phase == Idle && world.drainsOwed > 0
      modifies this`world, this`trace
      ensures Linked()
      ensures world == old(world).(drainsOwed := old(world).drainsOwed - 1, phase := Draining([]))
    {
      hide After, Restrict, Messages;
      Record(StartFlushDrain);
    }

    /** FlushDataQueue with failover: the whole queue, in order, goes to one FlushAll
        call; the channel ends closed, and empty or exactly as it was. */
    method FlushWithFailover() returns (ghost call: D.Call)
      requires Valid() && Accounted() && world.phase == Idle && !closed
      requires HandlersDone(world) && client.cfg.enableFailover
      modifies this`dataQueue, this`flushSignal, this`world, this`ticks, this`trace, this`owed, this`closed
      modifies this`receipts, client`log, client`ticks, client.net
      ensures Valid() && Accounted() && world.phase == Idle && closed && HandlersDone(world)
      ensures D.Called(client, old(client.log), client.log, Flush, old(client.ticks), call)
      ensures call.batch == old(dataQueue)
      ensures dataQueue == if call.ok then [] else old(dataQueue)
      ensures world.acked == old(world.acked) + if call.ok then old(dataQueue) else []
    {
      hide T.StepsBound, After, Next, Restrict, Messages, Hand, KeptAndLost;
      hide D.Accounts, D.TookPlace, Faithful, AllFaithful, AllRequests, AllPuts;
      OweDrains(1);
      StartDrain();
      call := Drain(Flush);
      closed := true;
    }

    /** FlushDataQueue without failover: len / MaxConcurrentRequests + 1 drains;
        `calls` are their calls of SendAllLogs.  With quiet handlers every call gets
        the whole queue until one of them succeeds. */
    method FlushByDraining() returns (ghost calls: seq<D.Call>)
      requires Valid() && Accounted() && world.phase == Idle && client.cfg.maxConcurrentRequests > 0
      modifies this`dataQueue, this`flushSignal, this`world, this`ticks, this`trace, this`owed
      modifies this`receipts, client`log, client`ticks, client.net
      ensures Valid() && Accounted() && world.phase == Idle && old(client.log) <= client.log
      ensures D.Chain(client, client.log, Post, |old(client.log)|, calls)
      ensures |calls| == |old(dataQueue)| / client.cfg.maxConcurrentRequests + 1 && old(dataQueue) <= calls[0].batch
      ensures HandlersDone(old(world)) ==>
        HandlersDone(world) && D.FlushLeft(old(dataQueue), old(world.acked), calls, dataQueue, world.acked)
    {
      hide T.StepsBound, After, Next, Restrict, Messages, Hand, KeptAndLost;
      hide D.Accounts, D.TookPlace, D.Chain, D.FlushLeft, Faithful, AllFaithful, AllRequests, AllPuts;
      calls := [];
      D.NoCalls(client, client.log, Post);
      D.FlushLeftStart(dataQueue, world.acked);
      var maxCalls := |dataQueue| / client.cfg.maxConcurrentRequests + 1;
      OweDrains(maxCalls);
      var i := 0;
      while i < maxCalls
        invariant 0 <= i <= maxCalls && Valid() && Accounted() && |calls| == i
        invariant world.phase == Idle && world.drainsOwed >= maxCalls - i
        invariant old(client.log) <= client.log && D.Chain(client, client.log, Post, |old(client.log)|, calls)
        invariant if i == 0 then dataQueue == old(dataQueue) else old(dataQueue) <= calls[0].batch
        invariant HandlersDone(old(world)) ==>
          HandlersDone(world) && D.FlushLeft(old(dataQueue), old(world.acked), calls, dataQueue, world.acked)
      {
        ghost var waslog, queue, acked := client.log, dataQueue, world.acked;
        var call := OwedDrain();
        D.ChainGrows(client, waslog, client.log, Post, |old(client.log)|, calls, call);
        if HandlersDone(old(world)) { D.FlushLeftNext(old(dataQueue), old(world.acked), calls, call, queue, acked); }
        calls := calls + [call];
        i := i + 1;
      }
    }

    /** One round of the draining flush: others may run, then a drain. */
    method OwedDrain() returns (ghost call: D.Call)
      requires Valid() && Accounted() && world.phase == Idle && world.drainsOwed > 0
      modifies this`dataQueue, this`flushSignal, this`world, this`ticks, this`trace
      modifies this`receipts, client`log, client`ticks, client.net
      ensures Valid() && Accounted() && world.phase == Idle && world.drainsOwed == old(world.drainsOwed) - 1
      ensures D.Called(client, old(client.log), client.log, Post, old(client.ticks), call)
      ensures old(dataQueue) <= call.batch
      ensures HandlersDone(old(world)) ==>
        && HandlersDone(world) && call.batch == old(dataQueue)
        && dataQueue == (if call.ok then [] else old(dataQueue)) && world.acked == old(world.acked) + D.Gained(call)
    {
      hide T.StepsBound, After, Next, Restrict, Messages, Hand, KeptAndLost;
      hide D.Accounts, D.TookPlace, Faithful, AllFaithful, AllRequests, AllPuts;
      Interfere(Consumer);
      StartDrain();
      var runtimeDone;
      runtimeDone, call := DrainQueue();
    }

    /** FlushDataQueue, with a report of what it met and did. */
    method FlushDataQueue() returns (ghost report: D.FlushReport)
      requires Valid() && Accounted() && world.phase == Idle && !closed && client.cfg.maxConcurrentRequests > 0
      requires client.cfg.enableFailover ==> HandlersDone(world)
      modifies this`dataQueue, this`flushSignal, this`world, this`ticks, this`trace, this`owed, this`closed
      modifies this`receipts, client`log, client`ticks, client.net
      ensures Valid() && Accounted() && old(client.log) <= client.log && FlushOver(report)
      ensures report.queued == old(dataQueue) && report.acked == old(world.acked)
      ensures report.quiet == HandlersDone(old(world)) && report.start == |old(client.log)|
    {
      hide T.StepsBound, After, Next, Restrict, Messages, Hand, KeptAndLost;
      hide D.Accounts, D.TookPlace, D.Chain, D.FlushLeft;
      hide Faithful, AllFaithful, AllRequests, AllPuts;
      report := D.FlushReport(HandlersDone(world), dataQueue, world.acked, |client.log|, []);
      if client.cfg.enableFailover {
        ghost var call := FlushWithFailover();
        D.OneCallReported(client, old(client.log), client.log, old(dataQueue), old(world.acked), call);
        report := report.(calls := [call]);
      } else {
        ghost var calls := FlushByDraining();
        report := report.(calls := calls);
      }
    }

    /** The flush that this report describes is over, and with failover the queue is
        closed. */
    ghost predicate FlushOver(report: D.FlushReport)
      requires client.codec.Valid() && client.cfg.maxConcurrentRequests > 0
      reads this, client
    {
      && world.phase == Idle && closed == client.cfg.enableFailover
      && D.Reported(client, client.log, report, dataQueue, world.acked)
    }

    /** processFlushSignals: serve signals until the context is done (then flush and
        return) or, in a finite run, until nothing will ever arrive again. */
    method ProcessFlushSignals()
      returns (waiting: bool, ghost report: D.FlushReport, ghost looks: seq<D.Look>)
      requires Valid() && Accounted() && world.phase == Idle && !closed && client.cfg.maxConcurrentRequests > 0
      modifies this`dataQueue, this`flushSignal, this`world, this`ticks, this`trace, this`owed, this`closed
      modifies this`receipts, client`log, client`ticks, client.net
      ensures Valid() && Accounted() && old(client.log) <= client.log
      ensures forall m :: m in world.acked ==> D.MessageDelivered(client, receipts, m)
      ensures D.FirstToFlush(looks, cancelled, client.cfg.enableFailover, !waiting)
      ensures !waiting ==> FlushOver(report) && old(world.acked) <= report.acked && |old(client.log)| <= report.start
      ensures waiting ==> world.phase == Idle && T.Quiet(world) && !closed
      ensures waiting && !world.requeued ==> !T.Long(setup, |dataQueue|) && !T.HasReport(setup, dataQueue)
    {
      hide T.StepsBound, After, Restrict, Messages, Hand, KeptAndLost;
      hide D.Accounts, D.TookPlace, D.MessageDelivered, D.FirstToFlush, D.Chain, D.FlushLeft;
      hide Faithful, AllFaithful, AllRequests, AllPuts;
      report, looks := D.FlushReport(false, [], [], 0, []), [];
      D.NoLooks(cancelled, client.cfg.enableFailover);
      while true
        invariant Valid() && Accounted() && world.phase == Idle && !closed
        invariant D.FirstToFlush(looks, cancelled, client.cfg.enableFailover, false)
        invariant old(client.log) <= client.log && old(world.acked) <= world.acked
        decreases T.StepsBound(setup, world)
      {
        Interfere(Consumer);
        ghost var look := D.Look(ticks, HandlersDone(world));
        D.LookedOnce(looks, cancelled, client.cfg.enableFailover, look);
        looks := looks + [look];
        if cancelled(ticks) && (client.cfg.enableFailover ==> HandlersDone(world)) {
          report := FlushDataQueue();
          D.AllDelivered(client, receipts, world.acked);
          return false, report, looks;
        }
        if |flushSignal| > 0 {
          var signal := TakeOne();
          match signal
          case QueueThreshold =>
            var _, _ := DrainQueue();
          case PlatformReport =>
            var _, _ := DrainQueue();
        } else if i :| 0 <= i < |world.handlers| && world.handlers[i] != Reporting(0) {
          OtherStep(Consumer, Handle(i));  // both cases block: only a handler can go on
        } else {
          WorldInv();
          if !world.requeued { T.RestNotStranded(setup, world); }
          D.AllDelivered(client, receipts, world.acked);
          return true, report, looks;
        }
      }
    }

    /** case signal := <-flushSignal */
    method TakeOne() returns (signal: Signal)
      requires Linked() && world.phase == Idle && |flushSignal| > 0
      modifies this`flushSignal, this`world, this`trace
      ensures Linked() && world.phase == Draining([]) && world.acked == old(world.acked)
      ensures signal == old(flushSignal)[0] && flushSignal == old(flushSignal)[1..]
      ensures T.StepsBound(setup, world) < T.StepsBound(setup, old(world))
    {
      hide T.StepsBound, After, Restrict, Messages;
      T.EveryStepCounts(setup, world, TakeSignal);
      signal := flushSignal[0];
      flushSignal := flushSignal[1..];
      Record(TakeSignal);
    }
  }
}
