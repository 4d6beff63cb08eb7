/** What a nil SendAllLogs is worth, line by line, and what batching changes. */
module Delivery {
  import opened Telemetry
  import opened Wire
  import opened SumoClient
  import P = Packing

  // ----------------------------------------------------- one chunk a line

  /** Records that come before chunk j. */
  function RecordsBefore(chunks: seq<string>, j: nat): nat
    requires j <= |chunks|
  {
    |P.AllRecords(chunks[..j])|
  }

  /** Chunk j carries record p of the stream. */
  predicate Carries(chunks: seq<string>, j: nat, p: nat)
    requires j < |chunks|
  {
    RecordsBefore(chunks, j) <= p < RecordsBefore(chunks, j) + |P.Records(chunks[j])|
  }

  function Carried(chunks: seq<string>, j: nat, p: nat): string
    requires j < |chunks| && Carries(chunks, j, p)
  {
    P.Records(chunks[j])[p - RecordsBefore(chunks, j)]
  }

  function RecordLists(chunks: seq<string>): seq<seq<string>> {
    seq(|chunks|, i requires 0 <= i < |chunks| => P.Records(chunks[i]))
  }

  lemma RecordsSplit(chunks: seq<string>, j: nat)
    requires j < |chunks|
    ensures RecordsBefore(chunks, j + 1) == RecordsBefore(chunks, j) + |P.Records(chunks[j])|
    ensures P.AllRecords(chunks[..j + 1]) == P.AllRecords(chunks[..j]) + P.Records(chunks[j])
    ensures P.AllRecords(chunks[..j + 1]) <= P.AllRecords(chunks)
  {
    var lists := RecordLists(chunks);
    assert RecordLists(chunks[..j]) == lists[..j];
    assert RecordLists(chunks[..j + 1]) == lists[..j] + [lists[j]];
    assert lists == lists[..j] + [lists[j]] + lists[j + 1..];
    P.FlattenAppend(lists[..j], [lists[j]]);
    P.FlattenAppend(lists[..j] + [lists[j]], lists[j + 1..]);
    P.FlattenOne(lists[j]);
  }

  lemma {:induction false} RecordsMonotone(chunks: seq<string>, i: nat, j: nat)
    requires i <= j <= |chunks|
    ensures RecordsBefore(chunks, i) <= RecordsBefore(chunks, j)
    decreases j - i
  {
    if i < j {
      RecordsSplit(chunks, i);
      RecordsMonotone(chunks, i + 1, j);
    }
  }

  lemma NothingBeforeFirst(chunks: seq<string>)
    ensures RecordsBefore(chunks, 0) == 0
  {
  }

  lemma {:induction false} FindCarrier(chunks: seq<string>, n: nat, p: nat) returns (j: nat)
    requires n <= |chunks| && p < RecordsBefore(chunks, n)
    ensures j < n && Carries(chunks, j, p)
  {
    hide P.Records, P.AllRecords;
    NothingBeforeFirst(chunks);
    if RecordsBefore(chunks, n - 1) <= p {
      j := n - 1;
      RecordsSplit(chunks, j);
    } else {
      j := FindCarrier(chunks, n - 1, p);
    }
  }

  /** Every record of a list of chunks sits in exactly one of them, at the place
      its number says. */
  lemma ExactlyOneCarrier(chunks: seq<string>, p: nat) returns (j: nat)
    requires p < |P.AllRecords(chunks)|
    ensures j < |chunks| && Carries(chunks, j, p)
    ensures Carried(chunks, j, p) == P.AllRecords(chunks)[p]
    ensures forall i: nat :: i < |chunks| && Carries(chunks, i, p) ==> i == j
  {
    hide P.Records, P.AllRecords;
    assert chunks[..|chunks|] == chunks;
    j := FindCarrier(chunks, |chunks|, p);
    RecordsSplit(chunks, j);
    assert P.AllRecords(chunks)[p] == P.AllRecords(chunks[..j + 1])[p];
    forall i: nat | i < |chunks| && Carries(chunks, i, p) ensures i == j {
      RecordsSplit(chunks, i);
      if i < j { RecordsMonotone(chunks, i + 1, j); }
      if j < i { RecordsMonotone(chunks, j + 1, i); }
    }
  }

  // ------------------------------------------------------- from payloads

  lemma {:induction false} BatchPrefix(cfg: Config, codec: Codec, clock: Clock, t: nat, batch: seq<string>, i: nat)
    requires codec.Valid() && i <= |batch|
    ensures BatchItems(cfg, codec, clock, t, batch[..i]) <= BatchItems(cfg, codec, clock, t, batch)
    decreases |batch| - i
  {
    if i == |batch| {
      assert batch[..i] == batch;
    } else {
      BatchPrefix(cfg, codec, clock, t, batch, i + 1);
      BatchSnoc(cfg, codec, clock, t, batch, i, t + ItemCount(codec, batch[..i]));
    }
  }

  /** Item k of payload i, enhanced at its own clock reading, is item
      ItemCount(batch[..i]) + k of the batch. */
  lemma BatchItemAt(cfg: Config, codec: Codec, clock: Clock, t: nat, batch: seq<string>, i: nat, k: nat)
    requires codec.Valid() && i < |batch| && codec.parsePayload(batch[i]).Some?
    requires k < |codec.parsePayload(batch[i]).value|
    ensures var p := ItemCount(codec, batch[..i]) + k;
            && p < |BatchItems(cfg, codec, clock, t, batch)|
            && BatchItems(cfg, codec, clock, t, batch)[p] ==
                 Enhanced(cfg, codec, clock(t + p), codec.parsePayload(batch[i]).value[k])
  {
    hide BatchItems, ItemCount, BadPayloads, Enhanced;
    var o := ItemCount(codec, batch[..i]);
    BatchSnoc(cfg, codec, clock, t, batch, i, t + o);
    BatchPrefix(cfg, codec, clock, t, batch, i + 1);
    var here := PayloadItems(cfg, codec, clock, t + o, batch[i]);
    PrefixIndex(BatchItems(cfg, codec, clock, t, batch), BatchItems(cfg, codec, clock, t, batch[..i + 1]),
                BatchItems(cfg, codec, clock, t, batch[..i]), here, o, k);
  }

  lemma PrefixIndex<T>(whole: seq<T>, upto: seq<T>, front: seq<T>, here: seq<T>, o: nat, k: nat)
    requires upto <= whole && upto == front + here && |front| == o && k < |here|
    ensures o + k < |whole| && whole[o + k] == here[k]
  {
    assert upto[o + k] == here[k];
  }

  // ---------------------------------------------------------------- calls

  /** One call of SendAllLogs (Post) or FlushAll (Flush): the clock reading it
      started from, its batch, its entries from..upto of the client's log, and
      whether its error was nil. */
  datatype Call = Call(kind: Kind, t: nat, batch: seq<Message>, from: nat, upto: nat, ok: bool)

  ghost function ItemsOf(client: Client, c: Call): seq<Json>
    requires client.codec.Valid()
  {
    BatchItems(client.cfg, client.codec, client.clock, c.t, Bodies(c.batch))
  }

  ghost predicate TookPlace(client: Client, log: seq<Exchange>, c: Call)
    requires client.codec.Valid()
  {
    && c.from <= c.upto <= |log|
    && match c.kind
       case Post => client.SentBatch(Bodies(c.batch), ItemsOf(client, c), log[c.from..c.upto], c.ok)
       case Flush =>
         && client.cfg.enableFailover
         && client.FlushedBatch(Bodies(c.batch), ItemsOf(client, c), log[c.from..c.upto], c.ok)
  }

  /** Later traffic does not change what took place. */
  lemma CallStays(client: Client, log: seq<Exchange>, log': seq<Exchange>, c: Call)
    requires client.codec.Valid() && log <= log' && TookPlace(client, log, c)
    ensures TookPlace(client, log', c)
  {
    assert log'[c.from..c.upto] == log[c.from..c.upto];
  }

  /** The error and the traffic of a call, in full: it is nil if and only if the batch
      is empty, or every payload parsed, every item marshalled and every entry is
      without error.  Only an empty batch and a send with an item that does not marshal
      go without an entry; a send without items posts one empty chunk. */
  lemma CallOkExactlyWhen(client: Client, log: seq<Exchange>, c: Call)
    requires client.codec.Valid() && TookPlace(client, log, c)
    ensures var items := ItemsOf(client, c);
            && (c.ok <==>
                  || c.batch == []
                  || (&& (forall i :: 0 <= i < |c.batch| ==> client.codec.parsePayload(c.batch[i].body).Some?)
                      && (forall p :: 0 <= p < |items| ==> client.codec.marshal(items[p]).Some?)
                      && (forall k :: c.from <= k < c.upto ==> log[k].ok)))
            && (c.from == c.upto <==>
                  || c.batch == []
                  || (c.kind.Post? && exists p :: 0 <= p < |items| && client.codec.marshal(items[p]).None?))
            && (c.kind.Post? && c.batch != [] && items == [] ==> Chunks(log[c.from..c.upto]) == [""])
  {
    hide BatchItems;
    var items, es := ItemsOf(client, c), log[c.from..c.upto];
    AllMarshal(client.codec, items);
    AllParse(client.codec, Bodies(c.batch));
    assert forall i :: 0 <= i < |c.batch| ==> Bodies(c.batch)[i] == c.batch[i].body;
    assert c.batch != [] ==> Bodies(c.batch) != [];
    EntriesOk(log, c.from, c.upto);
    NonePosted(items, client.codec, client.cfg.maxDataPayloadSize);
    assert |Chunks(es)| == c.upto - c.from;
  }

  /** The same for one SendLogs call: what its chunks and its error say, in full. */
  lemma SoloExactlyWhen(cfg: Config, codec: Codec, clock: Clock, t: nat, raw: string, es: seq<Exchange>, ok: bool)
    requires codec.Valid() && Chunks(es) == SoloChunks(cfg, codec, clock, t, raw)
    requires ok == (raw == "" || (codec.parsePayload(raw).Some? && AllOk(es) &&
                                  Unmarshallable(codec, PayloadItems(cfg, codec, clock, t, raw)) == 0))
    ensures var items := PayloadItems(cfg, codec, clock, t, raw);
            && (es == [] <==>
                  || raw == "" || codec.parsePayload(raw).None?
                  || exists p :: 0 <= p < |items| && codec.marshal(items[p]).None?)
            && (es != [] ==> P.AllRecords(Chunks(es)) == Lines(codec, items) && |Lines(codec, items)| == |items|)
            && (ok <==>
                  || raw == ""
                  || (&& codec.parsePayload(raw).Some?
                      && (forall p :: 0 <= p < |items| ==> codec.marshal(items[p]).Some?)
                      && (forall k :: 0 <= k < |es| ==> es[k].ok)))
  {
    hide PayloadItems, P.Records, P.AllRecords;
    var items := PayloadItems(cfg, codec, clock, t, raw);
    AllMarshal(codec, items);
    NonePosted(items, codec, cfg.maxDataPayloadSize);
    LinesClean(codec, items);
    P.PackRecords(Lines(codec, items), cfg.maxDataPayloadSize);
    assert |Chunks(es)| == |es|;
    if es != [] { LinesIndexed(codec, items); }
  }

  lemma EntriesOk(log: seq<Exchange>, from: nat, upto: nat)
    requires from <= upto <= |log|
    ensures AllOk(log[from..upto]) <==> forall k :: from <= k < upto ==> log[k].ok
  {
    var es := log[from..upto];
    if AllOk(es) {
      forall k | from <= k < upto ensures log[k].ok { assert es[k - from] == log[k]; }
    }
  }

  lemma NonePosted(items: seq<Json>, codec: Codec, max: int)
    ensures P.Pack(Lines(codec, items), max) != []
    ensures items == [] ==> P.Pack(Lines(codec, items), max) == [""]
  {
    P.PackJoin(Lines(codec, items), max);
    P.PackNothing(max);
  }

  // -------------------------------------------------------------- receipts

  /** Receipts are calls whose error was nil; no two of them share an entry. */
  ghost predicate GoodReceipts(client: Client, log: seq<Exchange>, rs: seq<Call>)
    requires client.codec.Valid()
  {
    && (forall r :: r in rs ==> r.ok && TookPlace(client, log, r))
    && forall i, j :: 0 <= i < j < |rs| ==> rs[i].upto <= rs[j].from
  }

  /** The messages that a list of receipts acknowledges, in order. */
  function Receipted(rs: seq<Call>): seq<Message> {
    if rs == [] then [] else Receipted(rs[..|rs| - 1]) + rs[|rs| - 1].batch
  }

  lemma ReceiptsStay(client: Client, log: seq<Exchange>, log': seq<Exchange>, rs: seq<Call>)
    requires client.codec.Valid() && log <= log' && GoodReceipts(client, log, rs)
    ensures GoodReceipts(client, log', rs)
  {
    hide TookPlace;
    forall r | r in rs ensures TookPlace(client, log', r) {
      CallStays(client, log, log', r);
    }
  }

  lemma ReceiptsGrow(client: Client, log: seq<Exchange>, log': seq<Exchange>, rs: seq<Call>, r: Call)
    requires client.codec.Valid() && log <= log' && GoodReceipts(client, log, rs)
    requires r.ok && |log| <= r.from && TookPlace(client, log', r)
    ensures GoodReceipts(client, log', rs + [r]) && Receipted(rs + [r]) == Receipted(rs) + r.batch
  {
    ReceiptsStay(client, log, log', rs);
    assert forall s :: s in rs ==> TookPlace(client, log, s);
    assert forall s :: TookPlace(client, log, s) ==> s.upto <= |log|;
    hide TookPlace;
    assert (rs + [r])[..|rs|] == rs;
    assert forall i :: 0 <= i < |rs| ==> rs[i] in rs;
  }

  lemma {:induction false} ReceiptOf(rs: seq<Call>, m: Message) returns (j: nat, i: nat)
    requires m in Receipted(rs)
    ensures j < |rs| && i < |rs[j].batch| && rs[j].batch[i] == m
  {
    var n := |rs| - 1;
    if m in rs[n].batch {
      j := n;
      i :| i < |rs[n].batch| && rs[n].batch[i] == m;
    } else {
      j, i := ReceiptOf(rs[..n], m);
    }
  }

  /** Every acknowledged message has its receipt. */
  ghost predicate Accounts(client: Client, log: seq<Exchange>, rs: seq<Call>, acked: seq<Message>)
    requires client.codec.Valid()
  {
    Receipted(rs) == acked && GoodReceipts(client, log, rs)
  }

  /** The call of this kind, from clock reading t on, that has just taken the log
      from `waslog` to `log`. */
  ghost predicate Called(client: Client, waslog: seq<Exchange>, log: seq<Exchange>, kind: Kind, t: nat, c: Call)
    requires client.codec.Valid()
  {
    && c.kind == kind && c.t == t && c.from == |waslog| && c.upto == |log| && waslog <= log
    && TookPlace(client, log, c)
  }

  /** The messages that a call acknowledges. */
  function Gained(c: Call): seq<Message> { if c.ok then c.batch else [] }

  /** The receipts after a call. */
  function Filed(rs: seq<Call>, c: Call): seq<Call> { if c.ok then rs + [c] else rs }

  lemma FiledAccounts(client: Client, waslog: seq<Exchange>, log: seq<Exchange>, rs: seq<Call>, acked: seq<Message>,
                      c: Call)
    requires client.codec.Valid() && Accounts(client, waslog, rs, acked)
    requires Called(client, waslog, log, c.kind, c.t, c)
    ensures Accounts(client, log, Filed(rs, c), acked + Gained(c))
  {
    hide TookPlace, Receipted, GoodReceipts;
    if c.ok {
      ReceiptsGrow(client, waslog, log, rs, c);
    } else {
      ReceiptsStay(client, waslog, log, rs);
    }
  }

  // ------------------------------------------------------- on the network

  /** A position in the history of the network. */
  datatype Place = AtRequest(i: nat) | AtPut(i: nat)

  ghost predicate Seen(net: Network, at: Place)
    reads net
  {
    match at case AtRequest(i) => i < |net.requests| case AtPut(i) => i < |net.puts|
  }

  function BodyAt(net: Network, at: Place): string
    requires Seen(net, at)
    reads net
  {
    match at case AtRequest(i) => net.requests[i].body case AtPut(i) => net.puts[i].body
  }

  /** The endpoint answered 200, 302, or 500 or above there, or the bucket stored the object. */
  ghost predicate Landed(net: Network, at: Place) {
    match at
    case AtRequest(i) => var r := net.respond(i); r.Status? && (r.code == 200 || r.code == 302 || r.code >= 500)
    case AtPut(i) => net.store(i) == Stored
  }

  /** The places of log entry k. */
  ghost predicate Own(client: Client, k: nat, at: Place)
    requires k < |client.log|
    reads client
  {
    match at
    case AtRequest(i) =>
      var o := |client.requests0| + |AllRequests(client.log[..k])|;
      o <= i < o + |client.log[k].requests|
    case AtPut(i) =>
      var o := |client.puts0| + |AllPuts(client.log[..k])|;
      o <= i < o + |client.log[k].puts|
  }

  /** Whatever text compresses to this body, its record q reads `line`. */
  ghost predicate Holds(codec: Codec, body: string, q: nat, line: string) {
    && (exists text :: codec.gzip(text) == Some(body))
    && forall text :: codec.gzip(text) == Some(body) ==> q < |P.Records(text)| && P.Records(text)[q] == line
  }

  /** Log entry k went over the network, each time with `line` as record q of its
      body; with failover on, or when some attempt was settled, it landed. */
  ghost predicate Shipped(client: Client, k: nat, q: nat, line: string)
    requires k < |client.log|
    reads client, client.net
  {
    && (exists at :: Own(client, k, at))
    && (forall at :: Own(client, k, at) ==>
          Seen(client.net, at) && Holds(client.codec, BodyAt(client.net, at), q, line))
    && (client.cfg.enableFailover || AnySettled(client.log[k].requests) ==>
          exists at :: Own(client, k, at) && Landed(client.net, at))
  }

  lemma OwnRequest(client: Client, k: nat, n: nat)
    requires client.Valid() && k < |client.log| && n < |client.log[k].requests|
    ensures var i := |client.requests0| + |AllRequests(client.log[..k])| + n;
            && Own(client, k, AtRequest(i)) && Seen(client.net, AtRequest(i))
            && client.net.requests[i] == client.log[k].requests[n]
            && client.net.respond(i) == client.log[k].requests[n].response
  {
    hide AllRequests, AllPuts, AllFaithful;
    TrafficOf(client.log, k);
    PartOf(client.net.requests, client.requests0, AllRequests(client.log), AllRequests(client.log[..k]),
           client.log[k].requests, n);
  }

  lemma OwnPut(client: Client, k: nat, n: nat)
    requires client.Valid() && k < |client.log| && n < |client.log[k].puts|
    ensures var i := |client.puts0| + |AllPuts(client.log[..k])| + n;
            && Own(client, k, AtPut(i)) && Seen(client.net, AtPut(i))
            && client.net.puts[i] == client.log[k].puts[n]
            && client.net.store(i) == client.log[k].puts[n].result
  {
    hide AllRequests, AllPuts, AllFaithful;
    TrafficOf(client.log, k);
    PartOf(client.net.puts, client.puts0, AllPuts(client.log), AllPuts(client.log[..k]), client.log[k].puts, n);
  }

  lemma PartOf<T>(all: seq<T>, before: seq<T>, during: seq<T>, front: seq<T>, here: seq<T>, n: nat)
    requires all == before + during && front + here <= during && n < |here|
    ensures |before| + |front| + n < |all| && all[|before| + |front| + n] == here[n]
  {
    assert during[|front| + n] == (front + here)[|front| + n];
  }

  lemma OneText(codec: Codec, text: string, q: nat)
    requires codec.Valid() && codec.gzip(text).Some? && q < |P.Records(text)|
    ensures Holds(codec, codec.gzip(text).value, q, P.Records(text)[q])
  {
    assert codec.gzip(text) == Some(codec.gzip(text).value);
  }

  lemma SameBodies(cfg: Config, codec: Codec, e: Exchange, z: string)
    requires Faithful(cfg, codec, e) && codec.gzip(e.chunk) == Some(z)
    ensures forall n :: 0 <= n < |e.requests| ==> e.requests[n].body == z
    ensures forall n :: 0 <= n < |e.puts| ==> e.puts[n].body == z
    ensures e.requests != [] || e.puts != []
  {
  }

  lemma OwnBody(client: Client, k: nat, at: Place)
    requires client.Valid() && k < |client.log| && client.log[k].ok && Own(client, k, at)
    ensures Seen(client.net, at)
    ensures client.codec.gzip(client.log[k].chunk) == Some(BodyAt(client.net, at))
  {
    hide AllRequests, AllPuts;
    var e := client.log[k];
    assert Faithful(client.cfg, client.codec, e);
    SameBodies(client.cfg, client.codec, e, client.codec.gzip(e.chunk).value);
    match at
    case AtRequest(i) => OwnRequest(client, k, i - |client.requests0| - |AllRequests(client.log[..k])|);
    case AtPut(i) => OwnPut(client, k, i - |client.puts0| - |AllPuts(client.log[..k])|);
  }

  lemma OwnSomething(client: Client, k: nat)
    requires client.Valid() && k < |client.log| && client.log[k].ok
    ensures exists at :: Own(client, k, at)
  {
    hide AllRequests, AllPuts;
    var e := client.log[k];
    assert Faithful(client.cfg, client.codec, e);
    SameBodies(client.cfg, client.codec, e, client.codec.gzip(e.chunk).value);
    if e.requests != [] { OwnRequest(client, k, 0); } else { OwnPut(client, k, 0); }
  }

  lemma Ships(client: Client, k: nat, q: nat)
    requires client.Valid() && k < |client.log| && client.log[k].ok && q < |P.Records(client.log[k].chunk)|
    ensures Shipped(client, k, q, P.Records(client.log[k].chunk)[q])
  {
    hide Holds, Own, Seen, Landed, BodyAt, P.Records;
    OwnSomething(client, k);
    var line := P.Records(client.log[k].chunk)[q];
    forall at | Own(client, k, at)
      ensures Seen(client.net, at) && Holds(client.codec, BodyAt(client.net, at), q, line)
    {
      OwnBody(client, k, at);
      OneText(client.codec, client.log[k].chunk, q);
    }
    if client.cfg.enableFailover || AnySettled(client.log[k].requests) {
      EntryLanded(client, k);
    }
  }

  lemma EntryLanded(client: Client, k: nat)
    requires client.Valid() && k < |client.log| && client.log[k].ok
    requires client.cfg.enableFailover || AnySettled(client.log[k].requests)
    ensures exists at :: Own(client, k, at) && Landed(client.net, at)
  {
    var e := client.log[k];
    if AnySettled(e.requests) {
      var n :| 0 <= n < |e.requests| && Settled(e.requests[n].response);
      OwnRequest(client, k, n);
      assert Landed(client.net, AtRequest(|client.requests0| + |AllRequests(client.log[..k])| + n));
    } else {
      assert Faithful(client.cfg, client.codec, e);
      OwnPut(client, k, 0);
      assert Landed(client.net, AtPut(|client.puts0| + |AllPuts(client.log[..k])| + 0));
    }
  }

  /** Every post in the log obeys the law in numbers at its own positions. */
  lemma EntryInNumbers(client: Client, k: nat)
    requires client.Valid() && k < |client.log| && client.log[k].kind.Post?
    ensures var r0 := |client.requests0| + |AllRequests(client.log[..k])|;
            var p0 := |client.puts0| + |AllPuts(client.log[..k])|;
            PostedFrom(client.cfg, client.codec, client.net.respond, client.net.store, r0, p0, client.log[k])
  {
    hide AllRequests, AllPuts, Faithful, PostedInNumbers;
    var e := client.log[k];
    var r0, p0 := |client.requests0| + |AllRequests(client.log[..k])|, |client.puts0| + |AllPuts(client.log[..k])|;
    forall n | 0 <= n < |e.requests| ensures e.requests[n].response == client.net.respond(r0 + n) {
      OwnRequest(client, k, n);
    }
    forall n | 0 <= n < |e.puts| ensures e.puts[n].result == client.net.store(p0 + n) {
      OwnPut(client, k, n);
    }
    assert Faithful(client.cfg, client.codec, e);
    EntryByNumbers(client.cfg, client.codec, e);
  }

  /** Delivery of a log entry, decided by the answers at its own positions: a chunk
      that compresses is delivered if and only if one of the answers within its budget
      settles or, with failover on, the bucket stores it. */
  lemma EntryDeliveredByOracle(client: Client, k: nat)
    requires client.Valid() && k < |client.log| && client.log[k].kind.Post?
    requires client.codec.gzip(client.log[k].chunk).Some?
    ensures var r0 := |client.requests0| + |AllRequests(client.log[..k])|;
            var p0 := |client.puts0| + |AllPuts(client.log[..k])|;
            var budget := 1 + RetryBudget(client.cfg.numRetry, client.cfg.maxRetryAttempts);
            Delivered(client.codec, client.log[k]) <==>
              || SettlesWithin(client.net.respond, r0, budget)
              || (client.cfg.enableFailover && client.net.store(p0) == Stored)
  {
    hide AllRequests, AllPuts, Delivered, SettlesWithin, RetryBudget, Faithful;
    var e := client.log[k];
    var r0, p0 := |client.requests0| + |AllRequests(client.log[..k])|, |client.puts0| + |AllPuts(client.log[..k])|;
    forall n | 0 <= n < |e.requests| ensures e.requests[n].response == client.net.respond(r0 + n) {
      OwnRequest(client, k, n);
    }
    forall n | 0 <= n < |e.puts| ensures e.puts[n].result == client.net.store(p0 + n) {
      OwnPut(client, k, n);
    }
    DeliveredByOracle(client.cfg, client.codec, client.net.respond, client.net.store, r0, p0, e);
  }

  // -------------------------------------------- acknowledged means delivered

  /** Record p of a call went out: exactly one of the call's texts carries it, it
      reads `line` there, and that text was shipped. */
  ghost predicate LineOut(client: Client, c: Call, p: nat, line: string)
    reads client, client.net
  {
    && c.from <= c.upto <= |client.log|
    && var chunks := Chunks(client.log[c.from..c.upto]);
       exists j: nat | j < |chunks| && Carries(chunks, j, p) ::
         && Carried(chunks, j, p) == line
         && (forall i: nat :: i < |chunks| && Carries(chunks, i, p) ==> i == j)
         && Shipped(client, c.from + j, p - RecordsBefore(chunks, j), line)
  }

  /** The texts of a call whose error was nil hold the lines of all its items. */
  lemma SentLines(client: Client, log: seq<Exchange>, c: Call)
    requires client.codec.Valid() && TookPlace(client, log, c) && c.ok && c.batch != []
    ensures Unmarshallable(client.codec, ItemsOf(client, c)) == 0 && AllOk(log[c.from..c.upto])
    ensures P.AllRecords(Chunks(log[c.from..c.upto])) == Lines(client.codec, ItemsOf(client, c))
  {
    hide BatchItems, P.Records, P.AllRecords, P.Prefixed;
    var lines := Lines(client.codec, ItemsOf(client, c));
    assert Bodies(c.batch) != [];
    LinesClean(client.codec, ItemsOf(client, c));
    P.PackRecords(lines, client.cfg.maxDataPayloadSize);
    P.PrefixedRecords(lines);
    OneTextRecords(P.Prefixed(lines));
  }

  lemma OneTextRecords(text: string)
    ensures P.AllRecords([text]) == P.Records(text)
  {
    assert RecordLists([text]) == [P.Records(text)];
    P.FlattenOne(P.Records(text));
  }

  /** After a call with a nil error each item of the batch was marshalled and its
      line went out. */
  lemma LineDelivered(client: Client, c: Call, p: nat)
    requires client.Valid() && TookPlace(client, client.log, c) && c.ok && p < |ItemsOf(client, c)|
    ensures var line := client.codec.marshal(ItemsOf(client, c)[p]);
            line.Some? && LineOut(client, c, p, line.value)
  {
    hide BatchItems, P.Records, P.AllRecords, Shipped, Faithful, AllRequests, AllPuts, TookPlace;
    NoItems(client, client.log, c);
    var es := client.log[c.from..c.upto];
    SentLines(client, client.log, c);
    LinesIndexed(client.codec, ItemsOf(client, c));
    var j := ExactlyOneCarrier(Chunks(es), p);
    assert client.log[c.from + j] == es[j];
    Ships(client, c.from + j, p - RecordsBefore(Chunks(es), j));
  }

  lemma NoItems(client: Client, log: seq<Exchange>, c: Call)
    requires client.codec.Valid() && TookPlace(client, log, c)
    ensures c.from <= c.upto <= |log| && (c.batch == [] ==> ItemsOf(client, c) == [])
  {
    assert c.batch == [] ==> Bodies(c.batch) == [];
  }

  /** Item k of payload i of the call was enhanced at its own clock reading and
      marshalled, and its line went out. */
  ghost predicate ItemDelivered(client: Client, c: Call, i: nat, k: nat)
    requires client.codec.Valid() && i < |c.batch| && client.codec.parsePayload(c.batch[i].body).Some?
    requires k < |client.codec.parsePayload(c.batch[i].body).value|
    reads client, client.net
  {
    var p := ItemCount(client.codec, Bodies(c.batch)[..i]) + k;
    var item := client.codec.parsePayload(c.batch[i].body).value[k];
    var line := client.codec.marshal(Enhanced(client.cfg, client.codec, client.clock(c.t + p), item));
    line.Some? && LineOut(client, c, p, line.value)
  }

  /** The payload parsed, and the line of every one of its items went out. */
  ghost predicate PayloadDelivered(client: Client, c: Call, i: nat)
    requires client.codec.Valid() && i < |c.batch|
    reads client, client.net
  {
    var parsed := client.codec.parsePayload(c.batch[i].body);
    parsed.Some? && forall k: nat :: k < |parsed.value| ==> ItemDelivered(client, c, i, k)
  }

  lemma ItemDelivers(client: Client, c: Call, i: nat, k: nat)
    requires client.Valid() && TookPlace(client, client.log, c) && c.ok
    requires i < |c.batch| && client.codec.parsePayload(c.batch[i].body).Some?
    requires k < |client.codec.parsePayload(c.batch[i].body).value|
    ensures ItemDelivered(client, c, i, k)
  {
    hide BatchItems, ItemCount, Enhanced, LineOut, TookPlace, Faithful, AllRequests, AllPuts;
    var bodies := Bodies(c.batch);
    assert bodies[i] == c.batch[i].body;
    BatchItemAt(client.cfg, client.codec, client.clock, c.t, bodies, i, k);
    LineDelivered(client, c, ItemCount(client.codec, bodies[..i]) + k);
  }

  lemma Parsed(client: Client, log: seq<Exchange>, c: Call, i: nat)
    requires client.codec.Valid() && TookPlace(client, log, c) && c.ok && i < |c.batch|
    ensures client.codec.parsePayload(c.batch[i].body).Some?
  {
    hide BatchItems;
    AllParse(client.codec, Bodies(c.batch));
    assert Bodies(c.batch)[i] == c.batch[i].body;
  }

  /** Acknowledged means delivered: every payload of a call with a nil error parsed,
      and the line of every one of its items went out. */
  lemma ReceiptDelivers(client: Client, c: Call)
    requires client.Valid() && TookPlace(client, client.log, c) && c.ok
    ensures forall i: nat :: i < |c.batch| ==> PayloadDelivered(client, c, i)
  {
    hide ItemDelivered, TookPlace;
    forall i: nat | i < |c.batch| ensures PayloadDelivered(client, c, i) {
      Parsed(client, client.log, c, i);
      forall k: nat | k < |client.codec.parsePayload(c.batch[i].body).value| ensures ItemDelivered(client, c, i, k) {
        ItemDelivers(client, c, i, k);
      }
    }
  }

  /** A message that some receipt delivers. */
  ghost predicate MessageDelivered(client: Client, rs: seq<Call>, m: Message)
    requires client.codec.Valid()
    reads client, client.net
  {
    exists r, i: nat :: r in rs && i < |r.batch| && r.batch[i] == m && PayloadDelivered(client, r, i)
  }

  lemma AcknowledgedDelivered(client: Client, rs: seq<Call>, m: Message)
    requires client.Valid() && GoodReceipts(client, client.log, rs) && m in Receipted(rs)
    ensures MessageDelivered(client, rs, m)
  {
    hide TookPlace, PayloadDelivered;
    var j, i := ReceiptOf(rs, m);
    assert rs[j] in rs;
    ReceiptDelivers(client, rs[j]);
  }

  lemma AllDelivered(client: Client, rs: seq<Call>, acked: seq<Message>)
    requires client.Valid() && Accounts(client, client.log, rs, acked)
    ensures forall m :: m in acked ==> MessageDelivered(client, rs, m)
  {
    hide GoodReceipts, Receipted, MessageDelivered;
    forall m | m in acked ensures MessageDelivered(client, rs, m) {
      AcknowledgedDelivered(client, rs, m);
    }
  }

  // ------------------------------------------------------- calls of a flush

  /** Calls of one kind that follow one another without a gap, from log length
      `start` to the end of the log. */
  ghost predicate Chain(client: Client, log: seq<Exchange>, kind: Kind, start: nat, calls: seq<Call>)
    requires client.codec.Valid()
  {
    && (forall c :: c in calls ==> c.kind == kind && TookPlace(client, log, c))
    && (if calls == [] then start == |log| else calls[0].from == start && calls[|calls| - 1].upto == |log|)
    && forall i :: 0 < i < |calls| ==> calls[i].from == calls[i - 1].upto
  }

  lemma NoCalls(client: Client, log: seq<Exchange>, kind: Kind)
    requires client.codec.Valid()
    ensures Chain(client, log, kind, |log|, [])
  {
  }

  lemma ChainGrows(client: Client, waslog: seq<Exchange>, log: seq<Exchange>, kind: Kind, start: nat,
                   calls: seq<Call>, c: Call)
    requires client.codec.Valid() && Chain(client, waslog, kind, start, calls)
    requires Called(client, waslog, log, kind, c.t, c)
    ensures Chain(client, log, kind, start, calls + [c])
  {
    hide TookPlace;
    forall d | d in calls ensures TookPlace(client, log, d) {
      CallStays(client, waslog, log, d);
    }
  }

  /** Some call got a batch that was not empty and returned nil. */
  predicate Succeeded(calls: seq<Call>) {
    exists i :: 0 <= i < |calls| && calls[i].ok && calls[i].batch != []
  }

  /** What calls of a flush with quiet producers do: each gets everything queued
      until one succeeds, and the later ones get nothing. */
  predicate Handed(queued: seq<Message>, calls: seq<Call>) {
    forall i :: 0 <= i < |calls| ==> calls[i].batch == if Succeeded(calls[..i]) then [] else queued
  }

  /** What such calls leave in the queue and among the acknowledged messages. */
  predicate FlushLeft(queued: seq<Message>, wasacked: seq<Message>, calls: seq<Call>,
                      queue: seq<Message>, acked: seq<Message>) {
    && Handed(queued, calls)
    && if Succeeded(calls) then queue == [] && acked == wasacked + queued
       else queue == queued && acked == wasacked
  }

  lemma FlushLeftStart(queue: seq<Message>, acked: seq<Message>)
    ensures FlushLeft(queue, acked, [], queue, acked)
  {
  }

  lemma FlushLeftNext(queued: seq<Message>, wasacked: seq<Message>, calls: seq<Call>, c: Call,
                      queue: seq<Message>, acked: seq<Message>)
    requires FlushLeft(queued, wasacked, calls, queue, acked) && c.batch == queue
    ensures FlushLeft(queued, wasacked, calls + [c], if c.ok then [] else queue, acked + Gained(c))
  {
    SucceededSnoc(calls, c);
    forall i | 0 <= i < |calls| + 1 ensures (calls + [c])[..i] == calls[..i] {}
  }

  lemma SucceededSnoc(calls: seq<Call>, c: Call)
    ensures Succeeded(calls + [c]) <==> Succeeded(calls) || (c.ok && c.batch != [])
  {
    assert (calls + [c])[|calls|] == c;
    forall i | 0 <= i < |calls| ensures (calls + [c])[i] == calls[i] {}
  }

  /** One look of an event loop at its context: its number, and whether all handlers
      were done then. */
  datatype Look = Look(at: nat, quiet: bool)

  /** A look that finds the context done ends the run, unless a flush that closes the
      queue would have to wait for handlers; no earlier look did. */
  predicate FirstToFlush(looks: seq<Look>, cancelled: nat -> bool, closes: bool, flushed: bool) {
    && (forall k :: 0 <= k < |looks| - 1 ==> !(cancelled(looks[k].at) && (!closes || looks[k].quiet)))
    && (flushed <==>
          looks != [] && cancelled(looks[|looks| - 1].at) && (!closes || looks[|looks| - 1].quiet))
  }

  lemma NoLooks(cancelled: nat -> bool, closes: bool)
    ensures FirstToFlush([], cancelled, closes, false)
  {
  }

  lemma LookedOnce(looks: seq<Look>, cancelled: nat -> bool, closes: bool, look: Look)
    requires FirstToFlush(looks, cancelled, closes, false)
    ensures FirstToFlush(looks + [look], cancelled, closes, cancelled(look.at) && (!closes || look.quiet))
  {
  }

  /** What the flush at the end of a run met and did: whether the handlers were
      done, what was queued and acknowledged before it, the log length it started
      from, and its calls. */
  datatype FlushReport =
    FlushReport(quiet: bool, queued: seq<Message>, acked: seq<Message>, start: nat, calls: seq<Call>)

  /** What a finished flush leaves: with failover one FlushAll call, without it
      len / MaxConcurrentRequests + 1 SendAllLogs calls, the first of which took
      everything queued.  With quiet handlers the queue is empty and was acknowledged
      once if some call on a batch succeeded, and is as it was otherwise. */
  ghost predicate Reported(client: Client, log: seq<Exchange>, r: FlushReport, queue: seq<Message>, acked: seq<Message>)
    requires client.codec.Valid() && client.cfg.maxConcurrentRequests > 0
  {
    && Chain(client, log, if client.cfg.enableFailover then Flush else Post, r.start, r.calls)
    && |r.calls| == (if client.cfg.enableFailover then 1 else |r.queued| / client.cfg.maxConcurrentRequests + 1)
    && r.queued <= r.calls[0].batch
    && (client.cfg.enableFailover ==> r.quiet)
    && (r.quiet ==> FlushLeft(r.queued, r.acked, r.calls, queue, acked))
  }

  /** The report of a flush of one FlushAll call. */
  lemma OneCallReported(client: Client, waslog: seq<Exchange>, log: seq<Exchange>,
                        queued: seq<Message>, wasacked: seq<Message>, c: Call)
    requires client.codec.Valid() && client.cfg.maxConcurrentRequests > 0 && client.cfg.enableFailover
    requires Called(client, waslog, log, Flush, c.t, c) && c.batch == queued
    ensures Reported(client, log, FlushReport(true, queued, wasacked, |waslog|, [c]),
              if c.ok then [] else queued, wasacked + Gained(c))
  {
    hide TookPlace;
    NoCalls(client, waslog, Flush);
    ChainGrows(client, waslog, log, Flush, |waslog|, [], c);
    FlushLeftStart(queued, wasacked);
    FlushLeftNext(queued, wasacked, [], c, queued, wasacked);
    assert [] + [c] == [c];
  }

  // ------------------------------------------------------------- batching

  /** The lines of each payload, at the clock readings that sending the payloads
      one after the other would use. */
  ghost function MessageLines(cfg: Config, codec: Codec, clock: Clock, t: nat, batch: seq<string>)
    : (r: seq<seq<string>>)
    requires codec.Valid()
    ensures |r| == |batch|
  {
    seq(|batch|, i requires 0 <= i < |batch| =>
      Lines(codec, PayloadItems(cfg, codec, clock, t + ItemCount(codec, batch[..i]), batch[i])))
  }

  lemma MessageSnoc(cfg: Config, codec: Codec, clock: Clock, t: nat, batch: seq<string>, n: nat)
    requires codec.Valid() && n < |batch|
    ensures MessageLines(cfg, codec, clock, t, batch[..n + 1]) ==
              MessageLines(cfg, codec, clock, t, batch[..n]) +
              [Lines(codec, PayloadItems(cfg, codec, clock, t + ItemCount(codec, batch[..n]), batch[n]))]
  {
    hide PayloadItems, ItemCount;
    forall i | 0 <= i <= n ensures batch[..n + 1][..i] == batch[..i] && (i < n ==> batch[..n][..i] == batch[..i]) {}
  }

  ghost predicate StreamsAgree(cfg: Config, codec: Codec, clock: Clock, t: nat, batch: seq<string>)
    requires codec.Valid()
  {
    var messages := MessageLines(cfg, codec, clock, t, batch);
    && P.Flatten(messages) == Lines(codec, BatchItems(cfg, codec, clock, t, batch))
    && forall m :: m in messages ==> P.Clean(m)
  }

  lemma StreamsStep(cfg: Config, codec: Codec, clock: Clock, t: nat, batch: seq<string>, n: nat)
    requires codec.Valid() && n < |batch| && StreamsAgree(cfg, codec, clock, t, batch[..n])
    ensures StreamsAgree(cfg, codec, clock, t, batch[..n + 1])
  {
    hide BatchItems, MessageLines, PayloadItems, ItemCount, Lines, BadPayloads;
    var here := PayloadItems(cfg, codec, clock, t + ItemCount(codec, batch[..n]), batch[n]);
    BatchSnoc(cfg, codec, clock, t, batch, n, t + ItemCount(codec, batch[..n]));
    MessageSnoc(cfg, codec, clock, t, batch, n);
    LinesAppend(codec, BatchItems(cfg, codec, clock, t, batch[..n]), here);
    LinesClean(codec, here);
    P.FlattenAppend(MessageLines(cfg, codec, clock, t, batch[..n]), [Lines(codec, here)]);
    P.FlattenOne(Lines(codec, here));
  }

  /** The batch's stream is the concatenation of the separate ones. */
  lemma {:induction false} BatchLines(cfg: Config, codec: Codec, clock: Clock, t: nat, batch: seq<string>, n: nat)
    requires codec.Valid() && n <= |batch|
    ensures StreamsAgree(cfg, codec, clock, t, batch[..n])
  {
    if n == 0 {
      assert batch[..0] == [];
    } else {
      hide StreamsAgree;
      BatchLines(cfg, codec, clock, t, batch, n - 1);
      StreamsStep(cfg, codec, clock, t, batch, n - 1);
    }
  }

  /** The chunks that separate SendLogs calls would post, in order. */
  function SeparateChunks(messages: seq<seq<string>>, max: int): seq<string> {
    if messages == [] then [] else
    SeparateChunks(messages[..|messages| - 1], max) + P.Pack(messages[|messages| - 1], max)
  }

  lemma AllRecordsAppend(a: seq<string>, b: seq<string>)
    ensures P.AllRecords(a + b) == P.AllRecords(a) + P.AllRecords(b)
  {
    assert RecordLists(a + b) == RecordLists(a) + RecordLists(b);
    P.FlattenAppend(RecordLists(a), RecordLists(b));
  }

  lemma {:induction false} SeparateStream(messages: seq<seq<string>>, max: int)
    requires forall m :: m in messages ==> P.Clean(m)
    ensures P.AllRecords(SeparateChunks(messages, max)) == P.Flatten(messages)
    ensures |SeparateChunks(messages, max)| == P.Separate(messages, max)
  {
    if messages != [] {
      var n := |messages| - 1;
      SeparateStream(messages[..n], max);
      P.PackRecords(messages[n], max);
      AllRecordsAppend(SeparateChunks(messages[..n], max), P.Pack(messages[n], max));
      assert messages == messages[..n] + [messages[n]];
      P.FlattenAppend(messages[..n], [messages[n]]);
      P.FlattenOne(messages[n]);
    }
  }

  /** The chunks of SendLogs calls for the payloads of a batch, one after the other. */
  ghost function OneByOne(cfg: Config, codec: Codec, clock: Clock, t: nat, batch: seq<string>): seq<string>
    requires codec.Valid()
  {
    if batch == [] then [] else
    OneByOne(cfg, codec, clock, t, batch[..|batch| - 1]) +
      SoloChunks(cfg, codec, clock, t + ItemCount(codec, batch[..|batch| - 1]), batch[|batch| - 1])
  }

  /** Payloads that SendLogs sends: not empty, parsed, every item marshalled. */
  ghost predicate Sendable(cfg: Config, codec: Codec, clock: Clock, t: nat, batch: seq<string>)
    requires codec.Valid()
  {
    && "" !in batch && BadPayloads(codec, batch) == 0
    && Unmarshallable(codec, BatchItems(cfg, codec, clock, t, batch)) == 0
  }

  lemma OneByOneSnoc(cfg: Config, codec: Codec, clock: Clock, t: nat, batch: seq<string>, n: nat)
    requires codec.Valid() && n < |batch|
    ensures OneByOne(cfg, codec, clock, t, batch[..n + 1]) ==
              OneByOne(cfg, codec, clock, t, batch[..n]) +
              SoloChunks(cfg, codec, clock, t + ItemCount(codec, batch[..n]), batch[n])
  {
    hide SoloChunks, ItemCount;
    assert batch[..n + 1][..n] == batch[..n];
  }

  lemma SeparateSnoc(messages: seq<seq<string>>, m: seq<string>, max: int)
    ensures SeparateChunks(messages + [m], max) == SeparateChunks(messages, max) + P.Pack(m, max)
  {
    assert (messages + [m])[..|messages|] == messages;
  }

  lemma SendableStep(cfg: Config, codec: Codec, clock: Clock, t: nat, batch: seq<string>, n: nat)
    requires codec.Valid() && n < |batch| && Sendable(cfg, codec, clock, t, batch[..n + 1])
    ensures Sendable(cfg, codec, clock, t, batch[..n])
    ensures SoloChunks(cfg, codec, clock, t + ItemCount(codec, batch[..n]), batch[n]) ==
              P.Pack(Lines(codec, PayloadItems(cfg, codec, clock, t + ItemCount(codec, batch[..n]), batch[n])),
                     cfg.maxDataPayloadSize)
  {
    hide BatchItems, ItemCount, PayloadItems, Lines, Unmarshallable, BadPayloads;
    var now := t + ItemCount(codec, batch[..n]);
    BatchSnoc(cfg, codec, clock, t, batch, n, now);
    LinesAppend(codec, BatchItems(cfg, codec, clock, t, batch[..n]), PayloadItems(cfg, codec, clock, now, batch[n]));
    assert batch[..n + 1][n] == batch[n] && batch[n] in batch[..n + 1];
    assert forall m :: m in batch[..n] ==> m in batch[..n + 1];
  }

  lemma OneByOneStep(cfg: Config, codec: Codec, clock: Clock, t: nat, batch: seq<string>, n: nat)
    requires codec.Valid() && n < |batch| && Sendable(cfg, codec, clock, t, batch[..n + 1])
    requires OneByOne(cfg, codec, clock, t, batch[..n]) ==
               SeparateChunks(MessageLines(cfg, codec, clock, t, batch[..n]), cfg.maxDataPayloadSize)
    ensures OneByOne(cfg, codec, clock, t, batch[..n + 1]) ==
              SeparateChunks(MessageLines(cfg, codec, clock, t, batch[..n + 1]), cfg.maxDataPayloadSize)
  {
    hide *;
    SendableStep(cfg, codec, clock, t, batch, n);
    OneByOneSnoc(cfg, codec, clock, t, batch, n);
    MessageSnoc(cfg, codec, clock, t, batch, n);
    SeparateSnoc(MessageLines(cfg, codec, clock, t, batch[..n]),
                 Lines(codec, PayloadItems(cfg, codec, clock, t + ItemCount(codec, batch[..n]), batch[n])),
                 cfg.maxDataPayloadSize);
  }

  /** For sendable payloads these are the separate packings. */
  lemma {:induction false} OneByOneSeparate(cfg: Config, codec: Codec, clock: Clock, t: nat, batch: seq<string>, n: nat)
    requires codec.Valid() && n <= |batch| && Sendable(cfg, codec, clock, t, batch[..n])
    ensures OneByOne(cfg, codec, clock, t, batch[..n]) ==
              SeparateChunks(MessageLines(cfg, codec, clock, t, batch[..n]), cfg.maxDataPayloadSize)
  {
    if n == 0 {
      hide Sendable, SoloChunks, PayloadItems, ItemCount;
      assert batch[..0] == [] && MessageLines(cfg, codec, clock, t, []) == [];
    } else {
      hide *;
      SendableStep(cfg, codec, clock, t, batch, n - 1);
      OneByOneSeparate(cfg, codec, clock, t, batch, n - 1);
      OneByOneStep(cfg, codec, clock, t, batch, n - 1);
    }
  }

  /** Batching refines sending one by one: for payloads that SendLogs sends, the
      one SendAllLogs call posts the same records in the same order, in no more
      chunks. */
  lemma BatchRefinesSeparate(cfg: Config, codec: Codec, clock: Clock, t: nat, batch: seq<string>)
    requires codec.Valid() && batch != [] && Sendable(cfg, codec, clock, t, batch)
    ensures var together := P.Pack(Lines(codec, BatchItems(cfg, codec, clock, t, batch)), cfg.maxDataPayloadSize);
            var apart := OneByOne(cfg, codec, clock, t, batch);
            P.AllRecords(together) == P.AllRecords(apart) && |together| <= |apart|
  {
    hide BatchItems, ItemCount, OneByOne, PayloadItems, Lines, Sendable;
    var messages := MessageLines(cfg, codec, clock, t, batch);
    assert batch[..|batch|] == batch;
    OneByOneSeparate(cfg, codec, clock, t, batch, |batch|);
    BatchLines(cfg, codec, clock, t, batch, |batch|);
    SeparateStream(messages, cfg.maxDataPayloadSize);
    P.BatchingSaves(messages, cfg.maxDataPayloadSize);
    LinesClean(codec, BatchItems(cfg, codec, clock, t, batch));
    P.PackRecords(Lines(codec, BatchItems(cfg, codec, clock, t, batch)), cfg.maxDataPayloadSize);
  }
}
