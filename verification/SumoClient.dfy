/** The log sender (sumoclient.go): enhancement in place, packing, posting with
    retry and failover, and the two batch senders. */
module SumoClient {
  import opened Telemetry
  import opened Wire
  import opened Utils
  import P = Packing

  /** A Go map holding one log item; assigning to a key changes the map in place. */
  class LogItem {
    var fields: Fields

    constructor (fields: Fields)
      ensures this.fields == fields
    {
      this.fields := fields;
    }
  }

  /** What json.Marshal sees in a slot: a nil map is the JSON null. */
  function SlotValue(o: LogItem?): Json
    reads o
  {
    if o == null then Null else Obj(o.fields)
  }

  function Values(slots: seq<LogItem?>): (r: seq<Json>)
    reads slots
  {
    seq(|slots|, i requires 0 <= i < |slots| reads slots => SlotValue(slots[i]))
  }

  /** The chunks that SendLogs posts for one payload, read from clock reading t on:
      none when it is empty, does not parse, or holds an item that does not marshal. */
  ghost function SoloChunks(cfg: Config, codec: Codec, clock: Clock, t: nat, raw: string): seq<string>
    requires codec.Valid()
  {
    var items := PayloadItems(cfg, codec, clock, t, raw);
    if raw == "" || codec.parsePayload(raw).None? || Unmarshallable(codec, items) > 0 then []
    else P.Pack(Lines(codec, items), cfg.maxDataPayloadSize)
  }

  class Client {
    const cfg: Config
    const codec: Codec
    const net: Network
    const clock: Clock
    ghost const requests0: seq<Request>   // what the network had seen before this client
    ghost const puts0: seq<Put>
    var ticks: nat                 // clock readings so far
    ghost var log: seq<Exchange>   // one entry for each postToSumo call and each stored flush

    /** The log is the network's history: every request and every upload since the
        client was made belongs to one entry, in order. */
    ghost predicate Valid()
      reads this, net
    {
      && codec.Valid() && net.Valid() && AllFaithful(cfg, codec, log)
      && net.requests == requests0 + AllRequests(log) && net.puts == puts0 + AllPuts(log)
    }

    constructor (cfg: Config, codec: Codec, net: Network, clock: Clock)
      requires codec.Valid() && net.Valid()
      ensures Valid() && log == []
      ensures this.cfg == cfg && this.codec == codec && this.net == net && this.clock == clock
    {
      this.cfg, this.codec, this.net, this.clock := cfg, codec, net, clock;
      requests0, puts0 := net.requests, net.puts;
      ticks := 0;
      log := [];
    }

    // ------------------------------------------------------- enhancement

    method CreateCWLogLine(item: LogItem)
      requires "record" in item.fields && item.fields["record"].Obj?
      requires "metrics" in item.fields["record"].fields && item.fields["record"].fields["metrics"].Obj?
      modifies item
      ensures "message" in item.fields && item.fields["message"].Str?
      ensures item.fields == old(item.fields)["message" := item.fields["message"]]
      ensures var record := old(item.fields)["record"].fields;
              && item.fields["message"].s == ReportLine(codec, record, record["metrics"].fields)
              && (NoTabs(codec) ==>
                    ReportReads(codec, record, record["metrics"].fields, item.fields["message"].s))
    {
      hide ReportReads, NoTabs;
      var message := item.fields["record"].fields;
      var metric := message["metrics"].fields;
      var line := "REPORT RequestId: " + codec.show(Get(message, "requestId")) +
        "\t" + ("Duration: " + codec.show(Get(metric, "durationMs")) + " ms") +
        "\t" + ("Billed Duration: " + codec.show(Get(metric, "billedDurationMs")) + " ms ") +
        "\t" + ("Memory Size: " + codec.show(Get(metric, "memorySizeMB")) + " MB") +
        "\t" + ("Max Memory Used: " + codec.show(Get(metric, "maxMemoryUsedMB")) + " MB");
      if Get(metric, "initDurationMs").Null? {
        assert line + "" == line;
      } else {
        line := line + ("\t" + ("Init Duration: " + codec.show(Get(metric, "initDurationMs")) + " ms"));
      }
      assert line == ReportLine(codec, message, metric);
      hide ReportLine;
      if NoTabs(codec) { ReportLineReads(codec, message, metric); }
      item.fields := item.fields["message" := Str(line)];
    }

    /** enhanceLogs' branch for a function item that already has its stamps. */
    method EnhanceFunction(item: LogItem, ghost stamp: string, ghost was: Fields) returns (slot: LogItem?)
      requires Reportable(was) && HasType(was, "function") && item.fields == Stamped(cfg, stamp, was)
      modifies item
      ensures slot == null || slot == item || fresh(slot)
      ensures SlotValue(slot) == Enhanced(cfg, codec, stamp, was)
    {
      slot := item;
      var message := "";
      if Get(item.fields, "record").Str? {
        message := item.fields["record"].s;
        item.fields := item.fields - {"record"};
      }
      message := codec.trimSpace(message);
      var parsed := codec.parseObject(message);
      assert message == FunctionText(codec, was) && item.fields == WithoutTextRecord(Stamped(cfg, stamp, was));
      hide Stamped, WithoutTextRecord, FunctionText, Reportable;
      if parsed.NotJson? {
        if cfg.enhanceJsonLogs {
          item.fields := item.fields["message" := Str(message)];
        } else {
          slot := new LogItem(map["message" := Str(message)]);
        }
      } else {
        if cfg.enhanceJsonLogs {
          item.fields := item.fields["message" := AsJson(parsed)];
        } else if parsed.Object? {
          slot := new LogItem(parsed.fields);
        } else {
          slot := null;
        }
      }
    }

    /** enhanceLogs' branch for a runtimeDone item that already has its stamps. */
    method EnhanceRuntimeDone(item: LogItem, ghost stamp: string, ghost was: Fields)
      requires Reportable(was) && HasType(was, "platform.runtimeDone") && item.fields == Stamped(cfg, stamp, was)
      modifies item
      ensures Obj(item.fields) == Enhanced(cfg, codec, stamp, was)
    {
      if Get(item.fields, "record").Obj? {
        var message := item.fields["record"].fields;
        if "spans" in message && cfg.enableSpanDrops {
          item.fields := item.fields["record" := Obj(message - {"spans"})];
        } else {
          assert "spans" !in message ==> message - {"spans"} == message;
          assert item.fields == item.fields["record" := Obj(message)];
        }
      }
    }

    /** The body of enhanceLogs' loop for one item; returns the slot's new value. */
    method EnhanceItem(item: LogItem) returns (slot: LogItem?)
      requires Reportable(item.fields)
      modifies this`ticks, item
      ensures ticks == old(ticks) + 1
      ensures slot == null || slot == item || fresh(slot)
      ensures SlotValue(slot) == Enhanced(cfg, codec, clock(old(ticks)), old(item.fields))
      ensures EnhancedTo(cfg, codec, clock(old(ticks)), old(item.fields), SlotValue(slot))
    {
      EnhancedMeans(cfg, codec, clock(ticks), item.fields);
      hide ReportLine, EnhancedTo, NoTabs, ReportReads;
      ghost var was, stamp := item.fields, clock(ticks);
      slot := item;
      item.fields := item.fields["logGroup" := Str(cfg.logGroup)];
      item.fields := item.fields["logStream" := Str(clock(ticks))];
      ticks := ticks + 1;
      item.fields := item.fields["IsColdStart" := Bool(false)];
      item.fields := item.fields["LayerVersion" := Str(cfg.layerVersion)];
      StampsOnly(stamp, was);
      hide Stamped;
      if HasType(item.fields, "function") {
        slot := EnhanceFunction(item, stamp, was);
      } else if HasType(item.fields, "platform.report") {
        CreateCWLogLine(item);
      } else if HasType(item.fields, "platform.runtimeDone") {
        EnhanceRuntimeDone(item, stamp, was);
      }
    }

    /** The stamps leave type and record alone. */
    lemma StampsOnly(stamp: string, was: Fields)
      ensures var s := Stamped(cfg, stamp, was);
              && (forall logType :: HasType(s, logType) == HasType(was, logType))
              && ("record" in s <==> "record" in was) && ("record" in was ==> s["record"] == was["record"])
    {
    }

    method EnhanceLogs(msg: array<LogItem?>)
      requires forall i :: 0 <= i < msg.Length ==> msg[i] != null && Reportable(msg[i].fields)
      requires forall i, j :: 0 <= i < j < msg.Length ==> msg[i] != msg[j]
      modifies this`ticks, msg, msg[..]
      ensures ticks == old(ticks) + msg.Length
      ensures forall i :: 0 <= i < msg.Length ==> msg[i] == null || msg[i] == old(msg[i]) || fresh(msg[i])
      ensures forall i :: 0 <= i < msg.Length ==>
                && SlotValue(msg[i]) == Enhanced(cfg, codec, clock(old(ticks) + i), old(msg[i].fields))
                && EnhancedTo(cfg, codec, clock(old(ticks) + i), old(msg[i].fields), SlotValue(msg[i]))
    {
      hide EnhancedTo;
      hide Enhanced, Reportable, HasType;
      ghost var items := msg[..];
      var idx := 0;
      while idx < msg.Length
        invariant 0 <= idx <= msg.Length && ticks == old(ticks) + idx
        invariant forall i :: idx <= i < msg.Length ==> msg[i] == items[i] && msg[i].fields == old(msg[i].fields)
        invariant forall i :: 0 <= i < idx ==> msg[i] == null || msg[i] == items[i] || fresh(msg[i])
        invariant forall i :: 0 <= i < idx ==>
                    && SlotValue(msg[i]) == Enhanced(cfg, codec, clock(old(ticks) + i), old(msg[i].fields))
                    && EnhancedTo(cfg, codec, clock(old(ticks) + i), old(msg[i].fields), SlotValue(msg[i]))
      {
        var slot := EnhanceItem(msg[idx]);
        msg[idx] := slot;
        idx := idx + 1;
      }
    }

    /** json.Unmarshal of a payload: fresh maps in a fresh slice, or an error. */
    method TransformBytesToArrayOfMap(raw: string) returns (ok: bool, msg: array<LogItem?>)
      requires codec.Valid()
      ensures fresh(msg) && ok == codec.parsePayload(raw).Some?
      ensures ok ==> msg.Length == |codec.parsePayload(raw).value|
      ensures ok ==> forall i :: 0 <= i < msg.Length ==>
                && msg[i] != null && fresh(msg[i])
                && msg[i].fields == codec.parsePayload(raw).value[i] && Reportable(msg[i].fields)
      ensures forall i, j :: 0 <= i < j < msg.Length ==> msg[i] != msg[j]
    {
      var parsed := codec.parsePayload(raw);
      if parsed.None? {
        ok, msg := false, new LogItem?[0];
        return;
      }
      ok, msg := true, new LogItem?[|parsed.value|];
      var n := 0;
      while n < msg.Length
        invariant 0 <= n <= msg.Length
        invariant forall i :: 0 <= i < n ==>
                    msg[i] != null && fresh(msg[i]) && msg[i].fields == parsed.value[i]
        invariant forall i, j :: 0 <= i < j < n ==> msg[i] != msg[j]
      {
        var item := new LogItem(parsed.value[n]);
        msg[n] := item;
        n := n + 1;
      }
    }

    // ----------------------------------------------------------- packing

    /** createChunks after n items: the chunks closed so far, the open one with its
        size, and the items that did not marshal. */
    ghost predicate Packed(items: seq<Json>, n: nat, chunks: seq<string>, current: string, size: int, errors: int) {
      && n <= |items| && size == |current| && errors == Unmarshallable(codec, items[..n])
      && P.Pack(Lines(codec, items[..n]), cfg.maxDataPayloadSize) == chunks + [current]
    }

    method CreateChunks(msgArr: seq<LogItem?>) returns (chunks: seq<string>, ok: bool)
      requires codec.Valid()
      ensures chunks == P.Pack(Lines(codec, Values(msgArr)), cfg.maxDataPayloadSize)
      ensures ok == (Unmarshallable(codec, Values(msgArr)) == 0)
    {
      ghost var items := Values(msgArr);
      PackedNothing(items);
      hide Packed, Lines, Unmarshallable;
      chunks := [];
      var chunkSize, currentChunk, errorCount, n := 0, "", 0, 0;
      while n < |msgArr|
        invariant 0 <= n <= |msgArr| && Packed(items, n, chunks, currentChunk, chunkSize, errorCount)
      {
        PackedNext(items, n, chunks, currentChunk, chunkSize, errorCount);
        var b := codec.marshal(SlotValue(msgArr[n]));
        if b.None? {
          errorCount := errorCount + 1;
        } else {
          var itemSize := |b.value|;
          if chunkSize + itemSize + 1 >= cfg.maxDataPayloadSize {
            chunks := chunks + [currentChunk];
            currentChunk := b.value;
            chunkSize := itemSize;
          } else {
            chunkSize := chunkSize + (itemSize + 1);
            currentChunk := currentChunk + "\n" + b.value;
          }
        }
        n := n + 1;
      }
      PackedAll(items, chunks, currentChunk, chunkSize, errorCount);
      chunks := chunks + [currentChunk];
      ok := errorCount == 0;
    }

    lemma PackedNothing(items: seq<Json>)
      ensures Packed(items, 0, [], "", 0, 0)
    {
      assert Lines(codec, items[..0]) == [] && Unmarshallable(codec, items[..0]) == 0;
      assert P.Render([[]]) == [""] && P.Segments([], cfg.maxDataPayloadSize) == [[]];
    }

    lemma PackedAll(items: seq<Json>, chunks: seq<string>, current: string, size: int, errors: int)
      requires Packed(items, |items|, chunks, current, size, errors)
      ensures P.Pack(Lines(codec, items), cfg.maxDataPayloadSize) == chunks + [current]
      ensures errors == Unmarshallable(codec, items)
    {
      hide Lines, Unmarshallable, P.Pack;
      assert items[..|items|] == items;
    }

    /** What one round of the packing loop may do. */
    lemma PackedNext(items: seq<Json>, n: nat, chunks: seq<string>, current: string, size: int, errors: int)
      requires n < |items| && Packed(items, n, chunks, current, size, errors)
      ensures match codec.marshal(items[n])
              case None => Packed(items, n + 1, chunks, current, size, errors + 1)
              case Some(line) =>
                if size + |line| + 1 >= cfg.maxDataPayloadSize
                then Packed(items, n + 1, chunks + [current], line, |line|, errors)
                else Packed(items, n + 1, chunks, current + "\n" + line, size + (|line| + 1), errors)
    {
      hide Lines, Unmarshallable, P.Pack;
      LinesSnoc(codec, items, n);
      if codec.marshal(items[n]).Some? {
        NextLine(Lines(codec, items[..n]), codec.marshal(items[n]).value, chunks, current);
      }
    }

    lemma NextLine(lines: seq<P.Line>, line: P.Line, chunks: seq<string>, current: string)
      requires P.Pack(lines, cfg.maxDataPayloadSize) == chunks + [current]
      ensures P.Pack(lines + [line], cfg.maxDataPayloadSize) ==
                if |current| + |line| + 1 >= cfg.maxDataPayloadSize then chunks + [current] + [line]
                else chunks + [current + "\n" + line]
    {
      hide P.Chunk, P.Prefixed, P.Grow;
      var segs := P.Segments(lines, cfg.maxDataPayloadSize);
      P.SegmentsCut(lines, cfg.maxDataPayloadSize);
      P.GrowRender(segs, line, cfg.maxDataPayloadSize);
      assert (lines + [line])[..|lines|] == lines;
    }

    // ----------------------------------------------------------- posting

    /** createBuffer: a buffer of its own copy of the compressed bytes. */
    method CreateBuffer(bytedata: string) returns (buf: Buffer)
      ensures fresh(buf) && buf.unread == bytedata
    {
      buf := new Buffer(bytedata);
    }

    /** failoverHandler: returns whether its error is nil. */
    method FailoverHandler(buf: Buffer) returns (ok: bool, ghost made: seq<Put>)
      requires net.Valid()
      modifies net`puts, buf
      ensures net.Valid() && net.puts == old(net.puts) + made
      ensures !cfg.enableFailover ==> ok && made == []
      ensures cfg.enableFailover ==> |made| == 1 && made[0].body == old(buf.unread) && ok == made[0].result.Stored?
    {
      ok, made := true, [];
      if cfg.enableFailover {
        var r := net.Upload(buf);
        ok := r.Stored?;
        made := [net.puts[|net.puts| - 1]];
      }
    }

    /** The function that postToSumo hands to Retry. */
    method RetryPost(attempt: nat, bytedata: string) returns (cont: bool, ok: bool)
      requires net.Valid()
      modifies net`requests
      ensures net.Valid()
      ensures var r := net.respond(|old(net.requests)|);
              && net.requests == old(net.requests) + [Request(bytedata, r)]
              && Verdict(cont, ok) == PostVerdict(cfg.maxRetryAttempts, attempt, r)
    {
      var buf := CreateBuffer(bytedata);
      var response := net.MakeRequest(buf);
      if response.RequestError? || (response.code != 200 && response.code != 302 && response.code < 500) {
        return attempt < cfg.maxRetryAttempts, false;
      } else if response.code == 200 {
        return true, true;
      }
      return attempt < cfg.maxRetryAttempts, true;
    }

    /** utils.Retry with RetryPost as its function: the same calls and the same error
        as Utils.Retry, and each call is one request. */
    method Retry(bytedata: string, maxRetries: int) returns (ok: bool, ghost sent: seq<Request>)
      requires net.Valid()
      modifies net`requests
      ensures net.Valid() && net.requests == old(net.requests) + sent
      ensures Tried(bytedata, maxRetries, old(net.requests), sent, ok)
    {
      ghost var before := net.requests;
      sent := [];
      NoRoundYet(bytedata, before);
      hide *;
      var attempt: nat := 1;
      while true
        invariant net.Valid() && net.requests == before + sent && attempt == |sent| + 1
        invariant Trying(bytedata, maxRetries, before, sent)
        decreases maxRetries - attempt
      {
        if attempt > maxRetries {
          NoMoreRounds(bytedata, maxRetries, before, sent);
          return false, sent;
        }
        var cont, done := RetryPost(attempt, bytedata);
        ghost var request := net.requests[|before| + |sent|];
        NextRound(bytedata, maxRetries, before, sent, request, cont, done);
        P.Regrouped(before, sent, [request]);
        sent := sent + [request];
        if !cont || done {
          return done, sent;
        }
        attempt := attempt + 1;
      }
    }

    /** The rounds of Retry so far, all failed. */
    ghost predicate Trying(bytedata: string, maxRetries: int, before: seq<Request>, sent: seq<Request>) {
      && OnePerAttempt(sent, bytedata, net.respond, |before|) && (sent == [] || |sent| <= maxRetries)
      && Failing(Posting(cfg.maxRetryAttempts, net.respond, |before|), |sent| + 1)
    }

    /** How Retry ended. */
    ghost predicate Tried(bytedata: string, maxRetries: int, before: seq<Request>, sent: seq<Request>, ok: bool) {
      && Attempted(Posting(cfg.maxRetryAttempts, net.respond, |before|), maxRetries, |sent|, ok)
      && Attempts(sent, bytedata, RetryBudget(maxRetries, cfg.maxRetryAttempts)) && ok == AnySettled(sent)
    }

    lemma NoRoundYet(bytedata: string, before: seq<Request>)
      ensures forall maxRetries :: Trying(bytedata, maxRetries, before, [])
    {
    }

    lemma NoMoreRounds(bytedata: string, maxRetries: int, before: seq<Request>, sent: seq<Request>)
      requires Trying(bytedata, maxRetries, before, sent) && |sent| >= maxRetries
      ensures Tried(bytedata, maxRetries, before, sent, false)
    {
      hide OnePerAttempt, Failing, Posting, Attempted, Attempts, AnySettled;
      OutOfBudget(Posting(cfg.maxRetryAttempts, net.respond, |before|), maxRetries, |sent|);
      RetriesAreAttempts(cfg.maxRetryAttempts, maxRetries, net.respond, |before|, sent, bytedata, false);
    }

    lemma NextRound(bytedata: string, maxRetries: int, before: seq<Request>, sent: seq<Request>,
                    request: Request, cont: bool, done: bool)
      requires Trying(bytedata, maxRetries, before, sent) && |sent| < maxRetries
      requires request == Request(bytedata, net.respond(|before| + |sent|))
      requires Verdict(cont, done) == PostVerdict(cfg.maxRetryAttempts, |sent| + 1, request.response)
      ensures !cont || done ==> Tried(bytedata, maxRetries, before, sent + [request], done)
      ensures cont && !done ==> Trying(bytedata, maxRetries, before, sent + [request])
    {
      hide OnePerAttempt, Failing, Posting, PostVerdict, Attempted, Attempts, AnySettled;
      var fn := Posting(cfg.maxRetryAttempts, net.respond, |before|);
      PostingAt(cfg.maxRetryAttempts, net.respond, |before|, |sent| + 1);
      FailingNext(fn, |sent| + 1);
      OneMoreAttempt(sent, bytedata, net.respond, |before|);
      if !cont || done {
        LastCall(fn, maxRetries, |sent| + 1);
        RetriesAreAttempts(cfg.maxRetryAttempts, maxRetries, net.respond, |before|, sent + [request], bytedata, done);
      }
    }

    /** postToSumo's branch for a first answer that does not settle: the retries and,
        if they fail too, the failover. */
    method RetryOrFailover(bytedata: string) returns (ok: bool, ghost more: seq<Request>, ghost made: seq<Put>)
      requires net.Valid()
      modifies net
      ensures net.Valid() && net.requests == old(net.requests) + more && net.puts == old(net.puts) + made
      ensures Attempts(more, bytedata, RetryBudget(cfg.numRetry, cfg.maxRetryAttempts))
      ensures if AnySettled(more) || !cfg.enableFailover then made == [] && ok
              else |made| == 1 && made[0].body == bytedata && ok == made[0].result.Stored?
    {
      hide AnySettled, Attempts, RetryBudget;
      P.NothingMore(net.puts);
      ok, made := true, [];
      var retried;
      retried, more := Retry(bytedata, cfg.numRetry);
      if !retried {
        if cfg.enableFailover {
          var buf := CreateBuffer(bytedata);
          ok, made := FailoverHandler(buf);
        }
      }
    }

    /** Posts one chunk; returns whether its error is nil. */
    method PostToSumo(logStringToSend: string) returns (ok: bool, ghost e: Exchange)
      requires Valid()
      modifies this`log, net
      ensures Valid() && log == old(log) + [e]
      ensures e.kind.Post? && e.chunk == logStringToSend && e.ok == ok && Faithful(cfg, codec, e)
      ensures PostedFrom(cfg, codec, net.respond, net.store, |old(net.requests)|, |old(net.puts)|, e)
      ensures net.requests == old(net.requests) + e.requests && net.puts == old(net.puts) + e.puts
    {
      hide AnySettled, Attempts, AllRequests, AllPuts, Faithful, AllFaithful, RetryBudget, Codec.Valid, PostedFrom;
      P.NothingMore(net.requests);
      P.NothingMore(net.puts);
      ghost var requests, puts := net.requests, net.puts;
      var bytedata := codec.gzip(logStringToSend);
      if bytedata.None? {
        NothingPosted(logStringToSend);
        e := Exchange(Post, logStringToSend, [], [], false);
        JustPosted(e, requests, puts);
        Append(e, requests, puts);
        return false, e;
      }
      ok := true;
      var buf := CreateBuffer(bytedata.value);
      var response := net.MakeRequest(buf);
      ghost var first := Request(bytedata.value, response);
      ghost var tried: seq<Request> := [first];
      ghost var made: seq<Put> := [];
      if response.RequestError? || (response.code != 200 && response.code != 302 && response.code < 500) {
        ghost var more;
        ok, more, made := RetryOrFailover(bytedata.value);
        P.Regrouped(requests, [first], more);
        tried := [first] + more;
        PostedLate(logStringToSend, first, more, made, ok);
      } else {
        PostedAtOnce(logStringToSend, first);
      }
      e := Exchange(Post, logStringToSend, tried, made, ok);
      JustPosted(e, requests, puts);
      Append(e, requests, puts);
    }

    /** Enters an exchange that has just taken place on top of earlier traffic. */
    ghost method Append(e: Exchange, requests: seq<Request>, puts: seq<Put>)
      requires codec.Valid() && net.Valid() && AllFaithful(cfg, codec, log) && Faithful(cfg, codec, e)
      requires requests == requests0 + AllRequests(log) && puts == puts0 + AllPuts(log)
      requires net.requests == requests + e.requests && net.puts == puts + e.puts
      modifies this`log
      ensures Valid() && log == old(log) + [e]
    {
      hide Faithful, AllRequests, AllPuts;
      ExchangesSnoc(log, e);
      P.Regrouped(requests0, AllRequests(log), e.requests);
      P.Regrouped(puts0, AllPuts(log), e.puts);
      log := log + [e];
    }

    /** A post that is a faithful exchange obeys the law in numbers. */
    lemma JustPosted(e: Exchange, requests: seq<Request>, puts: seq<Put>)
      requires net.Valid() && Faithful(cfg, codec, e) && e.kind.Post?
      requires net.requests == requests + e.requests && net.puts == puts + e.puts
      ensures PostedFrom(cfg, codec, net.respond, net.store, |requests|, |puts|, e)
    {
      hide Faithful, PostedInNumbers;
      net.SinceThen(requests, e.requests, puts, e.puts);
      EntryByNumbers(cfg, codec, e);
    }

    lemma NothingPosted(chunk: string)
      requires codec.gzip(chunk).None?
      ensures Faithful(cfg, codec, Exchange(Post, chunk, [], [], false))
    {
    }

    lemma PostedAtOnce(chunk: string, first: Request)
      requires codec.gzip(chunk) == Some(first.body) && Settled(first.response)
      ensures Faithful(cfg, codec, Exchange(Post, chunk, [first], [], true))
    {
      assert Settled([first][0].response);
    }

    /** A first request, its retries and the failover after them are an exchange. */
    lemma PostedLate(chunk: string, first: Request, more: seq<Request>, made: seq<Put>, ok: bool)
      requires codec.gzip(chunk) == Some(first.body) && !Settled(first.response)
      requires Attempts(more, first.body, RetryBudget(cfg.numRetry, cfg.maxRetryAttempts))
      requires if AnySettled(more) || !cfg.enableFailover then made == [] && ok
               else |made| == 1 && made[0].body == first.body && ok == made[0].result.Stored?
      ensures Faithful(cfg, codec, Exchange(Post, chunk, [first] + more, made, ok))
    {
      hide AnySettled, Attempts, RetryBudget;
      FirstThenRetries(first.body, first, more, RetryBudget(cfg.numRetry, cfg.maxRetryAttempts));
    }

    /** The loop that both senders run over their chunks. */
    method PostChunks(chunks: seq<string>) returns (errorCount: nat)
      requires Valid()
      modifies this`log, net
      ensures Valid() && old(log) <= log
      ensures var es := log[|old(log)|..];
              && AllOf(Post, es) && Chunks(es) == chunks && (errorCount == 0 <==> AllOk(es))
              && net.requests == old(net.requests) + AllRequests(es) && net.puts == old(net.puts) + AllPuts(es)
    {
      hide Faithful, AllRequests, AllPuts, AllOk, AllOf, PostedFrom;
      ghost var before := log;
      ghost var es: seq<Exchange> := [];
      NoExchanges(Post);
      errorCount := 0;
      var n := 0;
      while n < |chunks|
        invariant 0 <= n <= |chunks| && Valid() && log == before + es
        invariant AllOf(Post, es) && Chunks(es) == chunks[..n] && (errorCount == 0 <==> AllOk(es))
        invariant net.requests == old(net.requests) + AllRequests(es) && net.puts == old(net.puts) + AllPuts(es)
      {
        var ok, e := PostToSumo(chunks[n]);
        if !ok { errorCount := errorCount + 1; }
        ExchangesSnoc(es, e);
        es := es + [e];
        n := n + 1;
      }
      assert log[|before|..] == es;
    }

    // ----------------------------------------------------------- senders

    /** One round of the batch loops: parse a payload and enhance its items. */
    method LoadPayload(rawmsg: string) returns (ok: bool, slots: seq<LogItem?>)
      requires codec.Valid()
      modifies this`ticks
      ensures ok == codec.parsePayload(rawmsg).Some?
      ensures forall o :: o in slots && o != null ==> fresh(o)
      ensures Values(slots) == PayloadItems(cfg, codec, clock, old(ticks), rawmsg)
      ensures ticks == old(ticks) + |slots|
    {
      hide Enhanced, EnhancedTo, Reportable, HasType;
      slots := [];
      var parsed, msgArr := TransformBytesToArrayOfMap(rawmsg);
      if !parsed {
        return false, [];
      }
      if msgArr.Length > 0 {
        EnhanceLogs(msgArr);
        slots := msgArr[..];
      }
      ok := true;
    }

    /** Sends one payload; returns whether its error is nil. */
    method SendLogs(rawmsg: string) returns (ok: bool)
      requires Valid()
      modifies this`log, this`ticks, net
      ensures Valid() && old(log) <= log
      ensures var es := log[|old(log)|..];
              var items := PayloadItems(cfg, codec, clock, old(ticks), rawmsg);
              && net.requests == old(net.requests) + AllRequests(es) && net.puts == old(net.puts) + AllPuts(es)
              && AllOf(Post, es) && Chunks(es) == SoloChunks(cfg, codec, clock, old(ticks), rawmsg)
              && ticks == old(ticks) + (if rawmsg == "" then 0 else |items|)
              && ok == (rawmsg == "" ||
                        (codec.parsePayload(rawmsg).Some? && Unmarshallable(codec, items) == 0 && AllOk(es)))
    {
      if |rawmsg| > 0 {
        var parsed, msgArr := LoadPayload(rawmsg);
        if !parsed {
          return false;
        }
        var chunks, packed := CreateChunks(msgArr);
        if !packed {
          return false;
        }
        var errorCount := PostChunks(chunks);
        if errorCount > 0 {
          return false;
        }
      }
      return true;
    }

    /** SendAllLogs' loop over the payloads: the enhanced items of all that parse. */
    method LoadBatch(allMessages: seq<string>) returns (payload: seq<LogItem?>, errorCount: nat)
      requires codec.Valid()
      modifies this`ticks
      ensures errorCount == BadPayloads(codec, allMessages)
      ensures Values(payload) == BatchItems(cfg, codec, clock, old(ticks), allMessages)
      ensures ticks == old(ticks) + |payload|
    {
      hide BatchItems, BadPayloads, PayloadItems, ItemCount, Reportable;
      payload, errorCount := [], 0;
      var n := 0;
      ghost var items: seq<Json> := [];
      NothingYet(cfg, codec, clock, ticks, allMessages, []);
      while n < |allMessages|
        invariant 0 <= n <= |allMessages| && errorCount == BadPayloads(codec, allMessages[..n])
        invariant forall o :: o in payload && o != null ==> fresh(o)
        invariant items == BatchItems(cfg, codec, clock, old(ticks), allMessages[..n])
        invariant Values(payload) == items && ticks == old(ticks) + |items|
      {
        BatchSnoc(cfg, codec, clock, old(ticks), allMessages, n, ticks);
        var parsed, msgArr := LoadPayload(allMessages[n]);
        assert Values(payload) == items;
        assert Values(payload + msgArr) == items + Values(msgArr);
        items := items + Values(msgArr);
        if !parsed {
          errorCount := errorCount + 1;
        }
        payload := payload + msgArr;
        n := n + 1;
      }
      assert allMessages[..n] == allMessages;
    }

    /** Sends a batch; returns whether its error is nil. */
    method SendAllLogs(allMessages: seq<string>) returns (ok: bool)
      requires Valid()
      modifies this`log, this`ticks, net
      ensures Valid() && old(log) <= log
      ensures var es := log[|old(log)|..];
              var items := BatchItems(cfg, codec, clock, old(ticks), allMessages);
              && net.requests == old(net.requests) + AllRequests(es) && net.puts == old(net.puts) + AllPuts(es)
              && ticks == old(ticks) + |items|
              && SentBatch(allMessages, items, es, ok)
    {
      if |allMessages| == 0 {
        return true;
      }
      var payload, errorCount := LoadBatch(allMessages);
      var chunks, packed := CreateChunks(payload);
      if !packed {
        return false;
      }
      var failed := PostChunks(chunks);
      errorCount := errorCount + failed;
      if errorCount > 0 {
        return false;
      }
      return true;
    }

    /** What SendAllLogs did to its batch: nothing for an empty batch, nothing
        but an error when an item does not marshal, and otherwise one post a
        chunk, with a nil error exactly when all payloads parsed and all posts
        returned nil. */
    ghost predicate SentBatch(batch: seq<string>, items: seq<Json>, es: seq<Exchange>, ok: bool) {
      if batch == [] then ok && es == []
      else if Unmarshallable(codec, items) > 0 then !ok && es == []
      else
        && AllOf(Post, es) && Chunks(es) == P.Pack(Lines(codec, items), cfg.maxDataPayloadSize)
        && ok == (BadPayloads(codec, batch) == 0 && AllOk(es))
    }

    /** What FlushAll did, with failover on: nothing for an empty batch, and
        otherwise one object with the text of every line that could be made; any
        payload or item that failed makes it an error. */
    ghost predicate FlushedBatch(batch: seq<string>, items: seq<Json>, es: seq<Exchange>, ok: bool) {
      if batch == [] then ok && es == []
      else
        && AllOf(Flush, es) && Chunks(es) == [P.Prefixed(Lines(codec, items))]
        && ok == (BadPayloads(codec, batch) == 0 && Unmarshallable(codec, items) == 0 && AllOk(es))
    }

    /** Stores a whole batch in the bucket; returns whether its error is nil. */
    method FlushAll(msgQueue: seq<string>) returns (ok: bool)
      requires Valid()
      modifies this`log, this`ticks, net`puts
      ensures Valid() && old(log) <= log
      ensures !cfg.enableFailover ==> ok && log == old(log) && net.puts == old(net.puts) && ticks == old(ticks)
      ensures cfg.enableFailover ==>
                var items := BatchItems(cfg, codec, clock, old(ticks), msgQueue);
                var es := log[|old(log)|..];
                && ticks == old(ticks) + |items| && net.puts == old(net.puts) + AllPuts(es)
                && FlushedBatch(msgQueue, items, es, ok)
    {
      hide AllRequests, AllPuts, BatchItems, Lines, BadPayloads, Unmarshallable;
      ok := true;
      if |msgQueue| > 0 && cfg.enableFailover {
        var payload, errorCount := BuildText(msgQueue);
        ghost var puts := net.puts;
        P.NothingMore(net.requests);
        P.NothingMore(net.puts);
        var gzippedBuffer := codec.gzip(payload);
        if gzippedBuffer.None? {
          Append(Exchange(Flush, payload, [], [], false), net.requests, net.puts);
          JustOne(log[|old(log)|]);
          return false;
        }
        var buf := CreateBuffer(gzippedBuffer.value);
        var sent, made := FailoverHandler(buf);
        Append(Exchange(Flush, payload, [], made, sent), net.requests, puts);
        JustOne(log[|old(log)|]);
        if errorCount > 0 || !sent {
          return false;
        }
        return true;
      }
      NoExchanges(Flush);
      NothingYet(cfg, codec, clock, ticks, msgQueue, []);
      assert msgQueue == [] ==> msgQueue[..0] == msgQueue;
      assert log[|log|..] == [];
    }

    lemma JustOne(e: Exchange)
      ensures AllRequests([e]) == e.requests && AllPuts([e]) == e.puts && AllOk([e]) == e.ok
      ensures AllOf(e.kind, [e]) && Chunks([e]) == [e.chunk]
    {
      assert [e][..0] == [];
    }

    /** FlushAll's loop over the payloads: the text of all their lines. */
    method BuildText(msgQueue: seq<string>) returns (payload: string, errorCount: nat)
      requires codec.Valid()
      modifies this`ticks
      ensures var items := BatchItems(cfg, codec, clock, old(ticks), msgQueue);
              && ticks == old(ticks) + |items| && payload == P.Prefixed(Lines(codec, items))
              && errorCount == BadPayloads(codec, msgQueue) + Unmarshallable(codec, items)
    {
      hide BatchItems, BadPayloads, PayloadItems, ItemCount, Reportable, Lines, Unmarshallable;
      payload, errorCount := "", 0;
      var n := 0;
      ghost var items: seq<Json> := [];
      NothingYet(cfg, codec, clock, ticks, msgQueue, []);
      while n < |msgQueue|
        invariant 0 <= n <= |msgQueue|
        invariant items == BatchItems(cfg, codec, clock, old(ticks), msgQueue[..n])
        invariant ticks == old(ticks) + |items| && payload == P.Prefixed(Lines(codec, items))
        invariant errorCount == BadPayloads(codec, msgQueue[..n]) + Unmarshallable(codec, items)
      {
        BatchSnoc(cfg, codec, clock, old(ticks), msgQueue, n, ticks);
        var parsed, msgArr := LoadPayload(msgQueue[n]);
        if !parsed {
          errorCount := errorCount + 1;
        }
        ghost var values := Values(msgArr);
        var more, failed := WriteItems(payload, msgArr);
        TextAppend(codec, items, values);
        payload := more;
        errorCount := errorCount + failed;
        items := items + values;
        n := n + 1;
      }
      assert msgQueue[..n] == msgQueue;
    }

    /** FlushAll's inner loop: a newline and the text of every item that marshals. */
    method WriteItems(payload: string, msgArr: seq<LogItem?>) returns (more: string, errorCount: nat)
      ensures more == payload + P.Prefixed(Lines(codec, Values(msgArr)))
      ensures errorCount == Unmarshallable(codec, Values(msgArr))
    {
      ghost var items := Values(msgArr);
      WrittenNothing(payload, items);
      hide Written, Lines, Unmarshallable, P.Prefixed;
      more, errorCount := payload, 0;
      var n := 0;
      while n < |msgArr|
        invariant 0 <= n <= |msgArr| && Written(payload, items, n, more, errorCount)
      {
        WrittenNext(payload, items, n, more, errorCount);
        var b := codec.marshal(SlotValue(msgArr[n]));
        if b.None? {
          errorCount := errorCount + 1;
        } else {
          more := more + ("\n" + b.value);
        }
        n := n + 1;
      }
      WrittenAll(payload, items, more, errorCount);
    }

    /** FlushAll's text after n items of a payload, and the items that did not marshal. */
    ghost predicate Written(payload: string, items: seq<Json>, n: nat, more: string, errors: nat) {
      && n <= |items| && errors == Unmarshallable(codec, items[..n])
      && more == payload + P.Prefixed(Lines(codec, items[..n]))
    }

    lemma WrittenNothing(payload: string, items: seq<Json>)
      ensures Written(payload, items, 0, payload, 0)
    {
      assert Lines(codec, items[..0]) == [] && Unmarshallable(codec, items[..0]) == 0;
    }

    lemma WrittenAll(payload: string, items: seq<Json>, more: string, errors: nat)
      requires Written(payload, items, |items|, more, errors)
      ensures more == payload + P.Prefixed(Lines(codec, items)) && errors == Unmarshallable(codec, items)
    {
      hide Lines, Unmarshallable, P.Prefixed;
      assert items[..|items|] == items;
    }

    lemma WrittenNext(payload: string, items: seq<Json>, n: nat, more: string, errors: nat)
      requires n < |items| && Written(payload, items, n, more, errors)
      ensures match codec.marshal(items[n])
              case None => Written(payload, items, n + 1, more, errors + 1)
              case Some(line) => Written(payload, items, n + 1, more + ("\n" + line), errors)
    {
      hide Lines, Unmarshallable, P.Prefixed;
      LinesSnoc(codec, items, n);
      if codec.marshal(items[n]).Some? {
        P.PrefixedSnoc(payload, Lines(codec, items[..n]), codec.marshal(items[n]).value);
      }
    }
  }
}
