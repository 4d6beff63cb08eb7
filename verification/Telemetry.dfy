/** Payloads, log items and what enhancement does to an item. */
module Telemetry {
  import Packing

  datatype Option<+T> = None | Some(value: T)

  datatype Json =
    | Null
    | Bool(b: bool)
    | Num(n: real)
    | Str(s: string)
    | Arr(elements: seq<Json>)
    | Obj(fields: Fields)

  type Fields = map<string, Json>

  /** What json.Unmarshal leaves in a map variable: nothing usable, a nil map
      (the text `null`), or an object. */
  datatype ParsedObject = NotJson | NilMap | Object(fields: Fields)

  /** A payload in a queue; `id` names the POST that carried it. */
  datatype Message = Message(id: nat, body: string)

  function Bodies(batch: seq<Message>): seq<string> {
    seq(|batch|, i requires 0 <= i < |batch| => batch[i].body)
  }

  /** The messages of a queue that belong to a batch, in queue order. */
  function Restrict(queue: seq<Message>, batch: seq<Message>): seq<Message> {
    if queue == [] then [] else
    Restrict(queue[..|queue| - 1], batch) + if queue[|queue| - 1] in batch then [queue[|queue| - 1]] else []
  }

  lemma RestrictSnoc(queue: seq<Message>, m: Message, batch: seq<Message>)
    ensures Restrict(queue + [m], batch) == Restrict(queue, batch) + if m in batch then [m] else []
  {
    assert (queue + [m])[..|queue|] == queue;
  }

  lemma {:induction false} RestrictContains(queue: seq<Message>, batch: seq<Message>, m: Message)
    requires m in Restrict(queue, batch)
    ensures m in queue
  {
    if queue != [] && m in Restrict(queue[..|queue| - 1], batch) {
      RestrictContains(queue[..|queue| - 1], batch, m);
    }
  }

  /** One message goes from the hand to another heap. */
  lemma OneMoved(all: multiset<Message>, hand: multiset<Message>, hand': multiset<Message>,
                 heap: multiset<Message>, heap': multiset<Message>, rest: multiset<Message>, m: Message)
    requires all == heap + hand + rest && hand == multiset{m} + hand' && heap' == heap + multiset{m}
    ensures all == heap' + hand' + rest
  {
  }

  datatype Config = Config(
    logGroup: string,
    layerVersion: string,
    maxDataPayloadSize: int,
    numRetry: int,
    maxRetryAttempts: int,
    enableFailover: bool,
    enhanceJsonLogs: bool,
    enableSpanDrops: bool,
    maxConcurrentRequests: int)

  /** The library calls of the client, as functions. */
  datatype Codec = Codec(
    parsePayload: string -> Option<seq<Fields>>,  // a JSON array of objects
    parseObject: string -> ParsedObject,          // utils.ParseJson
    marshal: Json -> Option<string>,              // json.Marshal
    gzip: string -> Option<string>,               // utils.Compress
    trimSpace: string -> string,                  // strings.TrimSpace
    show: Json -> string)                         // the verb %v
  {
    /** Marshalled text is a clean line, different texts compress differently, and
        every platform.report item has the record.metrics object without which the
        client panics. */
    ghost predicate Valid() {
      && (forall a: string, b: string :: gzip(a).Some? && gzip(a) == gzip(b) ==> a == b)
      && (forall j: Json :: marshal(j).Some? ==> Packing.Clean([marshal(j).value]))
      && (forall raw: string :: parsePayload(raw).Some? ==>
            forall i :: 0 <= i < |parsePayload(raw).value| ==> Reportable(parsePayload(raw).value[i]))
    }
  }

  predicate Reportable(m: Fields) {
    HasType(m, "platform.report") ==>
      "record" in m && m["record"].Obj? &&
      "metrics" in m["record"].fields && m["record"].fields["metrics"].Obj?
  }

  predicate HasType(m: Fields, logType: string) {
    "type" in m && m["type"] == Str(logType)
  }

  /** A Go map read: a missing key and a JSON null both read as nil. */
  function Get(m: Fields, key: string): Json {
    if key in m then m[key] else Null
  }

  /** The REPORT line built from a platform.report record. */
  function ReportLine(codec: Codec, record: Fields, metrics: Fields): string {
    "REPORT RequestId: " + codec.show(Get(record, "requestId")) +
    "\t" + ("Duration: " + codec.show(Get(metrics, "durationMs")) + " ms") +
    "\t" + ("Billed Duration: " + codec.show(Get(metrics, "billedDurationMs")) + " ms ") +
    "\t" + ("Memory Size: " + codec.show(Get(metrics, "memorySizeMB")) + " MB") +
    "\t" + ("Max Memory Used: " + codec.show(Get(metrics, "maxMemoryUsedMB")) + " MB") +
    (if Get(metrics, "initDurationMs").Null? then ""
     else "\t" + ("Init Duration: " + codec.show(Get(metrics, "initDurationMs")) + " ms"))
  }

  function Stamped(cfg: Config, stamp: string, m: Fields): Fields {
    m["logGroup" := Str(cfg.logGroup)]["logStream" := Str(stamp)]
     ["IsColdStart" := Bool(false)]["LayerVersion" := Str(cfg.layerVersion)]
  }

  /** The text of a function item; anything but a string record counts as empty. */
  function FunctionText(codec: Codec, m: Fields): string {
    codec.trimSpace(if Get(m, "record").Str? then Get(m, "record").s else "")
  }

  function WithoutTextRecord(m: Fields): Fields {
    if Get(m, "record").Str? then m - {"record"} else m
  }

  function AsJson(p: ParsedObject): Json {
    if p.Object? then Obj(p.fields) else Null
  }

  /** The value of an item's slot after enhancement. */
  function Enhanced(cfg: Config, codec: Codec, stamp: string, m: Fields): Json
    requires Reportable(m)
  {
    var s := Stamped(cfg, stamp, m);
    if HasType(m, "function") then
      var text := FunctionText(codec, m);
      var parsed := codec.parseObject(text);
      var message := if parsed.NotJson? then Str(text) else AsJson(parsed);
      if cfg.enhanceJsonLogs then Obj(WithoutTextRecord(s)["message" := message])
      else if parsed.NotJson? then Obj(map["message" := message])
      else message
    else if HasType(m, "platform.report") then
      var record := m["record"].fields;
      Obj(s["message" := Str(ReportLine(codec, record, record["metrics"].fields))])
    else if HasType(m, "platform.runtimeDone") && cfg.enableSpanDrops && Get(m, "record").Obj? then
      Obj(s["record" := Obj(m["record"].fields - {"spans"})])
    else Obj(s)
  }

  predicate Replaced(cfg: Config, m: Fields) {
    HasType(m, "function") && !cfg.enhanceJsonLogs
  }

  // ---------------------------------------------- what enhancement means

  /** `piece` is a title, the value under a key, and a unit. */
  predicate Piece(codec: Codec, piece: string, title: string, m: Fields, key: string, unit: string) {
    piece == title + codec.show(if key in m then m[key] else Null) + unit
  }

  /** A REPORT line, read back at its tabs: each value stands under its own title. */
  predicate ReportReads(codec: Codec, record: Fields, metrics: Fields, text: string) {
    var pieces := Packing.Split(text, '\t');
    var init := "initDurationMs" in metrics && metrics["initDurationMs"] != Null;
    && |pieces| == (if init then 6 else 5)
    && Piece(codec, pieces[0], "REPORT RequestId: ", record, "requestId", "")
    && Piece(codec, pieces[1], "Duration: ", metrics, "durationMs", " ms")
    && Piece(codec, pieces[2], "Billed Duration: ", metrics, "billedDurationMs", " ms ")
    && Piece(codec, pieces[3], "Memory Size: ", metrics, "memorySizeMB", " MB")
    && Piece(codec, pieces[4], "Max Memory Used: ", metrics, "maxMemoryUsedMB", " MB")
    && (init ==> Piece(codec, pieces[5], "Init Duration: ", metrics, "initDurationMs", " ms"))
  }

  ghost predicate NoTabs(codec: Codec) {
    forall j: Json :: '\t' !in codec.show(j)
  }

  lemma SplitMore(text: string, pieces: seq<string>, piece: string)
    requires Packing.Split(text, '\t') == pieces && '\t' !in piece
    ensures Packing.Split(text + "\t" + piece, '\t') == pieces + [piece]
  {
    Packing.SplitPlain(piece, '\t');
    Packing.SplitAt(text, '\t', piece);
    assert text + "\t" + piece == text + ['\t'] + piece;
  }

  lemma SplitFive(a: string, b: string, c: string, d: string, e: string)
    requires '\t' !in a && '\t' !in b && '\t' !in c && '\t' !in d && '\t' !in e
    ensures Packing.Split(a + "\t" + b + "\t" + c + "\t" + d + "\t" + e, '\t') == [a, b, c, d, e]
  {
    Packing.SplitPlain(a, '\t');
    hide Packing.Split;
    SplitMore(a, [a], b);
    SplitMore(a + "\t" + b, [a, b], c);
    SplitMore(a + "\t" + b + "\t" + c, [a, b, c], d);
    SplitMore(a + "\t" + b + "\t" + c + "\t" + d, [a, b, c, d], e);
  }

  lemma SplitReport(a: string, b: string, c: string, d: string, e: string, f: string)
    requires '\t' !in a && '\t' !in b && '\t' !in c && '\t' !in d && '\t' !in e && '\t' !in f
    ensures var five := a + "\t" + b + "\t" + c + "\t" + d + "\t" + e;
            && Packing.Split(five + "", '\t') == [a, b, c, d, e]
            && Packing.Split(five + ("\t" + f), '\t') == [a, b, c, d, e, f]
  {
    hide Packing.Split;
    var five := a + "\t" + b + "\t" + c + "\t" + d + "\t" + e;
    SplitFive(a, b, c, d, e);
    SplitMore(five, [a, b, c, d, e], f);
    Packing.NothingMore(five);
    Packing.Regrouped(five, "\t", f);
  }

  lemma TabFree(title: string, value: string, unit: string)
    requires '\t' !in title && '\t' !in value && '\t' !in unit
    ensures '\t' !in title + value + unit
  {
  }

  function PieceOf(codec: Codec, title: string, m: Fields, key: string, unit: string): string {
    title + codec.show(Get(m, key)) + unit
  }

  lemma TabFreePiece(codec: Codec, title: string, m: Fields, key: string, unit: string)
    requires NoTabs(codec) && '\t' !in title && '\t' !in unit
    ensures '\t' !in PieceOf(codec, title, m, key, unit)
    ensures Piece(codec, PieceOf(codec, title, m, key, unit), title, m, key, unit)
  {
    TabFree(title, codec.show(Get(m, key)), unit);
  }

  /** The six pieces of a REPORT line, the last of them optional. */
  function PieceAt(codec: Codec, record: Fields, metrics: Fields, i: nat): string {
    match i
    case 0 => PieceOf(codec, "REPORT RequestId: ", record, "requestId", "")
    case 1 => PieceOf(codec, "Duration: ", metrics, "durationMs", " ms")
    case 2 => PieceOf(codec, "Billed Duration: ", metrics, "billedDurationMs", " ms ")
    case 3 => PieceOf(codec, "Memory Size: ", metrics, "memorySizeMB", " MB")
    case 4 => PieceOf(codec, "Max Memory Used: ", metrics, "maxMemoryUsedMB", " MB")
    case _ => PieceOf(codec, "Init Duration: ", metrics, "initDurationMs", " ms")
  }

  lemma PieceAtTabFree(codec: Codec, record: Fields, metrics: Fields, i: nat)
    requires NoTabs(codec)
    ensures '\t' !in PieceAt(codec, record, metrics, i)
  {
    hide NoTabs, Piece, PieceOf;
    match i
    case 0 => TabFreePiece(codec, "REPORT RequestId: ", record, "requestId", "");
    case 1 => TabFreePiece(codec, "Duration: ", metrics, "durationMs", " ms");
    case 2 => TabFreePiece(codec, "Billed Duration: ", metrics, "billedDurationMs", " ms ");
    case 3 => TabFreePiece(codec, "Memory Size: ", metrics, "memorySizeMB", " MB");
    case 4 => TabFreePiece(codec, "Max Memory Used: ", metrics, "maxMemoryUsedMB", " MB");
    case _ => TabFreePiece(codec, "Init Duration: ", metrics, "initDurationMs", " ms");
  }

  lemma ReportLineShape(codec: Codec, record: Fields, metrics: Fields)
    ensures ReportLine(codec, record, metrics) ==
              PieceAt(codec, record, metrics, 0) + "\t" + PieceAt(codec, record, metrics, 1) +
              "\t" + PieceAt(codec, record, metrics, 2) + "\t" + PieceAt(codec, record, metrics, 3) +
              "\t" + PieceAt(codec, record, metrics, 4) +
              if Get(metrics, "initDurationMs").Null? then "" else "\t" + PieceAt(codec, record, metrics, 5)
  {
    Packing.NothingMore("REPORT RequestId: " + codec.show(Get(record, "requestId")));
  }

  lemma ReportLinePieces(codec: Codec, record: Fields, metrics: Fields)
    requires NoTabs(codec)
    ensures var pieces := Packing.Split(ReportLine(codec, record, metrics), '\t');
            && |pieces| == (if Get(metrics, "initDurationMs").Null? then 5 else 6)
            && forall i: nat :: i < |pieces| ==> pieces[i] == PieceAt(codec, record, metrics, i)
  {
    forall i: nat ensures '\t' !in PieceAt(codec, record, metrics, i) {
      PieceAtTabFree(codec, record, metrics, i);
    }
    ReportLineShape(codec, record, metrics);
    hide *;
    SplitReport(PieceAt(codec, record, metrics, 0), PieceAt(codec, record, metrics, 1),
                PieceAt(codec, record, metrics, 2), PieceAt(codec, record, metrics, 3),
                PieceAt(codec, record, metrics, 4), PieceAt(codec, record, metrics, 5));
  }

  /** Reading a REPORT line back at its tabs. */
  lemma ReportLineReads(codec: Codec, record: Fields, metrics: Fields)
    requires NoTabs(codec)
    ensures ReportReads(codec, record, metrics, ReportLine(codec, record, metrics))
  {
    ReportLinePieces(codec, record, metrics);
    PieceAtReads(codec, record, metrics);
    hide Packing.Split, ReportLine, NoTabs, PieceAt, Piece;
  }

  lemma PieceAtReads(codec: Codec, record: Fields, metrics: Fields)
    ensures Piece(codec, PieceAt(codec, record, metrics, 0), "REPORT RequestId: ", record, "requestId", "")
    ensures Piece(codec, PieceAt(codec, record, metrics, 1), "Duration: ", metrics, "durationMs", " ms")
    ensures Piece(codec, PieceAt(codec, record, metrics, 2), "Billed Duration: ", metrics, "billedDurationMs", " ms ")
    ensures Piece(codec, PieceAt(codec, record, metrics, 3), "Memory Size: ", metrics, "memorySizeMB", " MB")
    ensures Piece(codec, PieceAt(codec, record, metrics, 4), "Max Memory Used: ", metrics, "maxMemoryUsedMB", " MB")
    ensures Piece(codec, PieceAt(codec, record, metrics, 5), "Init Duration: ", metrics, "initDurationMs", " ms")
  {
  }

  /** A function item whose JSON enhancement is off is replaced: by its text as the only
      message, by the JSON object that the text is, or by null when it reads `null`. */
  predicate ReplacedBy(codec: Codec, m: Fields, slot: Json) {
    var text := codec.trimSpace(if "record" in m && m["record"].Str? then m["record"].s else "");
    match codec.parseObject(text)
    case NotJson => slot == Obj(map["message" := Str(text)])
    case NilMap => slot == Null
    case Object(fields) => slot == Obj(fields)
  }

  predicate IsFunction(m: Fields) { "type" in m && m["type"] == Str("function") }
  predicate IsReport(m: Fields) { "type" in m && m["type"] == Str("platform.report") }
  predicate IsRuntimeDone(m: Fields) { "type" in m && m["type"] == Str("platform.runtimeDone") }

  /** The message that an item m gets: the text or the JSON of a function item, the
      REPORT line of a report item, and otherwise what it had. */
  ghost predicate MessageSet(codec: Codec, m: Fields, r: Fields)
    requires Reportable(m)
  {
    if IsFunction(m) then
      var text := codec.trimSpace(if "record" in m && m["record"].Str? then m["record"].s else "");
      && "message" in r
      && match codec.parseObject(text)
         case NotJson => r["message"] == Str(text)
         case NilMap => r["message"] == Null
         case Object(fields) => r["message"] == Obj(fields)
    else if IsReport(m) then
      var record := m["record"].fields;
      && "message" in r && r["message"] == Str(ReportLine(codec, record, record["metrics"].fields))
      && (NoTabs(codec) ==> ReportReads(codec, record, record["metrics"].fields, r["message"].s))
    else ("message" in r <==> "message" in m) && ("message" in m ==> r["message"] == m["message"])
  }

  /** The record that an item m keeps: none when it was the text of a function item,
      and otherwise what it was, without the spans of a runtimeDone item when so
      configured. */
  predicate RecordKept(cfg: Config, m: Fields, r: Fields) {
    if "record" !in m || (IsFunction(m) && m["record"].Str?) then "record" !in r
    else
      && "record" in r
      && r["record"] ==
           if IsRuntimeDone(m) && cfg.enableSpanDrops && m["record"].Obj? && "spans" in m["record"].fields
           then Obj(m["record"].fields - {"spans"})
           else m["record"]
  }

  predicate HasStamps(cfg: Config, stamp: string, r: Fields) {
    && "logGroup" in r && r["logGroup"] == Str(cfg.logGroup)
    && "logStream" in r && r["logStream"] == Str(stamp)
    && "IsColdStart" in r && r["IsColdStart"] == Bool(false)
    && "LayerVersion" in r && r["LayerVersion"] == Str(cfg.layerVersion)
  }

  /** All other keys keep their values. */
  predicate OthersKept(m: Fields, r: Fields) {
    var touched := {"logGroup", "logStream", "IsColdStart", "LayerVersion", "message", "record"};
    r.Keys - touched == m.Keys - touched && forall k :: k in m && k !in touched ==> k in r && r[k] == m[k]
  }

  /** What enhancement makes of an item. */
  ghost predicate EnhancedTo(cfg: Config, codec: Codec, stamp: string, m: Fields, slot: Json)
    requires Reportable(m)
  {
    if IsFunction(m) && !cfg.enhanceJsonLogs then ReplacedBy(codec, m, slot)
    else
      && slot.Obj? && HasStamps(cfg, stamp, slot.fields) && MessageSet(codec, m, slot.fields)
      && RecordKept(cfg, m, slot.fields) && OthersKept(m, slot.fields)
  }

  lemma ReplacedValue(cfg: Config, codec: Codec, stamp: string, m: Fields)
    requires Reportable(m) && IsFunction(m) && !cfg.enhanceJsonLogs
    ensures ReplacedBy(codec, m, Enhanced(cfg, codec, stamp, m))
  {
  }

  lemma StampedHasStamps(cfg: Config, stamp: string, m: Fields)
    ensures HasStamps(cfg, stamp, Stamped(cfg, stamp, m))
  {
  }

  lemma EnhancedStamps(cfg: Config, codec: Codec, stamp: string, m: Fields)
    requires Reportable(m) && !Replaced(cfg, m)
    ensures Enhanced(cfg, codec, stamp, m).Obj? && HasStamps(cfg, stamp, Enhanced(cfg, codec, stamp, m).fields)
  {
    StampedHasStamps(cfg, stamp, m);
    hide Stamped, ReportLine, FunctionText;
  }

  lemma EnhancedMessage(cfg: Config, codec: Codec, stamp: string, m: Fields)
    requires Reportable(m) && !Replaced(cfg, m)
    ensures Enhanced(cfg, codec, stamp, m).Obj? && MessageSet(codec, m, Enhanced(cfg, codec, stamp, m).fields)
  {
    hide ReportLine, ReportReads, NoTabs;
    if IsReport(m) && NoTabs(codec) {
      ReportLineReads(codec, m["record"].fields, m["record"].fields["metrics"].fields);
    }
  }

  lemma EnhancedOthers(cfg: Config, codec: Codec, stamp: string, m: Fields)
    requires Reportable(m) && !Replaced(cfg, m)
    ensures Enhanced(cfg, codec, stamp, m).Obj? && OthersKept(m, Enhanced(cfg, codec, stamp, m).fields)
  {
    hide ReportLine, FunctionText;
  }

  lemma EnhancedRecord(cfg: Config, codec: Codec, stamp: string, m: Fields)
    requires Reportable(m) && !Replaced(cfg, m)
    ensures Enhanced(cfg, codec, stamp, m).Obj? && RecordKept(cfg, m, Enhanced(cfg, codec, stamp, m).fields)
  {
    hide ReportLine, FunctionText;
    if Get(m, "record").Obj? {
      var record := m["record"].fields;
      assert "spans" !in record ==> record - {"spans"} == record;
    }
  }

  /** Frame and values: an item that is not replaced gets its four stamps and its
      message, its record changes only as RecordKept says, and it keeps every other
      key. */
  lemma EnhancedFrame(cfg: Config, codec: Codec, stamp: string, m: Fields)
    requires Reportable(m) && (IsFunction(m) ==> cfg.enhanceJsonLogs)
    ensures Enhanced(cfg, codec, stamp, m).Obj?
    ensures var r := Enhanced(cfg, codec, stamp, m).fields;
            HasStamps(cfg, stamp, r) && MessageSet(codec, m, r) && RecordKept(cfg, m, r) && OthersKept(m, r)
  {
    assert !Replaced(cfg, m);
    hide *;
    EnhancedStamps(cfg, codec, stamp, m);
    EnhancedMessage(cfg, codec, stamp, m);
    EnhancedOthers(cfg, codec, stamp, m);
    EnhancedRecord(cfg, codec, stamp, m);
  }

  lemma EnhancedMeans(cfg: Config, codec: Codec, stamp: string, m: Fields)
    requires Reportable(m)
    ensures EnhancedTo(cfg, codec, stamp, m, Enhanced(cfg, codec, stamp, m))
  {
    hide Enhanced, HasStamps, MessageSet, RecordKept, OthersKept, ReplacedBy;
    if IsFunction(m) && !cfg.enhanceJsonLogs {
      ReplacedValue(cfg, codec, stamp, m);
    } else {
      EnhancedFrame(cfg, codec, stamp, m);
    }
  }

  /** These clauses leave no freedom: they determine the enhanced value. */
  lemma EnhancedDetermined(cfg: Config, codec: Codec, stamp: string, m: Fields, a: Json, b: Json)
    requires Reportable(m) && EnhancedTo(cfg, codec, stamp, m, a) && EnhancedTo(cfg, codec, stamp, m, b)
    ensures a == b
  {
    hide ReportLine, ReportReads, NoTabs;
    if !(IsFunction(m) && !cfg.enhanceJsonLogs) {
      var r, s := a.fields, b.fields;
      forall k | k in r || k in s ensures k in r && k in s && r[k] == s[k] {
        var touched := {"logGroup", "logStream", "IsColdStart", "LayerVersion", "message", "record"};
        assert k !in touched ==> (k in r <==> k in r.Keys - touched) && (k in s <==> k in s.Keys - touched);
        assert k !in touched ==> (k in m <==> k in m.Keys - touched);
      }
    }
  }

  /** Enhancement must not be repeated on its own result: the text of every
      non-blank plain function line would be wiped.  This is why consumers put
      raw bytes back, never enhanced items. */
  lemma EnhancedTwiceLosesText(cfg: Config, codec: Codec, s1: string, s2: string, m: Fields)
    requires codec.trimSpace("") == "" && codec.parseObject("").NotJson?
    requires cfg.enhanceJsonLogs && HasType(m, "function") && Get(m, "record").Str?
    requires FunctionText(codec, m) != "" && codec.parseObject(FunctionText(codec, m)).NotJson?
    ensures var once := Enhanced(cfg, codec, s1, m);
            && once.Obj? && Get(once.fields, "message") == Str(FunctionText(codec, m))
            && Reportable(once.fields)
            && var twice := Enhanced(cfg, codec, s2, once.fields);
               twice.Obj? && Get(twice.fields, "message") == Str("") && twice != once
  {
    var once := Enhanced(cfg, codec, s1, m).fields;
    assert HasType(once, "function") && "record" !in once;
    var twice := Enhanced(cfg, codec, s2, once);
    assert Get(twice.fields, "message") == Str("");
  }

  // ------------------------------------------------- from payloads to lines

  /** Log stream names read from the clock: one reading an item. */
  type Clock = nat -> string

  /** The slots of one parsed payload, enhanced from clock reading `t` on. */
  function EnhancedItems(cfg: Config, codec: Codec, clock: Clock, t: nat, items: seq<Fields>): (r: seq<Json>)
    requires forall i :: 0 <= i < |items| ==> Reportable(items[i])
  {
    seq(|items|, i requires 0 <= i < |items| => Enhanced(cfg, codec, clock(t + i), items[i]))
  }

  /** The slots of one raw payload; a payload that does not parse has none. */
  ghost function PayloadItems(cfg: Config, codec: Codec, clock: Clock, t: nat, raw: string): seq<Json>
    requires codec.Valid()
  {
    match codec.parsePayload(raw)
    case None => []
    case Some(items) => EnhancedItems(cfg, codec, clock, t, items)
  }

  /** Items in the payloads of a batch that parse: one clock reading each. */
  function ItemCount(codec: Codec, batch: seq<string>): nat {
    if batch == [] then 0 else
    ItemCount(codec, batch[..|batch| - 1]) +
      match codec.parsePayload(batch[|batch| - 1]) case None => 0 case Some(items) => |items|
  }

  /** The slots of a batch of payloads, in order. */
  ghost function BatchItems(cfg: Config, codec: Codec, clock: Clock, t: nat, batch: seq<string>): (r: seq<Json>)
    requires codec.Valid()
    ensures |r| == ItemCount(codec, batch)
  {
    if batch == [] then [] else
    BatchItems(cfg, codec, clock, t, batch[..|batch| - 1]) +
      PayloadItems(cfg, codec, clock, t + ItemCount(codec, batch[..|batch| - 1]), batch[|batch| - 1])
  }

  function BadPayloads(codec: Codec, batch: seq<string>): nat {
    if batch == [] then 0 else
    BadPayloads(codec, batch[..|batch| - 1]) + if codec.parsePayload(batch[|batch| - 1]).None? then 1 else 0
  }

  /** The marshalled form of those items that marshal. */
  function Lines(codec: Codec, items: seq<Json>): seq<string> {
    if items == [] then [] else
    var b := codec.marshal(items[|items| - 1]);
    Lines(codec, items[..|items| - 1]) + if b.Some? then [b.value] else []
  }

  function Unmarshallable(codec: Codec, items: seq<Json>): nat {
    if items == [] then 0 else
    Unmarshallable(codec, items[..|items| - 1]) + if codec.marshal(items[|items| - 1]).None? then 1 else 0
  }

  lemma NothingYet(cfg: Config, codec: Codec, clock: Clock, t: nat, batch: seq<string>, items: seq<Json>)
    requires codec.Valid()
    ensures BatchItems(cfg, codec, clock, t, batch[..0]) == [] && BadPayloads(codec, batch[..0]) == 0
    ensures Lines(codec, items[..0]) == [] && Unmarshallable(codec, items[..0]) == 0
  {
  }

  lemma BatchSnoc(cfg: Config, codec: Codec, clock: Clock, t: nat, batch: seq<string>, n: nat, now: nat)
    requires codec.Valid() && n < |batch| && now == t + ItemCount(codec, batch[..n])
    ensures BatchItems(cfg, codec, clock, t, batch[..n + 1]) ==
              BatchItems(cfg, codec, clock, t, batch[..n]) + PayloadItems(cfg, codec, clock, now, batch[n])
    ensures BadPayloads(codec, batch[..n + 1]) ==
              BadPayloads(codec, batch[..n]) + if codec.parsePayload(batch[n]).None? then 1 else 0
  {
    hide PayloadItems, Reportable;
    assert batch[..n + 1][..n] == batch[..n];
  }

  lemma LinesSnoc(codec: Codec, items: seq<Json>, n: nat)
    requires n < |items|
    ensures Lines(codec, items[..n + 1]) ==
              if codec.marshal(items[n]).Some? then Lines(codec, items[..n]) + [codec.marshal(items[n]).value]
              else Lines(codec, items[..n])
    ensures Unmarshallable(codec, items[..n + 1]) ==
              Unmarshallable(codec, items[..n]) + if codec.marshal(items[n]).None? then 1 else 0
  {
    assert items[..n + 1][..n] == items[..n];
  }

  lemma {:induction false} LinesClean(codec: Codec, items: seq<Json>)
    requires codec.Valid()
    ensures Packing.Clean(Lines(codec, items))
  {
    if items != [] {
      LinesClean(codec, items[..|items| - 1]);
      var b := codec.marshal(items[|items| - 1]);
      if b.Some? { assert Packing.Clean([b.value]); assert [b.value][0] == b.value; }
    }
  }

  lemma {:induction false} LinesAppend(codec: Codec, a: seq<Json>, b: seq<Json>)
    ensures Lines(codec, a + b) == Lines(codec, a) + Lines(codec, b)
    ensures Unmarshallable(codec, a + b) == Unmarshallable(codec, a) + Unmarshallable(codec, b)
  {
    if b == [] {
      assert a + b == a;
    } else {
      LinesAppend(codec, a, b[..|b| - 1]);
      assert (a + b)[..|a + b| - 1] == a + b[..|b| - 1];
    }
  }

  lemma TextAppend(codec: Codec, a: seq<Json>, b: seq<Json>)
    ensures Packing.Prefixed(Lines(codec, a + b)) ==
            Packing.Prefixed(Lines(codec, a)) + Packing.Prefixed(Lines(codec, b))
    ensures Unmarshallable(codec, a + b) == Unmarshallable(codec, a) + Unmarshallable(codec, b)
  {
    LinesAppend(codec, a, b);
    Packing.PrefixedAppend(Lines(codec, a), Lines(codec, b));
  }

  /** When everything marshals there is one line an item, in the same order. */
  lemma {:induction false} LinesIndexed(codec: Codec, items: seq<Json>)
    requires Unmarshallable(codec, items) == 0
    ensures |Lines(codec, items)| == |items|
    ensures forall k :: 0 <= k < |items| ==>
              codec.marshal(items[k]) == Some(Lines(codec, items)[k])
  {
    if items != [] { LinesIndexed(codec, items[..|items| - 1]); }
  }

  lemma {:induction false} AllMarshal(codec: Codec, items: seq<Json>)
    ensures Unmarshallable(codec, items) == 0 <==>
            forall p :: 0 <= p < |items| ==> codec.marshal(items[p]).Some?
  {
    if items != [] {
      var init := items[..|items| - 1];
      AllMarshal(codec, init);
      if forall p :: 0 <= p < |init| ==> codec.marshal(init[p]).Some? {
        assert forall p :: 0 <= p < |init| ==> items[p] == init[p];
      } else {
        var p :| 0 <= p < |init| && codec.marshal(init[p]).None?;
        assert items[p] == init[p];
      }
    }
  }

  lemma {:induction false} AllParse(codec: Codec, batch: seq<string>)
    ensures BadPayloads(codec, batch) == 0 <==>
            forall i :: 0 <= i < |batch| ==> codec.parsePayload(batch[i]).Some?
  {
    if batch != [] {
      var init := batch[..|batch| - 1];
      AllParse(codec, init);
      if forall i :: 0 <= i < |init| ==> codec.parsePayload(init[i]).Some? {
        assert forall i :: 0 <= i < |init| ==> batch[i] == init[i];
      } else {
        var i :| 0 <= i < |init| && codec.parsePayload(init[i]).None?;
        assert batch[i] == init[i];
      }
    }
  }

  // ------------------------------------------------- sending a batch again

  /** Two slots that differ at most in their stamp. */
  predicate SameButStream(a: Json, b: Json) {
    a == b || (a.Obj? && b.Obj? && a.fields["logStream" := Null] == b.fields["logStream" := Null])
  }

  /** The clock enters an item at one key: at any two stamps the enhanced values are
      equal for a replaced item and otherwise agree on every key but `logStream`. */
  lemma StampOnly(cfg: Config, codec: Codec, s1: string, s2: string, m: Fields)
    requires Reportable(m)
    ensures var a, b := Enhanced(cfg, codec, s1, m), Enhanced(cfg, codec, s2, m);
            if Replaced(cfg, m) then a == b
            else a.Obj? && b.Obj? && a.fields["logStream" := Str(s2)] == b.fields
  {
    hide ReportLine;
    assert m["logGroup" := Str(cfg.logGroup)]["logStream" := Str(s2)] ==
           m["logGroup" := Str(cfg.logGroup)]["logStream" := Str(s1)]["logStream" := Str(s2)];
    var a, b := Stamped(cfg, s1, m), Stamped(cfg, s2, m);
    assert a["logStream" := Str(s2)] == b;
    if !Replaced(cfg, m) {
      var a', b' := Enhanced(cfg, codec, s1, m).fields, Enhanced(cfg, codec, s2, m).fields;
      forall k | k in a'["logStream" := Str(s2)] || k in b'
        ensures k in a'["logStream" := Str(s2)] && k in b' && a'["logStream" := Str(s2)][k] == b'[k]
      {
      }
    }
  }

  /** Sending the same raw payloads again from another clock reading yields items
      that differ in nothing but their stamps, and no difference at all when every
      item is replaced by its bare text: putting raw bytes back is safe. */
  lemma {:induction false} RedoDiffersInStreamOnly(cfg: Config, codec: Codec, clock: Clock, t: nat, later: nat,
                                                   batch: seq<string>)
    requires codec.Valid()
    ensures var a, b := BatchItems(cfg, codec, clock, t, batch), BatchItems(cfg, codec, clock, later, batch);
            && (forall p :: 0 <= p < |a| ==> SameButStream(a[p], b[p]))
            && (AllReplaced(cfg, codec, batch) ==> a == b && Lines(codec, a) == Lines(codec, b))
  {
    hide Lines, PayloadItems, ItemCount, BatchItems, SameButStream, PayloadReplaced;
    LastOfBatch(cfg, codec, clock, t, batch);
    LastOfBatch(cfg, codec, clock, later, batch);
    if batch != [] {
      var init, raw := batch[..|batch| - 1], batch[|batch| - 1];
      RedoDiffersInStreamOnly(cfg, codec, clock, t, later, init);
      PayloadDiffersInStreamOnly(cfg, codec, clock, t + ItemCount(codec, init), later + ItemCount(codec, init), raw);
      assert raw in batch && forall m :: m in init ==> m in batch;
    }
  }

  predicate AllReplaced(cfg: Config, codec: Codec, batch: seq<string>) {
    forall raw :: raw in batch ==> PayloadReplaced(cfg, codec, raw)
  }

  predicate PayloadReplaced(cfg: Config, codec: Codec, raw: string) {
    match codec.parsePayload(raw)
    case None => true
    case Some(items) => forall k :: 0 <= k < |items| ==> Replaced(cfg, items[k])
  }

  lemma PayloadDiffersInStreamOnly(cfg: Config, codec: Codec, clock: Clock, t: nat, later: nat, raw: string)
    requires codec.Valid()
    ensures var a, b := PayloadItems(cfg, codec, clock, t, raw), PayloadItems(cfg, codec, clock, later, raw);
            && |a| == |b| && (forall p :: 0 <= p < |a| ==> SameButStream(a[p], b[p]))
            && (PayloadReplaced(cfg, codec, raw) ==> a == b)
  {
    hide Enhanced, Replaced;
    if codec.parsePayload(raw).Some? {
      var items := codec.parsePayload(raw).value;
      forall k | 0 <= k < |items|
        ensures var a := Enhanced(cfg, codec, clock(t + k), items[k]);
                var b := Enhanced(cfg, codec, clock(later + k), items[k]);
                SameButStream(a, b) && (Replaced(cfg, items[k]) ==> a == b)
      {
        StampOnly(cfg, codec, clock(t + k), clock(later + k), items[k]);
        OneKeyApart(Enhanced(cfg, codec, clock(t + k), items[k]), Enhanced(cfg, codec, clock(later + k), items[k]),
                    clock(later + k));
      }
    }
  }

  lemma OneKeyApart(a: Json, b: Json, s: string)
    requires a == b || (a.Obj? && b.Obj? && a.fields["logStream" := Str(s)] == b.fields)
    ensures SameButStream(a, b)
  {
    if a != b {
      assert a.fields["logStream" := Str(s)]["logStream" := Null] == a.fields["logStream" := Null];
    }
  }

  /** The n readings from t on show what the n readings from `later` on show. */
  predicate SameReadings(clock: Clock, t: nat, later: nat, n: nat) {
    forall i | t <= i < t + n :: clock(i) == clock(i - t + later)
  }

  lemma SamePayload(cfg: Config, codec: Codec, clock: Clock, t: nat, later: nat, raw: string)
    requires codec.Valid() && SameReadings(clock, t, later, |PayloadItems(cfg, codec, clock, t, raw)|)
    ensures PayloadItems(cfg, codec, clock, t, raw) == PayloadItems(cfg, codec, clock, later, raw)
  {
    hide Enhanced;
    if codec.parsePayload(raw).Some? {
      var n := |codec.parsePayload(raw).value|;
      assert forall i | t <= i < t + n :: clock(i) == clock(i - t + later);
    }
  }

  /** A later drain whose clock readings show the same values, one by one, yields
      the same items and so the same lines. */
  lemma {:induction false} RedoYieldsSameItems(cfg: Config, codec: Codec, clock: Clock, t: nat, later: nat,
                                               batch: seq<string>)
    requires codec.Valid() && SameReadings(clock, t, later, ItemCount(codec, batch))
    ensures BatchItems(cfg, codec, clock, t, batch) == BatchItems(cfg, codec, clock, later, batch)
    ensures Lines(codec, BatchItems(cfg, codec, clock, t, batch)) ==
            Lines(codec, BatchItems(cfg, codec, clock, later, batch))
  {
    hide Lines, PayloadItems, ItemCount, BatchItems;
    LastOfBatch(cfg, codec, clock, t, batch);
    LastOfBatch(cfg, codec, clock, later, batch);
    if batch != [] {
      var init, raw := batch[..|batch| - 1], batch[|batch| - 1];
      RedoYieldsSameItems(cfg, codec, clock, t, later, init);
      SamePayload(cfg, codec, clock, t + ItemCount(codec, init), later + ItemCount(codec, init), raw);
    }
  }

  lemma LastOfBatch(cfg: Config, codec: Codec, clock: Clock, t: nat, batch: seq<string>)
    requires codec.Valid()
    ensures batch == [] ==> BatchItems(cfg, codec, clock, t, batch) == []
    ensures batch != [] ==>
              var init, raw := batch[..|batch| - 1], batch[|batch| - 1];
              var here := PayloadItems(cfg, codec, clock, t + ItemCount(codec, init), raw);
              && BatchItems(cfg, codec, clock, t, batch) == BatchItems(cfg, codec, clock, t, init) + here
              && ItemCount(codec, batch) == ItemCount(codec, init) + |here|
  {
    hide PayloadItems, ItemCount;
  }
}
