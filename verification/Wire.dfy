/** The outside world of the sender: the HTTP endpoint, the S3 bucket, and the
    exact meaning of one chunk's post. */
module Wire {
  import opened Telemetry
  import opened Utils

  /** What makeRequest returns: an error, or a response with its status. */
  datatype Response = RequestError | Status(code: int)

  /** Answers that end the attempts without an error: 200, 302 and 5xx. */
  predicate Settled(r: Response) {
    r.Status? && (r.code == 200 || r.code == 302 || r.code >= 500)
  }

  /** What failoverHandler meets: no key name, a failed upload, or a stored object. */
  datatype PutResult = NoKey | UploadFailed | Stored

  lemma NotSettled(r: Response)
    ensures r == Status(200) ==> Settled(r)
  {
  }

  datatype Request = Request(body: string, response: Response)
  datatype Put = Put(body: string, result: PutResult)

  /** A bytes.Buffer: reading it empties it. */
  class Buffer {
    var unread: string

    constructor (bytes: string)
      ensures unread == bytes
    {
      unread := bytes;
    }
  }

  /** The network answers from two arbitrary oracles and remembers what it got. */
  class Network {
    const respond: nat -> Response
    const store: nat -> PutResult
    var requests: seq<Request>
    var puts: seq<Put>

    constructor (respond: nat -> Response, store: nat -> PutResult)
      ensures Valid() && requests == [] && puts == []
      ensures this.respond == respond && this.store == store
    {
      this.respond, this.store := respond, store;
      requests, puts := [], [];
    }

    ghost predicate Valid() reads this {
      && (forall i :: 0 <= i < |requests| ==> requests[i].response == respond(i))
      && (forall i :: 0 <= i < |puts| ==> puts[i].result == store(i))
    }

    /** The latest answers are the oracles'. */
    lemma SinceThen(requests0: seq<Request>, sent: seq<Request>, puts0: seq<Put>, made: seq<Put>)
      requires Valid() && requests == requests0 + sent && puts == puts0 + made
      ensures forall i :: 0 <= i < |sent| ==> sent[i].response == respond(|requests0| + i)
      ensures forall i :: 0 <= i < |made| ==> made[i].result == store(|puts0| + i)
    {
      assert forall i :: 0 <= i < |sent| ==> requests[|requests0| + i] == sent[i];
      assert forall i :: 0 <= i < |made| ==> puts[|puts0| + i] == made[i];
    }

    method MakeRequest(buf: Buffer) returns (r: Response)
      requires Valid()
      modifies this`requests, buf
      ensures Valid() && requests == old(requests) + [Request(old(buf.unread), r)]
      ensures buf.unread == ""
    {
      r := respond(|requests|);
      requests := requests + [Request(buf.unread, r)];
      buf.unread := "";
    }

    method Upload(buf: Buffer) returns (r: PutResult)
      requires Valid()
      modifies this`puts, buf
      ensures Valid() && puts == old(puts) + [Put(old(buf.unread), r)]
      ensures buf.unread == ""
    {
      r := store(|puts|);
      puts := puts + [Put(buf.unread, r)];
      buf.unread := "";
    }
  }

  /** Which call sent a text: postToSumo a chunk, or FlushAll a whole batch. */
  datatype Kind = Post | Flush

  /** Everything one text met: its HTTP attempts, its S3 attempts, and whether it
      was settled, stored or, with failover off, given up without an error. */
  datatype Exchange = Exchange(kind: Kind, chunk: string, requests: seq<Request>, puts: seq<Put>, ok: bool)

  /** Requests that Retry may add: maxRetries bounds the loop, maxAttempts
      stops it from inside, but only after a first call. */
  function RetryBudget(maxRetries: int, maxAttempts: int): nat {
    Max(0, Min(maxRetries, Max(1, maxAttempts)))
  }

  predicate AnySettled(requests: seq<Request>) {
    exists i :: 0 <= i < |requests| && Settled(requests[i].response)
  }

  /** Attempts that stop at the first settled answer and otherwise use the
      whole budget, all with the same body. */
  predicate Attempts(requests: seq<Request>, body: string, budget: nat) {
    && |requests| <= budget
    && (forall i :: 0 <= i < |requests| ==> requests[i].body == body)
    && (forall i :: 0 <= i < |requests| - 1 ==> !Settled(requests[i].response))
    && (|requests| < budget ==> requests != [] && Settled(requests[|requests| - 1].response))
  }

  /** What the function that postToSumo retries returns at an attempt. */
  function PostVerdict(maxAttempts: int, attempt: nat, r: Response): Verdict {
    Verdict(attempt < maxAttempts || r == Status(200), Settled(r))
  }

  /** The retried function, when the network has seen `before` requests. */
  function Posting(maxAttempts: int, respond: nat -> Response, before: nat): nat -> Verdict {
    (attempt: nat) => PostVerdict(maxAttempts, attempt, respond(if attempt == 0 then 0 else before + attempt - 1))
  }

  lemma PostingAt(maxAttempts: int, respond: nat -> Response, before: nat, attempt: nat)
    requires attempt > 0
    ensures Posting(maxAttempts, respond, before)(attempt) ==
            PostVerdict(maxAttempts, attempt, respond(before + attempt - 1))
  {
  }

  /** One request an attempt, with the same body and the answer the oracle has for it. */
  predicate OnePerAttempt(sent: seq<Request>, body: string, respond: nat -> Response, before: nat) {
    forall i :: 0 <= i < |sent| ==> sent[i] == Request(body, respond(before + i))
  }

  lemma OneMoreAttempt(sent: seq<Request>, body: string, respond: nat -> Response, before: nat)
    requires OnePerAttempt(sent, body, respond, before)
    ensures OnePerAttempt([], body, respond, before)
    ensures OnePerAttempt(sent + [Request(body, respond(before + |sent|))], body, respond, before)
  {
  }

  /** All attempts but the last failed below the attempt limit. */
  lemma EarlyAnswer(maxAttempts: int, maxRetries: int, respond: nat -> Response, before: nat,
                    sent: seq<Request>, body: string, ok: bool, i: nat)
    requires Attempted(Posting(maxAttempts, respond, before), maxRetries, |sent|, ok)
    requires OnePerAttempt(sent, body, respond, before) && i + 1 < |sent|
    ensures !Settled(sent[i].response) && i + 1 < maxAttempts
  {
    PostingAt(maxAttempts, respond, before, i + 1);
    hide Posting, Failing, Settled;
    FailingAt(Posting(maxAttempts, respond, before), |sent|, i + 1);
    NotSettled(sent[i].response);
  }

  /** The last one decides. */
  lemma LastAnswer(maxAttempts: int, maxRetries: int, respond: nat -> Response, before: nat,
                   sent: seq<Request>, body: string, ok: bool)
    requires Attempted(Posting(maxAttempts, respond, before), maxRetries, |sent|, ok)
    requires OnePerAttempt(sent, body, respond, before) && sent != []
    ensures ok == Settled(sent[|sent| - 1].response) && (|sent| < maxRetries ==> ok || |sent| >= maxAttempts)
  {
    PostingAt(maxAttempts, respond, before, |sent|);
    hide Posting, Failing, Settled;
  }

  /** What the attempt loop means for this function: it stops at the first settled
      answer, and otherwise after the budget of both bounds together. */
  lemma RetriesAreAttempts(maxAttempts: int, maxRetries: int, respond: nat -> Response, before: nat,
                           sent: seq<Request>, body: string, ok: bool)
    requires Attempted(Posting(maxAttempts, respond, before), maxRetries, |sent|, ok)
    requires OnePerAttempt(sent, body, respond, before)
    ensures Attempts(sent, body, RetryBudget(maxRetries, maxAttempts)) && ok == AnySettled(sent)
  {
    hide Posting, Settled;
    forall i: nat | i < |sent| - 1 ensures !Settled(sent[i].response) && i + 1 < maxAttempts {
      EarlyAnswer(maxAttempts, maxRetries, respond, before, sent, body, ok, i);
    }
    if sent != [] {
      LastAnswer(maxAttempts, maxRetries, respond, before, sent, body, ok);
      assert |sent| >= 2 ==> !Settled(sent[|sent| - 2].response);
    }
  }

  lemma FirstThenRetries(body: string, first: Request, more: seq<Request>, budget: nat)
    requires first.body == body
    requires if Settled(first.response) then more == [] else Attempts(more, body, budget)
    ensures Attempts([first] + more, body, 1 + budget)
    ensures AnySettled([first] + more) == (Settled(first.response) || AnySettled(more))
  {
    var all := [first] + more;
    assert all[0] == first;
    assert forall i :: 1 <= i < |all| ==> all[i] == more[i - 1];
    if AnySettled(more) {
      var i :| 0 <= i < |more| && Settled(more[i].response);
      assert Settled(all[i + 1].response);
    }
  }

  predicate Faithful(cfg: Config, codec: Codec, e: Exchange) {
    match codec.gzip(e.chunk)
    case None => e.requests == [] && e.puts == [] && !e.ok
    case Some(z) =>
      match e.kind
      case Post =>
        && Attempts(e.requests, z, 1 + RetryBudget(cfg.numRetry, cfg.maxRetryAttempts))
        && if AnySettled(e.requests) || !cfg.enableFailover then e.puts == [] && e.ok
           else StoredOnce(e, z)
      case Flush => cfg.enableFailover && e.requests == [] && StoredOnce(e, z)
  }

  predicate StoredOnce(e: Exchange, z: string) {
    |e.puts| == 1 && e.puts[0].body == z && e.ok == e.puts[0].result.Stored?
  }

  /** A chunk is delivered when its bytes were answered with a settling status
      or stored in the bucket. */
  predicate Delivered(codec: Codec, e: Exchange) {
    codec.gzip(e.chunk).Some? &&
    ((exists i :: 0 <= i < |e.requests| && e.requests[i].body == codec.gzip(e.chunk).value &&
                  var r := e.requests[i].response; r.Status? && (r.code == 200 || r.code == 302 || r.code >= 500)) ||
     Put(codec.gzip(e.chunk).value, Stored) in e.puts)
  }

  /** With failover, a nil error means delivered and nothing else does.
      Without it, a nil error only means that compression succeeded, and it is a
      delivery exactly when some attempt was settled. */
  lemma NilMeansDelivered(cfg: Config, codec: Codec, e: Exchange)
    requires Faithful(cfg, codec, e)
    ensures cfg.enableFailover ==> (e.ok <==> Delivered(codec, e))
    ensures !cfg.enableFailover ==> (e.ok <==> codec.gzip(e.chunk).Some?)
    ensures !cfg.enableFailover && e.ok ==> (Delivered(codec, e) <==> AnySettled(e.requests))
    ensures codec.gzip(e.chunk).Some? ==>
              (!e.ok <==>
                 !AnySettled(e.requests) && cfg.enableFailover && Put(codec.gzip(e.chunk).value, Stored) !in e.puts)
  {
    if codec.gzip(e.chunk).Some? && AnySettled(e.requests) {
      var i :| 0 <= i < |e.requests| && Settled(e.requests[i].response);
      assert e.requests[i].body == codec.gzip(e.chunk).value;
    }
  }

  /** Without failover every chunk that compresses can meet a nil error that is no
      delivery: all its requests are refused. */
  lemma NilUndelivered(cfg: Config, codec: Codec, chunk: string) returns (e: Exchange)
    requires !cfg.enableFailover && codec.gzip(chunk).Some?
    ensures Faithful(cfg, codec, e) && e.kind.Post? && e.chunk == chunk && e.ok && !Delivered(codec, e)
  {
    var refused := Request(codec.gzip(chunk).value, Status(404));
    var requests := seq(1 + RetryBudget(cfg.numRetry, cfg.maxRetryAttempts), i => refused);
    e := Exchange(Post, chunk, requests, [], true);
  }

  predicate SettlesAt(respond: nat -> Response, at: nat) {
    var r := respond(at);
    r.Status? && (r.code == 200 || r.code == 302 || r.code >= 500)
  }

  /** One of the n answers from position r0 on settles. */
  predicate SettlesWithin(respond: nat -> Response, r0: nat, n: nat) {
    exists at :: r0 <= at < r0 + n && SettlesAt(respond, at)
  }

  /** Delivery decided by the oracles: a compressible chunk is delivered if and only
      if one of the answers within the whole budget settles or, with failover on, the
      bucket stores it. */
  lemma DeliveredByOracle(cfg: Config, codec: Codec, respond: nat -> Response, store: nat -> PutResult,
                          r0: nat, p0: nat, e: Exchange)
    requires Faithful(cfg, codec, e) && e.kind.Post? && codec.gzip(e.chunk).Some?
    requires forall i :: 0 <= i < |e.requests| ==> e.requests[i].response == respond(r0 + i)
    requires forall i :: 0 <= i < |e.puts| ==> e.puts[i].result == store(p0 + i)
    ensures Delivered(codec, e) <==>
              || SettlesWithin(respond, r0, 1 + RetryBudget(cfg.numRetry, cfg.maxRetryAttempts))
              || (cfg.enableFailover && store(p0) == Stored)
  {
    hide RetryBudget;
    if AnySettled(e.requests) {
      var i :| 0 <= i < |e.requests| && Settled(e.requests[i].response);
      assert SettlesAt(respond, r0 + i) && e.requests[i].body == codec.gzip(e.chunk).value;
    } else {
      assert e.requests != [] ==> !Settled(e.requests[|e.requests| - 1].response);
      forall at | r0 <= at < r0 + |e.requests| ensures !SettlesAt(respond, at) {
        assert e.requests[at - r0].response == respond(r0 + (at - r0));
      }
      assert cfg.enableFailover ==> e.puts[0].result == store(p0 + 0);
    }
  }

  /** The contract leaves no freedom: what a call does is a function of the
      chunk, the configuration and the answers from the oracles' positions on. */
  lemma ExchangeDetermined(cfg: Config, codec: Codec, respond: nat -> Response, store: nat -> PutResult,
                           r0: nat, p0: nat, a: Exchange, b: Exchange)
    requires Faithful(cfg, codec, a) && Faithful(cfg, codec, b) && a.chunk == b.chunk && a.kind == b.kind
    requires forall i :: 0 <= i < |a.requests| ==> a.requests[i].response == respond(r0 + i)
    requires forall i :: 0 <= i < |b.requests| ==> b.requests[i].response == respond(r0 + i)
    requires forall i :: 0 <= i < |a.puts| ==> a.puts[i].result == store(p0 + i)
    requires forall i :: 0 <= i < |b.puts| ==> b.puts[i].result == store(p0 + i)
    ensures a == b
  {
    if codec.gzip(a.chunk).Some? {
      if a.kind.Post? {
        var z, budget := codec.gzip(a.chunk).value, 1 + RetryBudget(cfg.numRetry, cfg.maxRetryAttempts);
        NotShorter(a.requests, b.requests, z, budget);
        NotShorter(b.requests, a.requests, z, budget);
      }
      assert a.requests == b.requests;
      assert a.puts == b.puts;
    }
  }

  /** What a post does, in numbers.  A request is followed by another one exactly when
      its answer is an error or a status other than 200, 302 and 500 or above, and
      neither bound is used up; the bound on attempts counts from the first retry.  The
      bucket is tried exactly when the last answer was of that kind and failover is on,
      and then decides the error. */
  predicate PostedInNumbers(cfg: Config, body: string, requests: seq<Request>, puts: seq<Put>, ok: bool) {
    && requests != []
    && (forall i :: 0 <= i < |requests| ==>
          var r := requests[i].response;
          && requests[i].body == body
          && (i + 1 < |requests| <==>
                && (r.RequestError? || (r.code != 200 && r.code != 302 && r.code < 500))
                && i < cfg.numRetry && (i == 0 || i < cfg.maxRetryAttempts)))
    && var r := requests[|requests| - 1].response;
       if cfg.enableFailover && (r.RequestError? || (r.code != 200 && r.code != 302 && r.code < 500))
       then |puts| == 1 && puts[0].body == body && ok == (puts[0].result == Stored)
       else puts == [] && ok
  }

  /** The same for an exchange that starts at positions r0 and p0 of the network's
      history; a chunk that does not compress is an error without traffic. */
  predicate PostedFrom(cfg: Config, codec: Codec, respond: nat -> Response, store: nat -> PutResult,
                       r0: nat, p0: nat, e: Exchange) {
    && (forall i :: 0 <= i < |e.requests| ==> e.requests[i].response == respond(r0 + i))
    && (forall i :: 0 <= i < |e.puts| ==> e.puts[i].result == store(p0 + i))
    && match codec.gzip(e.chunk)
       case None => !e.ok && e.requests == [] && e.puts == []
       case Some(z) => PostedInNumbers(cfg, z, e.requests, e.puts, e.ok)
  }

  lemma FaithfulInNumbers(cfg: Config, codec: Codec, e: Exchange)
    requires Faithful(cfg, codec, e) && e.kind.Post? && codec.gzip(e.chunk).Some?
    ensures PostedInNumbers(cfg, codec.gzip(e.chunk).value, e.requests, e.puts, e.ok)
  {
    var n := |e.requests|;
    assert n > 0;
    assert AnySettled(e.requests) <==> Settled(e.requests[n - 1].response);
  }

  lemma EntryByNumbers(cfg: Config, codec: Codec, e: Exchange)
    requires Faithful(cfg, codec, e) && e.kind.Post?
    ensures match codec.gzip(e.chunk)
            case None => !e.ok && e.requests == [] && e.puts == []
            case Some(z) => PostedInNumbers(cfg, z, e.requests, e.puts, e.ok)
  {
    hide PostedInNumbers;
    if codec.gzip(e.chunk).Some? { FaithfulInNumbers(cfg, codec, e); }
  }

  lemma NotShorter(a: seq<Request>, b: seq<Request>, body: string, budget: nat)
    requires Attempts(a, body, budget) && Attempts(b, body, budget)
    requires forall i :: 0 <= i < |a| && i < |b| ==> a[i].response == b[i].response
    ensures |a| <= |b|
  {
    assert b != [] && |b| <= |a| ==> a[|b| - 1].response == b[|b| - 1].response;
  }

  function AllRequests(es: seq<Exchange>): seq<Request> {
    if es == [] then [] else AllRequests(es[..|es| - 1]) + es[|es| - 1].requests
  }

  function AllPuts(es: seq<Exchange>): seq<Put> {
    if es == [] then [] else AllPuts(es[..|es| - 1]) + es[|es| - 1].puts
  }

  function Chunks(es: seq<Exchange>): seq<string> {
    seq(|es|, i requires 0 <= i < |es| => es[i].chunk)
  }

  predicate AllOf(kind: Kind, es: seq<Exchange>) {
    forall i :: 0 <= i < |es| ==> es[i].kind == kind
  }

  predicate AllOk(es: seq<Exchange>) {
    forall i :: 0 <= i < |es| ==> es[i].ok
  }

  predicate AllFaithful(cfg: Config, codec: Codec, es: seq<Exchange>) {
    forall i :: 0 <= i < |es| ==> Faithful(cfg, codec, es[i])
  }

  lemma NoExchanges(kind: Kind)
    ensures AllRequests([]) == [] && AllPuts([]) == [] && AllOk([]) && AllOf(kind, [])
  {
  }

  lemma ExchangesSnoc(es: seq<Exchange>, e: Exchange)
    ensures AllRequests(es + [e]) == AllRequests(es) + e.requests
    ensures AllPuts(es + [e]) == AllPuts(es) + e.puts
    ensures AllOk(es + [e]) == (AllOk(es) && e.ok)
    ensures forall kind :: AllOf(kind, es + [e]) == (AllOf(kind, es) && e.kind == kind)
  {
    assert (es + [e])[..|es|] == es;
    assert (es + [e])[|es|] == e;
    assert forall i :: 0 <= i < |es| ==> (es + [e])[i] == es[i];
  }

  /** Each exchange's traffic has its place in the traffic of the whole log. */
  lemma {:induction false} TrafficOf(es: seq<Exchange>, k: nat)
    requires k < |es|
    ensures AllRequests(es[..k]) + es[k].requests <= AllRequests(es)
    ensures AllPuts(es[..k]) + es[k].puts <= AllPuts(es)
  {
    var n := |es| - 1;
    if k < n {
      TrafficOf(es[..n], k);
      assert es[..n][..k] == es[..k];
    }
  }
}
