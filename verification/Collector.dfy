/** Collecting one Graph endpoint: following next links, and retrying the whole crawl
    (collectors/core/pagination.py, collectors/core/collector.py). */
module Collector {
  import opened Basics
  import opened Retry

  datatype NextLink = NoLink | BadLink | Link(url: string)

  // One answer of Graph, as the fetch function reports it.
  datatype Reply =
    | HttpError(status: int, retryAfter: Option<string>)
    | NetworkDown
    | TokenRefused       // an AuthError, which no crawl catches
    | NotAnObject
    | NoValueList
    | Page(items: seq<Json>, next: NextLink)

  type Server = (nat, string) -> Reply

  class GraphServer {
    const reply: Server
    var requests: nat

    constructor (reply: Server)
      ensures this.reply == reply && requests == 0
    {
      this.reply, requests := reply, 0;
    }

    method Fetch(url: string) returns (r: Reply)
      modifies this
      ensures r == reply(old(requests), url) && requests == old(requests) + 1
    {
      r := reply(requests, url);
      requests := requests + 1;
    }
  }

  datatype PageResult = PageResult(
    pages: nat, rows: nat, items: seq<Json>, httpStatus: Option<int>, classification: Classification,
    retryAfter: Option<string>, linksSeen: bool)

  /** A crawl has no guard against cycles: it returns only if the links it is given come to an end. */
  ghost predicate ChainEnds(reply: Server, n: nat, url: string, fuel: nat)
    decreases fuel
  {
    && fuel > 0
    && (reply(n, url).Page? && reply(n, url).next.Link? ==> ChainEnds(reply, n + 1, reply(n, url).next.url, fuel - 1))
  }

  // Request `from + i` went to `urls[i]`, each page linking to the next.
  ghost predicate Followed(reply: Server, urls: seq<string>, from: nat) {
    forall i | 0 <= i < |urls| - 1 :: LinksTo(reply(from + i, urls[i]), urls[i + 1])
  }

  predicate LinksTo(r: Reply, url: string) { r.Page? && r.next == Link(url) }

  ghost function ItemsOf(r: Reply): seq<Json> { if r.Page? then r.items else [] }

  // All items of the pages, in order.
  ghost function Gathered(reply: Server, urls: seq<string>, from: nat): seq<Json> {
    if urls == [] then []
    else Gathered(reply, urls[..|urls| - 1], from) + ItemsOf(reply(from + |urls| - 1, urls[|urls| - 1]))
  }

  // A non-empty link was followed.
  ghost predicate SomeLink(urls: seq<string>) {
    |urls| > 1 && (SomeLink(urls[..|urls| - 1]) || urls[|urls| - 1] != "")
  }

  // How a crawl whose last answer is `r` is classified.
  function Verdict(r: Reply): Classification {
    match r
    case HttpError(status, _) => ClassifyHttpStatus(Some(status))
    case NetworkDown => NetworkError
    case TokenRefused => AuthFailure
    case NotAnObject => ApiError
    case NoValueList => ApiError
    case Page(_, next) => if next == NoLink then Pass else ApiError
  }

  /** `result` is the crawl of `urls` from `url`, stopped by its last answer. */
  ghost predicate Crawled(reply: Server, url: string, urls: seq<string>, from: nat, result: PageResult) {
    && urls != [] && urls[0] == url && Followed(reply, urls, from)
    && var last := reply(from + |urls| - 1, urls[|urls| - 1]);
       && !(last.Page? && last.next.Link?) && !last.TokenRefused?
       && result.items == Gathered(reply, urls, from) && result.rows == |result.items|
       && result.pages == (if last.Page? then |urls| else |urls| - 1)
       && result.classification == Verdict(last)
       && result.retryAfter == (if last.HttpError? then last.retryAfter else None)
       && result.httpStatus == (if last.HttpError? then Some(last.status)
                                else if last.NetworkDown? then None else Some(200))
       && (result.linksSeen <==> SomeLink(urls))
  }

  /** PASS is a statement about the last answer: the end of the link chain, or, were one ever raised, an
      HTTP error carrying a success code. Short of that oddity, every page of the chain is in the result. */
  lemma PassIsWholeChainIff(reply: Server, url: string, urls: seq<string>, from: nat, result: PageResult)
    requires Crawled(reply, url, urls, from, result)
    ensures var last := reply(from + |urls| - 1, urls[|urls| - 1]);
            && (result.classification == Pass <==>
                  (last.Page? && last.next == NoLink) || (last.HttpError? && 200 <= last.status < 300))
            && (result.classification == Pass && !last.HttpError? ==>
                  result.pages == |urls| && forall i | 0 <= i < |urls| :: reply(from + i, urls[i]).Page?)
  {
    forall i | 0 <= i < |urls| - 1
      ensures reply(from + i, urls[i]).Page?
    {
      assert LinksTo(reply(from + i, urls[i]), urls[i + 1]);
    }
  }

  method RunPages(server: GraphServer, url: string, ghost fuel: nat)
    returns (r: Result<PageResult, Classification>, ghost urls: seq<string>)
    requires ChainEnds(server.reply, server.requests, url, fuel)
    modifies server
    ensures urls != [] && urls[0] == url && server.requests == old(server.requests) + |urls|
    ensures r.Ok? ==> Crawled(server.reply, url, urls, old(server.requests), r.value)
    ensures r.Raise? ==>
              Followed(server.reply, urls, old(server.requests)) &&
              server.reply(server.requests - 1, urls[|urls| - 1]).TokenRefused?
  {
    hide Crawled, Stopped, Followed, Gathered, SomeLink;
    FirstRequest(server.reply, url, server.requests);
    var items: seq<Json> := [];
    var pages := 0;
    var linksSeen := false;
    var current := url;
    urls := [url];
    ghost var left := fuel;
    ghost var from := server.requests;
    while true
      invariant urls != [] && urls[0] == url && urls[|urls| - 1] == current
      invariant server.requests == from + |urls| - 1 && pages == |urls| - 1
      invariant Followed(server.reply, urls, from)
      invariant ChainEnds(server.reply, server.requests, current, left)
      invariant items == Gathered(server.reply, urls[..|urls| - 1], from)
      invariant linksSeen <==> SomeLink(urls)
      decreases left
    {
      GatheredStep(server.reply, urls, from);
      var reply := server.Fetch(current);
      if reply.TokenRefused? {
        return Raise(AuthFailure), urls;
      }
      if reply.Page? {
        pages := pages + 1;
        items := items + reply.items;
      }
      if !(reply.Page? && reply.next.Link?) {
        StoppedIsCrawled(server.reply, url, urls, from, items, pages, linksSeen);
        return Ok(Stopped(reply, pages, items, linksSeen)), urls;
      }
      linksSeen := linksSeen || reply.next.url != "";
      current := reply.next.url;
      left := left - 1;
      FollowStep(server.reply, urls, current, from);
      urls := urls + [current];
    }
  }

  lemma FirstRequest(reply: Server, url: string, from: nat)
    ensures Followed(reply, [url], from) && !SomeLink([url]) && Gathered(reply, [url][..0], from) == []
  {
  }

  lemma GatheredStep(reply: Server, urls: seq<string>, from: nat)
    requires urls != []
    ensures Gathered(reply, urls, from)
              == Gathered(reply, urls[..|urls| - 1], from) + ItemsOf(reply(from + |urls| - 1, urls[|urls| - 1]))
  {
  }

  lemma FollowStep(reply: Server, urls: seq<string>, next: string, from: nat)
    requires urls != [] && Followed(reply, urls, from)
    requires LinksTo(reply(from + |urls| - 1, urls[|urls| - 1]), next)
    ensures Followed(reply, urls + [next], from) && (urls + [next])[..|urls|] == urls
    ensures SomeLink(urls + [next]) <==> SomeLink(urls) || next != ""
  {
    var all := urls + [next];
    assert all[..|urls|] == urls;
    forall i | 0 <= i < |all| - 1
      ensures LinksTo(reply(from + i, all[i]), all[i + 1])
    {
      if i < |urls| - 1 {
        assert all[i] == urls[i] && all[i + 1] == urls[i + 1];
        assert LinksTo(reply(from + i, urls[i]), urls[i + 1]);
      }
    }
  }

  // The result when `r` is the last answer.
  function Stopped(r: Reply, pages: nat, items: seq<Json>, linksSeen: bool): PageResult {
    match r
    case HttpError(status, retryAfter) => PageResult(pages, |items|, items, Some(status),
                                                     ClassifyHttpStatus(Some(status)), retryAfter, linksSeen)
    case NetworkDown => PageResult(pages, |items|, items, None, NetworkError, None, linksSeen)
    case TokenRefused => PageResult(pages, |items|, items, None, AuthFailure, None, linksSeen)
    case NotAnObject => PageResult(pages, |items|, items, Some(200), ApiError, None, linksSeen)
    case NoValueList => PageResult(pages, |items|, items, Some(200), ApiError, None, linksSeen)
    case Page(_, next) => PageResult(pages, |items|, items, Some(200),
                                     if next == BadLink then ApiError else Pass, None, linksSeen)
  }

  lemma StoppedIsCrawled(reply: Server, url: string, urls: seq<string>, from: nat, items: seq<Json>, pages: nat,
                         linksSeen: bool)
    requires urls != [] && urls[0] == url && Followed(reply, urls, from)
    requires var last := reply(from + |urls| - 1, urls[|urls| - 1]);
             && !(last.Page? && last.next.Link?) && !last.TokenRefused?
             && items == Gathered(reply, urls, from) && pages == (if last.Page? then |urls| else |urls| - 1)
             && (linksSeen <==> SomeLink(urls))
    ensures Crawled(reply, url, urls, from,
                    Stopped(reply(from + |urls| - 1, urls[|urls| - 1]), pages, items, linksSeen))
  {
    hide Gathered, Followed, SomeLink;
  }

  // ---- Retrying --------------------------------------------------------------------------------

  class Sleeper {
    var naps: seq<real>

    constructor ()
      ensures naps == []
    {
      naps := [];
    }

    // Sleeps only when a retry asks for a positive time.
    method Wait(d: RetryDecision)
      modifies this
      ensures naps == old(naps) + if d.retry && d.sleepSeconds > 0.0 then [d.sleepSeconds] else []
    {
      if d.retry && d.sleepSeconds > 0.0 {
        naps := naps + [d.sleepSeconds];
      }
    }
  }

  ghost function Total(naps: seq<real>): real {
    if naps == [] then 0.0 else Total(naps[..|naps| - 1]) + naps[|naps| - 1]
  }

  lemma {:induction false} TotalBounded(naps: seq<real>, ceiling: real)
    requires forall i | 0 <= i < |naps| :: naps[i] <= ceiling
    ensures Total(naps) <= |naps| as real * ceiling
  {
    if naps != [] {
      var n := |naps| - 1;
      TotalBounded(naps[..n], ceiling);
      assert |naps| as real * ceiling == n as real * ceiling + ceiling;
    }
  }

  datatype FinalStatus = PassedFirst | Recovered | FailedRetryExhausted | FailedPermanent

  datatype Action =
    | NoAction | RetryRun | CheckGraphPermission | VerifyTenantContext | InspectInputContract
    | CheckDatabaseAvailability

  function RecommendedAction(c: Classification, final: FinalStatus): Action {
    if final == PassedFirst || final == Recovered then NoAction
    else if c == AuthFailure || c == PermissionRequired then CheckGraphPermission
    else if c == TenantMismatch then VerifyTenantContext
    else if c == MalformedData || c == SchemaContractFailure || c == EntityIdentityUnavailable then InspectInputContract
    else if c == PersistenceFailure then CheckDatabaseAvailability
    else RetryRun
  }

  datatype CollectorRun = CollectorRun(
    records: seq<Json>, pages: nat, rows: nat, passed: bool, classification: Classification, retryCount: nat,
    retryAfter: Option<string>, httpStatus: Option<int>, paginationDetected: bool, finalStatus: FinalStatus,
    action: Action)

  // One whole crawl: where its requests start, the urls it asked for, what it brought.
  datatype Crawl = Crawl(from: nat, urls: seq<string>, result: PageResult)

  /** Crawls one after another, each from the initial url; all but the last failed in a way worth
      retrying, while the policy still allowed it. */
  ghost predicate Attempts(reply: Server, url: string, policy: RetryPolicy, crawls: seq<Crawl>, start: nat, end: nat) {
    && (forall k | 0 <= k < |crawls| :: Crawled(reply, url, crawls[k].urls, crawls[k].from, crawls[k].result))
    && (crawls == [] ==> start == end)
    && (crawls != [] ==> crawls[0].from == start && crawls[|crawls| - 1].from + |crawls[|crawls| - 1].urls| == end)
    && (forall k | 0 <= k < |crawls| - 1 :: crawls[k + 1].from == crawls[k].from + |crawls[k].urls|)
    && (forall k | 0 <= k < |crawls| - 1 :: IsRetryable(crawls[k].result.classification) && k < policy.maxRetries)
  }

  /** What is slept after the crawls: after each one the policy retries, what it decides, if that is any time at all. */
  ghost function NapsAfter(policy: RetryPolicy, crawls: seq<Crawl>, jitter: nat -> real): seq<real> {
    if crawls == [] then []
    else
      var last := crawls[|crawls| - 1].result;
      var decision := ShouldRetry(policy, last.classification, last.retryAfter, |crawls|, jitter(|crawls|));
      NapsAfter(policy, crawls[..|crawls| - 1], jitter)
      + if decision.retry && decision.sleepSeconds > 0.0 then [decision.sleepSeconds] else []
  }

  lemma NapsStep(policy: RetryPolicy, crawls: seq<Crawl>, c: Crawl, jitter: nat -> real)
    ensures var n := |crawls| + 1;
            var decision := ShouldRetry(policy, c.result.classification, c.result.retryAfter, n, jitter(n));
            NapsAfter(policy, crawls + [c], jitter)
            == NapsAfter(policy, crawls, jitter)
               + if decision.retry && decision.sleepSeconds > 0.0 then [decision.sleepSeconds] else []
  {
    hide ShouldRetry;
    assert (crawls + [c])[..|crawls|] == crawls;
  }

  lemma {:induction false} NapsWithin(policy: RetryPolicy, crawls: seq<Crawl>, jitter: nat -> real)
    ensures var naps := NapsAfter(policy, crawls, jitter);
            |naps| <= |crawls| && forall i | 0 <= i < |naps| :: 0.0 < naps[i] <= policy.Ceiling()
  {
    hide ShouldRetry;
    if crawls != [] {
      var n := |crawls|;
      NapsWithin(policy, crawls[..n - 1], jitter);
      var last := crawls[n - 1].result;
      SleepWithinCeiling(policy, last.classification, last.retryAfter, n, jitter(n));
    }
  }

  method Collect(server: GraphServer, url: string, policy: RetryPolicy, jitter: nat -> real, sleeper: Sleeper,
                 ghost bound: nat -> nat)
    returns (r: Result<CollectorRun, Classification>, ghost crawls: seq<Crawl>, ghost refused: seq<string>)
    requires forall n: nat | n >= server.requests :: ChainEnds(server.reply, n, url, bound(n))
    modifies server, sleeper
    // At most the configured number of retries, none after a permanent failure or a success.
    ensures |crawls| <= policy.Budget()
    // It raises exactly when a token is refused: `refused` are the urls of the crawl cut short, one more than the
    // crawls made, and within the same budget.
    ensures r.Raise? ==>
              && |crawls| < policy.Budget()
              && refused != [] && refused[0] == url && |refused| <= server.requests
              && Attempts(server.reply, url, policy, crawls, old(server.requests), server.requests - |refused|)
              && (crawls != [] ==> IsRetryable(crawls[|crawls| - 1].result.classification))
              && Followed(server.reply, refused, server.requests - |refused|)
              && server.reply(server.requests - 1, refused[|refused| - 1]).TokenRefused?
    ensures r.Ok? ==> refused == []
    ensures r.Ok? ==> crawls != [] && Attempts(server.reply, url, policy, crawls, old(server.requests), server.requests)
    ensures r.Ok? ==>
              var last := crawls[|crawls| - 1].result;
              // No retry was left unused.
              && (IsRetryable(last.classification) ==> |crawls| == policy.Budget())
              // Everything reported comes from the last crawl alone.
              && r.value.records == last.items && r.value.rows == last.rows && r.value.pages == last.pages
              && r.value.classification == last.classification && r.value.retryAfter == last.retryAfter
              && r.value.httpStatus == last.httpStatus && r.value.paginationDetected == last.linksSeen
              && (r.value.passed <==> last.classification == Pass)
              && r.value.retryCount == |crawls| - 1
              && r.value.finalStatus == (if r.value.passed then (if |crawls| > 1 then Recovered else PassedFirst)
                                         else if |crawls| > 1 then FailedRetryExhausted else FailedPermanent)
    // It sleeps as the policy decides, at most once per retry, and never longer than the policy's ceiling.
    ensures sleeper.naps == old(sleeper.naps) + NapsAfter(policy, crawls, jitter)
    ensures var slept := sleeper.naps[|old(sleeper.naps)|..];
            |slept| < policy.Budget() && forall i | 0 <= i < |slept| :: 0.0 < slept[i] <= policy.Ceiling()
  {
    hide Crawled, Attempts, ChainEnds, ShouldRetry, Followed, NapsAfter, RecommendedAction;
    crawls, refused := [], [];
    var attempts := 0;
    NoAttempts(server.reply, url, policy, server.requests, jitter);
    ghost var start := server.requests;
    ghost var rested := sleeper.naps;
    while true
      invariant start <= server.requests && |crawls| == attempts <= Max(0, policy.maxRetries)
      invariant Attempts(server.reply, url, policy, crawls, start, server.requests)
      invariant crawls != [] ==>
                IsRetryable(crawls[|crawls| - 1].result.classification) && |crawls| <= policy.maxRetries
      invariant sleeper.naps == rested + NapsAfter(policy, crawls, jitter)
      decreases Max(0, policy.maxRetries) - attempts
    {
      ghost var from := server.requests;
      ghost var urls;
      var page;
      page, urls := RunPages(server, url, bound(server.requests));
      if page.Raise? {
        NapsWithin(policy, crawls, jitter);
        return Raise(page.error), crawls, urls;
      }
      attempts := attempts + 1;
      AttemptsExtend(server.reply, url, policy, crawls, Crawl(from, urls, page.value), start, from);
      NapsStep(policy, crawls, Crawl(from, urls, page.value), jitter);
      ghost var earlier := crawls;
      crawls := crawls + [Crawl(from, urls, page.value)];
      var classification := page.value.classification;
      var decision := ShouldRetry(policy, classification, page.value.retryAfter, attempts, jitter(attempts));
      RetryGrantedIff(policy, classification, page.value.retryAfter, attempts, jitter(attempts));
      if !decision.retry {
        NapsWithin(policy, earlier, jitter);
        var passed := classification == Pass;
        var final := if passed then (if attempts > 1 then Recovered else PassedFirst)
                     else if attempts > 1 then FailedRetryExhausted else FailedPermanent;
        return Ok(CollectorRun(page.value.items, page.value.pages, page.value.rows, passed, classification,
                               attempts - 1, page.value.retryAfter, page.value.httpStatus, page.value.linksSeen, final,
                               RecommendedAction(classification, final))), crawls, [];
      }
      sleeper.Wait(decision);
    }
  }

  lemma NoAttempts(reply: Server, url: string, policy: RetryPolicy, now: nat, jitter: nat -> real)
    ensures Attempts(reply, url, policy, [], now, now) && NapsAfter(policy, [], jitter) == []
  {
  }

  lemma AttemptsExtend(reply: Server, url: string, policy: RetryPolicy, crawls: seq<Crawl>, c: Crawl, start: nat,
                       from: nat)
    requires Attempts(reply, url, policy, crawls, start, from) && c.from == from
    requires Crawled(reply, url, c.urls, c.from, c.result)
    requires crawls != [] ==> IsRetryable(crawls[|crawls| - 1].result.classification) && |crawls| <= policy.maxRetries
    ensures Attempts(reply, url, policy, crawls + [c], start, from + |c.urls|)
  {
    hide Crawled;
  }

  /** Permanent failures are never retried: an authentication or permission failure is the last attempt. */
  lemma PermanentFailureIsLast(reply: Server, url: string, policy: RetryPolicy, crawls: seq<Crawl>, start: nat,
                               end: nat, k: nat)
    requires Attempts(reply, url, policy, crawls, start, end) && k < |crawls|
    requires crawls[k].result.classification in {AuthFailure, PermissionRequired, Pass}
    ensures k == |crawls| - 1
  {
  }

  /** The total sleep of an endpoint is at most the ceiling once per retry. */
  lemma TotalSleepBounded(policy: RetryPolicy, slept: seq<real>)
    requires policy.NonNegative() && |slept| < policy.Budget()
    requires forall i | 0 <= i < |slept| :: 0.0 < slept[i] <= policy.Ceiling()
    ensures Total(slept) <= Max(0, policy.maxRetries) as real * policy.Ceiling()
  {
    hide Total;
    TotalWithin(slept, Max(0, policy.maxRetries), policy.Ceiling());
  }

  lemma TotalWithin(naps: seq<real>, most: nat, ceiling: real)
    requires |naps| <= most && ceiling >= 0.0 && forall i | 0 <= i < |naps| :: naps[i] <= ceiling
    ensures Total(naps) <= most as real * ceiling
  {
    hide Total;
    TotalBounded(naps, ceiling);
    Scale(|naps|, most, ceiling);
  }

  lemma Scale(a: int, b: int, x: real)
    requires a <= b && x >= 0.0
    ensures a as real * x <= b as real * x
  {
  }
}
