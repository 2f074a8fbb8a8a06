/** The Management Activity client (collectors/onedrive_audit.py): bounded retries around one
    request, and the paging loop that turns a listing into content blobs. */
module AuditTransport {
  import opened Basics
  import opened Retry

  // One answer of the server; `body` is None when it does not decode to JSON.
  datatype Reply =
    | Response(status: int, retryAfter: Option<string>, body: Option<Json>)
    | HttpFailure(code: int, retryAfter: Option<string>)
    | Unreachable
    | TokenRefused    // the token provider raised; no request was sent

  datatype Fault =
    | InvalidBounds | InvalidWindow | UrlRejected | RequestFailed | RetriesSpent | TokenUnavailable
    | NotSubscribed | CyclicNextPage | PageBoundExceeded | ListingNotArray | MalformedEntry
    | BlobNotArray | MalformedNextPage | MalformedRecord | StoreFailed

  datatype AuditError = AuditError(classification: Classification, fault: Fault)

  datatype Verdict =
    | Good(data: Json)
    | Bad(classification: Classification, retryAfter: Option<string>)
    | Escapes    // an exception the request loop does not catch

  function Judge(reply: Reply): Verdict {
    match reply
    case TokenRefused => Escapes
    case Unreachable => Bad(SourceFailure, None)
    case HttpFailure(code, retryAfter) =>
      Bad(if code == 401 || code == 403 then PermissionRequired else if code == 429 then Throttled else SourceFailure,
          retryAfter)
    case Response(status, retryAfter, body) =>
      if status == 401 || status == 403 then Bad(PermissionRequired, None)
      else if status == 429 then Bad(Throttled, retryAfter)
      else if status != 200 then Bad(SourceFailure, None)
      else if body.None? then Bad(SchemaContractFailure, None)
      else Good(body.value)
  }

  // The exception that leaves `_get` when attempt number `attempts` is the last.
  function Final(v: Verdict, attempts: nat): Result<Json, AuditError> {
    match v
    case Good(data) => Ok(data)
    case Escapes => Raise(AuditError(AuthFailure, TokenUnavailable))
    case Bad(c, _) =>
      if (c == Throttled || c == SourceFailure) && attempts > 1 then Raise(AuditError(RetryExhausted, RetriesSpent))
      else Raise(AuditError(c, RequestFailed))
  }

  type Server = (nat, string) -> Reply

  /** Requests `from` to `to` (excluded) all went to `url`: every one but the last failed in a
      transient way, the last was not worth or not allowed another retry, and `r` reports it. */
  ghost predicate Answered(server: Server, maxRetries: int, url: string, from: nat, to: nat,
                           r: Result<Json, AuditError>) {
    && from < to <= from + Max(0, maxRetries) + 1
    && (forall n: nat | from <= n < to - 1 ::
        Judge(server(n, url)).Bad? && IsRetryable(Judge(server(n, url)).classification))
    && r == Final(Judge(server(to - 1, url)), to - from)
    && (Judge(server(to - 1, url)).Bad? && IsRetryable(Judge(server(to - 1, url)).classification) ==>
        to - from == Max(0, maxRetries) + 1)
  }

  // The server answered `url` with `data` in one of the requests numbered `from` up to `to`.
  ghost predicate Served(server: Server, url: string, data: Json, from: nat, to: nat) {
    exists n: nat :: from <= n < to && Judge(server(n, url)) == Good(data)
  }

  /** Each way of answering is reported as itself, except that a transient failure outlasting a
      retry becomes RETRY_EXHAUSTED; permission and decoding failures are never retried. */
  lemma AnsweredOutcome(server: Server, maxRetries: int, url: string, from: nat, to: nat, r: Result<Json, AuditError>)
    requires Answered(server, maxRetries, url, from, to, r)
    ensures r.Ok? <==> Judge(server(to - 1, url)).Good?
    ensures r.Ok? ==> Served(server, url, r.value, from, to)
    ensures r.Raise? && r.error.classification in {PermissionRequired, SchemaContractFailure} ==>
              Judge(server(to - 1, url)).Bad? && Judge(server(to - 1, url)).classification == r.error.classification
    ensures r.Raise? && r.error.classification == RetryExhausted <==>
            to - from > 1 && Judge(server(to - 1, url)).Bad? &&
              Judge(server(to - 1, url)).classification in {Throttled, SourceFailure}
  {
  }

  // ---- Listing entries -------------------------------------------------------------------

  function Text(render: Json -> string, j: Json): string {
    if j.Str? then j.s else render(j)
  }

  // str(item.get("contentId") or "")
  function IdOf(render: Json -> string, item: Json): string {
    if item.Obj? && Truthy(Get(item.fields, "contentId")) then Text(render, Get(item.fields, "contentId")) else ""
  }

  predicate WellFormedEntry(item: Json) {
    item.Obj? && Truthy(Get(item.fields, "contentUri"))
  }

  function UriOf(render: Json -> string, item: Json): string
    requires WellFormedEntry(item)
  {
    Text(render, Get(item.fields, "contentUri"))
  }

  // Entry `i` carries a content id that an earlier entry already carried.
  ghost predicate Repeats(render: Json -> string, items: seq<Json>, i: nat)
    requires i < |items|
  {
    IdOf(render, items[i]) != "" && exists j :: 0 <= j < i && IdOf(render, items[j]) == IdOf(render, items[i])
  }

  /** The entries that are not repeats, in listing order. */
  ghost function Kept(render: Json -> string, items: seq<Json>): seq<Json> {
    if items == [] then []
    else
      var n := |items| - 1;
      Kept(render, items[..n]) + if Repeats(render, items, n) then [] else [items[n]]
  }

  lemma {:induction false} KeptStep(render: Json -> string, items: seq<Json>, item: Json)
    ensures Kept(render, items + [item]) ==
            Kept(render, items) + if Repeats(render, items + [item], |items|) then [] else [item]
  {
    assert (items + [item])[..|items|] == items;
  }

  /** Nothing is lost but repeats: every entry that is listed is kept, or an entry with the same
      non-empty content id is. And nothing is kept that was not listed. */
  lemma {:induction false} KeptCovers(render: Json -> string, items: seq<Json>, item: Json)
    requires item in items
    ensures item in Kept(render, items)
         || (IdOf(render, item) != "" && exists k :: k in Kept(render, items) && IdOf(render, k) == IdOf(render, item))
  {
    var n := |items| - 1;
    if item in items[..n] {
      KeptCovers(render, items[..n], item);
    } else if Repeats(render, items, n) {
      var j :| 0 <= j < n && IdOf(render, items[j]) == IdOf(render, items[n]);
      assert items[..n][j] == items[j];
      KeptCovers(render, items[..n], items[j]);
    }
  }

  lemma {:induction false} KeptListed(render: Json -> string, items: seq<Json>, k: Json)
    requires k in Kept(render, items)
    ensures k in items
  {
    var n := |items| - 1;
    if k in Kept(render, items[..n]) { KeptListed(render, items[..n], k); }
  }

  /** No non-empty content id is kept twice. */
  lemma {:induction false} KeptDistinct(render: Json -> string, items: seq<Json>)
    ensures forall i, j | 0 <= i < j < |Kept(render, items)| && IdOf(render, Kept(render, items)[i]) != "" ::
              IdOf(render, Kept(render, items)[i]) != IdOf(render, Kept(render, items)[j])
  {
    if items != [] {
      var n := |items| - 1;
      KeptDistinct(render, items[..n]);
      var before := Kept(render, items[..n]);
      if !Repeats(render, items, n) {
        forall i | 0 <= i < |before| && IdOf(render, before[i]) != ""
          ensures IdOf(render, before[i]) != IdOf(render, items[n])
        {
          KeptListed(render, items[..n], before[i]);
          var j :| 0 <= j < n && items[..n][j] == before[i];
          assert items[j] == before[i];
        }
      }
    }
  }

  // ---- Pages ------------------------------------------------------------------------------

  const HOST := "https://manage.office.com"

  datatype NextPage = NoNext | BadNext | Next(url: string)

  // nextPageUri of a page's first entry.
  function NextOf(data: seq<Json>): (next: NextPage)
    requires AllWellFormed(data)
    ensures next.Next? ==> HOST <= next.url && next.url != ""
  {
    if data == [] then NoNext
    else
      EachWellFormed(data, 0);
      match Get(data[0].fields, "nextPageUri")
      case Null => NoNext
      case Str(s) => if HOST + "/" <= s then Next(s) else BadNext
      case _ => BadNext
  }

  datatype Page = Page(url: string, data: seq<Json>)

  ghost function Listed(pages: seq<Page>): seq<Json> {
    if pages == [] then [] else Listed(pages[..|pages| - 1]) + pages[|pages| - 1].data
  }

  lemma {:induction false} InListed(pages: seq<Page>, item: Json) returns (i: nat)
    requires item in Listed(pages)
    ensures i < |pages| && item in pages[i].data
  {
    i := |pages| - 1;
    if item !in pages[i].data { i := InListed(pages[..i], item); }
  }

  ghost predicate AllWellFormed(items: seq<Json>) {
    items != [] ==> AllWellFormed(items[..|items| - 1]) && WellFormedEntry(items[|items| - 1])
  }

  lemma {:induction false} EachWellFormed(items: seq<Json>, i: nat)
    requires AllWellFormed(items) && i < |items|
    ensures WellFormedEntry(items[i])
  {
    if i < |items| - 1 { EachWellFormed(items[..|items| - 1], i); }
  }

  // Each page but the last was well formed and led to the one after it.
  ghost predicate Linked(pages: seq<Page>) {
    forall i | 0 <= i < |pages| - 1 :: AllWellFormed(pages[i].data) && NextOf(pages[i].data) == Next(pages[i + 1].url)
  }

  ghost predicate DistinctUrls(pages: seq<Page>) {
    forall i, j | 0 <= i < j < |pages| :: pages[i].url != pages[j].url
  }

  // The pages answered in requests `from` to `to`, starting at `first`.
  ghost predicate Walk(server: Server, first: string, pages: seq<Page>, from: nat, to: nat) {
    && (pages != [] ==> pages[0].url == first)
    && Linked(pages)
    && DistinctUrls(pages)
    && forall i | 0 <= i < |pages| :: Served(server, pages[i].url, Arr(pages[i].data), from, to)
  }

  datatype Content = Content(contentId: string, contentCreated: Json, contentExpiration: Json, records: seq<Json>)

  // The mapping members of a blob.
  function Mappings(blob: seq<Json>): seq<Json> {
    if blob == [] then [] else Mappings(blob[..|blob| - 1]) + if blob[|blob| - 1].Obj? then [blob[|blob| - 1]] else []
  }

  lemma {:induction false} MappingsKeepObjects(blob: seq<Json>, j: Json)
    ensures j in Mappings(blob) <==> j in blob && j.Obj?
  {
    if blob != [] {
      var n := |blob| - 1;
      MappingsKeepObjects(blob[..n], j);
      assert blob == blob[..n] + [blob[n]];
    }
  }

  // The content an entry and its blob make up.
  function ContentOf(render: Json -> string, item: Json, blob: seq<Json>): Content
    requires WellFormedEntry(item)
  {
    Content(IdOf(render, item), Get(item.fields, "contentCreated"), Get(item.fields, "contentExpiration"),
            Mappings(blob))
  }

  // Members of the first `n` blobs.
  ghost function Members(blobs: seq<seq<Json>>, n: nat): nat
    requires n <= |blobs|
  {
    if n == 0 then 0 else Members(blobs, n - 1) + |blobs[n - 1]|
  }

  lemma {:induction false} MembersOfLonger(blobs: seq<seq<Json>>, blob: seq<Json>, n: nat)
    requires n <= |blobs|
    ensures Members(blobs + [blob], n) == Members(blobs, n)
  {
    if n > 0 { MembersOfLonger(blobs, blob, n - 1); }
  }

  /** Output `out` is what the blobs of `entries` hold, one content per entry, in order. */
  ghost predicate Fetched(render: Json -> string, server: Server, entries: seq<Json>, blobs: seq<seq<Json>>,
                          out: seq<Content>, from: nat, to: nat) {
    && |out| == |blobs| == |entries|
    && forall i | 0 <= i < |out| :: Fetches(render, server, entries[i], blobs[i], out[i], from, to)
  }

  ghost predicate Fetches(render: Json -> string, server: Server, entry: Json, blob: seq<Json>, content: Content,
                          from: nat, to: nat) {
    WellFormedEntry(entry) && Served(server, UriOf(render, entry), Arr(blob), from, to) &&
      content == ContentOf(render, entry, blob)
  }

  // The counters of a run, read together.
  datatype Tally = Counts(windows: nat, pages: nat, entries: nat, attempted: nat, succeeded: nat, failed: nat,
                          parsed: nat) {
    // `asked` more entries whose blob was asked for; `got` arrived, `lost` failed, `records` were in them.
    function Blobs(asked: nat, got: nat, lost: nat, records: nat): Tally {
      Counts(windows, pages, entries + asked, attempted + asked, succeeded + got, failed + lost, parsed + records)
    }

    function Pages(n: nat): Tally { this.(pages := pages + n) }

    function Windows(n: nat): Tally { this.(windows := windows + n) }
  }

  class Metrics {
    var tally: Tally

    constructor ()
      ensures tally == Counts(0, 0, 0, 0, 0, 0, 0)
    {
      tally := Counts(0, 0, 0, 0, 0, 0, 0);
    }
  }

  // `url` is what to fetch after `pages`.
  ghost predicate LeadsTo(pages: seq<Page>, first: string, url: NextPage) {
    if pages == [] then url == Next(first)
    else AllWellFormed(pages[|pages| - 1].data) && NextOf(pages[|pages| - 1].data) == url
  }

  // Blob failures that are counted neither as succeeded nor as failed.
  predicate Unaccounted(f: Fault) { f == BlobNotArray || f == TokenUnavailable }

  predicate Matches(item: Json) {
    item.Obj? && Get(item.fields, "contentType") == Str("Audit.SharePoint")
  }

  // item.get("status", "")
  function StatusOf(item: Json): Json
    requires item.Obj?
  {
    if "status" in item.fields then item.fields["status"] else Str("")
  }

  ghost function FirstMatch(data: seq<Json>): (item: Option<Json>)
    ensures item.Some? ==> Matches(item.value) && item.value in data
    ensures item.None? <==> forall i | 0 <= i < |data| :: !Matches(data[i])
  {
    if data == [] then None else if Matches(data[0]) then Some(data[0]) else FirstMatch(data[1..])
  }

  ghost function Subscribed(render: Json -> string, lower: string -> string, data: Json): Result<Json, AuditError> {
    if data.Arr? && FirstMatch(data.items).Some? &&
      lower(Text(render, StatusOf(FirstMatch(data.items).value))) == "enabled"
    then Ok(FirstMatch(data.items).value)
    else Raise(AuditError(SubscriptionUnavailable, NotSubscribed))
  }

  ghost function SeenIds(render: Json -> string, items: seq<Json>): set<string> {
    if items == [] then {}
    else
      var id := IdOf(render, items[|items| - 1]);
      SeenIds(render, items[..|items| - 1]) + if id == "" then {} else {id}
  }

  lemma {:induction false} SeenIff(render: Json -> string, items: seq<Json>, id: string)
    ensures id in SeenIds(render, items) <==> id != "" && exists i :: 0 <= i < |items| && IdOf(render, items[i]) == id
  {
    if items != [] {
      var n := |items| - 1;
      SeenIff(render, items[..n], id);
      if id in SeenIds(render, items[..n]) {
        var i :| 0 <= i < n && IdOf(render, items[..n][i]) == id;
        assert IdOf(render, items[i]) == id;
      } else if i :| 0 <= i < |items| && IdOf(render, items[i]) == id && i < n {
        assert items[..n][i] == items[i];
      }
    }
  }

  lemma SeenStep(render: Json -> string, items: seq<Json>, item: Json)
    ensures SeenIds(render, items + [item]) ==
            SeenIds(render, items) + if IdOf(render, item) == "" then {} else {IdOf(render, item)}
    ensures Repeats(render, items + [item], |items|) <==> IdOf(render, item) in SeenIds(render, items)
  {
    var all := items + [item];
    assert all[..|items|] == items && all[|items|] == item;
    SeenIff(render, items, IdOf(render, item));
    if IdOf(render, item) in SeenIds(render, items) {
      var i :| 0 <= i < |items| && IdOf(render, items[i]) == IdOf(render, item);
      assert all[i] == items[i];
    }
  }

  ghost function UrlsOf(pages: seq<Page>): set<string> {
    if pages == [] then {} else UrlsOf(pages[..|pages| - 1]) + {pages[|pages| - 1].url}
  }

  lemma {:induction false} UrlsIff(pages: seq<Page>, url: string)
    ensures url in UrlsOf(pages) <==> exists i :: 0 <= i < |pages| && pages[i].url == url
  {
    if pages != [] {
      var n := |pages| - 1;
      UrlsIff(pages[..n], url);
      if url in UrlsOf(pages[..n]) {
        var i :| 0 <= i < n && pages[..n][i].url == url;
        assert pages[i].url == url;
      }
    }
  }

  lemma Start(render: Json -> string, server: Server, first: string, now: nat)
    ensures Walk(server, first, [], now, now) && Listed([]) == [] && UrlsOf([]) == {}
    ensures Kept(render, []) == [] && SeenIds(render, []) == {}
    ensures Fetched(render, server, [], [], [], now, now) && Members([], 0) == 0
  {
  }

  lemma FetchedSizes(render: Json -> string, server: Server, entries: seq<Json>, blobs: seq<seq<Json>>,
                     out: seq<Content>, from: nat, to: nat)
    requires Fetched(render, server, entries, blobs, out, from, to)
    ensures |entries| == |blobs| == |out|
  {
  }

  lemma PrefixStep(before: seq<Json>, data: seq<Json>, i: nat)
    requires i < |data|
    ensures before + data[..i + 1] == (before + data[..i]) + [data[i]]
    ensures data[..i + 1][..i] == data[..i]
  {
  }

  lemma ServedEarlier(server: Server, url: string, data: Json, from: nat, asked: nat, to: nat)
    requires Served(server, url, data, asked, to) && from <= asked
    ensures Served(server, url, data, from, to)
  {
  }

  lemma FetchedLater(render: Json -> string, server: Server, entries: seq<Json>, blobs: seq<seq<Json>>,
                     out: seq<Content>, from: nat, to: nat, later: nat)
    requires Fetched(render, server, entries, blobs, out, from, to) && to <= later
    ensures Fetched(render, server, entries, blobs, out, from, later)
  {
    forall i | 0 <= i < |out|
      ensures Fetches(render, server, entries[i], blobs[i], out[i], from, later)
    {
      assert Fetches(render, server, entries[i], blobs[i], out[i], from, to);
    }
  }

  lemma FetchedStep(render: Json -> string, server: Server, entries: seq<Json>, blobs: seq<seq<Json>>,
                    out: seq<Content>, item: Json, blob: seq<Json>, from: nat, asked: nat, to: nat)
    requires Fetched(render, server, entries, blobs, out, from, asked) && from <= asked <= to
    requires WellFormedEntry(item) && Served(server, UriOf(render, item), Arr(blob), asked, to)
    ensures Fetched(render, server, entries + [item], blobs + [blob], out + [ContentOf(render, item, blob)], from, to)
    ensures Members(blobs + [blob], |blobs| + 1) == Members(blobs, |blobs|) + |blob|
  {
    hide Served, Mappings;
    FetchedLater(render, server, entries, blobs, out, from, asked, to);
    MembersOfLonger(blobs, blob, |blobs|);
    ServedEarlier(server, UriOf(render, item), Arr(blob), from, asked, to);
    var content := ContentOf(render, item, blob);
    assert Fetches(render, server, item, blob, content, from, to);
    FetchedOneMore(render, server, entries, blobs, out, item, blob, content, from, to);
  }

  lemma FetchedOneMore(render: Json -> string, server: Server, entries: seq<Json>, blobs: seq<seq<Json>>,
                       out: seq<Content>, item: Json, blob: seq<Json>, content: Content, from: nat, to: nat)
    requires Fetched(render, server, entries, blobs, out, from, to)
    requires Fetches(render, server, item, blob, content, from, to)
    ensures Fetched(render, server, entries + [item], blobs + [blob], out + [content], from, to)
  {
    hide Fetches;
  }

  lemma WalkLater(server: Server, first: string, pages: seq<Page>, from: nat, to: nat, later: nat)
    requires Walk(server, first, pages, from, to) && to <= later
    ensures Walk(server, first, pages, from, later)
  {
    forall i | 0 <= i < |pages|
      ensures Served(server, pages[i].url, Arr(pages[i].data), from, later)
    {
      assert Served(server, pages[i].url, Arr(pages[i].data), from, to);
    }
  }

  lemma WalkExtends(server: Server, first: string, pages: seq<Page>, page: Page, url: NextPage, from: nat, to: nat)
    requires Walk(server, first, pages, from, to) && LeadsTo(pages, first, url) && url == Next(page.url)
    requires Served(server, page.url, Arr(page.data), from, to)
    requires page.url !in UrlsOf(pages)
    ensures Walk(server, first, pages + [page], from, to)
    ensures Listed(pages + [page]) == Listed(pages) + page.data
    ensures UrlsOf(pages + [page]) == UrlsOf(pages) + {page.url}
  {
    hide AllWellFormed, NextOf, Served;
    var all := pages + [page];
    assert all[..|pages|] == pages;
    forall i | 0 <= i < |pages|
      ensures all[i].url != page.url
    {
      UrlsIff(pages, page.url);
    }
  }

  lemma FrontOfPage(before: seq<Json>, data: seq<Json>, k: nat)
    requires k <= |data|
    ensures before + data[..k] == (before + data)[..|before| + k]
    ensures k == |data| ==> data[..k] == data
  {
  }

  // ---- The client --------------------------------------------------------------------------

  class Transport {
    const server: Server
    const accepts: string -> bool         // the scheme and host test on a parsed URL
    const render: Json -> string          // str() of a JSON value that is not a string
    const query: (int, int) -> string     // the encoded start and end times
    const jitter: nat -> real
    const policy: RetryPolicy
    const maxPages: int
    const tenant: string
    var requests: nat                     // requests the server has answered
    var retries: nat

    constructor (server: Server, accepts: string -> bool, render: Json -> string, query: (int, int) -> string,
                 jitter: nat -> real, policy: RetryPolicy, maxPages: int, tenant: string)
      ensures this.server == server && this.accepts == accepts && this.render == render && this.query == query
      ensures this.policy == policy && this.maxPages == maxPages && this.tenant == tenant
      ensures requests == 0 && retries == 0
    {
      this.server, this.accepts, this.render, this.query := server, accepts, render, query;
      this.jitter, this.policy, this.maxPages, this.tenant := jitter, policy, maxPages, tenant;
      requests, retries := 0, 0;
    }

    function Base(): string { HOST + "/api/v1.0/" + tenant + "/activity/feed" }

    function SubscriptionsUrl(): string { Base() + "/subscriptions/list" }

    function ListingUrl(start: int, end: int): string { Base() + "/subscriptions/content?" + query(start, end) }

    // Whenever it is asked for the url, the server answers with this.
    ghost predicate Answers(url: string, data: Json) {
      accepts(url) && forall n: nat :: Judge(server(n, url)) == Good(data)
    }

    // The entry's blob can be had at any time.
    ghost predicate Steady(item: Json) {
      WellFormedEntry(item) && exists blob: seq<Json> :: Answers(UriOf(render, item), Arr(blob))
    }

    /** A listing that can be read at any time: no more pages than allowed, none twice, each leading to the next and
        the last to none, all of such entries. */
    ghost predicate ReadableAs(chain: seq<Page>) {
      && 0 < |chain| <= maxPages && Linked(chain) && DistinctUrls(chain)
      && LeadsTo(chain, chain[0].url, NoNext)
      && forall i | 0 <= i < |chain| ::
           Answers(chain[i].url, Arr(chain[i].data)) && forall item | item in chain[i].data :: Steady(item)
    }

    ghost predicate ReadableAt(url: string) {
      exists chain: seq<Page> :: ReadableAs(chain) && chain != [] && chain[0].url == url
    }

    // Asking for the url, last in request `to - 1`, came to `error`: the url was refused without a request, or the
    // call failed as it reports, or what came was no array.
    ghost predicate FailsAt(url: string, notArray: Fault, error: AuditError, from: nat, to: nat) {
      if error.fault == UrlRejected then !accepts(url)
      else
        exists asked: nat, answer ::
          && from <= asked && Answered(server, policy.maxRetries, url, asked, to, answer)
          && if answer.Raise? then error == answer.error
             else !answer.value.Arr? && error == AuditError(SchemaContractFailure, notArray)
    }

    /** Why reading a listing ended in `error`, the pages, entries and blobs being those had by then: a bound, a
        cycle, a link or an entry that is really there, or else the last request, for a blob if one is missing and for
        the next page if not. */
    ghost predicate Explains(first: string, pages: seq<Page>, tried: seq<Json>, blobs: seq<seq<Json>>,
                             error: AuditError, from: nat, to: nat) {
      match error.fault
      case PageBoundExceeded =>
        |pages| == Max(0, maxPages) && exists url :: LeadsTo(pages, first, Next(url)) && url !in UrlsOf(pages)
      case CyclicNextPage => exists url :: LeadsTo(pages, first, Next(url)) && url in UrlsOf(pages)
      case MalformedNextPage => pages != [] && LeadsTo(pages, first, BadNext)
      case MalformedEntry => exists item :: item in Listed(pages) && !WellFormedEntry(item)
      case _ =>
        if |tried| > |blobs| then
          var item := tried[|tried| - 1];
          WellFormedEntry(item) && FailsAt(UriOf(render, item), BlobNotArray, error, from, to)
        else exists url :: LeadsTo(pages, first, Next(url)) && FailsAt(url, ListingNotArray, error, from, to)
    }

    method Get(url: string) returns (r: Result<Json, AuditError>)
      modifies this
      ensures forall data :: Answers(url, data) ==> r == Ok(data)
      ensures !accepts(url) ==> r == Raise(AuditError(SourceFailure, UrlRejected)) && unchanged(this)
      ensures accepts(url) ==> Answered(server, policy.maxRetries, url, old(requests), requests, r)
      ensures accepts(url) ==> retries == old(retries) + (requests - old(requests) - 1)
    {
      if !accepts(url) {
        return Raise(AuditError(SourceFailure, UrlRejected));
      }
      var attempts := 0;
      while true
        invariant requests == old(requests) + attempts && retries == old(retries) + attempts
        invariant attempts <= Max(0, policy.maxRetries)
        invariant forall n: nat | old(requests) <= n < requests ::
                    Judge(server(n, url)).Bad? && IsRetryable(Judge(server(n, url)).classification)
        decreases Max(0, policy.maxRetries) - attempts
      {
        attempts := attempts + 1;
        var verdict := Judge(server(requests, url));
        requests := requests + 1;
        if !verdict.Bad? {
          return Final(verdict, attempts);
        }
        var decision := ShouldRetry(policy, verdict.classification, verdict.retryAfter, attempts, jitter(requests));
        RetryGrantedIff(policy, verdict.classification, verdict.retryAfter, attempts, jitter(requests));
        if !decision.retry {
          return Final(verdict, attempts);
        }
        retries := retries + 1;
      }
    }

    /** Whether Audit.SharePoint is subscribed to and enabled: decided by the first matching entry of an answer that is
        a list; a request that fails is reported as it failed. */
    method Subscription(lower: string -> string) returns (r: Result<Json, AuditError>)
      modifies this
      ensures old(requests) <= requests
      ensures !accepts(SubscriptionsUrl()) ==> r == Raise(AuditError(SourceFailure, UrlRejected))
      ensures accepts(SubscriptionsUrl()) ==> exists answer ::
                && Answered(server, policy.maxRetries, SubscriptionsUrl(), old(requests), requests, answer)
                && r == if answer.Raise? then answer else Subscribed(render, lower, answer.value)
      ensures forall data :: Answers(SubscriptionsUrl(), data) ==> r == Subscribed(render, lower, data)
    {
      var reply := Get(SubscriptionsUrl());
      if reply.Raise? { return Raise(reply.error); }
      if reply.value.Arr? {
        var data := reply.value.items;
        for i := 0 to |data|
          invariant FirstMatch(data) == FirstMatch(data[i..])
        {
          if Matches(data[i]) {
            assert data[i..][0] == data[i];
            if lower(Text(render, StatusOf(data[i]))) == "enabled" {
              return Ok(data[i]);
            }
            return Raise(AuditError(SubscriptionUnavailable, NotSubscribed));
          }
          assert data[i..][1..] == data[i + 1..];
        }
      }
      r := Raise(AuditError(SubscriptionUnavailable, NotSubscribed));
    }

    /** One blob, with its accounting: a blob that arrives but is no array, or for which no token could
        be had, counts as attempted only. */
    method FetchBlob(uri: string, metrics: Metrics) returns (r: Result<seq<Json>, AuditError>)
      modifies this, metrics
      ensures old(requests) <= requests
      ensures r.Raise? ==> FailsAt(uri, BlobNotArray, r.error, old(requests), requests)
      ensures r.Ok? ==> Served(server, uri, Arr(r.value), old(requests), requests)
      ensures r.Ok? ==> metrics.tally == old(metrics.tally).Blobs(1, 1, 0, |r.value|)
      ensures r.Raise? ==> r.error.fault != MalformedEntry
      ensures r.Raise? ==>
                metrics.tally == old(metrics.tally).Blobs(1, 0, if Unaccounted(r.error.fault) then 0 else 1, 0)
    {
      metrics.tally := metrics.tally.(entries := metrics.tally.entries + 1, attempted := metrics.tally.attempted + 1);
      var asked := requests;
      var blob := Get(uri);
      if blob.Raise? {
        if blob.error.fault != TokenUnavailable {
          metrics.tally := metrics.tally.(failed := metrics.tally.failed + 1);
        }
        return Raise(blob.error);
      }
      AnsweredOutcome(server, policy.maxRetries, uri, asked, requests, blob);
      if !blob.value.Arr? {
        return Raise(AuditError(SchemaContractFailure, BlobNotArray));
      }
      metrics.tally := metrics.tally.(succeeded := metrics.tally.succeeded + 1,
                                      parsed := metrics.tally.parsed + |blob.value.items|);
      r := Ok(blob.value.items);
    }

    /** One listing entry after the entries `passed`: an entry repeating a content id is skipped. */
    method FetchEntry(item: Json, ghost passed: seq<Json>, seen: set<string>, out: seq<Content>,
                      ghost blobs: seq<seq<Json>>, metrics: Metrics, ghost from: nat)
      returns (r: Result<(set<string>, seq<Content>), AuditError>, ghost got: seq<seq<Json>>, ghost parsed: nat)
      requires from <= requests
      requires seen == SeenIds(render, passed)
      requires Fetched(render, server, Kept(render, passed), blobs, out, from, requests)
      modifies this, metrics
      ensures old(requests) <= requests
      ensures r.Raise? && r.error.fault == MalformedEntry ==> metrics.tally == old(metrics.tally)
      ensures r.Raise? && r.error.fault == MalformedEntry <==> !WellFormedEntry(item)
      ensures r.Raise? && WellFormedEntry(item) ==>
                FailsAt(UriOf(render, item), BlobNotArray, r.error, old(requests), requests)
      ensures r.Ok? ==> r.value.0 == SeenIds(render, passed + [item])
      ensures r.Ok? ==> Fetched(render, server, Kept(render, passed + [item]), got, r.value.1, from, requests)
      ensures Members(got, |got|) == Members(blobs, |blobs|) + parsed && |got| >= |blobs|
      ensures r.Ok? ==> metrics.tally == old(metrics.tally).Blobs(|got| - |blobs|, |got| - |blobs|, 0, parsed)
      ensures r.Raise? ==> got == blobs
      ensures r.Raise? && r.error.fault != MalformedEntry ==>
                && Kept(render, passed + [item]) == Kept(render, passed) + [item]
                && metrics.tally == old(metrics.tally).Blobs(1, 0, if Unaccounted(r.error.fault) then 0 else 1, 0)
    {
      got, parsed := blobs, 0;
      if !WellFormedEntry(item) {
        return Raise(AuditError(SchemaContractFailure, MalformedEntry)), got, parsed;
      }
      KeptStep(render, passed, item);
      SeenStep(render, passed, item);
      var contentId := IdOf(render, item);
      if contentId != "" && contentId in seen {
        return Ok((seen, out)), got, parsed;
      }
      ghost var asked := requests;
      var blob := FetchBlob(UriOf(render, item), metrics);
      if blob.Raise? {
        return Raise(blob.error), got, parsed;
      }
      FetchedStep(render, server, Kept(render, passed), blobs, out, item, blob.value, from, asked, requests);
      got, parsed := blobs + [blob.value], |blob.value|;
      r := Ok((if contentId != "" then seen + {contentId} else seen, out + [ContentOf(render, item, blob.value)]));
    }

    /** The entries of one page. `before` lists the entries of earlier pages, `tried` the entries
        whose blob has been asked for, `got` the blobs that arrived. */
    method FetchEntries(data: seq<Json>, ghost before: seq<Json>, seen: set<string>, out: seq<Content>,
                        ghost blobs: seq<seq<Json>>, metrics: Metrics, ghost from: nat)
      returns (r: Result<(set<string>, seq<Content>), AuditError>, ghost tried: seq<Json>, ghost got: seq<seq<Json>>,
               ghost k: nat, ghost parsed: nat)
      requires from <= requests
      requires seen == SeenIds(render, before)
      requires Fetched(render, server, Kept(render, before), blobs, out, from, requests)
      modifies this, metrics
      ensures old(requests) <= requests
      ensures k <= |data| && tried == Kept(render, before + data[..k])
      ensures r.Raise? && r.error.fault == MalformedEntry ==> exists item :: item in data && !WellFormedEntry(item)
      ensures r.Raise? && r.error.fault != MalformedEntry ==>
                && tried != [] && WellFormedEntry(tried[|tried| - 1])
                && FailsAt(UriOf(render, tried[|tried| - 1]), BlobNotArray, r.error, old(requests), requests)
      ensures r.Ok? ==> k == |data| && AllWellFormed(data)
      ensures r.Ok? ==> r.value.0 == SeenIds(render, before + data)
      ensures r.Ok? ==> Fetched(render, server, tried, got, r.value.1, from, requests)
      ensures Members(got, |got|) == Members(blobs, |blobs|) + parsed && |got| >= |blobs|
      ensures |tried| == |got| + if r.Raise? && r.error.fault != MalformedEntry then 1 else 0
      ensures metrics.tally == old(metrics.tally).Blobs(
                |tried| - |blobs|, |got| - |blobs|,
                if |tried| > |got| && !Unaccounted(r.error.fault) then 1 else 0, parsed)
    {
      hide Fetched, Kept, SeenIds, Members, WellFormedEntry;
      var seenBlobs, contents := seen, out;
      got, tried, k, parsed := blobs, Kept(render, before), 0, 0;
      ghost var was := metrics.tally;
      assert before + data[..0] == before;
      for i := 0 to |data|
        invariant k == i && tried == Kept(render, before + data[..i])
        invariant old(requests) <= requests
        invariant AllWellFormed(data[..i])
        invariant seenBlobs == SeenIds(render, before + data[..i])
        invariant Fetched(render, server, tried, got, contents, from, requests)
        invariant Members(got, |got|) == Members(blobs, |blobs|) + parsed && |got| >= |blobs|
        invariant metrics.tally == was.Blobs(|got| - |blobs|, |got| - |blobs|, 0, parsed)
      {
        ghost var passed := before + data[..i];
        PrefixStep(before, data, i);
        ghost var more;
        ghost var had, asked := got, requests;
        var entry;
        entry, got, more := FetchEntry(data[i], passed, seenBlobs, contents, got, metrics, from);
        parsed := parsed + more;
        FetchedSizes(render, server, tried, had, contents, from, asked);
        if entry.Raise? {
          if entry.error.fault != MalformedEntry {
            k := i + 1;
            tried := Kept(render, before + data[..k]);
          }
          return Raise(entry.error), tried, got, k, parsed;
        }
        seenBlobs, contents := entry.value.0, entry.value.1;
        k := i + 1;
        tried := Kept(render, before + data[..k]);
      }
      assert data[..|data|] == data;
      FetchedSizes(render, server, tried, got, contents, from, requests);
      r := Ok((seenBlobs, contents));
    }

    // What the loop over the pages keeps: everything listed so far has been fetched.
    ghost predicate Gathered(first: string, pages: seq<Page>, tried: seq<Json>, blobs: seq<seq<Json>>,
                             seen: set<string>, out: seq<Content>, from: nat, to: nat) {
      && Walk(server, first, pages, from, to)
      && tried == Kept(render, Listed(pages)) && seen == SeenIds(render, Listed(pages))
      && Fetched(render, server, tried, blobs, out, from, to)
    }

    // The pages were walked along, and what was asked for is the repeat-free front of what they list.
    ghost predicate FrontAsked(first: string, pages: seq<Page>, tried: seq<Json>, from: nat, to: nat) {
      Walk(server, first, pages, from, to) && exists k: nat ::
        k <= |Listed(pages)| && tried == Kept(render, Listed(pages)[..k])
    }

    /** One page and its entries. */
    method CollectPage(url: string, ghost first: string, ghost pages: seq<Page>, ghost tried: seq<Json>,
                       ghost blobs: seq<seq<Json>>, seen: set<string>, out: seq<Content>, metrics: Metrics,
                       ghost from: nat)
      returns (r: Result<(set<string>, seq<Content>, NextPage), AuditError>, ghost walked: seq<Page>,
               ghost asked: seq<Json>, ghost got: seq<seq<Json>>, ghost parsed: nat)
      requires from <= requests && Gathered(first, pages, tried, blobs, seen, out, from, requests)
      requires LeadsTo(pages, first, Next(url)) && url !in UrlsOf(pages)
      modifies this, metrics
      ensures old(requests) <= requests
      ensures r.Raise? ==> Explains(first, walked, asked, got, r.error, from, requests)
      ensures walked == pages || (|walked| == |pages| + 1 && UrlsOf(walked) == UrlsOf(pages) + {url})
      ensures r.Ok? ==>
                |walked| == |pages| + 1 && LeadsTo(walked, first, r.value.2) &&
                (r.value.2.Next? ==> r.value.2.url != "")
      ensures r.Ok? ==> Gathered(first, walked, asked, got, r.value.0, r.value.1, from, requests)
      ensures FrontAsked(first, walked, asked, from, requests)
      ensures Members(got, |got|) == Members(blobs, |blobs|) + parsed && |blobs| <= |got|
      ensures |tried| <= |asked| && |asked| - |tried| - (|got| - |blobs|) in {0, 1}
      ensures (r.Ok? ==> |asked| - |tried| == |got| - |blobs|)
      ensures metrics.tally == old(metrics.tally).Pages(|walked| - |pages|).Blobs(
                |asked| - |tried|, |got| - |blobs|,
                if |asked| - |tried| > |got| - |blobs| && !Unaccounted(r.error.fault) then 1 else 0, parsed)
    {
      hide Fetched, Walk, Kept, Members, NextOf, AllWellFormed, Listed, SeenIds, UrlsOf, Explains, FailsAt,
        WellFormedEntry, UriOf;
      walked, asked, got, parsed := pages, tried, blobs, 0;
      ghost var before := Listed(pages);
      assert before[..|before|] == before;
      FetchedSizes(render, server, tried, blobs, out, from, requests);
      ghost var started := requests;
      var reply := FetchPage(url, metrics);
      WalkLater(server, first, pages, from, started, requests);
      if reply.Raise? {
        PageFails(first, pages, tried, blobs, url, reply.error, from, started, requests);
        return Raise(reply.error), walked, asked, got, parsed;
      }
      var data := reply.value;
      FetchedLater(render, server, tried, blobs, out, from, started, requests);
      ServedEarlier(server, url, Arr(data), from, started, requests);
      WalkExtends(server, first, pages, Page(url, data), Next(url), from, requests);
      walked := pages + [Page(url, data)];
      ghost var served := requests;
      ghost var k: nat;
      var fetched;
      fetched, asked, got, k, parsed := FetchEntries(data, before, seen, out, blobs, metrics, from);
      WalkLater(server, first, walked, from, served, requests);
      FrontOfPage(before, data, k);
      if fetched.Raise? {
        EntriesFail(first, walked, asked, got, fetched.error, from, served, requests);
        return Raise(fetched.error), walked, asked, got, parsed;
      }
      FetchedSizes(render, server, asked, got, fetched.value.1, from, requests);
      r := Ok((fetched.value.0, fetched.value.1, NextOf(data)));
    }

    /** All content of one window. `pages` are the listing pages fetched, `tried` the entries whose
        blob was asked for and `blobs` what arrived, whether or not the call returns normally. */
    method Collect(start: int, end: int, metrics: Metrics)
      returns (r: Result<seq<Content>, AuditError>, ghost pages: seq<Page>, ghost tried: seq<Json>,
               ghost blobs: seq<seq<Json>>, ghost parsed: nat)
      modifies this, metrics
      ensures end <= start ==> r == Raise(AuditError(SchemaContractFailure, InvalidWindow)) && pages == []
      ensures old(requests) <= requests
      // It raises only for cause; so a listing that can be read is read.
      ensures r.Raise? && start < end ==>
                Explains(ListingUrl(start, end), pages, tried, blobs, r.error, old(requests), requests)
      ensures start < end && ReadableAt(ListingUrl(start, end)) ==> r.Ok?
      // No page twice, at most maxPages of them, and no non-empty content id twice, whatever the server answers.
      ensures |pages| <= Max(0, maxPages)
      ensures FrontAsked(ListingUrl(start, end), pages, tried, old(requests), requests)
      // A normal return has followed the listing to its end and fetched all of it, in order.
      ensures r.Ok? ==>
                pages != [] && AllWellFormed(pages[|pages| - 1].data) && NextOf(pages[|pages| - 1].data) == NoNext
      ensures r.Ok? ==> tried == Kept(render, Listed(pages))
      ensures r.Ok? ==> Fetched(render, server, tried, blobs, r.value, old(requests), requests)
      // Every entry asked for is counted once, and as succeeded or failed unless the blob that ended
      // the call was not an array or could not be asked for without a token.
      ensures |blobs| <= |tried| <= |blobs| + 1 && (r.Ok? ==> |tried| == |blobs| == |r.value|)
      ensures metrics.tally == old(metrics.tally).Pages(|pages|).Blobs(
                |tried|, |blobs|, if |tried| > |blobs| && !Unaccounted(r.error.fault) then 1 else 0, parsed)
      ensures parsed == Members(blobs, |blobs|)
    {
      hide Gathered, LeadsTo, Transport.ListingUrl, Explains, ReadableAs, ReadableAt, Walk, Kept, Members, NextOf,
        AllWellFormed, Listed, SeenIds, UrlsOf, Fetched, FrontAsked;
      pages, tried, blobs, parsed := [], [], [], 0;
      ghost var first := ListingUrl(start, end);
      Begin(start, end, requests);
      if end <= start {
        return Raise(AuditError(SchemaContractFailure, InvalidWindow)), pages, tried, blobs, parsed;
      }
      var url := Next(ListingUrl(start, end));
      var out: seq<Content> := [];
      var seenPages: set<string> := {};
      var seenBlobs: set<string> := {};
      ghost var from := requests;
      ghost var was := metrics.tally;
      while url.Next? && url.url != ""
        invariant from <= requests
        invariant !url.BadNext? && (url.Next? ==> url.url != "")
        invariant |pages| == |seenPages| <= Max(0, maxPages)
        invariant seenPages == UrlsOf(pages)
        invariant Gathered(first, pages, tried, blobs, seenBlobs, out, from, requests)
        invariant FrontAsked(first, pages, tried, from, requests)
        invariant LeadsTo(pages, first, url)
        invariant |tried| == |blobs| && metrics.tally == was.Pages(|pages|).Blobs(|tried|, |tried|, 0, parsed)
        invariant parsed == Members(blobs, |blobs|)
        decreases Max(0, maxPages) - |seenPages|
      {
        if url.url in seenPages {
          var cyclic := AuditError(SchemaContractFailure, CyclicNextPage);
          PagingFails(first, pages, tried, blobs, url, cyclic, from, requests);
          return Raise(cyclic), pages, tried, blobs, parsed;
        }
        if |seenPages| >= maxPages {
          var bounded := AuditError(SourceFailure, PageBoundExceeded);
          PagingFails(first, pages, tried, blobs, url, bounded, from, requests);
          return Raise(bounded), pages, tried, blobs, parsed;
        }
        seenPages := seenPages + {url.url};
        ghost var more;
        var page;
        page, pages, tried, blobs, more := CollectPage(url.url, first, pages, tried, blobs, seenBlobs, out, metrics,
                                                       from);
        parsed := parsed + more;
        if page.Raise? {
          Unreadable(first, pages, tried, blobs, page.error, from, requests);
          return Raise(page.error), pages, tried, blobs, parsed;
        }
        seenBlobs, out, url := page.value.0, page.value.1, page.value.2;
        if url.BadNext? {
          var malformed := AuditError(SchemaContractFailure, MalformedNextPage);
          PagingFails(first, pages, tried, blobs, url, malformed, from, requests);
          return Raise(malformed), pages, tried, blobs, parsed;
        }
      }
      AllGathered(first, pages, tried, blobs, seenBlobs, out, from, requests);
      r := Ok(out);
    }

    lemma FaultOfRequest(url: string, notArray: Fault, error: AuditError, from: nat, asked: nat, to: nat)
      requires FailsAt(url, notArray, error, asked, to) && from <= asked
      ensures FailsAt(url, notArray, error, from, to)
      ensures error.fault in {notArray, UrlRejected, RequestFailed, RetriesSpent, TokenUnavailable}
    {
    }

    lemma PageFails(first: string, pages: seq<Page>, tried: seq<Json>, blobs: seq<seq<Json>>, url: string,
                    error: AuditError, from: nat, asked: nat, to: nat)
      requires |tried| == |blobs| && LeadsTo(pages, first, Next(url)) && from <= asked
      requires FailsAt(url, ListingNotArray, error, asked, to)
      ensures Explains(first, pages, tried, blobs, error, from, to)
    {
      hide FailsAt, LeadsTo;
      FaultOfRequest(url, ListingNotArray, error, from, asked, to);
    }

    // Why the entries of the last page could not all be had.
    lemma EntriesFail(first: string, pages: seq<Page>, tried: seq<Json>, blobs: seq<seq<Json>>, error: AuditError,
                      from: nat, asked: nat, to: nat)
      requires pages != [] && from <= asked
      requires if error.fault == MalformedEntry
               then exists item :: item in pages[|pages| - 1].data && !WellFormedEntry(item)
               else && |tried| > |blobs| && WellFormedEntry(tried[|tried| - 1])
                    && FailsAt(UriOf(render, tried[|tried| - 1]), BlobNotArray, error, asked, to)
      ensures Explains(first, pages, tried, blobs, error, from, to)
    {
      hide FailsAt, LeadsTo, WellFormedEntry, UriOf;
      if error.fault == MalformedEntry {
        var item :| item in pages[|pages| - 1].data && !WellFormedEntry(item);
        assert item in Listed(pages);
      } else {
        FaultOfRequest(UriOf(render, tried[|tried| - 1]), BlobNotArray, error, from, asked, to);
      }
    }

    // Why the loop over the pages stops short.
    lemma PagingFails(first: string, pages: seq<Page>, tried: seq<Json>, blobs: seq<seq<Json>>, url: NextPage,
                      error: AuditError, from: nat, to: nat)
      requires FrontAsked(first, pages, tried, from, to) && LeadsTo(pages, first, url) && !url.NoNext?
      requires error.fault == (if url.BadNext? then MalformedNextPage
                               else if url.url in UrlsOf(pages) then CyclicNextPage else PageBoundExceeded)
      requires error.fault == PageBoundExceeded ==> |pages| == Max(0, maxPages)
      ensures Explains(first, pages, tried, blobs, error, from, to) && !ReadableAt(first)
    {
      hide FrontAsked, ReadableAt;
      assert Explains(first, pages, tried, blobs, error, from, to);
      Unreadable(first, pages, tried, blobs, error, from, to);
    }

    lemma Unreadable(first: string, pages: seq<Page>, tried: seq<Json>, blobs: seq<seq<Json>>, error: AuditError,
                     from: nat, to: nat)
      requires FrontAsked(first, pages, tried, from, to) && Explains(first, pages, tried, blobs, error, from, to)
      ensures !ReadableAt(first)
    {
      hide ReadableAs, Explains, Walk, Kept, Listed;
      if ReadableAt(first) {
        var chain: seq<Page> :| ReadableAs(chain) && chain != [] && chain[0].url == first;
        NothingExplains(chain, pages, tried, blobs, error, from, to);
      }
    }

    // A walk over a listing that can be read goes along its pages.
    lemma {:induction false} WalksAlong(chain: seq<Page>, pages: seq<Page>, from: nat, to: nat, i: nat)
      requires ReadableAs(chain) && Walk(server, chain[0].url, pages, from, to) && i < |pages|
      ensures i < |chain| && pages[i] == chain[i]
    {
      hide AllWellFormed, NextOf, Steady;
      if i > 0 {
        WalksAlong(chain, pages, from, to, i - 1);
        assert NextOf(pages[i - 1].data) == Next(pages[i - 1 + 1].url);
        assert i < |chain| ==> NextOf(chain[i - 1].data) == Next(chain[i - 1 + 1].url);
      }
      assert Served(server, pages[i].url, Arr(pages[i].data), from, to);
    }

    lemma AnswersDoNotFail(url: string, data: seq<Json>, notArray: Fault, error: AuditError, from: nat, to: nat)
      requires Answers(url, Arr(data))
      ensures !FailsAt(url, notArray, error, from, to)
    {
    }

    /** Reading such a listing ends in no error at all. */
    lemma NothingExplains(chain: seq<Page>, pages: seq<Page>, tried: seq<Json>, blobs: seq<seq<Json>>,
                          error: AuditError, from: nat, to: nat)
      requires ReadableAs(chain) && Walk(server, chain[0].url, pages, from, to)
      requires exists k: nat :: k <= |Listed(pages)| && tried == Kept(render, Listed(pages)[..k])
      ensures !Explains(chain[0].url, pages, tried, blobs, error, from, to)
    {
      hide AllWellFormed, NextOf, Served, FailsAt, Answers, Kept, Listed, WellFormedEntry, UrlsOf;
      forall i | 0 <= i < |pages|
        ensures i < |chain| && pages[i] == chain[i]
      {
        WalksAlong(chain, pages, from, to, i);
      }
      forall url | LeadsTo(pages, chain[0].url, url)
        ensures if |pages| == |chain| then url == NoNext else url == Next(chain[|pages|].url)
      {
        if pages != [] && |pages| < |chain| {
          assert NextOf(chain[|pages| - 1].data) == Next(chain[|pages| - 1 + 1].url);
        }
      }
      forall item | item in Listed(pages)
        ensures Steady(item)
      {
        var i := InListed(pages, item);
      }
      if |pages| < |chain| {
        var next := chain[|pages|];
        UrlsIff(pages, next.url);
        assert next.url !in UrlsOf(pages);
        AnswersDoNotFail(next.url, next.data, ListingNotArray, error, from, to);
      }
      if tried != [] {
        var k: nat :| k <= |Listed(pages)| && tried == Kept(render, Listed(pages)[..k]);
        var item := tried[|tried| - 1];
        KeptListed(render, Listed(pages)[..k], item);
        assert Steady(item);
        var blob: seq<Json> :| Answers(UriOf(render, item), Arr(blob));
        AnswersDoNotFail(UriOf(render, item), blob, BlobNotArray, error, from, to);
      }
    }

    lemma Begin(start: int, end: int, now: nat)
      ensures var first := ListingUrl(start, end);
              first != "" && LeadsTo([], first, Next(first)) && Gathered(first, [], [], [], {}, [], now, now) &&
                FrontAsked(first, [], [], now, now)
      ensures UrlsOf([]) == {} && Members([], 0) == 0
    {
      Start(render, server, ListingUrl(start, end), now);
      assert Listed([])[..0] == [];
    }

    lemma AllGathered(first: string, pages: seq<Page>, tried: seq<Json>, blobs: seq<seq<Json>>, seen: set<string>,
                      out: seq<Content>, from: nat, to: nat)
      requires Gathered(first, pages, tried, blobs, seen, out, from, to) && LeadsTo(pages, first, NoNext)
      ensures pages != [] && AllWellFormed(pages[|pages| - 1].data) && NextOf(pages[|pages| - 1].data) == NoNext
      ensures tried == Kept(render, Listed(pages)) && Fetched(render, server, tried, blobs, out, from, to)
      ensures |out| == |blobs|
    {
    }

    method FetchPage(url: string, metrics: Metrics) returns (r: Result<seq<Json>, AuditError>)
      modifies this, metrics
      ensures old(requests) <= requests
      ensures r.Raise? ==> FailsAt(url, ListingNotArray, r.error, old(requests), requests)
      ensures r.Ok? ==> Served(server, url, Arr(r.value), old(requests), requests)
      ensures metrics.tally == old(metrics.tally).Pages(if r.Ok? then 1 else 0)
    {
      var asked := requests;
      var reply := Get(url);
      if reply.Raise? {
        return Raise(reply.error);
      }
      AnsweredOutcome(server, policy.maxRetries, url, asked, requests, reply);
      if !reply.value.Arr? {
        return Raise(AuditError(SchemaContractFailure, ListingNotArray));
      }
      metrics.tally := metrics.tally.Pages(1);
      r := Ok(reply.value.items);
    }
  }
}
