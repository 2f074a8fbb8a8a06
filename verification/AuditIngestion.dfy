/** One run of the OneDrive audit collector: checkpoint, windows, listing, filter, and the two commits
    (collectors/onedrive_audit.py). */
module AuditIngestion {
  import opened Basics
  import opened Connections
  import opened Retry
  import opened AuditWindows
  import opened AuditTransport
  import opened AuditRecords
  import opened AuditStore
  import opened Checkpoints

  datatype Request = Request(
    stamp: Stamp, start: int, end: int, overlap: int, maxWindow: int, initialLookback: int, dryRun: bool)
  {
    predicate BoundsOk() {
      0 <= overlap <= maxWindow && 0 < initialLookback <= maxWindow
    }

    // What is asked for is well formed, and there is a span to read.
    predicate Runnable(checkpoint: Option<int>) {
      BoundsOk() && EffectiveStart(checkpoint) < end && stamp.tenant > 0 && stamp.validTime(stamp.collectedAt)
    }

    // A stored checkpoint is backed off by the overlap; a first run reaches back a bounded time.
    function EffectiveStart(checkpoint: Option<int>): int {
      match checkpoint
      case Some(at) => at - overlap
      case None => if end - start > initialLookback then end - initialLookback else start
    }
  }

  datatype Report = Report(
    normalized: nat, dropped: nat, onedriveRecords: nat, inserted: nat, duplicateSkips: nat,
    checkpointBefore: Option<int>, effectiveStart: int, checkpointProposed: int,
    checkpointAfter: Option<int>, advanced: bool)

  // What one window's listing and blobs were.
  datatype Trace = Trace(pages: seq<Page>, tried: seq<Json>, blobs: seq<seq<Json>>)

  /** `out` is the complete content of the listing at `first`: the pages form an unbroken chain to the
      end, and each entry, repeats aside, gave one content. */
  ghost predicate Complete(render: Json -> string, server: Server, first: string, t: Trace, out: seq<Content>,
                           from: nat, to: nat) {
    && Walk(server, first, t.pages, from, to)
    && t.pages != [] && t.pages[0].url == first
    && AllWellFormed(t.pages[|t.pages| - 1].data) && NextOf(t.pages[|t.pages| - 1].data) == NoNext
    && t.tried == Kept(render, Listed(t.pages))
    && Fetched(render, server, t.tried, t.blobs, out, from, to)
  }

  ghost predicate CompleteAll(transport: Transport, ws: seq<Window>, traces: seq<Trace>, contents: seq<seq<Content>>,
                              from: nat, to: nat) {
    && |ws| == |traces| == |contents|
    && forall i | 0 <= i < |ws| ::
         Complete(transport.render, transport.server, transport.ListingUrl(ws[i].0, ws[i].1), traces[i], contents[i],
                  from, to)
  }

  function Flatten<T>(parts: seq<seq<T>>): seq<T> {
    if parts == [] then [] else Flatten(parts[..|parts| - 1]) + parts[|parts| - 1]
  }

  lemma {:induction false} InFlatten<T>(parts: seq<seq<T>>, x: T)
    ensures x in Flatten(parts) <==> exists i :: 0 <= i < |parts| && x in parts[i]
  {
    if parts != [] {
      var n := |parts| - 1;
      InFlatten(parts[..n], x);
      assert forall i | 0 <= i < n :: parts[..n][i] == parts[i];
    }
  }

  function RecordsOf(contents: seq<Content>): seq<Json> {
    if contents == [] then [] else RecordsOf(contents[..|contents| - 1]) + contents[|contents| - 1].records
  }

  lemma {:induction false} InRecordsOf(contents: seq<Content>, x: Json)
    ensures x in RecordsOf(contents) <==> exists i :: 0 <= i < |contents| && x in contents[i].records
  {
    if contents != [] {
      var n := |contents| - 1;
      InRecordsOf(contents[..n], x);
      assert forall i | 0 <= i < n :: contents[..n][i] == contents[i];
    }
  }

  ghost predicate AllRecordsAreObjects(contents: seq<Content>) {
    forall i, j | 0 <= i < |contents| && 0 <= j < |contents[i].records| :: contents[i].records[j].Obj?
  }

  lemma {:induction false} RecordsAreObjects(contents: seq<Content>)
    requires AllRecordsAreObjects(contents)
    ensures forall j | 0 <= j < |RecordsOf(contents)| :: RecordsOf(contents)[j].Obj?
  {
    if contents != [] {
      assert forall i | 0 <= i < |contents| - 1 :: contents[..|contents| - 1][i] == contents[i];
      RecordsAreObjects(contents[..|contents| - 1]);
    }
  }

  lemma FetchedAreObjects(render: Json -> string, server: Server, entries: seq<Json>, blobs: seq<seq<Json>>,
                          out: seq<Content>, from: nat, to: nat)
    requires Fetched(render, server, entries, blobs, out, from, to)
    ensures AllRecordsAreObjects(out)
  {
    forall i, j | 0 <= i < |out| && 0 <= j < |out[i].records|
      ensures out[i].records[j].Obj?
    {
      MappingsKeepObjects(blobs[i], out[i].records[j]);
    }
  }

  lemma WindowDone(transport: Transport, ws: seq<Window>, traces: seq<Trace>, parts: seq<seq<Content>>, w: Window,
                   t: Trace, out: seq<Content>, from: nat, asked: nat, to: nat)
    requires CompleteAll(transport, ws, traces, parts, from, asked) && from <= asked <= to
    requires Complete(transport.render, transport.server, transport.ListingUrl(w.0, w.1), t, out, asked, to)
    requires AllRecordsAreObjects(Flatten(parts))
    ensures CompleteAll(transport, ws + [w], traces + [t], parts + [out], from, to)
    ensures Flatten(parts + [out]) == Flatten(parts) + out && AllRecordsAreObjects(Flatten(parts + [out]))
  {
    hide Walk, Fetched, Kept, Listed, NextOf, AllWellFormed;
    FetchedAreObjects(transport.render, transport.server, t.tried, t.blobs, out, asked, to);
    assert (parts + [out])[..|parts|] == parts;
    forall i | 0 <= i < |ws| + 1
      ensures Complete(transport.render, transport.server, transport.ListingUrl((ws + [w])[i].0, (ws + [w])[i].1),
                       (traces + [t])[i], (parts + [out])[i], from, to)
    {
      if i < |ws| {
        CompleteWithin(transport, transport.ListingUrl(ws[i].0, ws[i].1), traces[i], parts[i], from, asked, from, to);
      } else {
        CompleteWithin(transport, transport.ListingUrl(w.0, w.1), t, out, asked, to, from, to);
      }
    }
  }

  lemma CompleteWithin(transport: Transport, first: string, t: Trace, out: seq<Content>, a: nat, b: nat, from: nat,
                       to: nat)
    requires Complete(transport.render, transport.server, first, t, out, a, b) && from <= a && b <= to
    ensures Complete(transport.render, transport.server, first, t, out, from, to)
  {
    hide Kept, Listed, NextOf, AllWellFormed;
    forall i | 0 <= i < |t.pages|
      ensures Served(transport.server, t.pages[i].url, Arr(t.pages[i].data), from, to)
    {
      assert Served(transport.server, t.pages[i].url, Arr(t.pages[i].data), a, b);
    }
    forall i | 0 <= i < |out|
      ensures Served(transport.server, UriOf(transport.render, t.tried[i]), Arr(t.blobs[i]), from, to)
    {
      assert Served(transport.server, UriOf(transport.render, t.tried[i]), Arr(t.blobs[i]), a, b);
    }
  }

  // Every listing can be read at any time.
  ghost predicate Readable(transport: Transport) {
    forall lo, hi | lo < hi :: transport.ReadableAt(transport.ListingUrl(lo, hi))
  }

  /** A listing of some window of the span could not be read to its end, and `error` says why. */
  ghost predicate Unreadable(transport: Transport, error: AuditError, lo: int, hi: int, from: nat, to: nat) {
    exists w: Window, t: Trace, asked: nat :: lo <= w.0 && w.0 < w.1 && w.1 <= hi && from <= asked &&
      BreaksOff(transport, w, t, error, asked, to)
  }

  ghost predicate BreaksOff(transport: Transport, w: Window, t: Trace, error: AuditError, from: nat, to: nat) {
    var first := transport.ListingUrl(w.0, w.1);
    && transport.FrontAsked(first, t.pages, t.tried, from, to)
    && transport.Explains(first, t.pages, t.tried, t.blobs, error, from, to)
  }

  /** One more window after the windows `ws`. */
  method GatherWindow(transport: Transport, w: Window, contents: seq<Content>, metrics: Metrics,
                      ghost ws: seq<Window>, ghost traces: seq<Trace>, ghost parts: seq<seq<Content>>, ghost from: nat)
    returns (r: Result<seq<Content>, AuditError>, ghost traces': seq<Trace>, ghost parts': seq<seq<Content>>)
    requires from <= transport.requests
    requires CompleteAll(transport, ws, traces, parts, from, transport.requests)
    requires contents == Flatten(parts) && AllRecordsAreObjects(contents)
    modifies transport, metrics
    ensures from <= transport.requests
    ensures r.Ok? ==> CompleteAll(transport, ws + [w], traces', parts', from, transport.requests)
    ensures r.Ok? ==> r.value == Flatten(parts') && AllRecordsAreObjects(r.value)
    ensures metrics.tally.windows == old(metrics.tally.windows) + 1
    ensures r.Raise? && w.0 < w.1 ==>
              exists t, asked: nat | from <= asked :: BreaksOff(transport, w, t, r.error, asked, transport.requests)
    ensures w.0 < w.1 && transport.ReadableAt(transport.ListingUrl(w.0, w.1)) ==> r.Ok?
  {
    hide Walk, Fetched, Kept, Listed, NextOf, AllWellFormed, CompleteAll, AllRecordsAreObjects, Flatten, Members;
    metrics.tally := metrics.tally.Windows(1);
    ghost var asked := transport.requests;
    ghost var pages, tried, blobs, parsed;
    var collected;
    collected, pages, tried, blobs, parsed := transport.Collect(w.0, w.1, metrics);
    ghost var t := Trace(pages, tried, blobs);
    traces', parts' := traces + [t], parts;
    if collected.Raise? {
      assert w.0 < w.1 ==> BreaksOff(transport, w, t, collected.error, asked, transport.requests);
      return Raise(collected.error), traces', parts';
    }
    CollectedIsComplete(transport, transport.ListingUrl(w.0, w.1), t, collected.value, asked, transport.requests);
    WindowDone(transport, ws, traces, parts, w, t, collected.value, from, asked, transport.requests);
    parts' := parts + [collected.value];
    r := Ok(contents + collected.value);
  }

  /** Everything the run would write, before any of it is written: the complete content of windows that
      tile the whole span. */
  method Gather(transport: Transport, start: int, end: int, maxWindow: int, metrics: Metrics)
    returns (r: Result<seq<Content>, AuditError>, ghost ws: seq<Window>, ghost traces: seq<Trace>,
             ghost parts: seq<seq<Content>>)
    modifies transport, metrics
    ensures old(transport.requests) <= transport.requests
    ensures r.Ok? ==> Tiles(ws, start, end, maxWindow)
    ensures r.Ok? ==> CompleteAll(transport, ws, traces, parts, old(transport.requests), transport.requests)
    ensures r.Ok? ==> r.value == Flatten(parts) && AllRecordsAreObjects(r.value)
    ensures r.Ok? ==> metrics.tally.windows == old(metrics.tally.windows) + |ws|
    ensures r.Raise? ==>
              if start < end && maxWindow > 0
              then Unreadable(transport, r.error, start, end, old(transport.requests), transport.requests)
              else r.error == AuditError(SchemaContractFailure, Fault.InvalidWindow)
    ensures start < end && maxWindow > 0 && Readable(transport) ==> r.Ok?
  {
    hide Tiles, CompleteAll, AllRecordsAreObjects, Flatten;
    ws, traces, parts := [], [], [];
    var windows := BoundedWindows(start, end, maxWindow);
    if windows.Raise? {
      return Raise(AuditError(SchemaContractFailure, Fault.InvalidWindow)), ws, traces, parts;
    }
    ws := windows.value;
    r := Ok([]);
    ghost var from := transport.requests;
    NothingGathered(transport, from);
    assert ws[..0] == [];
    for i := 0 to |windows.value|
      invariant from <= transport.requests && r.Ok?
      invariant CompleteAll(transport, ws[..i], traces, parts, from, transport.requests)
      invariant r.value == Flatten(parts) && AllRecordsAreObjects(r.value)
      invariant metrics.tally.windows == old(metrics.tally.windows) + i
    {
      assert ws[..i + 1] == ws[..i] + [ws[i]];
      WindowNotEmpty(ws, start, end, maxWindow, i);
      r, traces, parts := GatherWindow(transport, windows.value[i], r.value, metrics, ws[..i], traces, parts, from);
      if r.Raise? {
        WindowsWithin(ws, start, end, maxWindow, i);
        return;
      }
    }
    assert ws[..|ws|] == ws;
  }

  lemma WindowNotEmpty(ws: seq<Window>, start: int, end: int, maximum: int, i: nat)
    requires Tiles(ws, start, end, maximum) && i < |ws|
    ensures ws[i].0 < ws[i].1
  {
  }

  lemma NothingGathered(transport: Transport, now: nat)
    ensures CompleteAll(transport, [], [], [], now, now) && Flatten<Content>([]) == [] && AllRecordsAreObjects([])
  {
  }

  lemma CollectedIsComplete(transport: Transport, first: string, t: Trace, out: seq<Content>, from: nat, to: nat)
    requires Walk(transport.server, first, t.pages, from, to)
    requires t.pages != [] && AllWellFormed(t.pages[|t.pages| - 1].data)
    requires NextOf(t.pages[|t.pages| - 1].data) == NoNext
    requires t.tried == Kept(transport.render, Listed(t.pages))
    requires Fetched(transport.render, transport.server, t.tried, t.blobs, out, from, to)
    ensures Complete(transport.render, transport.server, first, t, out, from, to)
  {
  }

  // ---- The source behind the listing --------------------------------------------------------

  /** A content blob as the service holds it: when it was listed, when it could first be retrieved. */
  datatype SourceBlob = SourceBlob(id: string, listed: int, available: int, records: seq<Json>)

  /** The blobs behind the service: those it is bound to show in due time, and all it may ever show. */
  datatype Source = Source(shown: set<SourceBlob>, held: iset<SourceBlob>)

  // A listing read to its end shows the blob if it is of the window and already available at `now`.
  ghost predicate Shows(transport: Transport, b: SourceBlob, now: int, lo: int, hi: int, t: Trace) {
    lo <= b.listed < hi && b.available <= now ==>
      exists item :: item in Listed(t.pages) && IdOf(transport.render, item) == b.id
  }

  // Each entry of the listing that names the blob leads to its records.
  ghost predicate LeadsToBlob(transport: Transport, b: SourceBlob, t: Trace, from: nat, to: nat) {
    forall item, blob | item in Listed(t.pages) && WellFormedEntry(item) && IdOf(transport.render, item) == b.id &&
                        Served(transport.server, UriOf(transport.render, item), Arr(blob), from, to) ::
      blob == b.records
  }

  /** What the service promises about the answers it gives in requests `from` to `to`. Nothing is assumed
      about order, paging, repeats or anything else shown, and nothing at all of a listing not read to its end. */
  ghost predicate Faithful(transport: Transport, source: set<SourceBlob>, now: int, from: nat, to: nat) {
    && (forall b | b in source :: b.id != "")
    && (forall b, lo: int, hi: int, t: Trace, out: seq<Content> |
          b in source && Complete(transport.render, transport.server, transport.ListingUrl(lo, hi), t, out, from, to) ::
            Shows(transport, b, now, lo, hi, t) && LeadsToBlob(transport, b, t, from, to))
  }

  /** The converse: whatever blob is had of an entry listed for a window is one of `held`, listed in that window. */
  ghost predicate Honest(transport: Transport, held: iset<SourceBlob>, from: nat, to: nat) {
    forall lo: int, hi: int, t: Trace, out: seq<Content>, i: nat |
      && lo < hi && i < |t.blobs|
      && Complete(transport.render, transport.server, transport.ListingUrl(lo, hi), t, out, from, to) ::
        HeldIn(held, t.blobs[i], lo, hi)
  }

  ghost predicate HeldIn(held: iset<SourceBlob>, records: seq<Json>, lo: int, hi: int) {
    exists b :: b in held && lo <= b.listed < hi && b.records == records
  }

  /** Where nothing is known of the service, anything may be held. */
  lemma AnythingMayBeHeld(transport: Transport, held: iset<SourceBlob>, from: nat, to: nat)
    requires forall b: SourceBlob :: b in held
    ensures Honest(transport, held, from, to)
  {
    hide Complete;
    forall lo: int, hi: int, t: Trace, out: seq<Content>, i: nat |
      && lo < hi && i < |t.blobs|
      && Complete(transport.render, transport.server, transport.ListingUrl(lo, hi), t, out, from, to)
      ensures HeldIn(held, t.blobs[i], lo, hi)
    {
      assert SourceBlob("", lo, lo, t.blobs[i]) in held;
    }
  }

  /** Such a service: every listing is one page, of well-formed entries and of all that is available, and
      every entry's content is the blob it names. */
  lemma OnePageServiceIsFaithful(transport: Transport, source: set<SourceBlob>, now: int,
                                 listing: (int, int) -> seq<Json>, from: nat, to: nat)
    requires forall b | b in source :: b.id != ""
    requires forall n: nat, lo, hi ::
              transport.server(n, transport.ListingUrl(lo, hi)) == Response(200, None, Some(Arr(listing(lo, hi))))
    requires forall lo, hi, item | item in listing(lo, hi) ::
              WellFormedEntry(item) && Get(item.fields, "nextPageUri") == Null
    requires forall b, lo, hi | b in source && lo <= b.listed < hi && b.available <= now ::
               exists item :: item in listing(lo, hi) && IdOf(transport.render, item) == b.id
    requires forall b, lo, hi, item, n: nat | b in source && item in listing(lo, hi) &&
              IdOf(transport.render, item) == b.id ::
               transport.server(n, UriOf(transport.render, item)) == Response(200, None, Some(Arr(b.records)))
    ensures Faithful(transport, source, now, from, to)
  {
    hide Complete, IdOf, UriOf, Truthy;
    forall b, lo: int, hi: int, t: Trace, out: seq<Content> |
      b in source && Complete(transport.render, transport.server, transport.ListingUrl(lo, hi), t, out, from, to)
      ensures Shows(transport, b, now, lo, hi, t) && LeadsToBlob(transport, b, t, from, to)
    {
      var data := listing(lo, hi);
      if data != [] { assert data[0] in listing(lo, hi) && WellFormedEntry(data[0]); }
      OnePage(transport, data, lo, hi, t, out, from, to);
    }
  }

  lemma OnePage(transport: Transport, data: seq<Json>, lo: int, hi: int, t: Trace, out: seq<Content>, from: nat,
                to: nat)
    requires forall n: nat :: transport.server(n, transport.ListingUrl(lo, hi)) == Response(200, None, Some(Arr(data)))
    requires data != [] ==> data[0].Obj? && Get(data[0].fields, "nextPageUri") == Null
    requires Complete(transport.render, transport.server, transport.ListingUrl(lo, hi), t, out, from, to)
    ensures Listed(t.pages) == data
  {
    hide Fetched, Kept;
    var page := t.pages[0];
    assert Served(transport.server, page.url, Arr(page.data), from, to);
    assert page.data == data;
    FirstLeadsOn(t.pages);
    assert t.pages[..0] == [] && Listed([]) == [];
  }

  lemma FirstLeadsOn(pages: seq<Page>)
    requires Linked(pages)
    ensures |pages| > 1 ==> AllWellFormed(pages[0].data) && NextOf(pages[0].data).Next?
  {
    if |pages| > 1 { assert NextOf(pages[0].data) == Next(pages[0 + 1].url); }
  }

  /** Duplicates in the listing lose nothing: a visible blob's records are in the window's content. */
  lemma WindowShowsBlob(transport: Transport, source: set<SourceBlob>, now: int, lo: int, hi: int, t: Trace,
                        out: seq<Content>, b: SourceBlob, from: nat, to: nat)
    returns (i: nat)
    requires Faithful(transport, source, now, from, to) && b in source && lo <= b.listed < hi && b.available <= now
    requires Complete(transport.render, transport.server, transport.ListingUrl(lo, hi), t, out, from, to)
    ensures i < |out| && out[i].records == Mappings(b.records)
  {
    hide Kept, Listed, Walk, Served, IdOf, UriOf, Truthy, NextOf, AllWellFormed;
    assert Shows(transport, b, now, lo, hi, t) && LeadsToBlob(transport, b, t, from, to);
    var item :| item in Listed(t.pages) && IdOf(transport.render, item) == b.id;
    KeptCovers(transport.render, Listed(t.pages), item);
    var k :| k in Kept(transport.render, Listed(t.pages)) && IdOf(transport.render, k) == b.id;
    KeptListed(transport.render, Listed(t.pages), k);
    i :| 0 <= i < |t.tried| && t.tried[i] == k;
    assert Fetches(transport.render, transport.server, t.tried[i], t.blobs[i], out[i], from, to);
  }

  /** Every high-value record of every blob listed in the span and available by `now` has a row. */
  ghost predicate Covers(source: set<SourceBlob>, tenant: int, validTime: string -> bool, lo: int, hi: int, now: int,
                         rows: seq<Row>) {
    forall b, record | b in source && lo <= b.listed < hi && b.available <= now && HighValueIn(b, record, validTime) ::
      exists i :: 0 <= i < |rows| && KeyOf(rows[i]) == RecordKey(tenant, record)
  }

  ghost predicate HighValueIn(b: SourceBlob, record: Json, validTime: string -> bool) {
    record in b.records && record.Obj? && HighValue(record.fields, validTime)
  }

  function RecordKey(tenant: int, record: Json): Key
    requires record.Obj?
  {
    (Num(tenant), Get(record.fields, "Id"))
  }

  lemma GatheredCovers(transport: Transport, source: set<SourceBlob>, stamp: Stamp, lo: int, hi: int, maximum: int,
                       ws: seq<Window>, traces: seq<Trace>, parts: seq<seq<Content>>, rows: seq<Row>, from: nat,
                       to: nat)
    requires Tiles(ws, lo, hi, maximum) && CompleteAll(transport, ws, traces, parts, from, to)
    requires Faithful(transport, source, hi, from, to)
    requires AllRecordsAreObjects(Flatten(parts))
    requires (forall j | 0 <= j < |RecordsOf(Flatten(parts))| :: RecordsOf(Flatten(parts))[j].Obj?)
    requires NormalizeAll(RecordsOf(Flatten(parts)), stamp) == Ok(rows)
    ensures Covers(source, stamp.tenant, stamp.validTime, lo, hi, hi, rows)
  {
    var records := RecordsOf(Flatten(parts));
    forall b, record | b in source && lo <= b.listed < hi && b.available <= hi &&
      HighValueIn(b, record, stamp.validTime)
      ensures exists i :: 0 <= i < |rows| && KeyOf(rows[i]) == RecordKey(stamp.tenant, record)
    {
      RecordIsGathered(transport, source, lo, hi, maximum, ws, traces, parts, b, record, from, to);
      RecordHasRow(records, stamp, rows, record);
    }
  }

  lemma RecordIsGathered(transport: Transport, source: set<SourceBlob>, lo: int, hi: int, maximum: int,
                         ws: seq<Window>, traces: seq<Trace>, parts: seq<seq<Content>>, b: SourceBlob, record: Json,
                         from: nat, to: nat)
    requires Tiles(ws, lo, hi, maximum) && CompleteAll(transport, ws, traces, parts, from, to)
    requires Faithful(transport, source, hi, from, to)
    requires b in source && lo <= b.listed < hi && b.available <= hi && record in b.records && record.Obj?
    ensures record in RecordsOf(Flatten(parts))
  {
    hide Faithful, Complete, Flatten, RecordsOf;
    var k := EveryInstantHasAWindow(ws, lo, hi, maximum, b.listed);
    var i := WindowShowsBlob(transport, source, hi, ws[k].0, ws[k].1, traces[k], parts[k], b, from, to);
    MappingsKeepObjects(b.records, record);
    InFlatten(parts, parts[k][i]);
    var c :| 0 <= c < |Flatten(parts)| && Flatten(parts)[c] == parts[k][i];
    InRecordsOf(Flatten(parts), record);
  }

  lemma RecordHasRow(records: seq<Json>, stamp: Stamp, rows: seq<Row>, record: Json)
    requires forall j | 0 <= j < |records| :: records[j].Obj?
    requires NormalizeAll(records, stamp) == Ok(rows)
    requires record in records && HighValue(record.fields, stamp.validTime)
    ensures exists i :: 0 <= i < |rows| && KeyOf(rows[i]) == RecordKey(stamp.tenant, record)
  {
    hide Normalize, HighValue;
    BatchRows(records, stamp);
    var j :| 0 <= j < |records| && records[j] == record;
    var i :| 0 <= i < |rows| && Normalize(records[j].fields, stamp) == Ok(Some(rows[i]));
    NormalizedRowStamped(record.fields, stamp, rows[i]);
    NormalizedRowCopies(record.fields, stamp, rows[i]);
  }

  // A row that is the normal form of one of the records.
  ghost predicate MadeOf(served: seq<Json>, stamp: Stamp, row: Row) {
    exists record :: record in served && record.Obj? && Normalize(record.fields, stamp) == Ok(Some(row))
  }

  ghost predicate AllMadeOf(served: seq<Json>, stamp: Stamp, rows: seq<Row>) {
    forall i | 0 <= i < |rows| :: MadeOf(served, stamp, rows[i])
  }

  ghost predicate FromBlob(transport: Transport, url: string, blob: seq<Json>, record: Json, from: nat, to: nat) {
    Served(transport.server, url, Arr(blob), from, to) && record in blob && record.Obj?
  }

  // The record is in the complete content of a window.
  ghost predicate InWindow(transport: Transport, w: Window, t: Trace, out: seq<Content>, record: Json, from: nat,
                           to: nat) {
    && Complete(transport.render, transport.server, transport.ListingUrl(w.0, w.1), t, out, from, to)
    && exists i :: 0 <= i < |out| && record in out[i].records
  }

  /** Records each of which the service listed, and served, in a window of the span. */
  ghost predicate AllServed(transport: Transport, served: seq<Json>, lo: int, hi: int, from: nat, to: nat) {
    forall record | record in served ::
      exists w: Window, t, out :: lo <= w.0 && w.0 < w.1 && w.1 <= hi &&
        InWindow(transport, w, t, out, record, from, to)
  }

  lemma WindowServes(transport: Transport, w: Window, t: Trace, out: seq<Content>, record: Json, from: nat, to: nat)
    returns (url: string, blob: seq<Json>)
    requires InWindow(transport, w, t, out, record, from, to)
    ensures FromBlob(transport, url, blob, record, from, to)
  {
    hide Walk, Kept, Listed, NextOf, AllWellFormed, Mappings, Served;
    var i :| 0 <= i < |out| && record in out[i].records;
    assert Fetches(transport.render, transport.server, t.tried[i], t.blobs[i], out[i], from, to);
    url, blob := UriOf(transport.render, t.tried[i]), t.blobs[i];
    MappingsKeepObjects(blob, record);
  }

  lemma RecordsServed(transport: Transport, lo: int, hi: int, maximum: int, ws: seq<Window>, traces: seq<Trace>,
                      parts: seq<seq<Content>>, first: nat, from: nat, to: nat)
    requires Tiles(ws, lo, hi, maximum) && CompleteAll(transport, ws, traces, parts, from, to) && first <= from
    ensures AllServed(transport, RecordsOf(Flatten(parts)), lo, hi, first, to)
  {
    hide Flatten, RecordsOf, Complete, Tiles;
    forall record | record in RecordsOf(Flatten(parts))
      ensures exists w: Window, t, out ::
                lo <= w.0 && w.0 < w.1 && w.1 <= hi && InWindow(transport, w, t, out, record, first, to)
    {
      InRecordsOf(Flatten(parts), record);
      var c :| 0 <= c < |Flatten(parts)| && record in Flatten(parts)[c].records;
      InFlatten(parts, Flatten(parts)[c]);
      var k :| 0 <= k < |parts| && Flatten(parts)[c] in parts[k];
      var i :| 0 <= i < |parts[k]| && parts[k][i] == Flatten(parts)[c];
      WindowsWithin(ws, lo, hi, maximum, k);
      CompleteWithin(transport, transport.ListingUrl(ws[k].0, ws[k].1), traces[k], parts[k], from, to, first, to);
      assert InWindow(transport, ws[k], traces[k], parts[k], record, first, to);
    }
  }

  /** Nothing is made up: each row comes from a record some window's content held. */
  lemma RowsGenuine(records: seq<Json>, stamp: Stamp, rows: seq<Row>)
    requires forall j | 0 <= j < |records| :: records[j].Obj?
    requires NormalizeAll(records, stamp) == Ok(rows)
    ensures AllMadeOf(records, stamp, rows)
  {
    hide Normalize, NormalizeAll, HighValue;
    BatchRows(records, stamp);
    forall i | 0 <= i < |rows|
      ensures MadeOf(records, stamp, rows[i])
    {
      var j :| 0 <= j < |records| && Normalize(records[j].fields, stamp) == Ok(Some(rows[i]));
      assert records[j] in records;
    }
  }

  /** Each row is the normal form of a record of a blob held, listed in the span. */
  ghost predicate Genuine(held: iset<SourceBlob>, stamp: Stamp, lo: int, hi: int, rows: seq<Row>) {
    forall i | 0 <= i < |rows| :: HasSource(held, stamp, lo, hi, rows[i])
  }

  ghost predicate HasSource(held: iset<SourceBlob>, stamp: Stamp, lo: int, hi: int, row: Row) {
    exists b, record :: IsFormOf(held, stamp, lo, hi, row, b, record)
  }

  ghost predicate IsFormOf(held: iset<SourceBlob>, stamp: Stamp, lo: int, hi: int, row: Row, b: SourceBlob,
                           record: Json) {
    && b in held && lo <= b.listed < hi && record in b.records
    && record.Obj? && Normalize(record.fields, stamp) == Ok(Some(row))
  }

  /** What an honest service served gives genuine rows. */
  lemma ServedIsGenuine(transport: Transport, held: iset<SourceBlob>, stamp: Stamp, served: seq<Json>, rows: seq<Row>,
                        lo: int, hi: int, from: nat, to: nat)
    requires Honest(transport, held, from, to) && AllServed(transport, served, lo, hi, from, to)
    requires AllMadeOf(served, stamp, rows)
    ensures Genuine(held, stamp, lo, hi, rows)
  {
    hide Normalize, InWindow, Honest;
    forall i | 0 <= i < |rows|
      ensures HasSource(held, stamp, lo, hi, rows[i])
    {
      assert MadeOf(served, stamp, rows[i]);
      var record :| record in served && record.Obj? && Normalize(record.fields, stamp) == Ok(Some(rows[i]));
      var w: Window, t, out :| lo <= w.0 && w.0 < w.1 && w.1 <= hi &&
        InWindow(transport, w, t, out, record, from, to);
      var b := WindowHolds(transport, held, w, t, out, record, from, to);
      assert IsFormOf(held, stamp, lo, hi, rows[i], b, record);
    }
  }

  lemma WindowHolds(transport: Transport, held: iset<SourceBlob>, w: Window, t: Trace, out: seq<Content>, record: Json,
                    from: nat, to: nat)
    returns (b: SourceBlob)
    requires Honest(transport, held, from, to) && InWindow(transport, w, t, out, record, from, to) && w.0 < w.1
    ensures b in held && w.0 <= b.listed < w.1 && record in b.records
  {
    hide Walk, Kept, Listed, NextOf, AllWellFormed, Mappings, Served;
    var i :| 0 <= i < |out| && record in out[i].records;
    assert Fetches(transport.render, transport.server, t.tried[i], t.blobs[i], out[i], from, to);
    MappingsKeepObjects(t.blobs[i], record);
    assert HeldIn(held, t.blobs[i], w.0, w.1);
    b :| b in held && w.0 <= b.listed < w.1 && b.records == t.blobs[i];
  }

  // ---- A service and a store that do what they should ------------------------------------------

  /** The service is subscribed to, every listing can be read, and no record in any blob stops a run. */
  ghost predicate Healthy(transport: Transport, lower: string -> string, stamp: Stamp) {
    && Readable(transport)
    && (exists data ::
          transport.Answers(transport.SubscriptionsUrl(), data) && Subscribed(transport.render, lower, data).Ok?)
    && NoneRaises(transport, stamp)
  }

  ghost predicate NoneRaises(transport: Transport, stamp: Stamp) {
    forall url, blob, record, from: nat, to: nat | FromBlob(transport, url, blob, record, from, to) ::
      Normalize(record.fields, stamp).Ok?
  }

  lemma NoRecordStops(transport: Transport, stamp: Stamp, served: seq<Json>, lo: int, hi: int, from: nat, to: nat)
    requires NoneRaises(transport, stamp) && AllServed(transport, served, lo, hi, from, to)
    requires forall j | 0 <= j < |served| :: served[j].Obj?
    ensures NormalizeAll(served, stamp).Ok?
  {
    hide Normalize, NormalizeAll, FromBlob, InWindow;
    forall j | 0 <= j < |served|
      ensures Normalize(served[j].fields, stamp).Ok?
    {
      assert served[j] in served;
      var w: Window, t, out :| lo <= w.0 && w.0 < w.1 && w.1 <= hi &&
        InWindow(transport, w, t, out, served[j], from, to);
      var url, blob := WindowServes(transport, w, t, out, served[j], from, to);
    }
    NoneRaising(served, stamp);
  }

  lemma MadeRowsAccepted(served: seq<Json>, stamp: Stamp, rows: seq<Row>)
    requires AllMadeOf(served, stamp, rows) && stamp.tenant > 0 && stamp.validTime(stamp.collectedAt)
    ensures forall i | 0 <= i < |rows| :: Accepted(rows[i], Some(stamp.tenant), stamp.validTime)
  {
    hide Normalize, Accepted;
    forall i | 0 <= i < |rows|
      ensures Accepted(rows[i], Some(stamp.tenant), stamp.validTime)
    {
      assert MadeOf(served, stamp, rows[i]);
      var record :| record in served && record.Obj? && Normalize(record.fields, stamp) == Ok(Some(rows[i]));
      NormalizedRowAccepted(record.fields, stamp, rows[i]);
    }
  }

  // ---- The run -------------------------------------------------------------------------------

  // Untouched: nothing committed. BatchOnly: it stopped between the two commits.
  datatype Ending = Untouched | BatchOnly | Finished

  datatype Run = Run(request: Request, ending: Ending, rows: seq<Row>)

  ghost function BatchCommitted(db: AuditDb, run: Run): AuditDb {
    db.(events := InsertAll(db.events, run.rows))
  }

  ghost function CheckpointCommitted(db: AuditDb, run: Run): AuditDb {
    BatchCommitted(db, run).(checkpoints := Advanced(db.checkpoints, run.request.stamp.tenant, COLLECTOR,
                                                     run.request.end))
  }

  // The states a run makes visible to others, in order.
  ghost function Commits(db: AuditDb, run: Run): seq<AuditDb> {
    match run.ending
    case Untouched => []
    case BatchOnly => [BatchCommitted(db, run)]
    case Finished => [BatchCommitted(db, run), CheckpointCommitted(db, run)]
  }

  /** How one run may change the store, given what the service holds: what it commits is genuine, and once it moves
      the checkpoint, complete. */
  ghost predicate RunStep(source: Source, db: AuditDb, run: Run, after: AuditDb) {
    && after == (match run.ending
                 case Untouched => db
                 case BatchOnly => BatchCommitted(db, run)
                 case Finished => CheckpointCommitted(db, run))
    && var request := run.request;
       var lo := request.EffectiveStart(CheckpointOf(db.checkpoints, request.stamp.tenant));
       && (run.ending != Untouched ==> Genuine(source.held, request.stamp, lo, request.end, run.rows))
       && (run.ending == Finished ==>
             && request.BoundsOk() && lo < request.end
             && Covers(source.shown, request.stamp.tenant, request.stamp.validTime, lo, request.end, request.end,
                       run.rows))
  }

  ghost predicate NotSubscribedFor(transport: Transport, lower: string -> string, error: AuditError, from: nat,
                                   to: nat) {
    var url := transport.SubscriptionsUrl();
    if !transport.accepts(url) then error == AuditError(SourceFailure, UrlRejected)
    else
      exists answer, until: nat | until <= to ::
        && Answered(transport.server, transport.policy.maxRetries, url, from, until, answer)
        && Raise(error) == if answer.Raise? then answer else Subscribed(transport.render, lower, answer.value)
  }

  /** Why a run that asked for anything wrote nothing: there is no span, or no subscription, or a listing that
      cannot be read, or a record that cannot be normalised. */
  ghost predicate Stops(transport: Transport, lower: string -> string, request: Request, lo: int, error: AuditError,
                        served: seq<Json>, from: nat, to: nat) {
    || ((lo >= request.end || request.maxWindow <= 0)
        && error == AuditError(SchemaContractFailure, Fault.InvalidWindow))
    || NotSubscribedFor(transport, lower, error, from, to)
    || Unreadable(transport, error, lo, request.end, from, to)
    || exists record :: record in served && record.Obj? && Normalize(record.fields, request.stamp) == Raise(error)
  }

  method CollectAndPersist(conn: Connection<AuditDb>, transport: Transport, lower: string -> string, request: Request)
    returns (r: Result<Report, AuditError>, ghost run: Run, ghost served: seq<Json>)
    requires conn.Idle()
    modifies conn, transport
    ensures conn.Idle() && run.request == request && old(transport.requests) <= transport.requests
    ensures !request.BoundsOk() ==>
              r == Raise(AuditError(SchemaContractFailure, InvalidBounds)) && unchanged(conn) && unchanged(transport)
    // Whatever the server and the store do, the store moves as one of the three endings allows ...
    ensures conn.log == old(conn.log) + Commits(old(conn.committed), run)
    // ... and, if the server kept its promises, makes nothing up and covers the span it moves the checkpoint over.
    ensures forall source: Source |
              Faithful(transport, source.shown, request.end, old(transport.requests), transport.requests) &&
              Honest(transport, source.held, old(transport.requests), transport.requests) ::
              RunStep(source, old(conn.committed), run, conn.committed)
    // In any case each row written is the normal form of a record the server answered with.
    ensures AllMadeOf(served, request.stamp, run.rows)
    ensures AllServed(transport, served,
                      request.EffectiveStart(CheckpointOf(old(conn.committed).checkpoints, request.stamp.tenant)),
                      request.end, old(transport.requests), transport.requests)
    // It raises only for cause ...
    ensures r.Raise? && request.BoundsOk() ==>
              || (r.error == AuditError(PersistenceFailure, StoreFailed)
                  && !(conn.Reliable() && request.stamp.tenant > 0
                       && request.stamp.validTime(request.stamp.collectedAt)))
              || Stops(transport, lower, request,
                       request.EffectiveStart(CheckpointOf(old(conn.committed).checkpoints, request.stamp.tenant)),
                       r.error, served, old(transport.requests), transport.requests)
    // ... so as long as the service and the store do what they should, a run with something to read returns normally.
    ensures (&& conn.Reliable() && Healthy(transport, lower, request.stamp)
             && request.Runnable(CheckpointOf(old(conn.committed).checkpoints, request.stamp.tenant))) ==> r.Ok?
    ensures !request.dryRun ==> (r.Ok? <==> run.ending == Finished)
    ensures request.dryRun ==> run.ending == Untouched
    ensures r.Ok? ==>
              var before := CheckpointOf(old(conn.committed).checkpoints, request.stamp.tenant);
              && r.value.checkpointBefore == before && r.value.effectiveStart == request.EffectiveStart(before)
              && r.value.checkpointProposed == request.end && r.value.advanced == !request.dryRun
              && r.value.checkpointAfter == (if request.dryRun then before else Some(request.end))
              && r.value.normalized == |run.rows| <= r.value.onedriveRecords == OneDriveCount(served)
              && r.value.normalized + r.value.dropped == |served|
    // Conservation: rows inserted and rows skipped make up the batch.
    ensures r.Ok? && !request.dryRun ==>
              && r.value.inserted + r.value.duplicateSkips == |run.rows|
              && |conn.committed.events| == |old(conn.committed).events| + r.value.inserted
  {
    hide Faithful, Covers, InsertAll, Advanced, Commits, RunStep, AllMadeOf, AllServed, Healthy, Accepted, Honest,
      Genuine, Stops, OneDriveCount;
    run, served := Run(request, Untouched, []), [];
    NothingMade(transport, request.stamp, transport.requests);
    NothingCommitted(conn.committed, run);
    if !request.BoundsOk() {
      return Raise(AuditError(SchemaContractFailure, InvalidBounds)), run, served;
    }
    var ok := conn.Execute(conn.working);    // SELECT checkpoint_at
    if !ok {
      return Raise(AuditError(PersistenceFailure, StoreFailed)), run, served;
    }
    var checkpoint := CheckpointOf(conn.working.checkpoints, request.stamp.tenant);
    var effectiveStart := request.EffectiveStart(checkpoint);
    var batch;
    batch, served := Prepare(transport, lower, request, effectiveStart);
    if batch.Raise? {
      return Raise(batch.error), run, served;
    }
    var rows := batch.value.rows;
    run := run.(rows := rows);
    AllGenuine(transport, request.stamp, served, rows, effectiveStart, request.end, old(transport.requests),
               transport.requests);
    NothingCommitted(conn.committed, run);
    var report := Report(|rows|, batch.value.dropped, batch.value.onedrive, 0, 0, checkpoint, effectiveStart,
                         request.end, checkpoint, false);
    if request.dryRun {
      return Ok(report), run, served;
    }
    ghost var db := conn.committed;
    if request.stamp.tenant > 0 && request.stamp.validTime(request.stamp.collectedAt) {
      MadeRowsAccepted(served, request.stamp, rows);
    }
    var persisted := PersistBatch(conn, rows, request.stamp.tenant, request.stamp.validTime);
    if persisted.Raise? {
      return Raise(AuditError(PersistenceFailure, StoreFailed)), run, served;
    }
    run := run.(ending := BatchOnly);
    OneCommit(db, run);
    var advanced := AdvanceCheckpoint(conn, request.stamp.tenant, request.end);
    if advanced.Raise? {
      return Raise(AuditError(PersistenceFailure, StoreFailed)), run, served;
    }
    run := run.(ending := Finished);
    FinishedStep(db, run);
    r := Ok(report.(inserted := persisted.value.inserted, duplicateSkips := persisted.value.duplicateSkips,
                    checkpointAfter := Some(request.end), advanced := true));
  }

  lemma UnreadableEarlier(transport: Transport, error: AuditError, lo: int, hi: int, first: nat, from: nat, to: nat)
    requires Unreadable(transport, error, lo, hi, from, to) && first <= from
    ensures Unreadable(transport, error, lo, hi, first, to)
  {
    hide BreaksOff;
  }

  datatype Batch = Batch(rows: seq<Row>, dropped: nat, onedrive: nat)

  /** The read-only half of a run. */
  method Prepare(transport: Transport, lower: string -> string, request: Request, effectiveStart: int)
    returns (r: Result<Batch, AuditError>, ghost served: seq<Json>)
    modifies transport
    ensures old(transport.requests) <= transport.requests
    ensures r.Ok? ==> effectiveStart < request.end
    ensures r.Ok? ==> |r.value.rows| + r.value.dropped == |served| && r.value.onedrive == OneDriveCount(served)
    ensures r.Ok? ==> |r.value.rows| <= r.value.onedrive
    ensures AllServed(transport, served, effectiveStart, request.end, old(transport.requests), transport.requests)
    ensures r.Raise? ==>
              Stops(transport, lower, request, effectiveStart, r.error, served, old(transport.requests),
                    transport.requests)
    ensures r.Ok? ==> AllMadeOf(served, request.stamp, r.value.rows)
    ensures Healthy(transport, lower, request.stamp) && effectiveStart < request.end && request.maxWindow > 0 ==> r.Ok?
    ensures r.Ok? ==>
              forall source: set<SourceBlob> | Faithful(transport, source, request.end, old(transport.requests),
                                                        transport.requests) ::
              Covers(source, request.stamp.tenant, request.stamp.validTime, effectiveStart, request.end, request.end,
                     r.value.rows)
  {
    hide Faithful, Covers, CompleteAll, AllRecordsAreObjects, NormalizeAll, AllMadeOf, AllServed, Subscribed,
      NoneRaises, Unreadable, Normalize, OneDriveCount;
    served := [];
    var metrics := new Metrics();
    ghost var first := transport.requests;
    var subscribed := transport.Subscription(lower);
    NothingMade(transport, request.stamp, transport.requests);
    if subscribed.Raise? {
      assert NotSubscribedFor(transport, lower, subscribed.error, first, transport.requests);
      return Raise(subscribed.error), served;
    }
    ghost var ws, traces, parts;
    var gathered;
    ghost var from := transport.requests;
    gathered, ws, traces, parts := Gather(transport, effectiveStart, request.end, request.maxWindow, metrics);
    NothingMade(transport, request.stamp, transport.requests);
    if gathered.Raise? {
      if effectiveStart < request.end && request.maxWindow > 0 {
        UnreadableEarlier(transport, gathered.error, effectiveStart, request.end, first, from, transport.requests);
      }
      return Raise(gathered.error), served;
    }
    TiledSpan(ws, effectiveStart, request.end, request.maxWindow);
    RecordsAreObjects(gathered.value);
    var records := RecordsOf(gathered.value);
    served := records;
    RecordsServed(transport, effectiveStart, request.end, request.maxWindow, ws, traces, parts, first, from,
                  transport.requests);
    if NoneRaises(transport, request.stamp) {
      NoRecordStops(transport, request.stamp, served, effectiveStart, request.end, first, transport.requests);
    }
    var normalized, onedrive, dropped := NormalizeRecords(records, request.stamp);
    if normalized.Raise? {
      SomeRecordRaises(records, request.stamp);
      return Raise(normalized.error), served;
    }
    RowsGenuine(records, request.stamp, normalized.value);
    forall source: set<SourceBlob> | Faithful(transport, source, request.end, first, transport.requests)
      ensures Covers(source, request.stamp.tenant, request.stamp.validTime, effectiveStart, request.end, request.end,
                     normalized.value)
    {
      FaithfulWithin(transport, source, request.end, first, transport.requests, from);
      GatheredCovers(transport, source, request.stamp, effectiveStart, request.end, request.maxWindow,
                     ws, traces, parts, normalized.value, from, transport.requests);
    }
    r := Ok(Batch(normalized.value, dropped, onedrive));
  }

  lemma TiledSpan(ws: seq<Window>, start: int, end: int, maximum: int)
    requires Tiles(ws, start, end, maximum)
    ensures start < end
  {
    if |ws| > 1 { WindowsDisjoint(ws, start, end, maximum, 0, |ws| - 1); }
  }

  lemma NothingMade(transport: Transport, stamp: Stamp, now: nat)
    ensures forall served :: AllMadeOf(served, stamp, [])
    ensures forall lo, hi, from: nat :: AllServed(transport, [], lo, hi, from, now)
  {
  }

  lemma AllGenuine(transport: Transport, stamp: Stamp, served: seq<Json>, rows: seq<Row>, lo: int, hi: int, from: nat,
                   to: nat)
    requires AllServed(transport, served, lo, hi, from, to) && AllMadeOf(served, stamp, rows)
    ensures forall held | Honest(transport, held, from, to) :: Genuine(held, stamp, lo, hi, rows)
  {
    hide Honest, AllServed, AllMadeOf, Genuine;
    forall held | Honest(transport, held, from, to)
      ensures Genuine(held, stamp, lo, hi, rows)
    {
      ServedIsGenuine(transport, held, stamp, served, rows, lo, hi, from, to);
    }
  }

  lemma NothingCommitted(db: AuditDb, run: Run)
    requires run.ending == Untouched
    ensures Commits(db, run) == [] && forall source :: RunStep(source, db, run, db)
  {
  }

  lemma OneCommit(db: AuditDb, run: Run)
    requires run.ending == BatchOnly
    ensures var after := db.(events := InsertAll(db.events, run.rows));
            var lo := run.request.EffectiveStart(CheckpointOf(db.checkpoints, run.request.stamp.tenant));
            && Commits(db, run) == [after]
            && forall source: Source | Genuine(source.held, run.request.stamp, lo, run.request.end, run.rows) ::
                 RunStep(source, db, run, after)
  {
    hide Genuine;
  }

  lemma FinishedStep(db: AuditDb, run: Run)
    requires run.ending == Finished && run.request.BoundsOk()
    requires run.request.EffectiveStart(CheckpointOf(db.checkpoints, run.request.stamp.tenant)) < run.request.end
    ensures var request := run.request;
            var after := db.(events := InsertAll(db.events, run.rows));
            var last := after.(
              checkpoints := Advanced(after.checkpoints, request.stamp.tenant, COLLECTOR, request.end));
            var lo := request.EffectiveStart(CheckpointOf(db.checkpoints, request.stamp.tenant));
            && Commits(db, run) == [after, last]
            && forall source: Source |
                 && Genuine(source.held, request.stamp, lo, request.end, run.rows)
                 && Covers(source.shown, request.stamp.tenant, request.stamp.validTime, lo, request.end, request.end,
                           run.rows) ::
                 RunStep(source, db, run, last)
  {
    hide Covers, InsertAll, Genuine;
  }

  lemma FaithfulWithin(transport: Transport, source: set<SourceBlob>, now: int, a: nat, b: nat, from: nat)
    requires Faithful(transport, source, now, a, b) && a <= from
    ensures Faithful(transport, source, now, from, b)
  {
    hide Complete, Shows;
    forall s, lo: int, hi: int, t: Trace, out: seq<Content> |
      s in source && Complete(transport.render, transport.server, transport.ListingUrl(lo, hi), t, out, from, b)
      ensures Shows(transport, s, now, lo, hi, t) && LeadsToBlob(transport, s, t, from, b)
    {
      CompleteWithin(transport, transport.ListingUrl(lo, hi), t, out, from, b, a, b);
      LeadsWithin(transport, s, t, a, b, from);
    }
  }

  lemma LeadsWithin(transport: Transport, s: SourceBlob, t: Trace, a: nat, b: nat, from: nat)
    requires LeadsToBlob(transport, s, t, a, b) && a <= from
    ensures LeadsToBlob(transport, s, t, from, b)
  {
    hide IdOf, UriOf, WellFormedEntry, Served, Listed;
    forall item, blob | item in Listed(t.pages) && WellFormedEntry(item) && IdOf(transport.render, item) == s.id &&
                        Served(transport.server, UriOf(transport.render, item), Arr(blob), from, b)
      ensures blob == s.records
    {
      ServedEarlier(transport.server, UriOf(transport.render, item), Arr(blob), a, from, b);
    }
  }
}
