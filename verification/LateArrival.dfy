/** A record the overlap does not reach back over is lost: two runs of the audit collector that lose one
    (collectors/onedrive_audit.py). */
module LateArrival {
  import opened Basics
  import opened Connections
  import opened Retry
  import opened AuditWindows
  import opened AuditTransport
  import opened AuditRecords
  import opened AuditStore
  import opened Checkpoints
  import opened AuditIngestion
  import opened AuditHistory

  const RECORD := Obj(map["Workload" := Str("OneDrive"), "Id" := Str("x"), "CreationTime" := Str("t"),
                          "Operation" := Str(MALWARE)])

  const BLOB_URL := HOST + "/blob"

  const ENTRY := Obj(map["contentId" := Str("b"), "contentUri" := Str(BLOB_URL)])

  const SUBSCRIPTIONS := Arr([Obj(map["contentType" := Str("Audit.SharePoint"), "status" := Str("enabled")])])

  function LateBlob(delay: int): SourceBlob { SourceBlob("b", 0, delay, [RECORD]) }

  // The service is bound to show this blob, and has no other.
  ghost function OnlySource(delay: int): Source { Source({LateBlob(delay)}, iset{LateBlob(delay)}) }

  // What a service lists of the blob, listed at time 0, once it shows it.
  function Listing(shown: bool, lo: int, hi: int): seq<Json> { if shown && lo <= 0 < hi then [ENTRY] else [] }

  /** A service holding the one blob, that reads the span asked for out of the url. */
  function Service(shown: bool, base: string, decode: string -> (int, int)): Server {
    (n, url) =>
      Response(200, None, Some(
        if url == base + "/subscriptions/list" then SUBSCRIPTIONS
        else if url == BLOB_URL then Arr([RECORD])
        else if base + "/subscriptions/content?" <= url then
          var span := decode(url[|base + "/subscriptions/content?"|..]);
          Arr(Listing(shown, span.0, span.1))
        else Arr([])))
  }

  // A client of that service whose encoding of a span can be read back.
  ghost predicate Talks(t: Transport, shown: bool, decode: string -> (int, int)) {
    && t.server == Service(shown, t.Base(), decode) && (forall url :: t.accepts(url)) && t.maxPages > 0
    && forall lo, hi :: decode(t.query(lo, hi)) == (lo, hi)
  }

  lemma UrlsDiffer(t: Transport, lo: int, hi: int)
    ensures t.SubscriptionsUrl() != BLOB_URL && t.ListingUrl(lo, hi) != BLOB_URL
    ensures t.ListingUrl(lo, hi) != t.SubscriptionsUrl()
    ensures var listing := t.Base() + "/subscriptions/content?";
            listing <= t.ListingUrl(lo, hi) && t.ListingUrl(lo, hi)[|listing|..] == t.query(lo, hi)
  {
    var base := t.Base();
    var listing := base + "/subscriptions/content?";
    assert base[|HOST| + 1] == 'a' && BLOB_URL[|HOST| + 1] == 'b';
    assert t.ListingUrl(lo, hi)[|base|..] == "/subscriptions/content?" + t.query(lo, hi);
    assert t.SubscriptionsUrl()[|base|..] == "/subscriptions/list";
    assert t.ListingUrl(lo, hi)[|base| + 15] == 'c' && t.SubscriptionsUrl()[|base| + 15] == 'l';
    assert t.ListingUrl(lo, hi) == listing + t.query(lo, hi);
  }

  lemma ServiceAnswers(t: Transport, shown: bool, decode: string -> (int, int))
    requires Talks(t, shown, decode)
    ensures forall n: nat, lo, hi ::
              t.server(n, t.ListingUrl(lo, hi)) == Response(200, None, Some(Arr(Listing(shown, lo, hi))))
    ensures forall n: nat :: t.server(n, BLOB_URL) == Response(200, None, Some(Arr([RECORD])))
    ensures forall n: nat :: t.server(n, t.SubscriptionsUrl()) == Response(200, None, Some(SUBSCRIPTIONS))
  {
    hide Transport.Base, HOST, BLOB_URL, RECORD, SUBSCRIPTIONS, Listing;
    UrlsDiffer(t, 0, 0);
    forall lo, hi, n: nat
      ensures t.server(n, t.ListingUrl(lo, hi)) == Response(200, None, Some(Arr(Listing(shown, lo, hi))))
    {
      UrlsDiffer(t, lo, hi);
    }
  }

  lemma EntryNamesBlob(render: Json -> string)
    ensures WellFormedEntry(ENTRY) && UriOf(render, ENTRY) == BLOB_URL && IdOf(render, ENTRY) == "b"
    ensures Get(ENTRY.fields, "nextPageUri") == Null
  {
  }

  lemma RecordIsHighValue(stamp: Stamp)
    requires forall text :: stamp.validTime(text)
    ensures RECORD.Obj? && HighValue(RECORD.fields, stamp.validTime) && Normalize(RECORD.fields, stamp).Ok?
  {
    assert |"Workload"| == 8 && |"Id"| == 2 && |"CreationTime"| == 12 && |"Operation"| == 9;
    NormalizedIffHighValue(RECORD.fields, stamp);
  }

  lemma ServiceFaithful(t: Transport, shown: bool, decode: string -> (int, int), delay: int, now: int, from: nat,
                        to: nat)
    requires Talks(t, shown, decode) && (!shown ==> now < delay)
    ensures Faithful(t, {LateBlob(delay)}, now, from, to)
  {
    hide RECORD, ENTRY, BLOB_URL, Service, Faithful, IdOf, UriOf, WellFormedEntry;
    ServiceAnswers(t, shown, decode);
    EntryNamesBlob(t.render);
    OnePageServiceIsFaithful(t, {LateBlob(delay)}, now, (lo, hi) => Listing(shown, lo, hi), from, to);
  }

  lemma ServiceHonest(t: Transport, shown: bool, decode: string -> (int, int), delay: int, from: nat, to: nat)
    requires Talks(t, shown, decode)
    ensures Honest(t, iset{LateBlob(delay)}, from, to)
  {
    hide RECORD, ENTRY, BLOB_URL, Service, IdOf, UriOf, WellFormedEntry, Walk, Listed, Kept, Talks;
    ServiceAnswers(t, shown, decode);
    EntryNamesBlob(t.render);
    forall lo: int, hi: int, tr: Trace, out: seq<Content>, i: nat |
      && lo < hi && i < |tr.blobs| && Complete(t.render, t.server, t.ListingUrl(lo, hi), tr, out, from, to)
      ensures HeldIn(iset{LateBlob(delay)}, tr.blobs[i], lo, hi)
    {
      OnePage(t, Listing(shown, lo, hi), lo, hi, tr, out, from, to);
      assert Fetches(t.render, t.server, tr.tried[i], tr.blobs[i], out[i], from, to);
      KeptListed(t.render, Listed(tr.pages), tr.tried[i]);
      assert LateBlob(delay) in iset{LateBlob(delay)};
    }
  }

  lemma ServiceHealthy(t: Transport, shown: bool, decode: string -> (int, int), stamp: Stamp)
    requires Talks(t, shown, decode) && forall text :: stamp.validTime(text)
    ensures Healthy(t, s => s, stamp)
  {
    ServiceReadable(t, shown, decode);
    ServiceSubscribed(t, shown, decode);
    ServiceNeverRaises(t, shown, decode, stamp);
  }

  lemma ServiceReadable(t: Transport, shown: bool, decode: string -> (int, int))
    requires Talks(t, shown, decode)
    ensures Readable(t)
  {
    hide RECORD, ENTRY, BLOB_URL, Service, IdOf, UriOf, WellFormedEntry;
    ServiceAnswers(t, shown, decode);
    EntryNamesBlob(t.render);
    assert t.Answers(BLOB_URL, Arr([RECORD]));
    assert t.Steady(ENTRY);
    forall lo, hi | lo < hi
      ensures t.ReadableAt(t.ListingUrl(lo, hi))
    {
      var chain := [Page(t.ListingUrl(lo, hi), Listing(shown, lo, hi))];
      assert t.Answers(chain[0].url, Arr(chain[0].data));
      ListingEnds(shown, lo, hi);
      assert t.ReadableAs(chain);
    }
  }

  lemma ListingEnds(shown: bool, lo: int, hi: int)
    ensures AllWellFormed(Listing(shown, lo, hi)) && NextOf(Listing(shown, lo, hi)) == NoNext
  {
    assert AllWellFormed([]);
    assert [ENTRY][..0] == [];
    EntryNamesBlob(_ => "");
    assert AllWellFormed([ENTRY]);
  }

  lemma ServiceSubscribed(t: Transport, shown: bool, decode: string -> (int, int))
    requires Talks(t, shown, decode)
    ensures t.Answers(t.SubscriptionsUrl(), SUBSCRIPTIONS) && Subscribed(t.render, s => s, SUBSCRIPTIONS).Ok?
  {
    hide Service, RECORD, ENTRY, BLOB_URL;
    ServiceAnswers(t, shown, decode);
  }

  lemma ServiceNeverRaises(t: Transport, shown: bool, decode: string -> (int, int), stamp: Stamp)
    requires Talks(t, shown, decode) && forall text :: stamp.validTime(text)
    ensures NoneRaises(t, stamp)
  {
    hide HOST, Transport.Base, Talks, Normalize, RECORD, ENTRY, BLOB_URL, Judge;
    forall url, blob, record, from: nat, to: nat | FromBlob(t, url, blob, record, from, to)
      ensures Normalize(record.fields, stamp).Ok?
    {
      var n: nat :| from <= n < to && Judge(t.server(n, url)) == Good(Arr(blob));
      ServiceData(t, shown, decode, n, url);
      KnownRecord(record, stamp);
    }
  }

  // All that the service ever shows.
  lemma ServiceData(t: Transport, shown: bool, decode: string -> (int, int), n: nat, url: string)
    requires Talks(t, shown, decode)
    ensures Judge(t.server(n, url)) in {Good(SUBSCRIPTIONS), Good(Arr([RECORD])), Good(Arr([ENTRY])), Good(Arr([]))}
  {
    hide HOST, Transport.Base, RECORD, ENTRY, BLOB_URL, SUBSCRIPTIONS;
    assert forall lo, hi :: Listing(shown, lo, hi) in {[ENTRY], []};
    assert t.server(n, url) == Service(shown, t.Base(), decode)(n, url);
  }

  lemma KnownRecord(record: Json, stamp: Stamp)
    requires record == RECORD || record == ENTRY || (SUBSCRIPTIONS.Arr? && record in SUBSCRIPTIONS.items)
    requires record.Obj? && forall text :: stamp.validTime(text)
    ensures Normalize(record.fields, stamp).Ok?
  {
    if record == RECORD {
      RecordIsHighValue(stamp);
    } else {
      assert |"Workload"| == 8 && |"contentId"| == 9 && |"contentUri"| == 10 && |"contentType"| == 11 &&
        |"status"| == 6;
      assert "Workload" !in record.fields;
    }
  }

  // Nothing is read of windows in which nothing is listed.
  lemma NothingShown(t: Transport, shown: bool, decode: string -> (int, int), served: seq<Json>, lo: int, hi: int,
                     from: nat, to: nat)
    requires Talks(t, shown, decode) && AllServed(t, served, lo, hi, from, to) && (shown ==> lo > 0)
    ensures served == []
  {
    hide Service, RECORD, ENTRY, BLOB_URL, Fetches, Walk, Listed, Talks;
    if served != [] {
      ServiceAnswers(t, shown, decode);
      var record := served[0];
      assert record in served;
      var w: Window, tr: Trace, out: seq<Content> :| lo <= w.0 && w.0 < w.1 && w.1 <= hi &&
        InWindow(t, w, tr, out, record, from, to);
      OnePage(t, Listing(shown, w.0, w.1), w.0, w.1, tr, out, from, to);
      assert false;
    }
  }

  // A run over the service that is shown nothing moves the checkpoint and writes no row.
  method RunSeeingNothing(conn: Connection<AuditDb>, t: Transport, shown: bool, decode: string -> (int, int),
                          delay: int, request: Request)
    returns (ghost run: Run)
    requires conn.Idle() && conn.Reliable() && Talks(t, shown, decode)
    requires !request.dryRun && forall text :: request.stamp.validTime(text)
    requires request.Runnable(CheckpointOf(conn.committed.checkpoints, request.stamp.tenant))
    requires shown ==> request.EffectiveStart(CheckpointOf(conn.committed.checkpoints, request.stamp.tenant)) > 0
    requires !shown ==> request.end < delay
    modifies conn, t
    ensures conn.Idle() && old(t.requests) <= t.requests
    ensures Faithful(t, {LateBlob(delay)}, request.end, old(t.requests), t.requests)
    ensures Honest(t, iset{LateBlob(delay)}, old(t.requests), t.requests)
    ensures run.request == request && run.ending == Finished && run.rows == []
    ensures RunStep(OnlySource(delay), old(conn.committed), run, conn.committed)
    ensures conn.committed == CheckpointCommitted(old(conn.committed), run)
  {
    hide Talks, Faithful, Honest, RunStep, AllServed, Healthy, LateBlob, MadeOf, InsertAll, Advanced;
    ghost var lo := request.EffectiveStart(CheckpointOf(conn.committed.checkpoints, request.stamp.tenant));
    ServiceHealthy(t, shown, decode, request.stamp);
    var r;
    ghost var served;
    r, run, served := CollectAndPersist(conn, t, s => s, request);
    NothingShown(t, shown, decode, served, lo, request.end, old(t.requests), t.requests);
    NothingMadeOfNothing(served, request.stamp, run.rows);
    ServiceHonest(t, shown, decode, delay, old(t.requests), t.requests);
    ServiceFaithful(t, shown, decode, delay, request.end, old(t.requests), t.requests);
  }

  lemma NothingMadeOfNothing(served: seq<Json>, stamp: Stamp, rows: seq<Row>)
    requires AllMadeOf(served, stamp, rows)
    ensures served == [] ==> rows == []
  {
    if rows != [] { assert MadeOf(served, stamp, rows[0]); }
  }

  /** Two finished runs of one tenant's first history, each backing off by `overlap`, after which a high-value
      record of the blob is missing: the blob was listed from where the first run started reading on and before the
      checkpoint, and was available by the checkpoint. */
  ghost predicate Loses(b: SourceBlob, record: Json, overlap: nat, states: seq<AuditDb>, first: Run, second: Run) {
    && History(Source({b}, iset{b}), states, [Audit(first), Audit(second)]) && states[0] == AuditDb([], map[])
    && first.ending == Finished && second.ending == Finished
    && first.request.overlap == overlap && second.request.overlap == overlap
    && second.request.stamp == first.request.stamp
    && var tenant := first.request.stamp.tenant;
       var origin, checkpoint := Origin(states, [Audit(first), Audit(second)], tenant, 2),
         CheckpointOf(states[2].checkpoints, tenant);
       && origin.Some? && checkpoint.Some? && InPromise(b, origin.value, checkpoint.value, b.available - b.listed)
       && HighValueIn(b, record, first.request.stamp.validTime)
       && Copies(states[2].events, RecordKey(tenant, record)) == 0
  }

  lemma TwoRuns(source: Source, db: AuditDb, middle: AuditDb, after: AuditDb, first: Run, second: Run)
    requires DistinctKeys(db.events) && RunStep(source, db, first, middle) && RunStep(source, middle, second, after)
    requires first.ending == Finished
    ensures History(source, [db, middle, after], [Audit(first), Audit(second)])
    ensures var tenant := first.request.stamp.tenant;
            Origin([db, middle, after], [Audit(first), Audit(second)], tenant, 2)
            == Some(first.request.EffectiveStart(CheckpointOf(db.checkpoints, tenant)))
  {
    hide RunStep;
    var states, events := [db, middle, after], [Audit(first), Audit(second)];
    assert forall i | 0 <= i < 2 :: AuditHistory.Next(source, states[i], events[i], states[i + 1]);
    var tenant := first.request.stamp.tenant;
    assert Origin(states, events, tenant, 0) == None;
    assert Origin(states, events, tenant, 1)
      == Some(first.request.EffectiveStart(CheckpointOf(db.checkpoints, tenant)));
  }

  lemma TwoRunsLose(delay: int, overlap: nat, middle: AuditDb, after: AuditDb, first: Run, second: Run)
    requires var source, empty := OnlySource(delay), AuditDb([], map[]);
             && RunStep(source, empty, first, middle) && RunStep(source, middle, second, after)
             && middle == CheckpointCommitted(empty, first) && after == CheckpointCommitted(middle, second)
    requires first.ending == Finished && second.ending == Finished && first.rows == [] && second.rows == []
    requires first.request.overlap == overlap && second.request.overlap == overlap
    requires second.request.stamp == first.request.stamp
    requires first.request.EffectiveStart(None) <= 0 && Max(first.request.end, second.request.end) >= delay && delay > 0
    requires forall text :: first.request.stamp.validTime(text)
    ensures Loses(LateBlob(delay), RECORD, overlap, [AuditDb([], map[]), middle, after], first, second)
  {
    hide RunStep, History, Origin, HighValue, RECORD;
    TwoRuns(OnlySource(delay), AuditDb([], map[]), middle, after, first, second);
    RecordIsHighValue(first.request.stamp);
    EmptyBatch(AuditDb([], map[]), first);
    EmptyBatch(middle, second);
    assert RECORD in LateBlob(delay).records;
  }

  lemma EmptyBatch(db: AuditDb, run: Run)
    requires run.rows == []
    ensures var after, tenant := CheckpointCommitted(db, run), run.request.stamp.tenant;
            && after.events == db.events
            && CheckpointOf(after.checkpoints, tenant)
               == match CheckpointOf(db.checkpoints, tenant)
                  case Some(at) => Some(Max(at, run.request.end))
                  case None => Some(run.request.end)
  {
  }

  /** The overlap is exactly what the promise needs. For any delay it does not reach back over, a faithful service
      and two runs of the collector, both returning normally, that lose a record. */
  method LoseLateArrival(overlap: nat, delay: int, tenant: string, query: (int, int) -> string,
                         decode: string -> (int, int), jitter: nat -> real, policy: RetryPolicy)
    returns (conn: Connection<AuditDb>, before: Transport, later: Transport, ghost states: seq<AuditDb>,
             ghost first: Run, ghost second: Run)
    requires delay > overlap + 1 && forall lo, hi :: decode(query(lo, hi)) == (lo, hi)
    ensures Loses(LateBlob(delay), RECORD, overlap, states, first, second) && states[2] == conn.committed
    ensures Faithful(before, {LateBlob(delay)}, first.request.end, 0, before.requests)
    ensures Faithful(later, {LateBlob(delay)}, second.request.end, 0, later.requests)
    ensures Honest(before, iset{LateBlob(delay)}, 0, before.requests)
    ensures Honest(later, iset{LateBlob(delay)}, 0, later.requests)
  {
    hide LateBlob, Service, Faithful, Honest, Loses, RunStep;
    var base := HOST + "/api/v1.0/" + tenant + "/activity/feed";
    before := new Transport(Service(false, base, decode), _ => true, _ => "", query, jitter, policy, 1, tenant);
    later := new Transport(Service(true, base, decode), _ => true, _ => "", query, jitter, policy, 1, tenant);
    conn := new Connection(AuditDb([], map[]), _ => false);
    var span := delay + overlap;
    var request := Request(Stamp(1, "t", None, None, _ => true), 0, overlap + 1, overlap, span, span, false);
    first := RunSeeingNothing(conn, before, false, decode, delay, request);
    ghost var middle := conn.committed;
    second := RunSeeingNothing(conn, later, true, decode, delay, request.(end := delay));
    TwoRunsLose(delay, overlap, middle, conn.committed, first, second);
    states := [AuditDb([], map[]), middle, conn.committed];
  }
}
