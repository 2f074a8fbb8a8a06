/** What one call of the collection runtime leaves in the database: an account of its commits, endpoint by
    endpoint (collectors/core/runtime.py, collectors/persistence/core.py). */
module Accounts {
  import opened Basics
  import opened Retry
  import opened Checkpoints
  import opened Tables
  import opened PersistenceModes
  import opened CollectionWriting

  // What executing an endpoint committed to the store.
  datatype Commit = NoCommit | Batch(written: Collection) | Report(report: UsageReport)

  /** What was committed for one endpoint, and how it ended. */
  datatype Segment = Segment(run: int, endpoint: string, commit: Commit, status: Status,
                             classification: Classification, at: int)
  {
    function Wrote(): seq<Call> {
      match commit
      case NoCommit => []
      case Batch(written) => [Call.Wrote(written)]
      case Report(_) => [WroteReport(endpoint)]
    }

    // The writer's calls until it is completed, and all of them.
    function OpenCalls(): seq<Call> { [BeganEndpoint(run, endpoint)] + Wrote() }

    function Calls(): seq<Call> { OpenCalls() + [CompletedEndpoint(run, status == Succeeded)] }
  }

  ghost function CallsOf(segments: seq<Segment>): seq<Call> {
    if segments == [] then [] else CallsOf(segments[..|segments| - 1]) + segments[|segments| - 1].Calls()
  }

  lemma CallsStep(segments: seq<Segment>, segment: Segment)
    ensures CallsOf(segments + [segment]) == CallsOf(segments) + segment.Calls()
  {
    assert (segments + [segment])[..|segments|] == segments;
  }

  lemma NoCalls()
    ensures CallsOf([]) == []
  {
  }

  ghost function CommitTo(registry: Registry, store: Store, commit: Commit): Option<Store> {
    match commit
    case NoCommit => Some(store)
    case Batch(written) => Stored(registry, store, written)
    case Report(report) => report.store(store)
  }

  /** The database once an endpoint run is begun and its commit made. */
  ghost function Opened(registry: Registry, db: CollectorDb, collection: int, tenant: int,
                        s: Segment): Option<CollectorDb> {
    var store := CommitTo(registry, db.store, s.commit);
    if s.run != db.control.nextEndpoint || store.None? then None
    else Some(CollectorDb(store.value, BegunEndpoint(db.control, collection, tenant, s.endpoint)))
  }

  /** ... and once the endpoint run is completed. */
  ghost function After(registry: Registry, db: CollectorDb, collection: int, tenant: int,
                       s: Segment): Option<CollectorDb> {
    var midway := Opened(registry, db, collection, tenant, s);
    if midway.None? then None
    else Some(midway.value.(control := Completed(midway.value.control, s.run, s.status == Succeeded, s.classification,
                                                 s.at)))
  }

  ghost function AfterAll(registry: Registry, db: CollectorDb, collection: int, tenant: int,
                          segments: seq<Segment>): Option<CollectorDb> {
    if segments == [] then Some(db)
    else
      var before := AfterAll(registry, db, collection, tenant, segments[..|segments| - 1]);
      if before.None? then None else After(registry, before.value, collection, tenant, segments[|segments| - 1])
  }

  lemma NoCommitKeeps(registry: Registry, store: Store)
    ensures CommitTo(registry, store, NoCommit) == Some(store)
  {
  }

  lemma NothingAfter(registry: Registry, db: CollectorDb, collection: int, tenant: int)
    ensures AfterAll(registry, db, collection, tenant, []) == Some(db)
  {
  }

  lemma AfterStep(registry: Registry, db: CollectorDb, collection: int, tenant: int, segments: seq<Segment>, s: Segment)
    requires AfterAll(registry, db, collection, tenant, segments).Some?
    ensures AfterAll(registry, db, collection, tenant, segments + [s])
            == After(registry, AfterAll(registry, db, collection, tenant, segments).value, collection, tenant, s)
  {
    assert (segments + [s])[..|segments|] == segments;
  }

  // ---- What the account says of each table ---------------------------------------------------------

  ghost function CommitAll(registry: Registry, store: Store, segments: seq<Segment>): Option<Store> {
    if segments == [] then Some(store)
    else
      var before := CommitAll(registry, store, segments[..|segments| - 1]);
      if before.None? then None else CommitTo(registry, before.value, segments[|segments| - 1].commit)
  }

  /** The collected rows are those of the commits, one after another, and nothing else. */
  lemma {:induction false} StoreIsCommits(registry: Registry, db: CollectorDb, collection: int, tenant: int,
                                          segments: seq<Segment>)
    requires AfterAll(registry, db, collection, tenant, segments).Some?
    ensures CommitAll(registry, db.store, segments)
              == Some(AfterAll(registry, db, collection, tenant, segments).value.store)
  {
    if segments != [] {
      hide Completed, BegunEndpoint, CommitTo;
      StoreIsCommits(registry, db, collection, tenant, segments[..|segments| - 1]);
    }
  }

  /** Endpoint runs are numbered one after another from the next free number, and each is completed under its number,
      with how it ended. No other endpoint run and no collection run changes. */
  lemma {:induction false} EndpointRows(registry: Registry, db: CollectorDb, collection: int, tenant: int,
                                        segments: seq<Segment>)
    requires AfterAll(registry, db, collection, tenant, segments).Some? && Numbered(db.control)
    ensures var c := AfterAll(registry, db, collection, tenant, segments).value.control;
            && c.nextEndpoint == db.control.nextEndpoint + |segments| && Numbered(c)
            && c.collections == db.control.collections && c.nextCollection == db.control.nextCollection
            && (forall i | 0 <= i < |segments| ::
                  && segments[i].run == db.control.nextEndpoint + i && segments[i].run in c.endpoints
                  && c.endpoints[segments[i].run] == EndpointRun(collection, segments[i].endpoint, tenant, true,
                                                                 segments[i].status == Succeeded,
                                                                 segments[i].classification))
            && (forall run | run < db.control.nextEndpoint ::
                  (run in c.endpoints <==> run in db.control.endpoints) &&
                    (run in c.endpoints ==> c.endpoints[run] == db.control.endpoints[run]))
  {
    hide After, Opened, Completed, BegunEndpoint, CommitTo;
    if segments != [] {
      var n := |segments| - 1;
      EndpointRows(registry, db, collection, tenant, segments[..n]);
      var before := AfterAll(registry, db, collection, tenant, segments[..n]).value;
      OneRow(registry, before, collection, tenant, segments[n]);
      assert forall i | 0 <= i < n :: segments[..n][i] == segments[i];
    }
  }

  lemma OneRow(registry: Registry, db: CollectorDb, collection: int, tenant: int, s: Segment)
    requires After(registry, db, collection, tenant, s).Some? && Numbered(db.control)
    ensures var c := After(registry, db, collection, tenant, s).value.control;
            && s.run == db.control.nextEndpoint && c.nextEndpoint == s.run + 1 && Numbered(c)
            && c.collections == db.control.collections && c.nextCollection == db.control.nextCollection
            && s.run in c.endpoints
            && c.endpoints[s.run] == EndpointRun(collection, s.endpoint, tenant, true, s.status == Succeeded,
                                                 s.classification)
            && (forall run | run != s.run ::
                  (run in c.endpoints <==> run in db.control.endpoints) &&
                    (run in c.endpoints ==> c.endpoints[run] == db.control.endpoints[run]))
  {
    hide CommitTo;
  }

  // A commit keeps to one tenant: a batch always does; what a report stores is not known.
  ghost predicate KeepsTo(commit: Commit, tenant: int) {
    match commit
    case NoCommit => true
    case Batch(written) => written.tenant == tenant
    case Report(report) => forall db :: report.store(db).Some? ==> OnlyTenantChanged(db, report.store(db).value, tenant)
  }

  /** Every other tenant's rows and assignments stay as they were. */
  lemma {:induction false} OthersUntouched(registry: Registry, store: Store, segments: seq<Segment>, tenant: int)
    requires CommitAll(registry, store, segments).Some?
    requires forall i | 0 <= i < |segments| :: KeepsTo(segments[i].commit, tenant)
    ensures OnlyTenantChanged(store, CommitAll(registry, store, segments).value, tenant)
  {
    if segments != [] {
      var n := |segments| - 1;
      var before := CommitAll(registry, store, segments[..n]).value;
      OthersUntouched(registry, store, segments[..n], tenant);
      CommitKeeps(registry, before, segments[n].commit, tenant);
    }
  }

  lemma CommitKeeps(registry: Registry, store: Store, commit: Commit, tenant: int)
    requires CommitTo(registry, store, commit).Some? && KeepsTo(commit, tenant)
    ensures OnlyTenantChanged(store, CommitTo(registry, store, commit).value, tenant)
  {
    hide Run, PlanCollection, OnlyTenantChanged;
    NothingChanged(store, tenant);
    if commit.Batch? {
      CollectionPlanOf(registry, commit.written);
      RunKeepsOtherTenants(store, PlanCollection(registry, commit.written).value, tenant);
    }
  }

  lemma NothingChanged(db: Store, tenant: int)
    ensures OnlyTenantChanged(db, db, tenant)
  {
  }

  /** No tenant's audit checkpoint moves, unless an endpoint runs under the audit collector's own id. */
  lemma {:induction false} AuditCheckpointsKept(registry: Registry, db: CollectorDb, collection: int, tenant: int,
                                                segments: seq<Segment>, audited: int)
    requires AfterAll(registry, db, collection, tenant, segments).Some?
    requires forall i | 0 <= i < |segments| :: segments[i].endpoint != COLLECTOR
    ensures CheckpointOf(AfterAll(registry, db, collection, tenant, segments).value.control.checkpoints, audited)
            == CheckpointOf(db.control.checkpoints, audited)
  {
    if segments != [] {
      hide CommitTo, CheckpointOf, Completed;
      var n := |segments| - 1;
      AuditCheckpointsKept(registry, db, collection, tenant, segments[..n], audited);
      var before, s := AfterAll(registry, db, collection, tenant, segments[..n]).value, segments[n];
      var begun := BegunEndpoint(before.control, collection, tenant, s.endpoint);
      CompletionKeepsAuditCheckpointIff(begun, s.run, s.status == Succeeded, s.classification, s.at, audited);
    }
  }

  // ---- What the calls amount to ----------------------------------------------------------------------

  ghost function Begins(calls: seq<Call>, run: int): nat {
    if calls == [] then 0
    else Begins(calls[..|calls| - 1], run) +
         if calls[|calls| - 1].BeganEndpoint? && calls[|calls| - 1].run == run then 1 else 0
  }

  ghost function Completions(calls: seq<Call>, run: int): nat {
    if calls == [] then 0
    else Completions(calls[..|calls| - 1], run) +
         if calls[|calls| - 1].CompletedEndpoint? && calls[|calls| - 1].run == run then 1 else 0
  }

  lemma {:induction false} CountsAdd(a: seq<Call>, b: seq<Call>, run: int)
    ensures Begins(a + b, run) == Begins(a, run) + Begins(b, run)
    ensures Completions(a + b, run) == Completions(a, run) + Completions(b, run)
  {
    if b == [] {
      assert a + b == a;
    } else {
      assert (a + b)[..|a + b| - 1] == a + b[..|b| - 1];
      CountsAdd(a, b[..|b| - 1], run);
    }
  }

  lemma SegmentCounts(segment: Segment, run: int)
    ensures Begins(segment.Calls(), run) == Completions(segment.Calls(), run) == if segment.run == run then 1 else 0
  {
    var began, done := [BeganEndpoint(segment.run, segment.endpoint)],
      [CompletedEndpoint(segment.run, segment.status == Succeeded)];
    var wrote := segment.Wrote();
    CountsAdd(began, wrote, run);
    CountsAdd(began + wrote, done, run);
    assert began[..0] == [] && done[..0] == [] && (wrote != [] ==> wrote[..0] == []);
  }

  // Run ids are new and increase, so no two segments share one.
  ghost predicate Increasing(segments: seq<Segment>) {
    forall i, j | 0 <= i < j < |segments| :: segments[i].run < segments[j].run
  }

  /** Every endpoint run that was begun is completed exactly once, and no other is. */
  lemma {:induction false} CompletedExactlyOnce(segments: seq<Segment>, run: int)
    requires Increasing(segments)
    ensures Begins(CallsOf(segments), run) == Completions(CallsOf(segments), run)
    ensures Begins(CallsOf(segments), run) == if exists i :: 0 <= i < |segments| && segments[i].run == run then 1 else 0
  {
    hide Segment.Calls, Begins, Completions;
    CountsOfNone(run);
    if segments != [] {
      var n := |segments| - 1;
      CompletedExactlyOnce(segments[..n], run);
      SegmentCounts(segments[n], run);
      CountsAdd(CallsOf(segments[..n]), segments[n].Calls(), run);
      RunsStep(segments, run);
    }
  }

  lemma CountsOfNone(run: int)
    ensures Begins([], run) == Completions([], run) == 0
  {
  }

  lemma RunsStep(segments: seq<Segment>, run: int)
    requires segments != []
    ensures var n := |segments| - 1;
            (exists i :: 0 <= i < |segments| && segments[i].run == run) <==>
              (exists i :: 0 <= i < n && segments[..n][i].run == run) || segments[n].run == run
  {
    var n := |segments| - 1;
    assert forall i | 0 <= i < n :: segments[..n][i] == segments[i];
  }
}
