/** The persistence boundary of the collection runtime: one transaction per collection, and the control
    rows of collection and endpoint runs (collectors/persistence/core.py). */
module CollectionWriting {
  import opened Basics
  import opened Checkpoints
  import opened Connections
  import opened Retry
  import opened Tables
  import opened PersistenceModes

  datatype RunStatus = Running | Success | PartialSuccess | Failed

  datatype CollectionRun = CollectionRun(tenant: int, selected: seq<string>, total: nat, status: RunStatus,
                                         passed: nat, failed: nat)

  datatype EndpointRun = EndpointRun(collection: int, endpoint: string, tenant: int, completed: bool, passed: bool,
                                     classification: Classification)

  datatype Control = Control(
    collections: map<int, CollectionRun>, endpoints: map<int, EndpointRun>, checkpoints: CheckpointTable,
    nextCollection: int, nextEndpoint: int)

  datatype CollectorDb = CollectorDb(store: Store, control: Control)

  // The sequences give positive numbers not yet in use.
  ghost predicate Numbered(c: Control) {
    && c.nextCollection > 0 && c.nextEndpoint > 0
    && (forall id | id in c.collections :: id < c.nextCollection)
    && (forall id | id in c.endpoints :: id < c.nextEndpoint)
  }

  datatype Status = Succeeded | Errored | Skipped

  // Mutated by the runtime after it has been put in the summary.
  class CollectionResult {
    var endpointId: string
    var status: Status
    var classification: Option<Classification>
    var rows: nat

    constructor (endpointId: string, status: Status, classification: Option<Classification>, rows: nat)
      ensures this.endpointId == endpointId && this.status == status && this.classification == classification
      ensures this.rows == rows
    {
      this.endpointId, this.status, this.classification, this.rows := endpointId, status, classification, rows;
    }
  }

  /** A parsed usage report: whether its rows are the tenant's, whether they fit, and what storing them does; None
      where the database refuses. How the rows are stored is not part of this model. */
  datatype UsageReport = UsageReport(trusted: bool, fits: bool, store: Store -> Option<Store>) {
    predicate Proper() { trusted && fits }
  }

  // What the writer has committed on behalf of the runtime, in order.
  datatype Call =
    | BeganCollection(collection: int, endpoints: seq<string>)
    | BeganEndpoint(run: int, endpoint: string)
    | Wrote(written: Collection)
    | WroteReport(endpoint: string)
    | CompletedEndpoint(run: int, succeeded: bool)
    | CompletedCollection(collection: int, passed: nat, failed: nat)

  function PassCount(statuses: seq<Status>): nat {
    if statuses == [] then 0
    else PassCount(statuses[..|statuses| - 1]) + if statuses[|statuses| - 1] == Succeeded then 1 else 0
  }

  lemma {:induction false} PassCountBounded(statuses: seq<Status>)
    ensures PassCount(statuses) <= |statuses|
    ensures PassCount(statuses) == |statuses| <==> forall i | 0 <= i < |statuses| :: statuses[i] == Succeeded
    ensures PassCount(statuses) == 0 <==> forall i | 0 <= i < |statuses| :: statuses[i] != Succeeded
  {
    if statuses != [] {
      var n := |statuses| - 1;
      PassCountBounded(statuses[..n]);
      assert forall i | 0 <= i < n :: statuses[..n][i] == statuses[i];
    }
  }

  // The status a closed collection run gets.
  function Closing(passed: nat, failed: nat): RunStatus {
    if failed == 0 then Success else if passed > 0 then PartialSuccess else Failed
  }

  /** A closed run succeeded if no result failed, failed if some did and none passed, and is partial otherwise. */
  lemma ClosingMeans(statuses: seq<Status>)
    ensures PassCount(statuses) <= |statuses|
    ensures var closing := Closing(PassCount(statuses), |statuses| - PassCount(statuses));
            && (closing == Success <==> forall i | 0 <= i < |statuses| :: statuses[i] == Succeeded)
            && (closing == Failed <==> statuses != [] && forall i | 0 <= i < |statuses| :: statuses[i] != Succeeded)
            && closing != Running
  {
    PassCountBounded(statuses);
    if statuses != [] && PassCount(statuses) == |statuses| { assert statuses[0] == Succeeded; }
  }

  function StoredClassification(c: Option<Classification>): Classification {
    if c.Some? then c.value else Unknown
  }

  // INSERT INTO control.collection_run, under the next number.
  function BegunCollection(c: Control, tenant: int, endpoints: seq<string>): Control {
    c.(collections := c.collections[c.nextCollection := CollectionRun(tenant, endpoints, |endpoints|, Running, 0, 0)],
       nextCollection := c.nextCollection + 1)
  }

  // INSERT INTO control.endpoint_run, likewise; the row reads ERROR until it is completed.
  function BegunEndpoint(c: Control, collection: int, tenant: int, endpoint: string): Control {
    c.(endpoints := c.endpoints[c.nextEndpoint := EndpointRun(collection, endpoint, tenant, false, false, Unknown)],
       nextEndpoint := c.nextEndpoint + 1)
  }

  // UPDATE control.endpoint_run
  function Updated(c: Control, run: int, passed: bool, classification: Classification): Control {
    if run !in c.endpoints then c
    else c.(endpoints := c.endpoints[run := c.endpoints[run].(completed := true, passed := passed,
                                                              classification := classification)])
  }

  // ... and, for a passing run that exists, the checkpoint under its endpoint id.
  function Completed(c: Control, run: int, passed: bool, classification: Classification, at: int): Control {
    var updated := Updated(c, run, passed, classification);
    if run !in c.endpoints || !passed then updated
    else updated.(checkpoints := Touched(c.checkpoints, c.endpoints[run].tenant, c.endpoints[run].endpoint, at))
  }

  /** Completing an endpoint run leaves a tenant's audit checkpoint alone exactly unless it passes, exists,
      is that tenant's, runs under the audit collector's id and writes another time. */
  lemma CompletionKeepsAuditCheckpointIff(c: Control, run: int, passed: bool, classification: Classification, at: int,
                                          audited: int)
    ensures CheckpointOf(Completed(c, run, passed, classification, at).checkpoints, audited)
              == CheckpointOf(c.checkpoints, audited) <==>
            !(passed && run in c.endpoints && c.endpoints[run].tenant == audited &&
              c.endpoints[run].endpoint == COLLECTOR
              && CheckpointOf(c.checkpoints, audited) != Some(at))
  {
    if run in c.endpoints {
      TouchedKeepsAuditIff(c.checkpoints, c.endpoints[run].tenant, c.endpoints[run].endpoint, at, audited);
    }
  }

  // The status of a collection left running is set to failed.
  function Abandoned(c: Control, collection: int): Control
    requires collection in c.collections
  {
    c.(collections := c.collections[collection := c.collections[collection].(status := Failed)])
  }

  // UPDATE control.collection_run
  function Closed(c: Control, collection: int, passed: nat, failed: nat): Control {
    if collection !in c.collections then c
    else c.(collections := c.collections[collection :=
      c.collections[collection].(status := Closing(passed, failed), passed := passed, failed := failed)])
  }

  ghost function StatusesOf(results: seq<CollectionResult>): seq<Status>
    reads results
  {
    seq(|results|, i requires 0 <= i < |results| reads results => results[i].status)
  }

  ghost function PlanEach(e: Endpoint, rs: seq<Record>, users: bool): Plan {
    if users then PlanUsers(e, rs) else PlanRecords(e, rs)
  }

  lemma PlanEachOf(e: Endpoint, rs: seq<Record>, users: bool, tenant: int)
    requires forall r | r in rs :: OfTrusted(r, tenant)
    ensures PlanOf(PlanEach(e, rs, users), tenant)
  {
    RecordsPlanOf(e, rs, tenant);
  }

  lemma PlanStep(e: Endpoint, rs: seq<Record>, users: bool, tenant: int, i: nat)
    requires i < |rs| && forall r | r in rs :: OfTrusted(r, tenant)
    ensures PlanEach(e, rs[..i + 1], users)
              == Both(PlanEach(e, rs[..i], users), if users then PlanUser(e, rs[i]) else PlanRecord(e, rs[i]))
    ensures PlanOf(PlanEach(e, rs[..i], users), tenant)
    ensures PlanOf(if users then PlanUser(e, rs[i]) else PlanRecord(e, rs[i]), tenant)
    ensures PlanOf(PlanEach(e, rs[..i + 1], users), tenant)
  {
    assert rs[..i + 1][..i] == rs[..i];
    RecordsPlanOf(e, rs[..i], tenant);
    RecordsPlanOf(e, rs[..i + 1], tenant);
    RecordPlanOf(e, rs[i], tenant);
    UserPlanOf(e, rs[i], tenant);
  }

  lemma RunBoth(db: Store, a: Plan, b: Plan, tenant: int)
    requires a.Ok? && b.Ok? && PlanOf(a, tenant) && PlanOf(b, tenant)
    ensures Both(a, b) == Ok(a.value + b.value) && AllWellFormed(a.value) && AllWellFormed(b.value)
    ensures AllWellFormed(a.value + b.value)
    ensures Run(db, a.value + b.value) == if Run(db, a.value).None? then None else Run(Run(db, a.value).value, b.value)
  {
    RunTwo(db, a.value, b.value);
  }

  // The plan can be made and the database refuses none of it.
  ghost predicate Runs(db: Store, p: Plan) { p.Ok? && AllWellFormed(p.value) && Run(db, p.value).Some? }

  lemma {:induction false} RunFront(db: Store, ss: seq<Statement>, n: nat)
    requires n <= |ss| && AllWellFormed(ss) && Run(db, ss).Some?
    ensures AllWellFormed(ss[..n]) && Run(db, ss[..n]).Some?
  {
    if n < |ss| {
      RunFront(db, ss[..|ss| - 1], n);
      assert ss[..|ss| - 1][..n] == ss[..n];
    } else {
      assert ss[..n] == ss;
    }
  }

  lemma RunsBoth(db: Store, a: Plan, b: Plan, tenant: int)
    requires PlanOf(a, tenant) && PlanOf(b, tenant)
    ensures Runs(db, Both(a, b)) <==> Runs(db, a) && Runs(Run(db, a.value).value, b)
  {
    hide Run;
    if a.Ok? && b.Ok? { RunBoth(db, a, b, tenant); }
  }

  // A plan that runs has run so far, and its next record's runs now.
  lemma {:induction false} EachFront(db: Store, e: Endpoint, rs: seq<Record>, users: bool, tenant: int, i: nat)
    requires i < |rs| && (forall r | r in rs :: OfTrusted(r, tenant)) && Runs(db, PlanEach(e, rs, users))
    ensures Runs(db, PlanEach(e, rs[..i], users))
    ensures Runs(Run(db, PlanEach(e, rs[..i], users).value).value, if users then PlanUser(e, rs[i])
                                                                   else PlanRecord(e, rs[i]))
    decreases |rs|
  {
    hide Runs, OfTrusted, PlanUser, PlanRecord, Both, PlanOf;
    var n := |rs| - 1;
    PlanStep(e, rs, users, tenant, n);
    assert rs[..n + 1] == rs;
    RunsBoth(db, PlanEach(e, rs[..n], users), if users then PlanUser(e, rs[n]) else PlanRecord(e, rs[n]), tenant);
    if i < n {
      EachFront(db, e, rs[..n], users, tenant, i);
      assert rs[..n][..i] == rs[..i];
    }
  }

  ghost predicate RunsTo(db: Store, p: Plan, after: Store) {
    p.Ok? && AllWellFormed(p.value) && Run(db, p.value) == Some(after)
  }

  lemma AllRun(db: Store, p: Plan, after: Store)
    requires RunsTo(db, p, after)
    ensures p.Ok? && AllWellFormed(p.value) && Run(db, p.value) == Some(after)
  {
  }

  lemma NothingPlanned(db: Store, e: Endpoint, rs: seq<Record>, users: bool, tenant: int)
    ensures var p := PlanEach(e, rs[..0], users); Runs(db, p) && PlanOf(p, tenant) && RunsTo(db, p, db)
  {
    assert rs[..0] == [];
  }

  lemma StoredIsRun(registry: Registry, db: Store, c: Collection)
    ensures Stored(registry, db, c).Some? <==> BoundaryOk(registry, c) && Runs(db, PlanCollection(registry, c))
  {
    hide Run;
    if BoundaryOk(registry, c) { CollectionPlanOf(registry, c); }
  }

  lemma RanIsStored(registry: Registry, db: Store, c: Collection, after: Store)
    requires BoundaryOk(registry, c) && RunsTo(db, PlanCollection(registry, c), after)
    ensures Stored(registry, db, c) == Some(after) && OnlyTenantChanged(db, after, c.tenant)
  {
    hide Run, PlanCollection, OnlyTenantChanged;
    CollectionPlanOf(registry, c);
    RunKeepsOtherTenants(db, PlanCollection(registry, c).value, c.tenant);
  }

  lemma NoUsersPlanned(db: Store, e: Endpoint)
    ensures RunsTo(db, PlanUsersBatch(e, []), db) && Runs(db, PlanUsersBatch(e, []))
  {
  }

  // What a users batch comes to: plain upserts, or a cleared set filled again.
  lemma UsersPlanned(db: Store, e: Endpoint, rs: seq<Record>, tenant: int)
    requires rs != [] && forall r | r in rs :: OfTrusted(r, tenant)
    ensures |TenantIds(rs)| != 1 ==> !Runs(db, PlanUsersBatch(e, rs))
    ensures |TenantIds(rs)| == 1 && !Refreshes(rs) ==> PlanUsersBatch(e, rs) == PlanEach(e, rs, false)
    ensures Refreshes(rs) ==>
              && rs[0].current.Some? && TenantOk(rs[0].current.value) && rs[0].current.value[TENANT].n == tenant
              && var clear := [ClearAssignments(tenant)];
                 AllWellFormed(clear) && Run(db, clear).Some?
                 && (|TenantIds(rs)| == 1 ==>
                       (Runs(db, PlanUsersBatch(e, rs)) <==> Runs(Run(db, clear).value, PlanEach(e, rs, true))))
  {
    hide OfTrusted, TenantIds, Refreshes, Run;
    if Refreshes(rs) {
      FirstTenant(Collection(USERS, tenant, rs));
      var clear := [ClearAssignments(tenant)];
      PlanEachOf(e, rs, true, tenant);
      RunsBoth(db, Ok(clear), PlanEach(e, rs, true), tenant);
      ClearRuns(db, tenant);
    }
  }

  lemma ClearedThenRan(db: Store, e: Endpoint, rs: seq<Record>, tenant: int, after: Store)
    requires rs != [] && |TenantIds(rs)| == 1 && Refreshes(rs) && forall r | r in rs :: OfTrusted(r, tenant)
    requires AllWellFormed([ClearAssignments(tenant)]) && Run(db, [ClearAssignments(tenant)]).Some?
    requires RunsTo(Run(db, [ClearAssignments(tenant)]).value, PlanEach(e, rs, true), after)
    ensures RunsTo(db, PlanUsersBatch(e, rs), after)
  {
    hide OfTrusted, TenantIds, Run;
    FirstTenant(Collection(USERS, tenant, rs));
    PlanEachOf(e, rs, true, tenant);
    RunBoth(db, Ok([ClearAssignments(tenant)]), PlanEach(e, rs, true), tenant);
  }

  class CollectionWriter {
    const connection: Connection<CollectorDb>
    const registry: Registry
    const clock: nat -> int
    const hasRecordWriter: bool
    ghost var calls: seq<Call>

    ghost predicate Valid()
      reads this, connection
    {
      connection.Idle() && Numbered(connection.committed.control)
    }

    constructor (connection: Connection<CollectorDb>, registry: Registry, clock: nat -> int, hasRecordWriter: bool)
      requires connection.Idle() && Numbered(connection.committed.control)
      ensures Valid() && this.connection == connection && calls == []
    {
      this.connection, this.registry, this.clock, this.hasRecordWriter := connection, registry, clock, hasRecordWriter;
      calls := [];
    }

    ghost predicate Unmoved(db: CollectorDb, log: seq<CollectorDb>, before: seq<Call>)
      reads this, connection
    {
      connection.committed == db && connection.log == log && calls == before
    }

    method BeginCollectionRun(tenant: int, endpoints: seq<string>) returns (r: Result<int, PersistenceError>)
      requires Valid()
      modifies this`calls, connection
      ensures Valid()
      ensures tenant <= 0 || endpoints == [] ==> r.Raise?
      ensures connection.Reliable() ==> (r.Ok? <==> tenant > 0 && endpoints != [])
      ensures r.Raise? ==> Unmoved(old(connection.committed), old(connection.log), old(calls))
      ensures r.Ok? ==> r.value > 0 && r.value !in old(connection.committed).control.collections
      ensures r.Ok? ==> r.value == old(connection.committed).control.nextCollection
      ensures r.Ok? ==> calls == old(calls) + [BeganCollection(r.value, endpoints)]
      ensures r.Ok? ==>
                connection.committed == old(connection.committed).(
                  control := BegunCollection(old(connection.committed).control, tenant, endpoints))
    {
      if tenant <= 0 { return Raise(Malformed); }
      if endpoints == [] { return Raise(Malformed); }
      var control := connection.working.control;
      var id := control.nextCollection;
      var ok := connection.Execute(connection.working.(control := control.(
        collections := control.collections[id := CollectionRun(tenant, endpoints, |endpoints|, Running, 0, 0)],
        nextCollection := id + 1)));
      if !ok { return Raise(StatementFailed); }
      ok := connection.Commit();
      if !ok { return Raise(StatementFailed); }
      calls := calls + [BeganCollection(id, endpoints)];
      r := Ok(id);
    }

    method BeginEndpointRun(collection: int, tenant: int, endpoint: string) returns (r: Result<int, PersistenceError>)
      requires Valid()
      modifies this`calls, connection
      ensures Valid()
      ensures collection <= 0 || tenant <= 0 ==> r.Raise?
      ensures connection.Reliable() ==> (r.Ok? <==> collection > 0 && tenant > 0)
      ensures r.Raise? ==> Unmoved(old(connection.committed), old(connection.log), old(calls))
      ensures r.Ok? ==> r.value > 0 && r.value !in old(connection.committed).control.endpoints
      ensures r.Ok? ==> r.value == old(connection.committed).control.nextEndpoint
      ensures r.Ok? ==> calls == old(calls) + [BeganEndpoint(r.value, endpoint)]
      ensures r.Ok? ==>
                connection.committed == old(connection.committed).(
                  control := BegunEndpoint(old(connection.committed).control, collection, tenant, endpoint))
    {
      if collection <= 0 || tenant <= 0 { return Raise(Malformed); }
      var control := connection.working.control;
      var id := control.nextEndpoint;
      var ok := connection.Execute(connection.working.(control := control.(
        endpoints := control.endpoints[id := EndpointRun(collection, endpoint, tenant, false, false, Unknown)],
        nextEndpoint := id + 1)));
      if !ok { return Raise(StatementFailed); }
      ok := connection.Commit();
      if !ok { return Raise(StatementFailed); }
      calls := calls + [BeganEndpoint(id, endpoint)];
      r := Ok(id);
    }

    /** A passing endpoint also stamps the checkpoint kept under its own id, whatever was there. */
    method CompleteEndpointRun(run: int, result: CollectionResult) returns (r: Result<(), PersistenceError>)
      requires Valid()
      modifies this`calls, connection
      ensures Valid()
      ensures !Storable(StoredClassification(result.classification)) ==> r.Raise?
      ensures connection.Reliable() ==> (r.Ok? <==> Storable(StoredClassification(result.classification)))
      ensures r.Raise? ==> Unmoved(old(connection.committed), old(connection.log), old(calls))
      ensures r.Ok? ==> calls == old(calls) + [CompletedEndpoint(run, result.status == Succeeded)]
      ensures r.Ok? ==> connection.committed.store == old(connection.committed).store
      ensures r.Ok? ==> connection.committed.control.nextEndpoint == old(connection.committed).control.nextEndpoint
      ensures r.Ok? ==>
                connection.committed.control == Completed(old(connection.committed).control, run,
                                                          result.status == Succeeded,
                                                          StoredClassification(result.classification),
                                                          clock(old(connection.steps)))
    {
      var classification := StoredClassification(result.classification);
      if !Storable(classification) { return Raise(Malformed); }
      var at := clock(connection.steps);
      var control := connection.working.control;
      var ok := connection.Execute(connection.working.(control :=
        Updated(control, run, result.status == Succeeded, classification)));
      if !ok { return Raise(StatementFailed); }
      if run in control.endpoints && result.status == Succeeded {
        ok := connection.Execute(connection.working.(control := Completed(control, run, true, classification, at)));
        if !ok { return Raise(StatementFailed); }
      }
      ok := connection.Commit();
      if !ok { return Raise(StatementFailed); }
      calls := calls + [CompletedEndpoint(run, result.status == Succeeded)];
      assert connection.committed.control
        == Completed(old(connection.committed).control, run, result.status == Succeeded, classification, at);
      r := Ok(());
    }

    method CompleteCollectionRun(collection: int, results: seq<CollectionResult>)
      returns (r: Result<(), PersistenceError>)
      requires Valid()
      modifies this`calls, connection
      ensures Valid()
      ensures connection.Reliable() ==> r.Ok?
      ensures r.Raise? ==> Unmoved(old(connection.committed), old(connection.log), old(calls))
      ensures r.Ok? ==>
                var passed := PassCount(StatusesOf(results));
                && passed <= |results|
                && calls == old(calls) + [CompletedCollection(collection, passed, |results| - passed)]
                && connection.committed.store == old(connection.committed).store
                && connection.committed.control
                   == Closed(old(connection.committed).control, collection, passed, |results| - passed)
    {
      var passed := 0;
      for i := 0 to |results|
        invariant passed == PassCount(StatusesOf(results[..i])) && passed <= i
      {
        assert results[..i + 1][..i] == results[..i];
        assert StatusesOf(results[..i + 1])[..i] == StatusesOf(results[..i]);
        if results[i].status == Succeeded { passed := passed + 1; }
      }
      assert results[..|results|] == results;
      var ok := connection.Execute(connection.working.(control :=
        Closed(connection.working.control, collection, passed, |results| - passed)));
      if !ok { return Raise(StatementFailed); }
      ok := connection.Commit();
      if !ok { return Raise(StatementFailed); }
      calls := calls + [CompletedCollection(collection, passed, |results| - passed)];
      r := Ok(());
    }

    /** Closes a collection left running; refuses, changing nothing, if it is not. */
    method RecoverOrphaned(collection: int) returns (r: Result<(), PersistenceError>)
      requires Valid()
      modifies connection
      ensures Valid()
      ensures r.Raise? ==> Unmoved(old(connection.committed), old(connection.log), old(calls))
      ensures connection.Reliable() ==>
                var control := old(connection.committed).control;
                (r.Ok? <==> collection in control.collections && control.collections[collection].status == Running
                            && collection > 0)
      ensures r.Ok? ==>
                var control := old(connection.committed).control;
                && collection in control.collections && control.collections[collection].status == Running
                && connection.committed == old(connection.committed).(control := Abandoned(control, collection))
    {
      if collection <= 0 { return Raise(Malformed); }
      var control := connection.working.control;
      if !(collection in control.collections && control.collections[collection].status == Running) {
        connection.Rollback();
        return Raise(StatementFailed);
      }
      var ok := connection.Execute(connection.working.(control := Abandoned(control, collection)));
      if !ok { return Raise(StatementFailed); }
      ok := connection.Commit();
      if !ok { return Raise(StatementFailed); }
      r := Ok(());
    }

    // One record's statements, one after another.
    method RunStatements(ss: seq<Statement>) returns (ok: bool)
      requires connection.Valid() && AllWellFormed(ss)
      modifies connection
      ensures connection.Valid() && connection.committed == old(connection.committed)
      ensures connection.log == old(connection.log)
      ensures ok ==> Run(old(connection.working).store, ss) == Some(connection.working.store)
      ensures connection.Reliable() ==> (ok <==> Run(old(connection.working).store, ss).Some?)
      ensures ok ==> connection.working.control == old(connection.working).control
    {
      for i := 0 to |ss|
        invariant connection.Valid() && connection.committed == old(connection.committed)
        invariant connection.log == old(connection.log)
        invariant Run(old(connection.working).store, ss[..i]) == Some(connection.working.store)
        invariant connection.working.control == old(connection.working).control
      {
        assert ss[..i + 1][..i] == ss[..i];
        var effect := Effect(connection.working.store, ss[i]);
        if effect.None? {
          if Run(old(connection.working).store, ss).Some? { RunFront(old(connection.working).store, ss, i + 1); }
          return false;
        }
        ok := connection.Execute(connection.working.(store := effect.value));
        if !ok { return; }
      }
      assert ss[..|ss|] == ss;
      ok := true;
    }

    // Nothing but a failing statement keeps the collection from being stored.
    ghost predicate Writable(store: Store, c: Collection) {
      (hasRecordWriter || c.records == []) && Stored(registry, store, c).Some?
    }

    /** The whole collection or nothing, and nothing of any tenant but the trusted one. */
    method Write(c: Collection) returns (r: Result<(), PersistenceError>)
      requires Valid()
      modifies this`calls, connection
      ensures Valid()
      ensures !Writable(old(connection.committed).store, c) ==> r.Raise?
      ensures connection.Reliable() ==> (r.Ok? <==> Writable(old(connection.committed).store, c))
      ensures r.Raise? ==> Unmoved(old(connection.committed), old(connection.log), old(calls))
      ensures r.Ok? ==>
                && Stored(registry, old(connection.committed).store, c) == Some(connection.committed.store)
                && connection.committed.control == old(connection.committed).control
                && OnlyTenantChanged(old(connection.committed).store, connection.committed.store, c.tenant)
      ensures r.Ok? ==>
                connection.log == old(connection.log) + [connection.committed] && calls == old(calls) + [Wrote(c)]
    {
      hide BoundaryOk, PlanCollection, OnlyTenantChanged, Numbered, RunsTo, Runs, Stored;
      ghost var before := connection.committed;
      StoredIsRun(registry, before.store, c);
      if !BoundaryOk(registry, c) {
        return Raise(BoundaryViolated);
      }
      var ok := connection.Execute(connection.working);    // BEGIN
      if !ok {
        connection.Rollback();
        return Raise(StatementFailed);
      }
      if c.records != [] && !hasRecordWriter {
        connection.Rollback();
        return Raise(NoRecordWriter);
      }
      var dispatched := Dispatch(c);
      if dispatched.Raise? {
        connection.Rollback();
        return Raise(dispatched.error);
      }
      RanIsStored(registry, before.store, c, connection.working.store);
      ok := connection.Commit();
      if !ok {
        connection.Rollback();
        return Raise(StatementFailed);
      }
      calls := calls + [Wrote(c)];
      r := Ok(());
    }

    /** A whole usage report in one commit, or nothing. Another tenant's rows are refused before the transaction is
        opened, and rows that do not fit in it; both are ValueErrors, told apart from a failing statement. */
    method WriteUsageReport(endpoint: string, report: UsageReport, tenant: int)
      returns (r: Result<(), PersistenceError>)
      requires Valid()
      modifies this`calls, connection
      ensures Valid()
      ensures tenant <= 0 || !report.trusted ==> r == Raise(Malformed) && unchanged(connection)
      ensures r == Raise(Malformed) ==> tenant <= 0 || !report.Proper()
      ensures !report.Proper() ==> r.Raise?
      ensures connection.Reliable() && !report.Proper() ==> r == Raise(Malformed)
      ensures connection.Reliable() ==>
                (r.Ok? <==> tenant > 0 && report.Proper() && report.store(old(connection.committed).store).Some?)
      ensures r.Raise? ==> Unmoved(old(connection.committed), old(connection.log), old(calls))
      ensures r.Ok? ==>
                && report.store(old(connection.committed).store) == Some(connection.committed.store)
                && connection.committed.control == old(connection.committed).control
      ensures r.Ok? ==> calls == old(calls) + [WroteReport(endpoint)]
    {
      if tenant <= 0 || !report.trusted { return Raise(Malformed); }
      var ok := connection.Execute(connection.working);    // BEGIN
      if ok && !report.fits {
        connection.Rollback();
        return Raise(Malformed);
      }
      if ok {
        var stored := report.store(connection.working.store);
        if stored.None? {
          ok := false;
        } else {
          ok := connection.Execute(connection.working.(store := stored.value));
        }
      }
      if ok { ok := connection.Commit(); }
      if !ok {
        connection.Rollback();
        return Raise(StatementFailed);
      }
      calls := calls + [WroteReport(endpoint)];
      r := Ok(());
    }

    method Dispatch(c: Collection) returns (r: Result<(), PersistenceError>)
      requires connection.Valid() && BoundaryOk(registry, c)
      modifies connection
      ensures connection.Valid() && connection.committed == old(connection.committed)
      ensures connection.log == old(connection.log)
      ensures r.Ok? ==> RunsTo(old(connection.working).store, PlanCollection(registry, c), connection.working.store)
      ensures connection.Reliable() ==> (r.Ok? <==> Runs(old(connection.working).store, PlanCollection(registry, c)))
      ensures r.Ok? ==> connection.working.control == old(connection.working).control
    {
      CollectionPlanOf(registry, c);
      hide Run, PlanOf, OfTrusted, PlanUsersBatch, PlanRecords;
      if c.endpointId == USERS {
        r := DispatchUsers(registry[c.endpointId], c.records, c.tenant);
      } else {
        r := DispatchEach(registry[c.endpointId], c.records, false, c.tenant);
      }
    }

    method DispatchUsers(e: Endpoint, rs: seq<Record>, tenant: int) returns (r: Result<(), PersistenceError>)
      requires connection.Valid() && forall r | r in rs :: OfTrusted(r, tenant)
      modifies connection
      ensures connection.Valid() && connection.committed == old(connection.committed)
      ensures connection.log == old(connection.log)
      ensures r.Ok? ==> RunsTo(old(connection.working).store, PlanUsersBatch(e, rs), connection.working.store)
      ensures connection.Reliable() ==> (r.Ok? <==> Runs(old(connection.working).store, PlanUsersBatch(e, rs)))
      ensures r.Ok? ==> connection.working.control == old(connection.working).control
    {
      hide PlanEach, RunsTo, Runs, OfTrusted, TenantIds, Refreshes, Run;
      if rs == [] {
        NoUsersPlanned(connection.working.store, e);
        return Ok(());
      }
      UsersPlanned(connection.working.store, e, rs, tenant);
      if |TenantIds(rs)| != 1 {
        return Raise(OneTenantRequired);
      }
      if !Refreshes(rs) {
        r := DispatchEach(e, rs, false, tenant);
        return;
      }
      ghost var start := connection.working.store;
      var ok := RunStatements([ClearAssignments(rs[0].current.value[TENANT].n)]);
      if !ok {
        return Raise(StatementFailed);
      }
      r := DispatchEach(e, rs, true, tenant);
      if r.Ok? { ClearedThenRan(start, e, rs, tenant, connection.working.store); }
    }

    method DispatchEach(e: Endpoint, rs: seq<Record>, users: bool, tenant: int)
      returns (r: Result<(), PersistenceError>)
      requires connection.Valid() && forall r | r in rs :: OfTrusted(r, tenant)
      modifies connection
      ensures connection.Valid() && connection.committed == old(connection.committed)
      ensures connection.log == old(connection.log)
      ensures r.Ok? ==> RunsTo(old(connection.working).store, PlanEach(e, rs, users), connection.working.store)
      ensures connection.Reliable() ==> (r.Ok? <==> Runs(old(connection.working).store, PlanEach(e, rs, users)))
      ensures r.Ok? ==> connection.working.control == old(connection.working).control
    {
      hide PlanEach, Run, OfTrusted, PlanUser, PlanRecord, Both, Runs, PlanOf, AllWellFormed;
      ghost var start := connection.working.store;
      NothingPlanned(start, e, rs, users, tenant);
      for i := 0 to |rs|
        invariant connection.Valid() && connection.committed == old(connection.committed)
        invariant connection.log == old(connection.log)
        invariant Runs(start, PlanEach(e, rs[..i], users)) && PlanOf(PlanEach(e, rs[..i], users), tenant)
        invariant RunsTo(start, PlanEach(e, rs[..i], users), connection.working.store)
        invariant connection.working.control == old(connection.working).control
      {
        var ok := DispatchOne(e, rs, users, tenant, i, start);
        if ok.Raise? {
          return Raise(ok.error);
        }
      }
      assert rs[..|rs|] == rs;
      AllRun(start, PlanEach(e, rs, users), connection.working.store);
      r := Ok(());
    }

    method DispatchOne(e: Endpoint, rs: seq<Record>, users: bool, tenant: int, i: nat, ghost start: Store)
      returns (r: Result<(), PersistenceError>)
      requires connection.Valid() && i < |rs| && forall r | r in rs :: OfTrusted(r, tenant)
      requires RunsTo(start, PlanEach(e, rs[..i], users), connection.working.store)
      requires PlanOf(PlanEach(e, rs[..i], users), tenant)
      modifies connection
      ensures connection.Valid() && connection.committed == old(connection.committed)
      ensures connection.log == old(connection.log)
      ensures r.Ok? ==>
                RunsTo(start, PlanEach(e, rs[..i + 1], users), connection.working.store) &&
                PlanOf(PlanEach(e, rs[..i + 1], users), tenant)
      ensures r.Ok? ==> Runs(start, PlanEach(e, rs[..i + 1], users))
      ensures r.Ok? ==> connection.working.control == old(connection.working).control
      ensures connection.Reliable() && r.Raise? ==> !Runs(start, PlanEach(e, rs, users))
    {
      hide PlanEach, Run, OfTrusted, PlanUser, PlanRecord, Both;
      PlanStep(e, rs, users, tenant, i);
      ghost var before := PlanEach(e, rs[..i], users);
      var plan := if users then PlanUser(e, rs[i]) else PlanRecord(e, rs[i]);
      if Runs(start, PlanEach(e, rs, users)) { EachFront(start, e, rs, users, tenant, i); }
      if plan.Raise? {
        return Raise(plan.error);
      }
      RunBoth(start, before, plan, tenant);
      var ok := RunStatements(plan.value);
      if !ok {
        return Raise(StatementFailed);
      }
      r := Ok(());
    }
  }
}
