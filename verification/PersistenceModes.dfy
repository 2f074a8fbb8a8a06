/** From normalized records to statements: the five persistence modes, their checks, and the users
    batch (collectors/persistence/core.py, collectors/workloads/models.py). */
module PersistenceModes {
  import opened Basics
  import opened Tables

  datatype Mode = CurrentOnly | Reference | Event | CurrentWithSnapshot | CurrentWithHistory

  /** `main` is the current, reference or event table, `second` the snapshot or history table. */
  datatype Endpoint = Endpoint(mode: Mode, main: Table, second: Option<Table>, eventSource: Option<string>)

  // Registered endpoints, each with the tables of its mode.
  type Registry = map<string, Endpoint>

  datatype Record = Record(
    endpointId: string, mode: Mode,
    current: Option<Row>, snapshot: Option<Row>, history: Option<Row>, event: Option<Row>, reference: Option<Row>)
  {
    function Rows(): seq<Row> {
      One(current) + One(snapshot) + One(history) + One(event) + One(reference)
    }
  }

  function One(row: Option<Row>): seq<Row> { if row.Some? then [row.value] else [] }

  datatype PersistenceError =
    | BoundaryViolated | TenantMalformed | RowMissing
    | ColumnMissing | SourceMismatch | OneTenantRequired | LicencesMalformed | NoRecordWriter
    | StatementFailed | Malformed

  type Plan = Result<seq<Statement>, PersistenceError>

  // A row's tenant_id is a positive integer.
  predicate TenantOk(row: Row) { Get(row, TENANT).Num? && Get(row, TENANT).n > 0 }

  predicate TenantsOk(r: Record) { forall row: Row | row in r.Rows() :: TenantOk(row) }

  predicate OfTrusted(r: Record, tenant: int) {
    forall row: Row | row in r.Rows() :: TenantOk(row) && row[TENANT].n == tenant
  }

  // `s`, unless the row lacks a column.
  function PlanRow(t: Table, row: Row, s: Statement): Plan {
    if HasColumns(t, row) then Ok([s]) else Raise(ColumnMissing)
  }

  function Both(a: Plan, b: Plan): Plan {
    match a
    case Raise(e) => Raise(e)
    case Ok(x) => match b case Raise(e) => Raise(e) case Ok(y) => Ok(x + y)
  }

  /** One record's statements. Its mode has been checked against the endpoint's. */
  function PlanRecord(e: Endpoint, r: Record): Plan {
    match e.mode
    case CurrentOnly =>
      if r.current.None? then Raise(RowMissing)
      else if !TenantsOk(r) then Raise(TenantMalformed)
      else PlanRow(e.main, r.current.value, Upsert(e.main, r.current.value))
    case Reference =>
      if r.reference.None? then Raise(RowMissing)
      else if !TenantsOk(r) then Raise(TenantMalformed)
      else PlanRow(e.main, r.reference.value, Upsert(e.main, r.reference.value))
    case Event =>
      if r.event.None? then Raise(RowMissing)
      else if !TenantsOk(r) then Raise(TenantMalformed)
      else if "event_source" in e.main.columns &&
              (e.eventSource.None? || Get(r.event.value, "event_source") != Str(e.eventSource.value))
                then Raise(SourceMismatch)
      else PlanRow(e.main, r.event.value, InsertIgnore(e.main, r.event.value))
    case CurrentWithSnapshot =>
      if r.current.None? || r.snapshot.None? || e.second.None? then Raise(RowMissing)
      else if !TenantsOk(r) then Raise(TenantMalformed)
      else Both(PlanRow(e.main, r.current.value, Upsert(e.main, r.current.value)),
                PlanRow(e.second.value, r.snapshot.value, InsertIgnore(e.second.value, r.snapshot.value)))
    case CurrentWithHistory =>
      if r.current.None? || r.history.None? || e.second.None? then Raise(RowMissing)
      else if !TenantsOk(r) then Raise(TenantMalformed)
      else Both(PlanRow(e.main, r.current.value, UpsertIfDistinct(e.main, r.current.value)),
                PlanRow(e.second.value, r.history.value, InsertIgnore(e.second.value, r.history.value)))
  }

  ghost function PlanRecords(e: Endpoint, rs: seq<Record>): Plan {
    if rs == [] then Ok([]) else Both(PlanRecords(e, rs[..|rs| - 1]), PlanRecord(e, rs[|rs| - 1]))
  }

  // ---- Users and their licences ---------------------------------------------------------------------

  const USERS := "G01-001"
  const LICENCES := "_assigned_licenses"

  predicate Present(r: Record) { r.current.Some? && r.current.value != map[] }

  predicate CarriesLicences(r: Record) { Present(r) && Truthy(Get(r.current.value, LICENCES + "_available")) }

  function TenantIds(rs: seq<Record>): set<Json> {
    set r | r in rs && Present(r) :: Get(r.current.value, TENANT)
  }

  function AssignAll(row: Row, skus: seq<Json>, user: Json, observedAt: Json): seq<Statement>
    requires TenantOk(row)
  {
    seq(|skus|, i requires 0 <= i < |skus| => Assign(row[TENANT].n, user, skus[i], observedAt))
  }

  // A user's upsert and one assignment per SKU.
  function PlanUser(e: Endpoint, r: Record): Plan {
    var upsert := PlanRecord(e, r);
    if upsert.Raise? || r.current.None? || !TenantOk(r.current.value) then upsert
    else
      var row := r.current.value;
      if LICENCES !in row then upsert
      else if !row[LICENCES].Arr? then Raise(LicencesMalformed)
      else Both(upsert, Ok(AssignAll(row, row[LICENCES].items, Get(row, "source_object_id"),
                                     Get(row, "last_observed_at"))))
  }

  ghost function PlanUsers(e: Endpoint, rs: seq<Record>): Plan {
    if rs == [] then Ok([]) else Both(PlanUsers(e, rs[..|rs| - 1]), PlanUser(e, rs[|rs| - 1]))
  }

  // Whether the batch replaces the tenant's assignments or leaves them alone.
  predicate Refreshes(rs: seq<Record>) { rs != [] && forall r | r in rs :: CarriesLicences(r) }

  ghost function PlanUsersBatch(e: Endpoint, rs: seq<Record>): Plan {
    if rs == [] then Ok([])
    else if |TenantIds(rs)| != 1 then Raise(OneTenantRequired)
    else if !Refreshes(rs) then PlanRecords(e, rs)
    else if assert rs[0] in rs; !TenantOk(rs[0].current.value) then Raise(TenantMalformed)
    else Both(Ok([ClearAssignments(rs[0].current.value[TENANT].n)]), PlanUsers(e, rs))
  }

  // ---- A collection -----------------------------------------------------------------------------------

  datatype Collection = Collection(endpointId: string, tenant: int, records: seq<Record>)

  /** What is checked before a transaction is opened. */
  predicate BoundaryOk(registry: Registry, c: Collection) {
    && c.tenant > 0
    && (forall r | r in c.records :: OfTrusted(r, c.tenant))
    && c.endpointId in registry
    && (forall r | r in c.records :: r.endpointId == c.endpointId && r.mode == registry[c.endpointId].mode)
  }

  ghost function PlanCollection(registry: Registry, c: Collection): Plan
    requires c.endpointId in registry
  {
    if c.endpointId == USERS then PlanUsersBatch(registry[c.endpointId], c.records)
    else PlanRecords(registry[c.endpointId], c.records)
  }

  // ---- Plans name only the trusted tenant ------------------------------------------------------------

  ghost predicate PlanOf(p: Plan, tenant: int) {
    p.Ok? ==> AllWellFormed(p.value) && forall i | 0 <= i < |p.value| :: OfTenant(p.value[i], tenant)
  }

  lemma BothOf(a: Plan, b: Plan, tenant: int)
    requires PlanOf(a, tenant) && PlanOf(b, tenant)
    ensures PlanOf(Both(a, b), tenant)
  {
  }

  lemma RowPlanOf(t: Table, row: Row, s: Statement, tenant: int)
    requires TenantOk(row) && row[TENANT].n == tenant
    requires s == Upsert(t, row) || s == UpsertIfDistinct(t, row) || s == InsertIgnore(t, row)
    ensures PlanOf(PlanRow(t, row, s), tenant)
  {
  }

  lemma RecordPlanOf(e: Endpoint, r: Record, tenant: int)
    requires OfTrusted(r, tenant)
    ensures PlanOf(PlanRecord(e, r), tenant)
  {
    hide PlanOf, PlanRow, Both;
    RefusalOf(tenant);
    assert r.current.Some? ==> r.current.value in r.Rows();
    assert r.snapshot.Some? ==> r.snapshot.value in r.Rows();
    assert r.history.Some? ==> r.history.value in r.Rows();
    assert r.event.Some? ==> r.event.value in r.Rows();
    assert r.reference.Some? ==> r.reference.value in r.Rows();
    match e.mode
    case CurrentOnly =>
      if r.current.Some? { RowPlanOf(e.main, r.current.value, Upsert(e.main, r.current.value), tenant); }
    case Reference =>
      if r.reference.Some? { RowPlanOf(e.main, r.reference.value, Upsert(e.main, r.reference.value), tenant); }
    case Event =>
      if r.event.Some? { RowPlanOf(e.main, r.event.value, InsertIgnore(e.main, r.event.value), tenant); }
    case CurrentWithSnapshot =>
      if r.current.Some? && r.snapshot.Some? && e.second.Some? {
        RowPlanOf(e.main, r.current.value, Upsert(e.main, r.current.value), tenant);
        RowPlanOf(e.second.value, r.snapshot.value, InsertIgnore(e.second.value, r.snapshot.value), tenant);
        BothOf(PlanRow(e.main, r.current.value, Upsert(e.main, r.current.value)),
               PlanRow(e.second.value, r.snapshot.value, InsertIgnore(e.second.value, r.snapshot.value)), tenant);
      }
    case CurrentWithHistory =>
      if r.current.Some? && r.history.Some? && e.second.Some? {
        RowPlanOf(e.main, r.current.value, UpsertIfDistinct(e.main, r.current.value), tenant);
        RowPlanOf(e.second.value, r.history.value, InsertIgnore(e.second.value, r.history.value), tenant);
        BothOf(PlanRow(e.main, r.current.value, UpsertIfDistinct(e.main, r.current.value)),
               PlanRow(e.second.value, r.history.value, InsertIgnore(e.second.value, r.history.value)), tenant);
      }
  }

  lemma RefusalOf(tenant: int)
    ensures forall e :: PlanOf(Raise(e), tenant)
  {
  }

  lemma UserPlanOf(e: Endpoint, r: Record, tenant: int)
    requires OfTrusted(r, tenant)
    ensures PlanOf(PlanUser(e, r), tenant)
  {
    RecordPlanOf(e, r, tenant);
    assert r.current.Some? ==> r.current.value in r.Rows();
  }

  lemma {:induction false} RecordsPlanOf(e: Endpoint, rs: seq<Record>, tenant: int)
    requires forall r | r in rs :: OfTrusted(r, tenant)
    ensures PlanOf(PlanRecords(e, rs), tenant) && PlanOf(PlanUsers(e, rs), tenant)
  {
    if rs != [] {
      RecordsPlanOf(e, rs[..|rs| - 1], tenant);
      RecordPlanOf(e, rs[|rs| - 1], tenant);
      UserPlanOf(e, rs[|rs| - 1], tenant);
      BothOf(PlanRecords(e, rs[..|rs| - 1]), PlanRecord(e, rs[|rs| - 1]), tenant);
      BothOf(PlanUsers(e, rs[..|rs| - 1]), PlanUser(e, rs[|rs| - 1]), tenant);
    }
  }

  /** Past the boundary, every statement of every mode is about the trusted tenant. */
  lemma CollectionPlanOf(registry: Registry, c: Collection)
    requires BoundaryOk(registry, c)
    ensures PlanOf(PlanCollection(registry, c), c.tenant)
  {
    var e := registry[c.endpointId];
    RecordsPlanOf(e, c.records, c.tenant);
    if c.endpointId == USERS && Refreshes(c.records) {
      var r := c.records[0];
      assert r in c.records && r.current.value in r.Rows();
      BothOf(Ok([ClearAssignments(r.current.value[TENANT].n)]), PlanUsers(e, c.records), c.tenant);
    }
  }

  /** The store after a collection is written; None where it is refused, by a check, by a plan or by the database. */
  ghost function Stored(registry: Registry, db: Store, c: Collection): Option<Store> {
    if !BoundaryOk(registry, c) || PlanCollection(registry, c).Raise? then None
    else
      CollectionPlanOf(registry, c);
      Run(db, PlanCollection(registry, c).value)
  }

  // ---- What a users batch does to assignments -----------------------------------------------------------

  // The (user, SKU) pairs a batch names.
  ghost predicate BatchNames(rs: seq<Record>, user: Json, sku: Json) {
    exists r :: r in rs && NamesPair(r, user, sku)
  }

  predicate NamesPair(r: Record, user: Json, sku: Json) {
    && r.current.Some? && LICENCES in r.current.value && r.current.value[LICENCES].Arr?
    && Get(r.current.value, "source_object_id") == user && sku in r.current.value[LICENCES].items
  }

  // The users endpoint writes core."user", keyed by source_object_id.
  predicate UsersEndpoint(e: Endpoint) {
    e.mode == CurrentOnly && e.main.name == USER_TABLE && e.main.conflict == ["source_object_id"]
  }

  lemma UserPlanShape(e: Endpoint, r: Record, tenant: int, user: Json, sku: Json)
    requires UsersEndpoint(e) && OfTrusted(r, tenant) && PlanUser(e, r).Ok?
    ensures AllWellFormed(PlanUser(e, r).value) && UserBatch(PlanUser(e, r).value, tenant)
    ensures Named(PlanUser(e, r).value, user, sku) <==> NamesPair(r, user, sku)
  {
    hide Named, UserBatch, AllWellFormed, WellFormed;
    var row := r.current.value;
    assert row in r.Rows();
    var skus := if LICENCES in row then row[LICENCES].items else [];
    assert "source_object_id" in e.main.conflict && "source_object_id" in row;
    assert IdOf(e.main, row).rest == [row["source_object_id"]];
    assert PlanUser(e, r).value == [Upsert(e.main, row)] +
      AssignAll(row, skus, Get(row, "source_object_id"), Get(row, "last_observed_at"));
    UpsertThenAssigns(e.main, row, tenant, skus, Get(row, "last_observed_at"), user, sku);
  }

  lemma UpsertWrites(t: Table, row: Row)
    requires HasColumns(t, row)
    ensures Writes(Upsert(t, row), IdOf(t, row))
  {
  }

  lemma UpsertThenAssigns(t: Table, row: Row, tenant: int, skus: seq<Json>, observedAt: Json, user: Json, sku: Json)
    requires TenantOk(row) && row[TENANT].n == tenant && HasColumns(t, row)
    requires t.name == USER_TABLE && IdOf(t, row) == RowId(USER_TABLE, tenant, [Get(row, "source_object_id")])
    ensures var ss := [Upsert(t, row)] + AssignAll(row, skus, Get(row, "source_object_id"), observedAt);
            && AllWellFormed(ss) && UserBatch(ss, tenant)
            && (Named(ss, user, sku) <==> Get(row, "source_object_id") == user && sku in skus)
  {
    hide IdOf, HasColumns, Writes, Get, TenantOk;
    var assigns := AssignAll(row, skus, Get(row, "source_object_id"), observedAt);
    var ss := [Upsert(t, row)] + assigns;
    assert Writes(Upsert(t, row), RowId(USER_TABLE, tenant, [Get(row, "source_object_id")])) by {
      UpsertWrites(t, row);
    }
    assert ss[0] == Upsert(t, row);
    assert forall i | 1 <= i < |ss| :: ss[i] == Assign(tenant, Get(row, "source_object_id"), skus[i - 1], observedAt);
    if sku in skus {
      var i :| 0 <= i < |skus| && skus[i] == sku;
      assert ss[i + 1] == assigns[i];
    }
  }

  lemma UserBatchesJoin(a: seq<Statement>, b: seq<Statement>, tenant: int, user: Json, sku: Json)
    requires AllWellFormed(a) && AllWellFormed(b) && UserBatch(a, tenant) && UserBatch(b, tenant)
    ensures AllWellFormed(a + b) && UserBatch(a + b, tenant)
    ensures Named(a + b, user, sku) <==> Named(a, user, sku) || Named(b, user, sku)
  {
    hide Writes;
    var ab := a + b;
    assert AllWellFormed(ab);
    forall i | 0 <= i < |ab| && !(ab[i].Upsert? && ab[i].table.name == USER_TABLE && ab[i].row[TENANT].n == tenant)
      ensures ab[i].Assign? && ab[i].tenant == tenant
      ensures exists j :: 0 <= j < i && Writes(ab[j], RowId(USER_TABLE, tenant, [ab[i].user]))
    {
      if i < |a| {
        var j :| 0 <= j < i && Writes(a[j], RowId(USER_TABLE, tenant, [a[i].user]));
        assert ab[j] == a[j];
      } else {
        var j :| 0 <= j < i - |a| && Writes(b[j], RowId(USER_TABLE, tenant, [b[i - |a|].user]));
        assert ab[j + |a|] == b[j];
      }
    }
    assert UserBatch(ab, tenant);
    hide UserBatch, AllWellFormed;
    NamesJoin(a, b, user, sku);
  }

  lemma NamesJoin(a: seq<Statement>, b: seq<Statement>, user: Json, sku: Json)
    ensures Named(a + b, user, sku) <==> Named(a, user, sku) || Named(b, user, sku)
  {
    var ab := a + b;
    if i :| 0 <= i < |a| && a[i].Assign? && a[i].user == user && a[i].sku == sku { assert ab[i] == a[i]; }
    if i :| 0 <= i < |b| && b[i].Assign? && b[i].user == user && b[i].sku == sku { assert ab[i + |a|] == b[i]; }
  }

  lemma {:induction false} UsersPlanShape(e: Endpoint, rs: seq<Record>, tenant: int, user: Json, sku: Json)
    requires UsersEndpoint(e) && (forall r | r in rs :: OfTrusted(r, tenant)) && PlanUsers(e, rs).Ok?
    ensures AllWellFormed(PlanUsers(e, rs).value) && UserBatch(PlanUsers(e, rs).value, tenant)
    ensures Named(PlanUsers(e, rs).value, user, sku) <==> BatchNames(rs, user, sku)
  {
    if rs != [] {
      var n := |rs| - 1;
      hide UserBatch, Named, PlanUser, NamesPair, OfTrusted;
      UsersPlanShape(e, rs[..n], tenant, user, sku);
      UserPlanShape(e, rs[n], tenant, user, sku);
      UserBatchesJoin(PlanUsers(e, rs[..n]).value, PlanUser(e, rs[n]).value, tenant, user, sku);
      assert rs == rs[..n] + [rs[n]];
    } else {
      NothingNamed(user, sku, tenant);
    }
  }

  lemma NothingNamed(user: Json, sku: Json, tenant: int)
    ensures UserBatch([], tenant) && !Named([], user, sku)
  {
  }

  /** When every record of a non-empty users batch carries licence data, the tenant's assignments
      afterwards are exactly the pairs the batch names whose SKU the tenant subscribes to, and no other
      tenant's change. */
  lemma UsersBatchReplaces(registry: Registry, c: Collection, db: Store, k: (int, Json, Json))
    requires BoundaryOk(registry, c) && c.endpointId == USERS && UsersEndpoint(registry[USERS]) && Refreshes(c.records)
    requires PlanCollection(registry, c).Ok? && AllWellFormed(PlanCollection(registry, c).value)
    requires Run(db, PlanCollection(registry, c).value).Some?
    ensures var after := Run(db, PlanCollection(registry, c).value).value.assignments;
            if k.0 == c.tenant
            then k in after <==> BatchNames(c.records, k.1, k.2) && Subscriptions(db, c.tenant, k.2) != {}
            else (k in after <==> k in db.assignments) && (k in after ==> after[k] == db.assignments[k])
  {
    hide OfTrusted, Subscriptions, PlanUsers, CarriesLicences;
    var e := registry[USERS];
    var ss := PlanUsers(e, c.records).value;
    FirstTenant(c);
    assert PlanCollection(registry, c).value == [ClearAssignments(c.tenant)] + ss;
    UsersPlanShape(e, c.records, c.tenant, k.1, k.2);
    RefreshReplaces(db, ss, c.tenant, k);
  }

  lemma FirstTenant(c: Collection)
    requires Refreshes(c.records) && forall r | r in c.records :: OfTrusted(r, c.tenant)
    ensures c.records[0].current.Some? && TenantOk(c.records[0].current.value)
    ensures c.records[0].current.value[TENANT].n == c.tenant
  {
    assert c.records[0] in c.records;
    assert c.records[0].current.value in c.records[0].Rows();
  }

  /** When a record lacks licence data, or there is no record, assignments are left exactly as they were. */
  lemma UsersBatchPreserves(registry: Registry, c: Collection, db: Store)
    requires BoundaryOk(registry, c) && c.endpointId == USERS && UsersEndpoint(registry[USERS]) && !Refreshes(c.records)
    requires PlanCollection(registry, c).Ok?
    ensures AllWellFormed(PlanCollection(registry, c).value) && Run(db, PlanCollection(registry, c).value).Some?
    ensures Run(db, PlanCollection(registry, c).value).value.assignments == db.assignments
  {
    CollectionPlanOf(registry, c);
    if c.records != [] {
      CurrentPlansUpsert(registry[USERS], c.records);
      RowsAlwaysRun(db, PlanCollection(registry, c).value);
    }
  }

  lemma {:induction false} CurrentPlansUpsert(e: Endpoint, rs: seq<Record>)
    requires e.mode == CurrentOnly && PlanRecords(e, rs).Ok?
    ensures RowsOnly(PlanRecords(e, rs).value)
  {
    if rs != [] { CurrentPlansUpsert(e, rs[..|rs| - 1]); }
  }
}
