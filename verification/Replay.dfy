/** Writing collections again, and after others: what a registry of endpoints guarantees of every mode
    (collectors/persistence/core.py). */
module Replay {
  import opened Basics
  import opened Tables
  import opened PersistenceModes

  // ---- What tables are for -----------------------------------------------------------------------

  // `t` is a table the endpoint inserts into or skips, or one it upserts.
  ghost predicate RoleIn(e: Endpoint, t: Table, inserted: bool) {
    if inserted then (e.mode == Event && t == e.main) ||
      (e.mode in {CurrentWithSnapshot, CurrentWithHistory} && e.second == Some(t))
    else e.mode != Event && t == e.main
  }

  ghost predicate Role(registry: Registry, t: Table, inserted: bool) {
    exists id :: id in registry && RoleIn(registry[id], t, inserted)
  }

  /** As the tables of the source are: keyed by their own columns, told apart by name, and each either upserted by
      whoever writes it or inserted-or-skipped by whoever does. */
  ghost predicate Orderly(registry: Registry) {
    && (forall t, inserted | Role(registry, t, inserted) :: Regular(t))
    && (forall t, u, i, j | Role(registry, t, i) && Role(registry, u, j) && t.name == u.name :: t == u && i == j)
    && (USERS in registry ==> UsersEndpoint(registry[USERS]))
  }

  ghost predicate Tidy(registry: Registry, db: Store) {
    forall t, inserted | Role(registry, t, inserted) :: Keyed(db, t)
  }

  // Each row is written to a table as the registry has it.
  ghost predicate Follows(registry: Registry, ss: seq<Statement>) {
    forall i | 0 <= i < |ss| && WritesRow(ss[i]) :: Role(registry, ss[i].table, ss[i].InsertIgnore?)
  }

  lemma FollowsJoin(registry: Registry, a: seq<Statement>, b: seq<Statement>)
    requires Follows(registry, a) && Follows(registry, b)
    ensures Follows(registry, a + b)
  {
    hide Role;
  }

  lemma RecordFollows(registry: Registry, id: string, r: Record)
    requires id in registry && PlanRecord(registry[id], r).Ok?
    ensures Follows(registry, PlanRecord(registry[id], r).value)
    ensures forall i | 0 <= i < |PlanRecord(registry[id], r).value| :: WritesRow(PlanRecord(registry[id], r).value[i])
  {
    var e := registry[id];
    forall t, inserted | RoleIn(e, t, inserted)
      ensures Role(registry, t, inserted)
    {
    }
    hide Role, TenantsOk, HasColumns;
  }

  lemma UserFollows(registry: Registry, id: string, r: Record)
    requires id in registry && PlanUser(registry[id], r).Ok?
    ensures Follows(registry, PlanUser(registry[id], r).value)
  {
    hide Role, PlanRecord;
    RecordFollows(registry, id, r);
  }

  lemma {:induction false} RecordsFollow(registry: Registry, id: string, rs: seq<Record>)
    requires id in registry
    ensures PlanRecords(registry[id], rs).Ok? ==>
              && Follows(registry, PlanRecords(registry[id], rs).value)
              && forall i | 0 <= i < |PlanRecords(registry[id], rs).value| ::
                   WritesRow(PlanRecords(registry[id], rs).value[i])
    ensures PlanUsers(registry[id], rs).Ok? ==> Follows(registry, PlanUsers(registry[id], rs).value)
  {
    if rs != [] {
      hide Follows, PlanRecord, PlanUser;
      var e, n := registry[id], |rs| - 1;
      RecordsFollow(registry, id, rs[..n]);
      if PlanRecords(e, rs).Ok? {
        RecordFollows(registry, id, rs[n]);
        FollowsJoin(registry, PlanRecords(e, rs[..n]).value, PlanRecord(e, rs[n]).value);
      }
      if PlanUsers(e, rs).Ok? {
        UserFollows(registry, id, rs[n]);
        FollowsJoin(registry, PlanUsers(e, rs[..n]).value, PlanUser(e, rs[n]).value);
      }
    } else {
      NothingFollows(registry);
    }
  }

  lemma NothingFollows(registry: Registry)
    ensures Follows(registry, [])
  {
  }

  /** Every plan, of every mode and of refreshes, writes tables as the registry has them; but for refreshes it only
      writes rows. */
  lemma CollectionFollows(registry: Registry, c: Collection)
    requires c.endpointId in registry && PlanCollection(registry, c).Ok?
    ensures Follows(registry, PlanCollection(registry, c).value)
    ensures !(c.endpointId == USERS && Refreshes(c.records)) ==>
              forall i | 0 <= i < |PlanCollection(registry, c).value| :: WritesRow(PlanCollection(registry, c).value[i])
  {
    hide Role, PlanRecords, PlanUsers, Refreshes;
    RecordsFollow(registry, c.endpointId, c.records);
  }

  // ---- Every reachable store is tidy -----------------------------------------------------------------

  lemma StoredRuns(registry: Registry, db: Store, c: Collection)
    requires Stored(registry, db, c).Some?
    ensures BoundaryOk(registry, c) && c.endpointId in registry && PlanCollection(registry, c).Ok?
    ensures AllWellFormed(PlanCollection(registry, c).value)
    ensures Stored(registry, db, c) == Run(db, PlanCollection(registry, c).value)
  {
    CollectionPlanOf(registry, c);
  }

  lemma StoredKeepsTidy(registry: Registry, db: Store, c: Collection)
    requires Orderly(registry) && Tidy(registry, db) && Stored(registry, db, c).Some?
    ensures Tidy(registry, Stored(registry, db, c).value)
  {
    hide Keyed, Regular, Run, Role, BoundaryOk, PlanCollection, Stored;
    StoredRuns(registry, db, c);
    var ss := PlanCollection(registry, c).value;
    CollectionFollows(registry, c);
    forall t, inserted | Role(registry, t, inserted)
      ensures Keyed(Run(db, ss).value, t)
    {
      RunKeepsKeyed(db, ss, t);
    }
  }

  /** Stores and the collections written, or refused, between them. */
  ghost predicate Writing(registry: Registry, states: seq<Store>, cs: seq<Collection>) {
    && |states| == |cs| + 1
    && forall i | 0 <= i < |cs| ::
         states[i + 1] == states[i] || Stored(registry, states[i], cs[i]) == Some(states[i + 1])
  }

  lemma {:induction false} TidyThroughout(registry: Registry, states: seq<Store>, cs: seq<Collection>, n: nat)
    requires Orderly(registry) && Writing(registry, states, cs) && Tidy(registry, states[0]) && n <= |cs|
    ensures Tidy(registry, states[n])
  {
    if n > 0 {
      hide Orderly, Tidy, Stored;
      TidyThroughout(registry, states, cs, n - 1);
      assert states[n - 1 + 1] == states[n - 1] || Stored(registry, states[n - 1], cs[n - 1]) == Some(states[n]);
      if states[n] != states[n - 1] { StoredKeepsTidy(registry, states[n - 1], cs[n - 1]); }
    }
  }

  lemma EmptyIsTidy(registry: Registry)
    ensures Tidy(registry, Store(map[], map[]))
  {
  }

  // ---- Writing again -------------------------------------------------------------------------------

  lemma FollowsCatalogued(registry: Registry, db: Store, ss: seq<Statement>) returns (tables: set<Table>)
    requires Orderly(registry) && Tidy(registry, db) && Follows(registry, ss)
    ensures Catalogued(ss, tables) && AllKeyed(db, tables) && OneKind(ss)
  {
    hide Role, Regular, Keyed;
    tables := set i | 0 <= i < |ss| && WritesRow(ss[i]) :: ss[i].table;
  }

  /** Writing a collection twice stores what writing it once stored, in every mode and for refreshes. */
  lemma WriteTwice(registry: Registry, db: Store, c: Collection)
    requires Orderly(registry) && Tidy(registry, db) && Stored(registry, db, c).Some?
    ensures Stored(registry, Stored(registry, db, c).value, c) == Stored(registry, db, c)
  {
    hide Role, Regular, Keyed, Follows, Tidy, OfTrusted, Run;
    CollectionPlanOf(registry, c);
    CollectionFollows(registry, c);
    var ss := PlanCollection(registry, c).value;
    if c.endpointId == USERS && Refreshes(c.records) {
      RefreshPlan(registry, c);
      RefreshIsIdempotent(db, PlanUsers(registry[USERS], c.records).value, c.tenant);
    } else {
      var tables := FollowsCatalogued(registry, db, ss);
      ReplayIsIdempotent(db, ss, tables);
    }
  }

  lemma RefreshPlan(registry: Registry, c: Collection)
    requires BoundaryOk(registry, c) && c.endpointId == USERS && Refreshes(c.records) && PlanCollection(registry, c).Ok?
    requires UsersEndpoint(registry[USERS])
    ensures PlanUsers(registry[USERS], c.records).Ok?
    ensures var ss := PlanUsers(registry[USERS], c.records).value;
            && AllWellFormed(ss) && UserBatch(ss, c.tenant) && AllWellFormed([ClearAssignments(c.tenant)] + ss)
            && PlanCollection(registry, c).value == [ClearAssignments(c.tenant)] + ss
            && forall user, sku :: Named(ss, user, sku) <==> BatchNames(c.records, user, sku)
  {
    hide OfTrusted, PlanUsers, CarriesLicences, UserBatch, Named, BatchNames;
    FirstTenant(c);
    forall user, sku
      ensures var ss := PlanUsers(registry[USERS], c.records).value;
              AllWellFormed(ss) && UserBatch(ss, c.tenant) &&
                (Named(ss, user, sku) <==> BatchNames(c.records, user, sku))
    {
      UsersPlanShape(registry[USERS], c.records, c.tenant, user, sku);
    }
    UsersPlanShape(registry[USERS], c.records, c.tenant, Null, Null);
  }

  // ---- Rows that stay --------------------------------------------------------------------------------

  /** Event, snapshot and history rows, once stored, survive every later write of anything. */
  lemma {:induction false} InsertedRowsSurvive(registry: Registry, states: seq<Store>, cs: seq<Collection>, m: nat,
                                               n: nat, t: Table, id: RowId)
    requires Orderly(registry) && Writing(registry, states, cs) && m <= n <= |cs|
    requires Role(registry, t, true) && id.table == t.name && id in states[m].rows
    ensures id in states[n].rows && states[n].rows[id] == states[m].rows[id]
    decreases n
  {
    if m < n {
      hide Orderly, Role, Stored;
      InsertedRowsSurvive(registry, states, cs, m, n - 1, t, id);
      assert states[n - 1 + 1] == states[n - 1] || Stored(registry, states[n - 1], cs[n - 1]) == Some(states[n]);
      if states[n] != states[n - 1] { InsertedRowSurvives(registry, states[n - 1], cs[n - 1], t, id); }
    }
  }

  lemma InsertedRowSurvives(registry: Registry, db: Store, c: Collection, t: Table, id: RowId)
    requires Orderly(registry) && Stored(registry, db, c).Some?
    requires Role(registry, t, true) && id.table == t.name && id in db.rows
    ensures id in Stored(registry, db, c).value.rows && Stored(registry, db, c).value.rows[id] == db.rows[id]
  {
    hide Role, Regular, Run, BoundaryOk, PlanCollection, Stored;
    StoredRuns(registry, db, c);
    CollectionFollows(registry, c);
    InsertedRowStays(db, PlanCollection(registry, c).value, id);
  }

  // ---- Rows that are replaced ------------------------------------------------------------------------

  // The row a record brings to the table its endpoint upserts.
  function MainRow(e: Endpoint, r: Record): Option<Row> { if e.mode == Reference then r.reference else r.current }

  ghost predicate NotOf(t: Table, ss: seq<Statement>)
  {
    forall i | 0 <= i < |ss| && WritesRow(ss[i]) :: ss[i].table.name != t.name
  }

  lemma PlanOpens(registry: Registry, id: string, r: Record, users: bool) returns (s: Statement, rest: seq<Statement>)
    requires Orderly(registry) && id in registry && registry[id].mode != Event
    requires (if users then PlanUser(registry[id], r) else PlanRecord(registry[id], r)).Ok?
    requires users ==> registry[id].mode == CurrentOnly
    ensures var e := registry[id];
            && MainRow(e, r).Some? && HasColumns(e.main, MainRow(e, r).value)
            && (s == Upsert(e.main, MainRow(e, r).value) || s == UpsertIfDistinct(e.main, MainRow(e, r).value))
            && (if users then PlanUser(e, r) else PlanRecord(e, r)).value == [s] + rest && NotOf(e.main, rest)
  {
    var e := registry[id];
    hide TenantsOk, HasColumns, Regular, OfTrusted;
    assert RoleIn(e, e.main, false) && Role(registry, e.main, false);
    if e.mode in {CurrentWithSnapshot, CurrentWithHistory} && e.second.Some? {
      assert RoleIn(e, e.second.value, true) && Role(registry, e.second.value, true);
    }
    var ss := (if users then PlanUser(e, r) else PlanRecord(e, r)).value;
    s, rest := ss[0], ss[1..];
  }

  // `after` has the row under its key, and every other key of the table as it was in `db`.
  ghost predicate Replaced(db: Store, after: Store, t: Table, row: Row)
    requires HasColumns(t, row)
  {
    && IdOf(t, row) in after.rows && after.rows[IdOf(t, row)] == Bound(t, row)
    && forall key: RowId | key.table == t.name && key != IdOf(t, row) ::
         (key in after.rows <==> key in db.rows) && (key in db.rows ==> after.rows[key] == db.rows[key])
  }

  lemma StatementReplaces(db: Store, t: Table, row: Row, s: Statement)
    requires Regular(t) && Keyed(db, t) && HasColumns(t, row) && (s == Upsert(t, row) || s == UpsertIfDistinct(t, row))
    ensures Effect(db, s).Some? && Replaced(db, Effect(db, s).value, t, row)
  {
    hide Keyed, Regular, IdOf, Bound, HasColumns;
    DistinctUpsertIsUpsert(db, t, row);
    assert Effect(db, s) == Effect(db, Upsert(t, row));
  }

  lemma RestKeeps(db: Store, mid: Store, ss: seq<Statement>, t: Table, row: Row)
    requires HasColumns(t, row) && Replaced(db, mid, t, row) && NotOf(t, ss) && AllWellFormed(ss) && Run(mid, ss).Some?
    ensures Replaced(db, Run(mid, ss).value, t, row)
  {
    hide Run, HasColumns, Bound;
    forall key: RowId | key.table == t.name
      ensures key in Run(mid, ss).value.rows <==> key in mid.rows
      ensures key in mid.rows ==> Run(mid, ss).value.rows[key] == mid.rows[key]
    {
      UnwrittenRowStays(mid, ss, key);
    }
  }

  function PlanOne(e: Endpoint, r: Record, users: bool): Plan { if users then PlanUser(e, r) else PlanRecord(e, r) }

  lemma RecordReplaces(registry: Registry, db: Store, id: string, r: Record, users: bool)
    requires Orderly(registry) && id in registry && registry[id].mode != Event && Keyed(db, registry[id].main)
    requires (users ==> registry[id].mode == CurrentOnly) && PlanOne(registry[id], r, users).Ok?
    requires AllWellFormed(PlanOne(registry[id], r, users).value)
    requires Run(db, PlanOne(registry[id], r, users).value).Some?
    ensures var e := registry[id];
            && MainRow(e, r).Some? && HasColumns(e.main, MainRow(e, r).value)
            && Replaced(db, Run(db, PlanOne(e, r, users).value).value, e.main, MainRow(e, r).value)
  {
    hide PlanUser, PlanRecord, Keyed, HasColumns, Replaced, NotOf, RoleIn, Regular;
    var e := registry[id];
    var s, rest := PlanOpens(registry, id, r, users);
    MainIsRegular(registry, id);
    assert PlanOne(e, r, users).value == [s] + rest;
    PartsWellFormed([s], rest);
    RunTwo(db, [s], rest);
    RunOne(db, s);
    StatementReplaces(db, e.main, MainRow(e, r).value, s);
    RestKeeps(db, Effect(db, s).value, rest, e.main, MainRow(e, r).value);
  }

  lemma PartsWellFormed(a: seq<Statement>, b: seq<Statement>)
    requires AllWellFormed(a + b)
    ensures AllWellFormed(a) && AllWellFormed(b)
  {
    hide WellFormed;
    assert forall i | 0 <= i < |a| :: (a + b)[i] == a[i];
    assert forall i | 0 <= i < |b| :: (a + b)[|a| + i] == b[i];
  }

  lemma RunOne(db: Store, s: Statement)
    requires WellFormed(s)
    ensures AllWellFormed([s]) && Run(db, [s]) == Effect(db, s)
  {
    hide Effect;
    assert [s][..0] == [] && Run(db, [s][..0]) == Some(db);
  }

  lemma MainIsRegular(registry: Registry, id: string)
    requires Orderly(registry) && id in registry && registry[id].mode != Event
    ensures Role(registry, registry[id].main, false) && Regular(registry[id].main)
  {
    hide Regular;
    assert RoleIn(registry[id], registry[id].main, false);
  }

  ghost function PlanAll(e: Endpoint, rs: seq<Record>, users: bool): Plan {
    if users then PlanUsers(e, rs) else PlanRecords(e, rs)
  }

  // Record `k` is the last to bring a row with its key to the table its endpoint upserts.
  ghost predicate LastOfKey(e: Endpoint, rs: seq<Record>, k: nat) {
    && k < |rs| && MainRow(e, rs[k]).Some? && HasColumns(e.main, MainRow(e, rs[k]).value)
    && forall i | k < i < |rs| && MainRow(e, rs[i]).Some? && HasColumns(e.main, MainRow(e, rs[i]).value) ::
         IdOf(e.main, MainRow(e, rs[i]).value) != IdOf(e.main, MainRow(e, rs[k]).value)
  }

  lemma {:induction false} LastRecordRuns(registry: Registry, db: Store, id: string, rs: seq<Record>, users: bool,
                                          k: nat)
    requires Orderly(registry) && id in registry && registry[id].mode != Event && Keyed(db, registry[id].main)
    requires (users ==> registry[id].mode == CurrentOnly) && LastOfKey(registry[id], rs, k)
    requires PlanAll(registry[id], rs, users).Ok?
    requires AllWellFormed(PlanAll(registry[id], rs, users).value)
    requires Run(db, PlanAll(registry[id], rs, users).value).Some?
    ensures var e, row := registry[id], MainRow(registry[id], rs[k]).value;
            var after := Run(db, PlanAll(e, rs, users).value).value;
            IdOf(e.main, row) in after.rows && after.rows[IdOf(e.main, row)] == Bound(e.main, row)
  {
    hide PlanUser, PlanRecord, Keyed, HasColumns, Follows, IdOf, Bound;
    var e, n := registry[id], |rs| - 1;
    var front, last := PlanAll(e, rs[..n], users), PlanOne(e, rs[n], users);
    assert PlanAll(e, rs, users) == Both(front, last);
    PartsWellFormed(front.value, last.value);
    RunTwo(db, front.value, last.value);
    var before := Run(db, front.value).value;
    RecordsFollow(registry, id, rs[..n]);
    MainStaysKeyed(registry, db, id, front.value);
    RecordReplaces(registry, before, id, rs[n], users);
    if k < n {
      assert LastOfKey(e, rs[..n], k);
      LastRecordRuns(registry, db, id, rs[..n], users, k);
      MainKey(e, rs[k]);
    }
  }

  lemma MainKey(e: Endpoint, r: Record)
    requires MainRow(e, r).Some? && HasColumns(e.main, MainRow(e, r).value)
    ensures IdOf(e.main, MainRow(e, r).value).table == e.main.name
  {
  }

  lemma MainStaysKeyed(registry: Registry, db: Store, id: string, ss: seq<Statement>)
    requires Orderly(registry) && id in registry && registry[id].mode != Event && Keyed(db, registry[id].main)
    requires Follows(registry, ss) && AllWellFormed(ss) && Run(db, ss).Some?
    ensures Keyed(Run(db, ss).value, registry[id].main)
  {
    hide Keyed, Regular, Run;
    MainIsRegular(registry, id);
    hide RoleIn, Role;
    RunKeepsKeyed(db, ss, registry[id].main);
  }

  lemma PlainPlan(registry: Registry, c: Collection)
    requires c.endpointId in registry && PlanCollection(registry, c).Ok? && c.records != []
    requires !(c.endpointId == USERS && Refreshes(c.records))
    ensures PlanCollection(registry, c) == PlanRecords(registry[c.endpointId], c.records)
  {
  }

  /** Upserted tables end with the last record of each key. */
  lemma LastRecordStored(registry: Registry, db: Store, c: Collection, k: nat)
    requires Orderly(registry) && Tidy(registry, db) && Stored(registry, db, c).Some?
    requires registry[c.endpointId].mode != Event && LastOfKey(registry[c.endpointId], c.records, k)
    ensures var e, row := registry[c.endpointId], MainRow(registry[c.endpointId], c.records[k]).value;
            var after := Stored(registry, db, c).value;
            IdOf(e.main, row) in after.rows && after.rows[IdOf(e.main, row)] == Bound(e.main, row)
  {
    hide Keyed, Regular, Run, BoundaryOk, Stored, PlanRecords, PlanUsers, HasColumns, Refreshes, PlanCollection;
    StoredRuns(registry, db, c);
    MainIsRegular(registry, c.endpointId);
    if c.endpointId == USERS && Refreshes(c.records) {
      LastUserStored(registry, db, c, k);
    } else {
      PlainPlan(registry, c);
      LastRecordRuns(registry, db, c.endpointId, c.records, false, k);
    }
  }

  lemma LastUserStored(registry: Registry, db: Store, c: Collection, k: nat)
    requires Orderly(registry) && Tidy(registry, db) && Stored(registry, db, c).Some?
    requires c.endpointId == USERS && Refreshes(c.records) && LastOfKey(registry[USERS], c.records, k)
    ensures var e, row := registry[USERS], MainRow(registry[USERS], c.records[k]).value;
            var after := Stored(registry, db, c).value;
            IdOf(e.main, row) in after.rows && after.rows[IdOf(e.main, row)] == Bound(e.main, row)
  {
    hide Keyed, Regular, Run, LastOfKey, PlanUsers, HasColumns, Refreshes;
    StoredRuns(registry, db, c);
    MainIsRegular(registry, USERS);
    RefreshPlan(registry, c);
    var clear := ClearAssignments(c.tenant);
    RunTwo(db, [clear], PlanUsers(registry[USERS], c.records).value);
    RunOne(db, clear);
    var cleared := Effect(db, clear).value;
    SameRowsKeyed(db, cleared, registry[USERS].main);
    LastRecordRuns(registry, cleared, USERS, c.records, true, k);
  }

  lemma SameRowsKeyed(a: Store, b: Store, t: Table)
    requires Keyed(a, t) && a.rows == b.rows
    ensures Keyed(b, t)
  {
  }

  // ---- When the database refuses ---------------------------------------------------------------------

  /** The batch names a SKU the tenant subscribes to more than once. */
  ghost predicate NamesAmbiguous(db: Store, c: Collection) {
    exists user, sku :: BatchNames(c.records, user, sku) && |Subscriptions(db, c.tenant, sku)| > 1
  }

  /** A collection that passes the checks is refused by the database exactly if it refreshes licences and names a SKU
      the tenant subscribes to more than once. */
  lemma RefusedByDatabaseIff(registry: Registry, db: Store, c: Collection)
    requires Orderly(registry) && BoundaryOk(registry, c) && PlanCollection(registry, c).Ok?
    ensures Stored(registry, db, c).None? <==> c.endpointId == USERS && Refreshes(c.records) && NamesAmbiguous(db, c)
  {
    hide Run, Role, Regular, Follows, OfTrusted, Subscriptions, UserBatch, PlanUsers, PlanRecords, BatchNames,
      CarriesLicences;
    CollectionPlanOf(registry, c);
    CollectionFollows(registry, c);
    if c.endpointId == USERS && Refreshes(c.records) {
      var clear, ss := ClearAssignments(c.tenant), PlanUsers(registry[USERS], c.records).value;
      RefreshPlan(registry, c);
      RunTwo(db, [clear], ss);
      RunOne(db, clear);
      RefusedIff(Effect(db, clear).value, ss, c.tenant);
      forall sku
        ensures Subscriptions(Effect(db, clear).value, c.tenant, sku) == Subscriptions(db, c.tenant, sku)
      {
        ClearKeepsSubscriptions(db, c.tenant, c.tenant, sku);
      }
      AmbiguousNames(Effect(db, clear).value, ss, c.tenant);
      AmbiguousBatch(db, Effect(db, clear).value, ss, c);
    } else {
      WritesAlwaysRun(db, PlanCollection(registry, c).value);
    }
  }

  lemma AmbiguousNames(db: Store, ss: seq<Statement>, tenant: int)
    ensures Ambiguous(db, ss, tenant) <==>
              exists user, sku :: Named(ss, user, sku) && |Subscriptions(db, tenant, sku)| > 1
  {
    hide Subscriptions;
    if i :| 0 <= i < |ss| && ss[i].Assign? && |Subscriptions(db, tenant, ss[i].sku)| > 1 {
      assert Named(ss, ss[i].user, ss[i].sku);
    }
  }

  lemma AmbiguousBatch(db: Store, cleared: Store, ss: seq<Statement>, c: Collection)
    requires forall sku :: Subscriptions(cleared, c.tenant, sku) == Subscriptions(db, c.tenant, sku)
    requires forall user, sku :: Named(ss, user, sku) <==> BatchNames(c.records, user, sku)
    ensures NamesAmbiguous(db, c) <==>
              exists user, sku :: Named(ss, user, sku) && |Subscriptions(cleared, c.tenant, sku)| > 1
  {
    hide Subscriptions, Named, BatchNames;
    if user, sku :| BatchNames(c.records, user, sku) && |Subscriptions(db, c.tenant, sku)| > 1 {
      assert Named(ss, user, sku) && |Subscriptions(cleared, c.tenant, sku)| > 1;
    }
    if user, sku :| Named(ss, user, sku) && |Subscriptions(cleared, c.tenant, sku)| > 1 {
      assert BatchNames(c.records, user, sku) && |Subscriptions(db, c.tenant, sku)| > 1;
    }
  }

  /** One such store: the tenant holds two subscriptions to the same SKU, and one user is assigned it. */
  lemma TwiceSubscribedRefused() returns (registry: Registry, db: Store, c: Collection)
    ensures Orderly(registry) && Tidy(registry, db) && BoundaryOk(registry, c) && PlanCollection(registry, c).Ok?
    ensures |c.records| == 1 && Stored(registry, db, c).None?
  {
    var users := Table(USER_TABLE, [TENANT, "source_object_id"], ["source_object_id"]);
    registry := map[USERS := Endpoint(CurrentOnly, users, None, None)];
    var first, second := RowId(SKU_TABLE, 1, [Str("a")]), RowId(SKU_TABLE, 1, [Str("b")]);
    var row := map[TENANT := Num(1), "source_object_id" := Str("u"), LICENCES := Arr([Str("sku")]),
                   LICENCES + "_available" := Bool(true)];
    var record := Record(USERS, CurrentOnly, Some(row), None, None, None, None);
    db := Store(map[first := map["sku_id" := Str("sku")], second := map["sku_id" := Str("sku")]], map[]);
    c := Collection(USERS, 1, [record]);
    OneUserPlanned(registry, c, row);
    RefusedByDatabaseIff(registry, db, c);
    assert NamesPair(record, Str("u"), Str("sku"));
    assert BatchNames(c.records, Str("u"), Str("sku"));
    assert {first, second} <= Subscriptions(db, 1, Str("sku"));
    SmallerSet({first, second}, Subscriptions(db, 1, Str("sku")));
  }

  lemma OneUserPlanned(registry: Registry, c: Collection, row: Row)
    requires USERS in registry && UsersEndpoint(registry[USERS]) && HasColumns(registry[USERS].main, row)
    requires TenantOk(row)
    requires c.endpointId == USERS && c.records == [Record(USERS, CurrentOnly, Some(row), None, None, None, None)]
    requires LICENCES in row && row[LICENCES].Arr?
    ensures PlanCollection(registry, c).Ok?
  {
    var e, r := registry[USERS], c.records[0];
    assert r.Rows() == [row];
    assert TenantIds(c.records) == {row[TENANT]};
    assert PlanRecord(e, r).Ok? && PlanUser(e, r).Ok?;
    assert c.records[..0] == [] && PlanRecords(e, c.records[..0]) == Ok([]) && PlanUsers(e, c.records[..0]) == Ok([]);
  }

  lemma SmallerSet<T>(a: set<T>, b: set<T>)
    requires a <= b
    ensures |a| <= |b|
  {
    if a != {} {
      var x :| x in a;
      SmallerSet(a - {x}, b - {x});
    }
  }
}
