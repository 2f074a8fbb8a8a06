/** The statements the persistence modes issue, by their effect on keyed tables
    (collectors/persistence/core.py). */
module Tables {
  import opened Basics

  type Row = map<string, Json>

  const TENANT := "tenant_id"

  /** `conflict` lists the columns of the ON CONFLICT target after tenant_id, which every target has. */
  datatype Table = Table(name: string, columns: seq<string>, conflict: seq<string>)

  // The unique key of a stored row.
  datatype RowId = RowId(table: string, tenant: int, rest: seq<Json>)

  datatype Assignment = Assignment(firstObserved: Json, lastObserved: Json)

  // core.user_license_assignment, by tenant, user and SKU; a user is known by its source_object_id.
  type Assignments = map<(int, Json, Json), Assignment>

  datatype Store = Store(rows: map<RowId, Row>, assignments: Assignments)

  predicate HasColumns(t: Table, row: Row) {
    && TENANT in row && row[TENANT].Num?
    && (forall c | c in t.columns :: c in row)
    && (forall c | c in t.conflict :: c in row)
  }

  function IdOf(t: Table, row: Row): RowId
    requires HasColumns(t, row)
  {
    RowId(t.name, row[TENANT].n, seq(|t.conflict|, i requires 0 <= i < |t.conflict| => row[t.conflict[i]]))
  }

  function Bound(t: Table, row: Row): Row
    requires HasColumns(t, row)
  {
    map c | c in t.columns :: row[c]
  }

  datatype Statement =
    | Upsert(table: Table, row: Row)
    | UpsertIfDistinct(table: Table, row: Row)
    | InsertIgnore(table: Table, row: Row)
    | ClearAssignments(tenant: int)
    | Assign(tenant: int, user: Json, sku: Json, observedAt: Json)

  predicate WellFormed(s: Statement) {
    (s.Upsert? || s.UpsertIfDistinct? || s.InsertIgnore?) ==> HasColumns(s.table, s.row)
  }

  const USER_TABLE := "core.\"user\""
  const SKU_TABLE := "core.subscribed_sku"

  // (old columns) IS DISTINCT FROM (new columns), over the columns outside the key.
  predicate Distinct(t: Table, stored: Row, row: Row)
    requires HasColumns(t, row)
  {
    exists c :: c in t.columns && c != TENANT && c !in t.conflict && (c !in stored || stored[c] != row[c])
  }

  // The tenant's subscriptions a SKU id joins with.
  function Subscriptions(db: Store, tenant: int, sku: Json): set<RowId> {
    set id | id in db.rows && id.table == SKU_TABLE && id.tenant == tenant && Get(db.rows[id], "sku_id") == sku &&
      sku != Null
  }

  // What a statement does; None when the database refuses it.
  function Effect(db: Store, s: Statement): Option<Store>
    requires WellFormed(s)
  {
    match s
    case Upsert(t, row) => Some(db.(rows := db.rows[IdOf(t, row) := Bound(t, row)]))
    case UpsertIfDistinct(t, row) =>
      if IdOf(t, row) in db.rows && !Distinct(t, db.rows[IdOf(t, row)], row) then Some(db)
      else Some(db.(rows := db.rows[IdOf(t, row) := Bound(t, row)]))
    case InsertIgnore(t, row) =>
      if IdOf(t, row) in db.rows then Some(db) else Some(db.(rows := db.rows[IdOf(t, row) := Bound(t, row)]))
    case ClearAssignments(tenant) =>
      Some(db.(assignments := map k | k in db.assignments && k.0 != tenant :: db.assignments[k]))
    case Assign(tenant, user, sku, observedAt) =>
      var matches := Subscriptions(db, tenant, sku);
      if RowId(USER_TABLE, tenant, [user]) !in db.rows || matches == {} then Some(db)
      // The join yields the same key twice: ON CONFLICT DO UPDATE cannot affect a row a second time.
      else if |matches| > 1 then None
      else
        var key := (tenant, user, sku);
        var first := if key in db.assignments then db.assignments[key].firstObserved else observedAt;
        Some(db.(assignments := db.assignments[key := Assignment(first, observedAt)]))
  }

  ghost predicate AllWellFormed(ss: seq<Statement>) { forall i | 0 <= i < |ss| :: WellFormed(ss[i]) }

  /** The statements in order; None if one is refused. */
  ghost function Run(db: Store, ss: seq<Statement>): Option<Store>
    requires AllWellFormed(ss)
  {
    if ss == [] then Some(db)
    else
      var before := Run(db, ss[..|ss| - 1]);
      if before.None? then None else Effect(before.value, ss[|ss| - 1])
  }

  lemma {:induction false} RunTwo(db: Store, a: seq<Statement>, b: seq<Statement>)
    requires AllWellFormed(a) && AllWellFormed(b)
    ensures Run(db, a + b) == if Run(db, a).None? then None else Run(Run(db, a).value, b)
  {
    if b == [] {
      assert a + b == a;
    } else {
      assert (a + b)[..|a + b| - 1] == a + b[..|b| - 1];
      RunTwo(db, a, b[..|b| - 1]);
    }
  }

  // ---- Tenant boundary --------------------------------------------------------------------------

  predicate OfTenant(s: Statement, tenant: int)
    requires WellFormed(s)
  {
    match s
    case Upsert(_, row) => row[TENANT].n == tenant
    case UpsertIfDistinct(_, row) => row[TENANT].n == tenant
    case InsertIgnore(_, row) => row[TENANT].n == tenant
    case ClearAssignments(t) => t == tenant
    case Assign(t, _, _, _) => t == tenant
  }

  // `tenant` is the only tenant whose rows or assignments differ.
  ghost predicate OnlyTenantChanged(db: Store, after: Store, tenant: int) {
    && (forall id: RowId :: id.tenant != tenant ==>
        (id in after.rows <==> id in db.rows) && (id in db.rows ==> after.rows[id] == db.rows[id]))
    && (forall k: (int, Json, Json) :: k.0 != tenant ==>
          (k in after.assignments <==> k in db.assignments) &&
            (k in db.assignments ==> after.assignments[k] == db.assignments[k]))
  }

  /** Statements of one tenant leave every other tenant's rows as they were. */
  lemma {:induction false} RunKeepsOtherTenants(db: Store, ss: seq<Statement>, tenant: int)
    requires AllWellFormed(ss) && (forall i | 0 <= i < |ss| :: OfTenant(ss[i], tenant))
    ensures Run(db, ss).Some? ==> OnlyTenantChanged(db, Run(db, ss).value, tenant)
  {
    if ss != [] && Run(db, ss).Some? {
      var before := Run(db, ss[..|ss| - 1]).value;
      RunKeepsOtherTenants(db, ss[..|ss| - 1], tenant);
      EffectKeepsOtherTenants(before, ss[|ss| - 1], tenant);
    }
  }

  lemma EffectKeepsOtherTenants(db: Store, s: Statement, tenant: int)
    requires WellFormed(s) && OfTenant(s, tenant)
    ensures Effect(db, s).Some? ==> OnlyTenantChanged(db, Effect(db, s).value, tenant)
  {
  }

  // ---- Replay -------------------------------------------------------------------------------------

  predicate Writes(s: Statement, id: RowId)
    requires WellFormed(s)
  {
    (s.Upsert? || s.UpsertIfDistinct? || s.InsertIgnore?) && IdOf(s.table, s.row) == id
  }

  // Every stored row sits under its own key and binds all columns of its table.
  ghost predicate Keyed(db: Store, t: Table) {
    forall id | id in db.rows && id.table == t.name ::
      && HasColumns(t, db.rows[id]) && db.rows[id].Keys == (set c | c in t.columns)
      && IdOf(t, db.rows[id]) == id
  }

  // The key columns are among the columns, as they are in every table.
  predicate Regular(t: Table) {
    TENANT in t.columns && forall c | c in t.conflict :: c in t.columns
  }

  /** The conditional upsert of the history mode stores what the unconditional one would. */
  lemma DistinctUpsertIsUpsert(db: Store, t: Table, row: Row)
    requires Regular(t) && Keyed(db, t) && HasColumns(t, row)
    ensures Effect(db, UpsertIfDistinct(t, row)) == Effect(db, Upsert(t, row))
  {
    var id := IdOf(t, row);
    if id in db.rows && !Distinct(t, db.rows[id], row) {
      var stored := db.rows[id];
      forall c | c in t.columns
        ensures stored[c] == row[c]
      {
        if c in t.conflict {
          var i :| 0 <= i < |t.conflict| && t.conflict[i] == c;
          assert IdOf(t, stored).rest[i] == IdOf(t, row).rest[i];
        }
      }
      assert stored == Bound(t, row);
      assert db.rows[id := stored] == db.rows;
    }
  }

  /** Statements keep rows under their keys, if tables are told apart by name. */
  lemma EffectKeepsKeyed(db: Store, s: Statement, t: Table)
    requires WellFormed(s) && Regular(t) && Keyed(db, t)
    requires (s.Upsert? || s.UpsertIfDistinct? || s.InsertIgnore?) && s.table.name == t.name ==> s.table == t
    ensures Effect(db, s).Some? ==> Keyed(Effect(db, s).value, t)
  {
    if (s.Upsert? || s.UpsertIfDistinct? || s.InsertIgnore?) && s.table == t {
      var bound := Bound(t, s.row);
      assert forall i | 0 <= i < |t.conflict| :: t.conflict[i] in t.conflict;
      assert IdOf(t, bound).rest == IdOf(t, s.row).rest;
    }
  }

  // Statement `i` is the last to write `id`.
  ghost predicate LastWriter(ss: seq<Statement>, id: RowId, i: nat)
    requires AllWellFormed(ss)
  {
    i < |ss| && Writes(ss[i], id) && forall j | i < j < |ss| :: !Writes(ss[j], id)
  }

  /** Upserted tables: each key named in a batch ends with its last record. */
  lemma {:induction false} LastRecordWins(db: Store, ss: seq<Statement>, id: RowId, i: nat)
    requires AllWellFormed(ss) && Run(db, ss).Some? && LastWriter(ss, id, i) && ss[i].Upsert?
    ensures id in Run(db, ss).value.rows && Run(db, ss).value.rows[id] == Bound(ss[i].table, ss[i].row)
  {
    var n := |ss| - 1;
    if i < n {
      assert LastWriter(ss[..n], id, i);
      LastRecordWins(db, ss[..n], id, i);
    }
  }

  /** A key no statement of a batch upserts keeps its row: event, snapshot and history rows once present
      never change, whatever is written later. */
  lemma {:induction false} InsertedRowStays(db: Store, ss: seq<Statement>, id: RowId)
    requires AllWellFormed(ss) && Run(db, ss).Some? && id in db.rows
    requires forall i | 0 <= i < |ss| && Writes(ss[i], id) :: ss[i].InsertIgnore?
    ensures id in Run(db, ss).value.rows && Run(db, ss).value.rows[id] == db.rows[id]
  {
    if ss != [] { InsertedRowStays(db, ss[..|ss| - 1], id); }
  }

  lemma {:induction false} UnwrittenRowStays(db: Store, ss: seq<Statement>, id: RowId)
    requires AllWellFormed(ss) && Run(db, ss).Some?
    requires forall i | 0 <= i < |ss| :: !Writes(ss[i], id)
    ensures id in Run(db, ss).value.rows <==> id in db.rows
    ensures id in db.rows ==> Run(db, ss).value.rows[id] == db.rows[id]
  {
    if ss != [] { UnwrittenRowStays(db, ss[..|ss| - 1], id); }
  }

  // A batch in which no key is both upserted and inserted-or-skipped, as the modes write disjoint tables.
  ghost predicate Separate(ss: seq<Statement>)
    requires AllWellFormed(ss)
  {
    forall i, j, id | 0 <= i < |ss| && 0 <= j < |ss| && Writes(ss[i], id) && Writes(ss[j], id) ::
      ss[i].Upsert? <==> ss[j].Upsert?
  }

  ghost predicate RowsOnly(ss: seq<Statement>) {
    forall i | 0 <= i < |ss| :: ss[i].Upsert? || ss[i].InsertIgnore?
  }

  lemma {:induction false} WrittenIsPresent(db: Store, ss: seq<Statement>, id: RowId, i: nat)
    requires AllWellFormed(ss) && Run(db, ss).Some? && i < |ss| && Writes(ss[i], id)
    ensures id in Run(db, ss).value.rows
  {
    var n := |ss| - 1;
    if i < n { WrittenIsPresent(db, ss[..n], id, i); }
  }

  lemma {:induction false} RowsAlwaysRun(db: Store, ss: seq<Statement>)
    requires AllWellFormed(ss) && RowsOnly(ss)
    ensures Run(db, ss).Some? && Run(db, ss).value.assignments == db.assignments
  {
    if ss != [] { RowsAlwaysRun(db, ss[..|ss| - 1]); }
  }

  lemma {:induction false} WritesAlwaysRun(db: Store, ss: seq<Statement>)
    requires AllWellFormed(ss) && forall i | 0 <= i < |ss| :: WritesRow(ss[i])
    ensures Run(db, ss).Some? && Run(db, ss).value.assignments == db.assignments
  {
    if ss != [] { WritesAlwaysRun(db, ss[..|ss| - 1]); }
  }

  lemma {:induction false} RunKeepsKeyed(db: Store, ss: seq<Statement>, t: Table)
    requires AllWellFormed(ss) && Regular(t) && Keyed(db, t) && Run(db, ss).Some?
    requires forall i | 0 <= i < |ss| && WritesRow(ss[i]) && ss[i].table.name == t.name :: ss[i].table == t
    ensures Keyed(Run(db, ss).value, t)
  {
    if ss != [] {
      hide Keyed, Regular;
      var n := |ss| - 1;
      RunKeepsKeyed(db, ss[..n], t);
      EffectKeepsKeyed(Run(db, ss[..n]).value, ss[n], t);
    }
  }

  lemma {:induction false} HasLastWriter(ss: seq<Statement>, id: RowId, i: nat) returns (k: nat)
    requires AllWellFormed(ss) && i < |ss| && Writes(ss[i], id)
    ensures LastWriter(ss, id, k)
    decreases |ss| - i
  {
    if j :| i < j < |ss| && Writes(ss[j], id) {
      k := HasLastWriter(ss, id, j);
    } else {
      k := i;
    }
  }

  predicate WritesRow(s: Statement) { s.Upsert? || s.UpsertIfDistinct? || s.InsertIgnore? }

  // Every row is written to one of `tables`, which are regular and told apart by name.
  ghost predicate Catalogued(ss: seq<Statement>, tables: set<Table>) {
    && (forall t | t in tables :: Regular(t))
    && (forall t, u | t in tables && u in tables && t.name == u.name :: t == u)
    && (forall i | 0 <= i < |ss| && WritesRow(ss[i]) :: ss[i].table in tables)
  }

  ghost predicate AllKeyed(db: Store, tables: set<Table>) { forall t | t in tables :: Keyed(db, t) }

  ghost function PlainOne(s: Statement): Statement {
    if s.UpsertIfDistinct? then Upsert(s.table, s.row) else s
  }

  // The batch with every conditional upsert made unconditional.
  ghost function Plain(ss: seq<Statement>): seq<Statement> {
    if ss == [] then [] else Plain(ss[..|ss| - 1]) + [PlainOne(ss[|ss| - 1])]
  }

  lemma {:induction false} PlainAt(ss: seq<Statement>)
    ensures |Plain(ss)| == |ss| && forall i | 0 <= i < |ss| :: Plain(ss)[i] == PlainOne(ss[i])
    ensures AllWellFormed(ss) ==> AllWellFormed(Plain(ss))
  {
    if ss != [] { PlainAt(ss[..|ss| - 1]); }
  }

  /** Over whole batches too, the conditional upserts store what unconditional ones would. */
  lemma {:induction false} PlainRunsAlike(db: Store, ss: seq<Statement>, tables: set<Table>)
    requires AllWellFormed(ss) && Catalogued(ss, tables) && AllKeyed(db, tables)
    ensures AllWellFormed(Plain(ss)) && Run(db, Plain(ss)) == Run(db, ss)
    ensures Run(db, ss).Some? ==> AllKeyed(Run(db, ss).value, tables)
  {
    PlainAt(ss);
    if ss != [] {
      var n := |ss| - 1;
      PlainRunsAlike(db, ss[..n], tables);
      assert Plain(ss)[..n] == Plain(ss[..n]);
      if Run(db, ss[..n]).Some? {
        var before := Run(db, ss[..n]).value;
        if ss[n].UpsertIfDistinct? { DistinctUpsertIsUpsert(before, ss[n].table, ss[n].row); }
        forall t | t in tables
          ensures Run(db, ss).Some? ==> Keyed(Run(db, ss).value, t)
        {
          EffectKeepsKeyed(before, ss[n], t);
        }
      }
    }
  }

  lemma ReplayPlain(db: Store, ss: seq<Statement>)
    requires AllWellFormed(ss) && RowsOnly(ss) && Separate(ss)
    ensures Run(db, ss).Some? && Run(Run(db, ss).value, ss) == Run(db, ss)
  {
    RowsAlwaysRun(db, ss);
    var once := Run(db, ss).value;
    RowsAlwaysRun(once, ss);
    var twice := Run(once, ss).value;
    forall id
      ensures id in twice.rows <==> id in once.rows
      ensures id in once.rows ==> twice.rows[id] == once.rows[id]
    {
      if i :| 0 <= i < |ss| && Writes(ss[i], id) {
        WrittenIsPresent(db, ss, id, i);
        if ss[i].Upsert? {
          var k := HasLastWriter(ss, id, i);
          LastRecordWins(db, ss, id, k);
          LastRecordWins(once, ss, id, k);
        } else {
          InsertedRowStays(once, ss, id);
        }
      } else {
        UnwrittenRowStays(once, ss, id);
      }
    }
    assert twice.rows == once.rows;
  }

  // Each table is upserted or inserted-or-skipped by the whole batch.
  ghost predicate OneKind(ss: seq<Statement>) {
    forall i, j | 0 <= i < |ss| && 0 <= j < |ss| && WritesRow(ss[i]) && WritesRow(ss[j]) &&
      ss[i].table.name == ss[j].table.name ::
      ss[i].InsertIgnore? <==> ss[j].InsertIgnore?
  }

  /** Replaying a batch of rows at once changes nothing, whatever mixture of statements it is. */
  lemma ReplayIsIdempotent(db: Store, ss: seq<Statement>, tables: set<Table>)
    requires AllWellFormed(ss) && Catalogued(ss, tables) && AllKeyed(db, tables) && OneKind(ss)
    requires forall i | 0 <= i < |ss| :: WritesRow(ss[i])
    ensures Run(db, ss).Some? && Run(Run(db, ss).value, ss) == Run(db, ss)
  {
    PlainAt(ss);
    var plain := Plain(ss);
    PlainRunsAlike(db, ss, tables);
    RowsAlwaysRun(db, plain);
    PlainRunsAlike(Run(db, ss).value, ss, tables);
    assert Separate(plain);
    ReplayPlain(db, plain);
  }

  // ---- Replacing a tenant's licence assignments ------------------------------------------------------

  // Upserts of the tenant's users and assignments of users already upserted.
  ghost predicate UserBatch(ss: seq<Statement>, tenant: int)
    requires AllWellFormed(ss)
  {
    forall i | 0 <= i < |ss| ::
      || (ss[i].Upsert? && ss[i].table.name == USER_TABLE && ss[i].row[TENANT].n == tenant)
      || (ss[i].Assign? && ss[i].tenant == tenant && exists j ::
          0 <= j < i && Writes(ss[j], RowId(USER_TABLE, tenant, [ss[i].user])))
  }

  ghost predicate Named(ss: seq<Statement>, user: Json, sku: Json) {
    exists i :: 0 <= i < |ss| && ss[i].Assign? && ss[i].user == user && ss[i].sku == sku
  }

  lemma {:induction false} UsersKeepSubscriptions(db: Store, ss: seq<Statement>, tenant: int, sku: Json)
    requires AllWellFormed(ss) && UserBatch(ss, tenant) && Run(db, ss).Some?
    ensures Subscriptions(Run(db, ss).value, tenant, sku) == Subscriptions(db, tenant, sku)
  {
    if ss != [] {
      UsersKeepSubscriptions(db, ss[..|ss| - 1], tenant, sku);
      assert |USER_TABLE| == 11 && |SKU_TABLE| == 19;
    }
  }

  /** Assignments grow by exactly the named pairs whose SKU the tenant subscribes to, first seen when the
      batch says. */
  lemma {:induction false} AssignmentsGrow(db: Store, ss: seq<Statement>, tenant: int, k: (int, Json, Json))
    requires AllWellFormed(ss) && UserBatch(ss, tenant) && Run(db, ss).Some?
    ensures k in Run(db, ss).value.assignments <==>
              k in db.assignments || (k.0 == tenant && Named(ss, k.1, k.2) && Subscriptions(db, tenant, k.2) != {})
    ensures k in Run(db, ss).value.assignments && k !in db.assignments ==>
              exists i :: 0 <= i < |ss| && ss[i]
                == Assign(tenant, k.1, k.2, Run(db, ss).value.assignments[k].firstObserved)
    ensures k.0 != tenant && k in db.assignments ==> Run(db, ss).value.assignments[k] == db.assignments[k]
  {
    if ss != [] {
      var n := |ss| - 1;
      var front, s := ss[..n], ss[n];
      hide Subscriptions, Effect, UserBatch, Named;
      FrontOfBatch(ss, tenant);
      NamedStep(ss, k.1, k.2);
      AssignmentsGrow(db, front, tenant, k);
      var before := Run(db, front).value;
      LastOfBatch(db, ss, tenant);
      if s.Assign? {
        AssignEffect(before, s, k);
      } else {
        UpsertKeepsAssignments(before, s);
      }
      if k in Run(db, ss).value.assignments && k !in db.assignments && k in before.assignments {
        var i :| 0 <= i < n && front[i] == Assign(tenant, k.1, k.2, before.assignments[k].firstObserved);
        assert ss[i] == front[i];
      }
    }
  }

  lemma FrontOfBatch(ss: seq<Statement>, tenant: int)
    requires ss != [] && AllWellFormed(ss) && UserBatch(ss, tenant)
    ensures UserBatch(ss[..|ss| - 1], tenant)
  {
    hide Writes;
    var front := ss[..|ss| - 1];
    assert forall i | 0 <= i < |front| :: front[i] == ss[i];
    forall i | 0 <= i < |front| && !ss[i].Upsert?
      ensures exists j :: 0 <= j < i && Writes(front[j], RowId(USER_TABLE, tenant, [front[i].user]))
    {
      var j :| 0 <= j < i && Writes(ss[j], RowId(USER_TABLE, tenant, [ss[i].user]));
      assert front[j] == ss[j];
    }
  }

  lemma NamedStep(ss: seq<Statement>, user: Json, sku: Json)
    requires ss != []
    ensures var s := ss[|ss| - 1]; Named(ss, user, sku) <==>
              Named(ss[..|ss| - 1], user, sku) || (s.Assign? && s.user == user && s.sku == sku)
  {
    var front := ss[..|ss| - 1];
    assert forall i | 0 <= i < |front| :: front[i] == ss[i];
  }

  // An assignment finds its user stored and its SKU's subscriptions as they were.
  lemma LastOfBatch(db: Store, ss: seq<Statement>, tenant: int)
    requires ss != [] && AllWellFormed(ss) && UserBatch(ss, tenant)
    requires Run(db, ss[..|ss| - 1]).Some?
    ensures var before, s := Run(db, ss[..|ss| - 1]).value, ss[|ss| - 1];
            if s.Assign? then s.tenant == tenant && RowId(USER_TABLE, tenant, [s.user]) in before.rows &&
              Subscriptions(before, tenant, s.sku) == Subscriptions(db, tenant, s.sku)
            else s.Upsert?
  {
    hide Subscriptions, Writes, Effect, Run;
    var n := |ss| - 1;
    var front, s := ss[..n], ss[n];
    if s.Assign? {
      FrontOfBatch(ss, tenant);
      var j :| 0 <= j < n && Writes(ss[j], RowId(USER_TABLE, tenant, [s.user]));
      assert front[j] == ss[j];
      WrittenIsPresent(db, front, RowId(USER_TABLE, tenant, [s.user]), j);
      UsersKeepSubscriptions(db, front, tenant, s.sku);
    }
  }

  lemma AssignEffect(db: Store, s: Statement, k: (int, Json, Json))
    requires s.Assign? && RowId(USER_TABLE, s.tenant, [s.user]) in db.rows && Effect(db, s).Some?
    ensures var after := Effect(db, s).value.assignments;
            var key := (s.tenant, s.user, s.sku);
            && (k in after <==> k in db.assignments || (k == key && Subscriptions(db, s.tenant, s.sku) != {}))
            && (k in after && k in db.assignments ==> after[k].firstObserved == db.assignments[k].firstObserved)
            && (k in after && k !in db.assignments ==> after[k].firstObserved == s.observedAt)
            && (k != key && k in db.assignments ==> after[k] == db.assignments[k])
  {
  }

  lemma UpsertKeepsAssignments(db: Store, s: Statement)
    requires s.Upsert? && WellFormed(s)
    ensures Effect(db, s).Some? && Effect(db, s).value.assignments == db.assignments
  {
  }

  // Some assignment names a SKU the tenant subscribes to more than once.
  ghost predicate Ambiguous(db: Store, ss: seq<Statement>, tenant: int) {
    exists i :: 0 <= i < |ss| && ss[i].Assign? && |Subscriptions(db, tenant, ss[i].sku)| > 1
  }

  lemma AmbiguousStep(db: Store, ss: seq<Statement>, tenant: int)
    requires ss != []
    ensures var s := ss[|ss| - 1];
            Ambiguous(db, ss, tenant) <==>
              Ambiguous(db, ss[..|ss| - 1], tenant) || (s.Assign? && |Subscriptions(db, tenant, s.sku)| > 1)
  {
    hide Subscriptions;
    assert forall i | 0 <= i < |ss| - 1 :: ss[..|ss| - 1][i] == ss[i];
  }

  /** The database refuses a refresh exactly when it names a SKU the tenant subscribes to more than once. */
  lemma {:induction false} RefusedIff(db: Store, ss: seq<Statement>, tenant: int)
    requires AllWellFormed(ss) && UserBatch(ss, tenant)
    ensures Run(db, ss).None? <==> Ambiguous(db, ss, tenant)
  {
    if ss != [] {
      var front, s := ss[..|ss| - 1], ss[|ss| - 1];
      hide Subscriptions, Ambiguous, UserBatch;
      FrontOfBatch(ss, tenant);
      AmbiguousStep(db, ss, tenant);
      RefusedIff(db, front, tenant);
      if Run(db, front).Some? {
        LastOfBatch(db, ss, tenant);
        if s.Assign? { SomeMatch(Subscriptions(db, tenant, s.sku)); }
      }
    }
  }

  lemma SomeMatch(matches: set<RowId>)
    ensures |matches| > 1 ==> matches != {}
  {
  }

  /** The refresh: afterwards the tenant's assignments are exactly the pairs the batch names whose SKU it
      subscribes to. Stale pairs are gone, and so is when a kept pair was first observed. */
  lemma RefreshReplaces(db: Store, ss: seq<Statement>, tenant: int, k: (int, Json, Json))
    requires AllWellFormed(ss) && UserBatch(ss, tenant) && AllWellFormed([ClearAssignments(tenant)] + ss)
    requires Run(db, [ClearAssignments(tenant)] + ss).Some?
    ensures var after := Run(db, [ClearAssignments(tenant)] + ss).value.assignments;
            if k.0 == tenant
            then (k in after <==> Named(ss, k.1, k.2) && Subscriptions(db, tenant, k.2) != {})
                 && (k in after ==>
                     exists i :: 0 <= i < |ss| && ss[i] == Assign(tenant, k.1, k.2, after[k].firstObserved))
            else (k in after <==> k in db.assignments) && (k in after ==> after[k] == db.assignments[k])
  {
    var clear := [ClearAssignments(tenant)];
    assert clear[..0] == [];
    assert Run(db, []) == Some(db);
    assert Run(db, clear) == Effect(db, ClearAssignments(tenant));
    var cleared := Run(db, clear).value;
    RunTwo(db, clear, ss);
    AssignmentsGrow(cleared, ss, tenant, k);
    assert Subscriptions(cleared, tenant, k.2) == Subscriptions(db, tenant, k.2);
  }

  lemma ClearKeepsSubscriptions(db: Store, tenant: int, other: int, sku: Json)
    ensures Subscriptions(Effect(db, ClearAssignments(tenant)).value, other, sku) == Subscriptions(db, other, sku)
  {
  }

  // Two stores a batch of the tenant's users treats alike.
  ghost predicate SameSubscriptions(a: Store, b: Store, tenant: int) {
    forall sku :: Subscriptions(a, tenant, sku) == Subscriptions(b, tenant, sku)
  }

  lemma {:induction false} UsersRunAlike(a: Store, b: Store, ss: seq<Statement>, tenant: int)
    requires AllWellFormed(ss) && UserBatch(ss, tenant) && SameSubscriptions(a, b, tenant)
    requires a.assignments == b.assignments
    ensures Run(a, ss).Some? <==> Run(b, ss).Some?
    ensures Run(a, ss).Some? ==> Run(a, ss).value.assignments == Run(b, ss).value.assignments
  {
    if ss != [] {
      hide Subscriptions, UserBatch;
      var front, s := ss[..|ss| - 1], ss[|ss| - 1];
      FrontOfBatch(ss, tenant);
      UsersRunAlike(a, b, front, tenant);
      if Run(a, front).Some? {
        LastOfBatch(a, ss, tenant);
        LastOfBatch(b, ss, tenant);
      }
    }
  }

  /** Rows a users batch writes are those of the last records; replaying it stores the same rows. */
  lemma UserRowsAgain(db: Store, once: Store, twice: Store, ss: seq<Statement>, tenant: int)
    requires AllWellFormed(ss) && UserBatch(ss, tenant)
    requires Run(db, ss).Some? && once.rows == Run(db, ss).value.rows
    requires Run(once, ss) == Some(twice)
    ensures twice.rows == once.rows
  {
    hide Run, UserBatch;
    forall id
      ensures id in twice.rows <==> id in once.rows
      ensures id in once.rows ==> twice.rows[id] == once.rows[id]
    {
      if i :| 0 <= i < |ss| && Writes(ss[i], id) {
        var k := HasLastWriter(ss, id, i);
        UserWritesUpsert(ss, tenant, k);
        LastRecordWins(db, ss, id, k);
        LastRecordWins(once, ss, id, k);
      } else {
        UnwrittenRowStays(once, ss, id);
      }
    }
  }

  lemma UserWritesUpsert(ss: seq<Statement>, tenant: int, i: nat)
    requires AllWellFormed(ss) && UserBatch(ss, tenant) && i < |ss| && WritesRow(ss[i])
    ensures ss[i].Upsert?
  {
  }

  /** Replaying a refresh at once changes nothing: rows, assignments and the times they were first and last observed. */
  lemma RefreshIsIdempotent(db: Store, ss: seq<Statement>, tenant: int)
    requires AllWellFormed(ss) && UserBatch(ss, tenant) && AllWellFormed([ClearAssignments(tenant)] + ss)
    requires Run(db, [ClearAssignments(tenant)] + ss).Some?
    ensures var once := Run(db, [ClearAssignments(tenant)] + ss);
            Run(once.value, [ClearAssignments(tenant)] + ss) == once
  {
    hide Subscriptions, UserBatch;
    var clear := [ClearAssignments(tenant)];
    var once := Run(db, clear + ss).value;
    RunTwo(db, clear, ss);
    RunTwo(once, clear, ss);
    ClearRuns(db, tenant);
    ClearRuns(once, tenant);
    var first, second := Run(db, clear).value, Run(once, clear).value;
    forall sku
      ensures Subscriptions(first, tenant, sku) == Subscriptions(second, tenant, sku)
    {
      ClearKeepsSubscriptions(db, tenant, tenant, sku);
      ClearKeepsSubscriptions(once, tenant, tenant, sku);
      UsersKeepSubscriptions(first, ss, tenant, sku);
    }
    OthersKeepAssignments(db, once, ss, tenant);
    assert first.assignments == second.assignments;
    UsersRunAlike(first, second, ss, tenant);
    var twice := Run(second, ss).value;
    UserRowsAgain(first, second, twice, ss, tenant);
  }

  lemma ClearRuns(db: Store, tenant: int)
    ensures Run(db, [ClearAssignments(tenant)]) == Effect(db, ClearAssignments(tenant))
  {
    var clear := [ClearAssignments(tenant)];
    assert clear[..0] == [] && Run(db, clear[..0]) == Some(db);
  }

  // Clearing leaves what it left the first time.
  lemma OthersKeepAssignments(db: Store, once: Store, ss: seq<Statement>, tenant: int)
    requires AllWellFormed(ss) && UserBatch(ss, tenant) && AllWellFormed([ClearAssignments(tenant)] + ss)
    requires Run(db, [ClearAssignments(tenant)] + ss) == Some(once)
    ensures Effect(db, ClearAssignments(tenant)).value.assignments
              == Effect(once, ClearAssignments(tenant)).value.assignments
  {
    hide Run, Subscriptions, UserBatch;
    forall k: (int, Json, Json)
      ensures k.0 != tenant ==> (k in once.assignments <==> k in db.assignments)
      ensures k.0 != tenant && k in db.assignments ==> once.assignments[k] == db.assignments[k]
    {
      RefreshReplaces(db, ss, tenant, k);
    }
  }
}
