/** The event table and the checkpoint table behind the audit collector
    (collectors/persistence/core.py). */
module AuditStore {
  import opened Basics
  import opened Connections
  import opened AuditRecords
  import opened Checkpoints

  // ---- Events -----------------------------------------------------------------------------

  // The unique key (tenant_id, audit_record_id).
  type Key = (Json, Json)

  function KeyOf(row: Row): Key { (Cell(row, TenantId), Cell(row, AuditRecordId)) }

  // The row as bound to the table's columns.
  function Stored(row: Row): Row { map c: Column | true :: Cell(row, c) }

  predicate HasKey(events: seq<Row>, key: Key) {
    exists i :: 0 <= i < |events| && KeyOf(events[i]) == key
  }

  // INSERT ... ON CONFLICT DO NOTHING
  function InsertRow(events: seq<Row>, row: Row): seq<Row> {
    if HasKey(events, KeyOf(row)) then events else events + [Stored(row)]
  }

  ghost function InsertAll(events: seq<Row>, rows: seq<Row>): seq<Row> {
    if rows == [] then events else InsertRow(InsertAll(events, rows[..|rows| - 1]), rows[|rows| - 1])
  }

  ghost predicate DistinctKeys(events: seq<Row>) {
    forall i, j | 0 <= i < j < |events| :: KeyOf(events[i]) != KeyOf(events[j])
  }

  ghost function Copies(events: seq<Row>, key: Key): nat {
    if events == [] then 0
    else Copies(events[..|events| - 1], key) + if KeyOf(events[|events| - 1]) == key then 1 else 0
  }

  lemma {:induction false} CopiesWhenDistinct(events: seq<Row>, key: Key)
    requires DistinctKeys(events)
    ensures Copies(events, key) == if HasKey(events, key) then 1 else 0
  {
    if events != [] {
      var n := |events| - 1;
      CopiesWhenDistinct(events[..n], key);
      assert forall i | 0 <= i < n :: events[..n][i] == events[i];
    }
  }

  /** A batch only appends: rows already stored keep their place and content, keys stay unique, and a
      key is present afterwards exactly if it was before or a row of the batch has it. */
  lemma {:induction false} InsertAllEffect(events: seq<Row>, rows: seq<Row>)
    requires DistinctKeys(events)
    ensures events <= InsertAll(events, rows) && DistinctKeys(InsertAll(events, rows))
    ensures forall key :: HasKey(InsertAll(events, rows), key) <==>
              HasKey(events, key) || exists i :: 0 <= i < |rows| && KeyOf(rows[i]) == key
  {
    if rows != [] {
      var n := |rows| - 1;
      var before := InsertAll(events, rows[..n]);
      InsertAllEffect(events, rows[..n]);
      InsertRowEffect(before, rows[n]);
      forall key
        ensures HasKey(InsertAll(events, rows), key) <==>
                  HasKey(events, key) || exists i :: 0 <= i < |rows| && KeyOf(rows[i]) == key
      {
        if i :| 0 <= i < n && KeyOf(rows[..n][i]) == key {
          assert KeyOf(rows[i]) == key;
        } else if i :| 0 <= i < |rows| && KeyOf(rows[i]) == key {
          assert i < n ==> KeyOf(rows[..n][i]) == key;
        }
      }
    }
  }

  lemma InsertRowEffect(events: seq<Row>, row: Row)
    requires DistinctKeys(events)
    ensures events <= InsertRow(events, row) && DistinctKeys(InsertRow(events, row))
    ensures forall key :: HasKey(InsertRow(events, row), key) <==> HasKey(events, key) || key == KeyOf(row)
  {
    var after := InsertRow(events, row);
    assert KeyOf(Stored(row)) == KeyOf(row);
    forall key
      ensures HasKey(after, key) <==> HasKey(events, key) || key == KeyOf(row)
    {
      if i :| 0 <= i < |events| && KeyOf(events[i]) == key {
        assert KeyOf(after[i]) == key;
      }
      if key == KeyOf(row) && !HasKey(events, key) {
        assert KeyOf(after[|events|]) == key;
      }
    }
  }

  /** Replaying a batch, at once or after any other batches, adds nothing. */
  lemma {:induction false} ReplayAddsNothing(events: seq<Row>, rows: seq<Row>)
    requires forall i | 0 <= i < |rows| :: HasKey(events, KeyOf(rows[i]))
    ensures InsertAll(events, rows) == events
  {
    if rows != [] {
      var n := |rows| - 1;
      forall i | 0 <= i < n
        ensures HasKey(events, KeyOf(rows[..n][i]))
      {
        assert rows[..n][i] == rows[i];
      }
      ReplayAddsNothing(events, rows[..n]);
      assert HasKey(events, KeyOf(rows[n]));
    }
  }

  ghost function InsertBatches(events: seq<Row>, batches: seq<seq<Row>>): seq<Row> {
    if batches == [] then events else InsertAll(InsertBatches(events, batches[..|batches| - 1]), batches[|batches| - 1])
  }

  lemma {:induction false} BatchesKeepKeys(events: seq<Row>, batches: seq<seq<Row>>)
    requires DistinctKeys(events)
    ensures DistinctKeys(InsertBatches(events, batches))
    ensures forall key :: HasKey(events, key) ==> HasKey(InsertBatches(events, batches), key)
  {
    if batches != [] {
      hide HasKey, InsertAll, DistinctKeys;
      BatchesKeepKeys(events, batches[..|batches| - 1]);
      InsertAllEffect(InsertBatches(events, batches[..|batches| - 1]), batches[|batches| - 1]);
    }
  }

  /** A batch stored before any number of others adds nothing when it is replayed after them. */
  lemma ReplayAfterOthers(events: seq<Row>, rows: seq<Row>, batches: seq<seq<Row>>)
    requires DistinctKeys(events)
    ensures var now := InsertBatches(InsertAll(events, rows), batches); InsertAll(now, rows) == now
  {
    hide HasKey, DistinctKeys, InsertAll, InsertBatches;
    InsertAllEffect(events, rows);
    BatchesKeepKeys(InsertAll(events, rows), batches);
    forall i | 0 <= i < |rows|
      ensures HasKey(InsertAll(events, rows), KeyOf(rows[i]))
    {
    }
    ReplayAddsNothing(InsertBatches(InsertAll(events, rows), batches), rows);
  }

  /** Every row a batch adds is one of its rows, bound to the columns. */
  lemma {:induction false} InsertAllFrom(events: seq<Row>, rows: seq<Row>, i: nat)
    returns (j: nat)
    requires |events| <= i < |InsertAll(events, rows)|
    ensures j < |rows| && InsertAll(events, rows)[i] == Stored(rows[j])
  {
    var n := |rows| - 1;
    if i < |InsertAll(events, rows[..n])| {
      j := InsertAllFrom(events, rows[..n], i);
    } else {
      j := n;
    }
  }

  // ---- Writers ----------------------------------------------------------------------------

  datatype AuditDb = AuditDb(events: seq<Row>, checkpoints: CheckpointTable)

  datatype StoreError = RowRejected | StatementFailed

  datatype BatchResult = BatchResult(attempted: nat, inserted: nat, duplicateSkips: nat)

  lemma InsertNone(events: seq<Row>, rows: seq<Row>)
    ensures InsertAll(events, rows[..0]) == events
  {
  }

  lemma InsertStep(events: seq<Row>, rows: seq<Row>, i: nat)
    requires i < |rows|
    ensures InsertAll(events, rows[..i + 1]) == InsertRow(InsertAll(events, rows[..i]), rows[i])
    ensures var grown := |InsertAll(events, rows[..i + 1])| - |InsertAll(events, rows[..i])|; 0 <= grown <= 1
  {
    assert rows[..i + 1][..i] == rows[..i];
  }

  /** One transaction: all rows of the batch, or none. */
  method PersistBatch(conn: Connection<AuditDb>, rows: seq<Row>, tenant: int, validTime: string -> bool)
    returns (r: Result<BatchResult, StoreError>)
    requires conn.Idle()
    modifies conn
    ensures conn.Idle()
    ensures r.Raise? ==> conn.committed == old(conn.committed) && conn.log == old(conn.log)
    ensures (exists i :: 0 <= i < |rows| && !Accepted(rows[i], Some(tenant), validTime)) ==> r.Raise?
    ensures conn.Reliable() && (forall i | 0 <= i < |rows| :: Accepted(rows[i], Some(tenant), validTime)) ==> r.Ok?
    ensures r.Ok? ==> conn.committed == old(conn.committed).(events := InsertAll(old(conn.committed).events, rows))
    ensures r.Ok? ==> conn.log == old(conn.log) + [conn.committed]
    // Conservation: what was attempted was inserted or skipped, and the table grew by the former.
    ensures r.Ok? ==> r.value.attempted == |rows| == r.value.inserted + r.value.duplicateSkips
    ensures r.Ok? ==> |conn.committed.events| == |old(conn.committed).events| + r.value.inserted
  {
    hide InsertAll, InsertRow, Accepted;
    InsertNone(conn.committed.events, rows);
    var ok := conn.Execute(conn.working);    // BEGIN
    if !ok {
      conn.Rollback();
      return Raise(StatementFailed);
    }
    for i := 0 to |rows|
      invariant forall j | 0 <= j < i :: Accepted(rows[j], Some(tenant), validTime)
      invariant conn.Idle() && conn.committed == old(conn.committed) && conn.log == old(conn.log)
    {
      if !Accepted(rows[i], Some(tenant), validTime) {
        conn.Rollback();
        return Raise(RowRejected);
      }
    }
    var inserted := 0;
    ghost var before := conn.committed.events;
    for i := 0 to |rows|
      invariant conn.Valid() && conn.committed == old(conn.committed) && conn.log == old(conn.log)
      invariant conn.working == old(conn.committed).(events := InsertAll(before, rows[..i]))
      invariant 0 <= inserted <= i && |conn.working.events| == |before| + inserted
    {
      InsertStep(before, rows, i);
      var events := InsertRow(conn.working.events, rows[i]);
      var rowcount := |events| - |conn.working.events|;
      ok := conn.Execute(conn.working.(events := events));
      if !ok {
        conn.Rollback();
        return Raise(StatementFailed);
      }
      inserted := inserted + rowcount;
    }
    assert rows[..|rows|] == rows;
    ok := conn.Commit();
    if !ok {
      conn.Rollback();
      return Raise(StatementFailed);
    }
    r := Ok(BatchResult(|rows|, inserted, |rows| - inserted));
  }

  /** Returns the proposed time even when a later one is stored. */
  method AdvanceCheckpoint(conn: Connection<AuditDb>, tenant: int, at: int) returns (r: Result<int, StoreError>)
    requires conn.Idle()
    modifies conn
    ensures conn.Idle()
    ensures r.Raise? ==> conn.committed == old(conn.committed) && conn.log == old(conn.log)
    ensures conn.Reliable() ==> r.Ok?
    ensures r.Ok? ==> r.value == at
    ensures r.Ok? ==>
              conn.committed == old(conn.committed).(
                checkpoints := Advanced(old(conn.committed).checkpoints, tenant, COLLECTOR, at))
    ensures r.Ok? ==> conn.log == old(conn.log) + [conn.committed]
  {
    var ok := conn.Execute(conn.working.(checkpoints := Advanced(conn.working.checkpoints, tenant, COLLECTOR, at)));
    if !ok { return Raise(StatementFailed); }
    ok := conn.Commit();
    if !ok { return Raise(StatementFailed); }
    r := Ok(at);
  }
}
