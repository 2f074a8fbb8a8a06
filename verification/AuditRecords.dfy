/** From a raw audit record to a row of the event table, and the gate every row must pass
    (collectors/onedrive_audit.py, collectors/persistence/core.py). */
module AuditRecords {
  import opened Basics
  import opened Retry
  import opened AuditTransport

  datatype Column =
    | TenantId | AuditRecordId | EventTime | Operation | Workload | RecordType | ActorUpn | EventCategory
    | ExternalFlag | AnonymousFlag | CollectedAt | ClientIp | ObjectId | SiteUrl | SourceRelativeUrl
    | SourceFileName | UniqueSharingId | TargetName | TargetType | CollectionRunId | EndpointRunId | RetentionClass

  // A mapping bound to the table's columns. A column absent from it is stored as null.
  type Row = map<Column, Json>

  function Cell(row: Row, c: Column): Json {
    if c in row then row[c] else Null
  }

  const REQUIRED: set<Column> :=
    {TenantId, AuditRecordId, EventTime, Operation, Workload, EventCategory, ExternalFlag, AnonymousFlag, CollectedAt}

  const LINK := "AnonymousLinkCreated"
  const INVITE := "SharingInvitationCreated"
  const SHARE := "SharingSet"
  const MALWARE := "FileMalwareDetected"

  predicate LockedOperation(op: Json) {
    op == Str(LINK) || op == Str(INVITE) || op == Str(SHARE) || op == Str(MALWARE)
  }

  // Membership in a set of strings raises on a list or a dict.
  predicate Unhashable(j: Json) { j.Arr? || j.Obj? }

  datatype Category = Category(name: string, external: bool, anonymous: bool)

  const LINK_CATEGORY := Category("EXTERNAL_SHARING", true, true)
  const GUEST_CATEGORY := Category("EXTERNAL_SHARING", true, false)
  const MALWARE_CATEGORY := Category("MALWARE_DETECTED", false, false)

  function Categorise(operation: Json, target: Json): Option<Category> {
    if operation == Str(LINK) then Some(LINK_CATEGORY)
    else if (operation == Str(INVITE) || operation == Str(SHARE)) && target == Str("Guest") then Some(GUEST_CATEGORY)
    else if operation == Str(MALWARE) then Some(MALWARE_CATEGORY)
    else None
  }

  /** What the run stamps on every row. `validTime` is whether datetime.fromisoformat accepts a text. */
  datatype Stamp = Stamp(tenant: int, collectedAt: string, collectionRun: Option<int>, endpointRun: Option<int>,
                         validTime: string -> bool)

  function Id(run: Option<int>): Json {
    match run
    case Some(n) => Num(n)
    case None => Null
  }

  const MALFORMED := AuditError(SchemaContractFailure, MalformedRecord)

  // None: the record is dropped as out of scope.
  function Normalize(record: map<string, Json>, stamp: Stamp): Result<Option<Row>, AuditError> {
    if Get(record, "Workload") != Str("OneDrive") then Ok(None)
    else if !Truthy(Get(record, "Id")) || !Get(record, "CreationTime").Str? then
      if Unhashable(Get(record, "Operation")) || LockedOperation(Get(record, "Operation")) then Raise(MALFORMED)
      else Ok(None)
    else if "Operation" !in record then Raise(MALFORMED)
    else
      var category := Categorise(record["Operation"], Get(record, "TargetUserOrGroupType"));
      if category.None? || !stamp.validTime(record["CreationTime"].s) then Ok(None)
      else Ok(Some(RowOf(record, category.value, stamp)))
  }

  function CellOf(record: map<string, Json>, category: Category, stamp: Stamp, c: Column): Json {
    match c
    case TenantId => Num(stamp.tenant)
    case AuditRecordId => Get(record, "Id")
    case EventTime => Get(record, "CreationTime")
    case Operation => Get(record, "Operation")
    case Workload => Str("OneDrive")
    case RecordType => Get(record, "RecordType")
    case ActorUpn => Get(record, "UserId")
    case CollectionRunId => Id(stamp.collectionRun)
    case EndpointRunId => Id(stamp.endpointRun)
    case EventCategory => Str(category.name)
    case ExternalFlag => Bool(category.external)
    case AnonymousFlag => Bool(category.anonymous)
    case CollectedAt => Str(stamp.collectedAt)
    case RetentionClass => Str("LONG")
    case ClientIp => Get(record, "ClientIP")
    case ObjectId => Get(record, "ObjectId")
    case SiteUrl => Get(record, "SiteUrl")
    case SourceRelativeUrl => Get(record, "SourceRelativeUrl")
    case SourceFileName => Get(record, "SourceFileName")
    case UniqueSharingId => Get(record, "UniqueSharingId")
    case TargetName => Get(record, "TargetUserOrGroupName")
    case TargetType => Get(record, "TargetUserOrGroupType")
  }

  function RowOf(record: map<string, Json>, category: Category, stamp: Stamp): (row: Row)
    ensures forall c: Column :: c in row
  {
    map c: Column | true :: CellOf(record, category, stamp, c)
  }

  /** The write boundary: None when the row is accepted. */
  predicate Accepted(row: Row, trusted: Option<int>, validTime: string -> bool) {
    && REQUIRED <= row.Keys
    && row[TenantId].Num? && row[TenantId].n > 0
    && (trusted.Some? ==> row[TenantId].n == trusted.value)
    && row[Workload] == Str("OneDrive")
    && LockedOperation(row[Operation])
    && row[EventTime].Str? && validTime(row[EventTime].s)
    && row[CollectedAt].Str? && validTime(row[CollectedAt].s)
    && (var flags := (row[EventCategory], row[ExternalFlag], row[AnonymousFlag]);
        if row[Operation] == Str(LINK) then flags == Flags(LINK_CATEGORY)
        else if row[Operation] == Str(MALWARE) then flags == Flags(MALWARE_CATEGORY)
        else Cell(row, TargetType) == Str("Guest") && flags == Flags(GUEST_CATEGORY))
  }

  function Flags(c: Category): (Json, Json, Json) { (Str(c.name), Bool(c.external), Bool(c.anonymous)) }

  /** High-value OneDrive events are exactly: an anonymous link, a share or invitation whose target is
      proven Guest, or malware; with an id and a readable time. Everything else gives no row. */
  predicate HighValue(record: map<string, Json>, validTime: string -> bool) {
    && Get(record, "Workload") == Str("OneDrive")
    && Truthy(Get(record, "Id"))
    && Get(record, "CreationTime").Str? && validTime(Get(record, "CreationTime").s)
    && (|| Get(record, "Operation") in {Str(LINK), Str(MALWARE)}
        || (Get(record, "Operation") in {Str(INVITE), Str(SHARE)} &&
            Get(record, "TargetUserOrGroupType") == Str("Guest")))
  }

  lemma NormalizedIffHighValue(record: map<string, Json>, stamp: Stamp)
    ensures (Normalize(record, stamp).Ok? && Normalize(record, stamp).value.Some?) <==>
              HighValue(record, stamp.validTime)
    // A run is stopped only by a OneDrive record that lacks what the filter needs to judge it.
    ensures Normalize(record, stamp).Raise? <==>
              && Get(record, "Workload") == Str("OneDrive")
              && (if Truthy(Get(record, "Id")) && Get(record, "CreationTime").Str? then "Operation" !in record
                  else Unhashable(Get(record, "Operation")) || LockedOperation(Get(record, "Operation")))
  {
    assert |LINK| == 20 && |INVITE| == 24 && |SHARE| == 10 && |MALWARE| == 19;
  }

  /** Every row the normaliser makes passes the write boundary, whatever the record held. */
  lemma NormalizedRowAccepted(record: map<string, Json>, stamp: Stamp, row: Row)
    requires Normalize(record, stamp) == Ok(Some(row))
    requires stamp.tenant > 0 && stamp.validTime(stamp.collectedAt)
    ensures Accepted(row, Some(stamp.tenant), stamp.validTime)
  {
    assert |LINK| == 20 && |INVITE| == 24 && |SHARE| == 10 && |MALWARE| == 19;
    var category := Categorise(record["Operation"], Get(record, "TargetUserOrGroupType"));
    assert row == RowOf(record, category.value, stamp);
    assert row[Operation] == record["Operation"] && row[TargetType] == Get(record, "TargetUserOrGroupType");
  }

  /** No column is left out, and the record's own cells are copied unchanged. */
  lemma NormalizedRowCopies(record: map<string, Json>, stamp: Stamp, row: Row)
    requires Normalize(record, stamp) == Ok(Some(row))
    ensures forall c: Column :: c in row
    ensures row[AuditRecordId] == Get(record, "Id") && row[EventTime] == Get(record, "CreationTime")
    ensures row[Operation] == Get(record, "Operation") && row[ActorUpn] == Get(record, "UserId")
    ensures row[TargetName] == Get(record, "TargetUserOrGroupName")
    ensures row[TargetType] == Get(record, "TargetUserOrGroupType")
    ensures row[RecordType] == Get(record, "RecordType") && row[ClientIp] == Get(record, "ClientIP")
    ensures row[ObjectId] == Get(record, "ObjectId") && row[SiteUrl] == Get(record, "SiteUrl")
    ensures row[SourceRelativeUrl] == Get(record, "SourceRelativeUrl")
    ensures row[SourceFileName] == Get(record, "SourceFileName")
    ensures row[UniqueSharingId] == Get(record, "UniqueSharingId")
  {
    hide Normalize, Categorise, RowOf, CellOf, Get;
    var category := MadeFrom(record, stamp, row);
    PeopleCopied(record, category, stamp);
    ObjectsCopied(record, category, stamp);
  }

  lemma PeopleCopied(record: map<string, Json>, category: Category, stamp: Stamp)
    ensures var row := RowOf(record, category, stamp);
            && row[AuditRecordId] == Get(record, "Id") && row[EventTime] == Get(record, "CreationTime")
            && row[Operation] == Get(record, "Operation") && row[ActorUpn] == Get(record, "UserId")
            && row[TargetName] == Get(record, "TargetUserOrGroupName")
            && row[TargetType] == Get(record, "TargetUserOrGroupType")
  {
  }

  lemma ObjectsCopied(record: map<string, Json>, category: Category, stamp: Stamp)
    ensures var row := RowOf(record, category, stamp);
            && row[RecordType] == Get(record, "RecordType") && row[ClientIp] == Get(record, "ClientIP")
            && row[ObjectId] == Get(record, "ObjectId") && row[SiteUrl] == Get(record, "SiteUrl")
            && row[SourceRelativeUrl] == Get(record, "SourceRelativeUrl")
            && row[SourceFileName] == Get(record, "SourceFileName")
            && row[UniqueSharingId] == Get(record, "UniqueSharingId")
  {
  }

  /** The other cells are the run's tenant and lineage and the flags the operation implies. */
  lemma NormalizedRowStamped(record: map<string, Json>, stamp: Stamp, row: Row)
    requires Normalize(record, stamp) == Ok(Some(row))
    ensures Cell(row, TenantId) == Num(stamp.tenant) && Cell(row, CollectedAt) == Str(stamp.collectedAt)
    ensures Cell(row, CollectionRunId) == Id(stamp.collectionRun) && Cell(row, EndpointRunId) == Id(stamp.endpointRun)
    ensures Cell(row, AnonymousFlag) == Bool(true) <==> Get(record, "Operation") == Str(LINK)
    ensures Cell(row, ExternalFlag) == Bool(false) <==> Get(record, "Operation") == Str(MALWARE)
  {
    hide Normalize, Categorise;
    var category := MadeFrom(record, stamp, row);
    CategoryFlags(Get(record, "Operation"), Get(record, "TargetUserOrGroupType"));
  }

  lemma MadeFrom(record: map<string, Json>, stamp: Stamp, row: Row) returns (category: Category)
    requires Normalize(record, stamp) == Ok(Some(row))
    ensures Categorise(Get(record, "Operation"), Get(record, "TargetUserOrGroupType")) == Some(category)
    ensures row == RowOf(record, category, stamp)
  {
    category := Categorise(Get(record, "Operation"), Get(record, "TargetUserOrGroupType")).value;
  }

  lemma CategoryFlags(operation: Json, target: Json)
    requires Categorise(operation, target).Some?
    ensures Categorise(operation, target).value.anonymous <==> operation == Str(LINK)
    ensures !Categorise(operation, target).value.external <==> operation == Str(MALWARE)
  {
    assert |LINK| == 20 && |INVITE| == 24 && |SHARE| == 10 && |MALWARE| == 19;
  }

  // ---- A whole batch ----------------------------------------------------------------------

  /** Rows of the records that give one, in order; the first record that raises stops the run. */
  ghost function NormalizeAll(records: seq<Json>, stamp: Stamp): Result<seq<Row>, AuditError>
    requires forall j | 0 <= j < |records| :: records[j].Obj?
  {
    if records == [] then Ok([])
    else
      var n := |records| - 1;
      match NormalizeAll(records[..n], stamp)
      case Raise(e) => Raise(e)
      case Ok(rows) =>
        match Normalize(records[n].fields, stamp)
        case Raise(e) => Raise(e)
        case Ok(None) => Ok(rows)
        case Ok(Some(row)) => Ok(rows + [row])
  }

  lemma {:induction false} NoneRaising(records: seq<Json>, stamp: Stamp)
    requires forall j | 0 <= j < |records| :: records[j].Obj? && Normalize(records[j].fields, stamp).Ok?
    ensures NormalizeAll(records, stamp).Ok?
  {
    if records != [] { NoneRaising(records[..|records| - 1], stamp); }
  }

  lemma {:induction false} SomeRecordRaises(records: seq<Json>, stamp: Stamp)
    requires forall j | 0 <= j < |records| :: records[j].Obj?
    requires NormalizeAll(records, stamp).Raise?
    ensures exists record :: record in records && record.Obj? &&
              Normalize(record.fields, stamp) == Raise(NormalizeAll(records, stamp).error)
  {
    hide Normalize;
    var n := |records| - 1;
    if NormalizeAll(records[..n], stamp).Raise? {
      SomeRecordRaises(records[..n], stamp);
    } else {
      assert records[n] in records;
    }
  }

  ghost function OneDriveCount(records: seq<Json>): nat {
    if records == [] then 0
    else
      var last := records[|records| - 1];
      OneDriveCount(records[..|records| - 1])
      + if last.Obj? && Get(last.fields, "Workload") == Str("OneDrive") then 1 else 0
  }

  method NormalizeRecords(records: seq<Json>, stamp: Stamp)
    returns (r: Result<seq<Row>, AuditError>, onedrive: nat, dropped: nat)
    requires forall j | 0 <= j < |records| :: records[j].Obj?
    ensures r == NormalizeAll(records, stamp)
    // Conservation: every record read is normalised or dropped.
    ensures r.Ok? ==> |r.value| + dropped == |records|
    ensures r.Ok? ==> |r.value| <= onedrive == OneDriveCount(records)
  {
    var rows: seq<Row> := [];
    onedrive, dropped := 0, 0;
    for i := 0 to |records|
      invariant NormalizeAll(records[..i], stamp) == Ok(rows)
      invariant |rows| + dropped == i && |rows| <= onedrive == OneDriveCount(records[..i])
    {
      assert records[..i + 1][..i] == records[..i];
      if Get(records[i].fields, "Workload") == Str("OneDrive") { onedrive := onedrive + 1; }
      var normalized := Normalize(records[i].fields, stamp);
      match normalized
      case Raise(e) =>
        RaisePropagates(records, i + 1, stamp);
        return Raise(e), onedrive, dropped;
      case Ok(None) => dropped := dropped + 1;
      case Ok(Some(row)) => rows := rows + [row];
    }
    assert records[..|records|] == records;
    r := Ok(rows);
  }

  lemma {:induction false} RaisePropagates(records: seq<Json>, n: nat, stamp: Stamp)
    requires forall j | 0 <= j < |records| :: records[j].Obj?
    requires n <= |records| && NormalizeAll(records[..n], stamp).Raise?
    ensures NormalizeAll(records, stamp) == NormalizeAll(records[..n], stamp)
    decreases |records| - n
  {
    if n < |records| {
      assert records[..n + 1][..n] == records[..n];
      RaisePropagates(records, n + 1, stamp);
    } else {
      assert records[..n] == records;
    }
  }

  /** Rows and high-value records correspond: each such record's row is in the batch, and each row is
      some record's. */
  lemma {:induction false} BatchRows(records: seq<Json>, stamp: Stamp)
    requires forall j | 0 <= j < |records| :: records[j].Obj?
    requires NormalizeAll(records, stamp).Ok?
    ensures forall j | 0 <= j < |records| && HighValue(records[j].fields, stamp.validTime) ::
              exists i :: 0 <= i < |NormalizeAll(records, stamp).value| &&
                Normalize(records[j].fields, stamp) == Ok(Some(NormalizeAll(records, stamp).value[i]))
    ensures forall i | 0 <= i < |NormalizeAll(records, stamp).value| ::
              exists j :: 0 <= j < |records| &&
                Normalize(records[j].fields, stamp) == Ok(Some(NormalizeAll(records, stamp).value[i]))
  {
    hide HighValue, Normalize;
    if records != [] {
      var n := |records| - 1;
      BatchRows(records[..n], stamp);
      NormalizedIffHighValue(records[n].fields, stamp);
      var before := NormalizeAll(records[..n], stamp).value;
      var rows := NormalizeAll(records, stamp).value;
      assert before <= rows;
      forall j | 0 <= j < |records| && HighValue(records[j].fields, stamp.validTime)
        ensures exists i :: 0 <= i < |rows| && Normalize(records[j].fields, stamp) == Ok(Some(rows[i]))
      {
        if j < n {
          assert records[..n][j] == records[j];
          var i :| 0 <= i < |before| && Normalize(records[j].fields, stamp) == Ok(Some(before[i]));
          assert rows[i] == before[i];
        } else {
          assert rows[|before|] == Normalize(records[n].fields, stamp).value.value;
        }
      }
      forall i | 0 <= i < |rows|
        ensures exists j :: 0 <= j < |records| && Normalize(records[j].fields, stamp) == Ok(Some(rows[i]))
      {
        if i < |before| {
          var j :| 0 <= j < n && Normalize(records[..n][j].fields, stamp) == Ok(Some(before[i]));
          assert records[j] == records[..n][j];
        } else {
          assert Normalize(records[n].fields, stamp) == Ok(Some(rows[i]));
        }
      }
    }
  }
}
