/** The collection runtime with its lifecycle writer: selection, planning, and one pass over the selected
    endpoints (collectors/core/runtime.py). */
module Runtime {
  import opened Basics
  import opened Retry
  import opened PersistenceModes
  import opened Tables
  import opened CollectionWriting
  import opened Accounts

  datatype EndpointSpec = EndpointSpec(id: string, enabled: bool, workload: bool, usageReport: bool, gated: bool)

  datatype Selection = Selection(endpointId: Option<string>, endpointIds: Option<seq<string>>, allEnabled: bool)

  datatype RuntimeError =
    | BadSelection | UnknownEndpoint | NotAWorkload | Disabled | MalformedTenant | LineageMismatch | WriterFailed

  datatype AuthProblem = MissingConfig | InvalidClient | AuthNetwork | AuthMalformed | AuthHttp

  function AuthClassification(p: AuthProblem): Classification {
    match p
    case MissingConfig => AuthFailure
    case InvalidClient => AuthFailure
    case AuthNetwork => NetworkError
    case AuthMalformed => ApiError
    case AuthHttp => ApiError
  }

  // How executing an endpoint went: a token refused, an unexpected exception, or a classified result.
  datatype Outcome = AuthRefused(problem: AuthProblem) | Crashed | Ran(classification: Classification, rows: nat)

  // How fetching and reading a usage report went, after its own retries.
  datatype ReportOutcome = Unread(classification: Classification) | Parsed(rows: nat, report: UsageReport)

  /** What the outside world does during one call: the auth configuration, the trusted tenant, the first
      token, each execution, each usage report, and what normalising each payload gives (None when it raises). */
  datatype World = World(
    config: Option<AuthProblem>, tenant: int, token: Option<AuthProblem>,
    execute: nat -> Outcome, report: nat -> ReportOutcome, normalize: nat -> Option<seq<Record>>)

  datatype Lineage = Lineage(tenant: Option<int>, collection: Option<int>, endpointRun: Option<int>)

  // ---- Selection -----------------------------------------------------------------------------

  function FindSpec(specs: seq<EndpointSpec>, id: string): Option<EndpointSpec> {
    if specs == [] || id == "" then None
    else if specs[0].id == id then Some(specs[0])
    else FindSpec(specs[1..], id)
  }

  lemma {:induction false} FindSpecFinds(specs: seq<EndpointSpec>, id: string)
    ensures FindSpec(specs, id).Some? <==> id != "" && exists i :: 0 <= i < |specs| && specs[i].id == id
    ensures FindSpec(specs, id).Some? ==> FindSpec(specs, id).value in specs && FindSpec(specs, id).value.id == id
  {
    if specs != [] {
      FindSpecFinds(specs[1..], id);
      if specs[0].id != id {
        if i :| 0 <= i < |specs| && specs[i].id == id { assert specs[1..][i - 1].id == id; }
        if i :| 0 <= i < |specs| - 1 && specs[1..][i].id == id { assert specs[i + 1].id == id; }
      }
    }
  }

  predicate Selectable(specs: seq<EndpointSpec>, id: string) {
    FindSpec(specs, id).Some? && FindSpec(specs, id).value.workload && FindSpec(specs, id).value.enabled
  }

  function EnabledSpecs(specs: seq<EndpointSpec>): seq<EndpointSpec> {
    if specs == [] then []
    else (if specs[0].enabled && specs[0].workload then [specs[0]] else []) + EnabledSpecs(specs[1..])
  }

  lemma {:induction false} EnabledSpecsAll(specs: seq<EndpointSpec>, s: EndpointSpec)
    ensures s in EnabledSpecs(specs) <==> s in specs && s.enabled && s.workload
  {
    if specs != [] { EnabledSpecsAll(specs[1..], s); }
  }

  // The list without the later occurrences.
  ghost function Firsts(ids: seq<string>): seq<string> {
    if ids == [] then []
    else Firsts(ids[..|ids| - 1]) + if ids[|ids| - 1] in ids[..|ids| - 1] then [] else [ids[|ids| - 1]]
  }

  lemma {:induction false} FirstsDistinct(ids: seq<string>)
    ensures forall x :: x in Firsts(ids) <==> x in ids
    ensures forall i, j | 0 <= i < j < |Firsts(ids)| :: Firsts(ids)[i] != Firsts(ids)[j]
  {
    if ids != [] { FirstsDistinct(ids[..|ids| - 1]); }
  }

  ghost function IdsOf(specs: seq<EndpointSpec>): seq<string> {
    seq(|specs|, i requires 0 <= i < |specs| => specs[i].id)
  }

  function Chosen(s: Selection): nat {
    (if s.endpointId.Some? && s.endpointId.value != "" then 1 else 0)
    + (if s.endpointIds.Some? && s.endpointIds.value != [] then 1 else 0)
    + (if s.allEnabled then 1 else 0)
  }

  // What is asked for can be selected.
  predicate Acceptable(specs: seq<EndpointSpec>, s: Selection) {
    && Chosen(s) == 1
    && (s.endpointId.Some? ==> Selectable(specs, s.endpointId.value))
    && (s.endpointId.None? && s.endpointIds.Some? ==>
          s.endpointIds.value != [] && forall id | id in s.endpointIds.value :: Selectable(specs, id))
  }

  /** What a selection may resolve to. Whatever is selected is known, enabled and a workload; a list is
      taken in its own order, repeats dropped, and refused as a whole for one bad id. */
  ghost predicate Resolves(specs: seq<EndpointSpec>, s: Selection, r: Result<seq<EndpointSpec>, RuntimeError>) {
    && (Chosen(s) != 1 ==> r == Raise(BadSelection))
    && (r.Ok? ==> forall spec | spec in r.value :: spec in specs && spec.enabled && spec.workload)
    && (Chosen(s) == 1 && s.endpointId.Some? ==>
          (r.Ok? <==> Selectable(specs, s.endpointId.value)) && (r.Ok? ==> IdsOf(r.value) == [s.endpointId.value]))
    && (Chosen(s) == 1 && s.endpointId.None? && s.endpointIds.Some? ==>
          && (r.Ok? <==> s.endpointIds.value != [] && forall id | id in s.endpointIds.value :: Selectable(specs, id))
          && (r.Ok? ==> IdsOf(r.value) == Firsts(s.endpointIds.value)))
    && (Chosen(s) == 1 && s.endpointId.None? && s.endpointIds.None? ==> r == Ok(EnabledSpecs(specs)))
  }

  method ResolveSelection(specs: seq<EndpointSpec>, s: Selection) returns (r: Result<seq<EndpointSpec>, RuntimeError>)
    ensures Resolves(specs, s, r) && (r.Ok? <==> Acceptable(specs, s))
  {
    if Chosen(s) != 1 {
      return Raise(BadSelection);
    }
    if s.endpointId.Some? {
      FindSpecFinds(specs, s.endpointId.value);
      var found := FindSpec(specs, s.endpointId.value);
      if found.None? { return Raise(UnknownEndpoint); }
      if !found.value.workload { return Raise(NotAWorkload); }
      if !found.value.enabled { return Raise(Disabled); }
      return Ok([found.value]);
    }
    if s.endpointIds.Some? {
      r := ResolveList(specs, s.endpointIds.value);
      return;
    }
    forall spec
      ensures spec in EnabledSpecs(specs) <==> spec in specs && spec.enabled && spec.workload
    {
      EnabledSpecsAll(specs, spec);
    }
    r := Ok(EnabledSpecs(specs));
  }

  method ResolveList(specs: seq<EndpointSpec>, ids: seq<string>) returns (r: Result<seq<EndpointSpec>, RuntimeError>)
    ensures r.Ok? <==> ids != [] && forall id | id in ids :: Selectable(specs, id)
    ensures r.Ok? ==> IdsOf(r.value) == Firsts(ids)
    ensures r.Ok? ==> forall spec | spec in r.value :: spec in specs && spec.enabled && spec.workload
  {
    if ids == [] { return Raise(BadSelection); }
    var seen: set<string> := {};
    var out: seq<EndpointSpec> := [];
    for i := 0 to |ids|
      invariant seen == set x | x in ids[..i]
      invariant forall x | x in ids[..i] :: Selectable(specs, x)
      invariant IdsOf(out) == Firsts(ids[..i])
      invariant forall spec | spec in out :: spec in specs && spec.enabled && spec.workload
    {
      assert ids[..i + 1] == ids[..i] + [ids[i]];
      assert ids[..i + 1][..i] == ids[..i];
      assert ids[i] in ids;
      if ids[i] !in seen {
        seen := seen + {ids[i]};
        FindSpecFinds(specs, ids[i]);
        var found := FindSpec(specs, ids[i]);
        if found.None? { return Raise(UnknownEndpoint); }
        if !found.value.workload { return Raise(NotAWorkload); }
        if !found.value.enabled { return Raise(Disabled); }
        assert IdsOf(out + [found.value]) == IdsOf(out) + [ids[i]];
        out := out + [found.value];
      }
    }
    assert ids[..|ids|] == ids;
    r := Ok(out);
  }

  // ---- Planning -------------------------------------------------------------------------------

  // The gate's answer for an endpoint id: plans are kept by id, so the last gated spec of an id decides.
  function NotExecuted(specs: seq<EndpointSpec>, gate: Option<EndpointSpec -> bool>, id: string): bool {
    if specs == [] || gate.None? then false
    else
      var last := specs[|specs| - 1];
      if last.id == id && last.gated then gate.value(last) else NotExecuted(specs[..|specs| - 1], gate, id)
  }

  // ---- One pass -------------------------------------------------------------------------------

  class Summary {
    var runs: seq<CollectionResult>
    var normalized: seq<Collection>
    var authError: Option<AuthProblem>

    constructor ()
      ensures runs == [] && normalized == [] && authError == None
    {
      runs, normalized, authError := [], [], None;
    }
  }

  /** An executed endpoint whose result the control tables do not accept: completing it raises. */
  predicate Unstorable(spec: EndpointSpec, world: World, index: nat) {
    if spec.usageReport then
      match world.report(index)
      case Unread(classification) => !Storable(classification)
      case Parsed(_, report) => !report.Proper()
    else world.execute(index).Ran? && !Storable(world.execute(index).classification)
  }

  /** The classification an executed endpoint is completed with: that of the crawl or of the report, or a failure to
      normalise or store what they gave. */
  function ClassificationOf(spec: EndpointSpec, i: nat, world: World, passed: bool): Classification {
    if spec.usageReport then
      match world.report(i)
      case Unread(classification) => classification
      case Parsed(_, _) => if passed then Pass else PersistenceFailure
    else
      match world.execute(i)
      case AuthRefused(problem) => AuthClassification(problem)
      case Crashed => PersistenceFailure
      case Ran(classification, _) => if classification == Pass && !passed then PersistenceFailure else classification
  }

  predicate CrawlPassed(world: World, i: nat) { world.execute(i).Ran? && world.execute(i).classification == Pass }

  // The usage report at `i` is read, is proper and can be stored.
  ghost predicate Reports(world: World, i: nat, store: Store) {
    world.report(i).Parsed? && world.report(i).report.Proper() && world.report(i).report.store(store).Some?
  }

  // The database with the collection run begun by this call, if it began one.
  ghost function Started(db: CollectorDb, began: Option<int>, tenant: int, selected: seq<EndpointSpec>): CollectorDb {
    if began.Some? then db.(control := BegunCollection(db.control, tenant, IdsOf(selected))) else db
  }

  ghost function StartCalls(began: Option<int>, selected: seq<EndpointSpec>): seq<Call> {
    if began.Some? then [BeganCollection(began.value, IdsOf(selected))] else []
  }

  // Endpoints are taken in the order they were selected.
  ghost predicate InOrder(segments: seq<Segment>, selected: seq<EndpointSpec>) {
    |segments| <= |selected| && forall i | 0 <= i < |segments| :: segments[i].endpoint == selected[i].id
  }

  function Ids(specs: seq<EndpointSpec>): (ids: seq<string>)
    ensures ids == IdsOf(specs)
  {
    seq(|specs|, i requires 0 <= i < |specs| => specs[i].id)
  }

  predicate AnyExecuted(selected: seq<EndpointSpec>, gate: Option<EndpointSpec -> bool>) {
    exists i :: 0 <= i < |selected| && !NotExecuted(selected, gate, selected[i].id)
  }

  // A token is asked for, and refused, only when some endpoint is to be executed.
  predicate TokenRefused(selected: seq<EndpointSpec>, gate: Option<EndpointSpec -> bool>, world: World) {
    AnyExecuted(selected, gate) && world.token.Some?
  }

  function TokenProblem(selected: seq<EndpointSpec>, gate: Option<EndpointSpec -> bool>, world: World): AuthProblem
    requires TokenRefused(selected, gate, world)
  {
    world.token.value
  }

  class CollectorRuntime {
    const specs: seq<EndpointSpec>
    const writer: CollectionWriter
    const gate: Option<EndpointSpec -> bool>
    const accepted: set<string>      // endpoints with a normalizer
    var lineage: Lineage

    constructor (specs: seq<EndpointSpec>, writer: CollectionWriter, gate: Option<EndpointSpec -> bool>,
                 accepted: set<string>, lineage: Lineage)
      ensures this.specs == specs && this.writer == writer && this.gate == gate && this.accepted == accepted
      ensures this.lineage == lineage
    {
      this.specs, this.writer, this.gate, this.accepted, this.lineage := specs, writer, gate, accepted, lineage;
    }

    // What executing the endpoint at `i` may commit: its own records for the trusted tenant, if its crawl passed, or
    // its own report.
    ghost predicate Commits(spec: EndpointSpec, i: nat, world: World, commit: Commit) {
      && (commit.Batch? ==>
            && spec.id in accepted && !spec.usageReport && CrawlPassed(world, i) && world.normalize(i).Some?
            && commit.written == Collection(spec.id, world.tenant, world.normalize(i).value))
      && (commit.Report? ==> spec.usageReport && world.report(i).Parsed? && commit.report == world.report(i).report)
    }

    /** What a result and what was committed say of the endpoint at `i`: it is reported under its own id, skipped
        exactly if gated out; but for usage reports it passes only if its crawl did; a usage report, or an endpoint
        with a normalizer, passes exactly when its rows were committed, and any other exactly if its crawl did. */
    ghost predicate Reported(selected: seq<EndpointSpec>, i: nat, world: World, segment: Segment,
                             result: CollectionResult)
      requires i < |selected|
      reads result
    {
      var spec := selected[i];
      && result.endpointId == spec.id == segment.endpoint && result.status == segment.status
      && (segment.status == Skipped <==> NotExecuted(selected, gate, spec.id))
      && segment.classification == StoredClassification(result.classification)
      && segment.classification == (if segment.status == Skipped then Unknown
                                    else ClassificationOf(spec, i, world, segment.status == Succeeded))
      && (segment.commit != NoCommit ==> segment.status == Succeeded)
      && Commits(spec, i, world, segment.commit)
      && (segment.status == Succeeded && !spec.usageReport ==> CrawlPassed(world, i))
      && (segment.status == Succeeded && (spec.usageReport || spec.id in accepted) ==> segment.commit != NoCommit)
      && (segment.status != Skipped && !spec.usageReport && spec.id !in accepted ==>
            (segment.status == Succeeded <==> CrawlPassed(world, i)))
    }

    /** The endpoint at `i` has all it needs to pass, the rows being `store` when its turn comes: it is not gated out;
        a usage report can be read, fits and can be stored; any other crawl passes and, if there is a normalizer, gives
        records that can be stored. */
    ghost predicate Passing(selected: seq<EndpointSpec>, i: nat, world: World, store: Store)
      requires i < |selected|
    {
      !NotExecuted(selected, gate, selected[i].id) && Executes(selected[i], i, world, store)
    }

    ghost predicate Executes(spec: EndpointSpec, i: nat, world: World, store: Store) {
      if spec.usageReport then Reports(world, i, store)
      else CrawlPassed(world, i) && (spec.id in accepted ==> Normalizes(spec, i, world, store))
    }

    ghost predicate Normalizes(spec: EndpointSpec, i: nat, world: World, store: Store) {
      && world.normalize(i).Some?
      && writer.Writable(store, Collection(spec.id, world.tenant, world.normalize(i).value))
    }

    /** Each of the segments passed exactly if it had all it needed, given what those before it committed. */
    ghost predicate Decided(segments: seq<Segment>, selected: seq<EndpointSpec>, world: World, store: Store) {
      |segments| <= |selected| && forall i | 0 <= i < |segments| :: DecidedAt(segments, i, selected, world, store)
    }

    ghost predicate DecidedAt(segments: seq<Segment>, i: nat, selected: seq<EndpointSpec>, world: World, store: Store)
      requires i < |segments| && i < |selected|
    {
      var before := CommitAll(writer.registry, store, segments[..i]);
      before.Some? && (segments[i].status == Succeeded <==> Passing(selected, i, world, before.value))
    }

    lemma NothingDecided(selected: seq<EndpointSpec>, world: World, store: Store)
      ensures Decided([], selected, world, store)
    {
    }

    lemma DecidedStep(segments: seq<Segment>, segment: Segment, selected: seq<EndpointSpec>, world: World, store: Store,
                      before: Store)
      requires |segments| < |selected| && Decided(segments, selected, world, store)
      requires CommitAll(writer.registry, store, segments) == Some(before)
      requires segment.status == Succeeded <==> Passing(selected, |segments|, world, before)
      ensures Decided(segments + [segment], selected, world, store)
    {
      hide Passing, CommitAll;
      var all := segments + [segment];
      forall i | 0 <= i < |all|
        ensures DecidedAt(all, i, selected, world, store)
      {
        if i < |segments| {
          assert all[..i] == segments[..i] && DecidedAt(segments, i, selected, world, store);
        } else {
          assert all[..i] == segments;
        }
      }
    }

    // How far one endpoint got: completed, begun, or not even that.
    ghost predicate Progress(ok: bool, begun: bool, segment: Segment, collection: int, tenant: int, db: CollectorDb,
                             calls: seq<Call>)
      reads writer, writer.connection
    {
      var now := writer.connection.committed;
      if ok then After(writer.registry, db, collection, tenant, segment) == Some(now) &&
        writer.calls == calls + segment.Calls()
      else if begun then Opened(writer.registry, db, collection, tenant, segment) == Some(now) &&
           writer.calls == calls + segment.OpenCalls()
      else now == db && writer.calls == calls
    }

    // A gated-out endpoint: begun, completed as an error row, reported as skipped.
    method SkipEndpoint(spec: EndpointSpec, collection: int, tenant: int, summary: Summary)
      returns (ok: bool, ghost begun: bool, ghost segment: Segment)
      requires writer.Valid()
      modifies summary, writer`calls, writer.connection
      ensures writer.Valid()
      ensures Progress(ok, begun, segment, collection, tenant, old(writer.connection.committed), old(writer.calls))
      ensures writer.connection.Reliable() && collection > 0 && tenant > 0 ==> ok
      ensures segment.endpoint == spec.id && segment.commit == NoCommit && segment.status == Skipped
      ensures segment.classification == Unknown
      ensures ok ==>
                && |summary.runs| == |old(summary.runs)| + 1 && summary.runs[..|old(summary.runs)|] == old(summary.runs)
                && fresh(summary.runs[|old(summary.runs)|])
                && summary.runs[|old(summary.runs)|].endpointId == spec.id
                && summary.runs[|old(summary.runs)|].status == Skipped
                && summary.runs[|old(summary.runs)|].classification == None
    {
      hide Numbered, Completed, BegunEndpoint;
      var skipped := new CollectionResult(spec.id, Skipped, None, 0);
      segment := Segment(0, spec.id, NoCommit, Skipped, Unknown, 0);
      begun := false;
      var run := writer.BeginEndpointRun(collection, tenant, spec.id);
      if run.Raise? { return false, begun, segment; }
      begun := true;
      segment := segment.(run := run.value, at := writer.clock(writer.connection.steps));
      var completed := writer.CompleteEndpointRun(run.value, skipped);
      if completed.Raise? { return false, begun, segment; }
      summary.runs := summary.runs + [skipped];
      ok := true;
    }

    /** A successful payload of an accepted endpoint is normalised and written; if either fails, the result
        already reported becomes an error. */
    method NormalizeAndWrite(index: nat, spec: EndpointSpec, tenant: int, world: World, result: CollectionResult,
                             summary: Summary)
      returns (ghost commit: Commit)
      requires writer.Valid()
      modifies result, summary`normalized, writer`calls, writer.connection
      ensures writer.Valid() && writer.connection.committed.control == old(writer.connection.committed.control)
      ensures CommitTo(writer.registry, old(writer.connection.committed.store), commit)
                == Some(writer.connection.committed.store)
      ensures writer.calls == old(writer.calls) + if commit.Batch? then [Wrote(commit.written)] else []
      ensures summary.normalized == old(summary.normalized) + if commit.Batch? then [commit.written] else []
      ensures commit == NoCommit
              || (world.normalize(index).Some? &&
                  commit == Batch(Collection(spec.id, tenant, world.normalize(index).value)))
      ensures result.endpointId == old(result.endpointId)
      ensures if spec.usageReport || spec.id !in accepted || old(result.status) != Succeeded
              then commit == NoCommit && result.status == old(result.status) &&
                   result.classification == old(result.classification)
              else if commit.Batch?
                   then result.status == Succeeded && result.classification == old(result.classification)
              else result.status == Errored && result.classification == Some(PersistenceFailure)
      // As long as no statement fails, the records are written whenever they can be.
      ensures writer.connection.Reliable() && tenant == world.tenant ==>
                (commit.Batch? <==>
                   && !spec.usageReport && old(result.status) == Succeeded && spec.id in accepted
                   && Normalizes(spec, index, world, old(writer.connection.committed.store)))
    {
      hide BoundaryOk, PlanCollection, Stored, Numbered;
      commit := NoCommit;
      if spec.usageReport || result.status != Succeeded || spec.id !in accepted {
        return;
      }
      var records := world.normalize(index);
      if records.Some? {
        var collection := Collection(spec.id, tenant, records.value);
        var wrote := writer.Write(collection);
        if wrote.Ok? {
          summary.normalized := summary.normalized + [collection];
          return Batch(collection);
        }
      }
      result.status := Errored;
      result.classification := Some(PersistenceFailure);
    }

    /** A usage report is stored while it is executed, in a commit of its own. */
    method ExecuteReport(index: nat, spec: EndpointSpec, tenant: int, world: World)
      returns (result: CollectionResult, ghost commit: Commit)
      requires writer.Valid() && tenant > 0 && spec.usageReport
      modifies writer`calls, writer.connection
      ensures writer.Valid() && writer.connection.committed.control == old(writer.connection.committed.control)
      ensures CommitTo(writer.registry, old(writer.connection.committed.store), commit)
                == Some(writer.connection.committed.store)
      ensures writer.calls == old(writer.calls) + if commit.Report? then [WroteReport(spec.id)] else []
      ensures commit == NoCommit || (world.report(index).Parsed? && commit == Report(world.report(index).report))
      ensures fresh(result) && result.endpointId == spec.id && result.classification.Some?
      ensures result.status == if commit == NoCommit then Errored else Succeeded
      ensures result.classification.value == ClassificationOf(spec, index, world, commit != NoCommit)
              || result.classification == Some(ReportSchemaInvalid)
      ensures !Unstorable(spec, world, index) ==> Storable(result.classification.value)
      ensures writer.connection.Reliable() ==>
                (Storable(result.classification.value) <==> !Unstorable(spec, world, index))
      // As long as no statement fails, the report is stored whenever it can be.
      ensures writer.connection.Reliable() ==>
                (commit.Report? <==> Reports(world, index, old(writer.connection.committed.store)))
    {
      hide Numbered;
      commit := NoCommit;
      match world.report(index)
      case Unread(classification) =>
        result := new CollectionResult(spec.id, Errored, Some(classification), 0);
      case Parsed(rows, report) =>
        var wrote := writer.WriteUsageReport(spec.id, report, tenant);
        if wrote.Ok? {
          commit := Report(report);
          result := new CollectionResult(spec.id, Succeeded, Some(Pass), rows);
        } else {
          result := new CollectionResult(spec.id, Errored,
                                         Some(if wrote.error == Malformed then ReportSchemaInvalid
                                              else PersistenceFailure), rows);
        }
    }

    /** What executing the endpoint at `i` gives: a classified result, and what was committed. The one classification
        that names nothing that happened is that of a report that does not fit, which cannot be stored. */
    ghost predicate Attempted(spec: EndpointSpec, i: nat, world: World, commit: Commit, result: CollectionResult)
      reads result
    {
      var passed := result.status == Succeeded;
      && result.endpointId == spec.id && result.status != Skipped && result.classification.Some?
      && (result.classification.value == ClassificationOf(spec, i, world, passed)
          || result.classification == Some(ReportSchemaInvalid))
      && Commits(spec, i, world, commit)
      && (commit != NoCommit ==> passed)
      && (passed && !spec.usageReport ==> CrawlPassed(world, i))
      && (passed && (spec.usageReport || spec.id in accepted) ==> commit != NoCommit)
      && (!spec.usageReport && spec.id !in accepted ==> (passed <==> CrawlPassed(world, i)))
    }

    lemma AttemptedIsReported(selected: seq<EndpointSpec>, i: nat, world: World, segment: Segment,
                              result: CollectionResult)
      requires i < |selected| && Attempted(selected[i], i, world, segment.commit, result)
      requires !NotExecuted(selected, gate, selected[i].id) && Storable(segment.classification)
      requires segment.endpoint == selected[i].id && segment.status == result.status
      requires segment.classification == StoredClassification(result.classification)
      ensures Reported(selected, i, world, segment, result)
    {
      hide NotExecuted, ClassificationOf, Commits;
    }

    /** What executing an endpoint puts in the summary. The result is there before normalising and writing,
        which may still turn it into an error. */
    method Attempt(index: nat, spec: EndpointSpec, world: World, summary: Summary)
      returns (result: CollectionResult, ghost commit: Commit)
      requires writer.Valid() && world.tenant > 0
      modifies summary, writer`calls, writer.connection
      ensures writer.Valid() && writer.connection.committed.control == old(writer.connection.committed.control)
      ensures CommitTo(writer.registry, old(writer.connection.committed.store), commit)
                == Some(writer.connection.committed.store)
      ensures writer.calls == old(writer.calls) + Segment(0, spec.id, commit, Errored, Unknown, 0).Wrote()
      ensures fresh(result) && summary.runs == old(summary.runs) + [result]
      ensures Attempted(spec, index, world, commit, result) && Commits(spec, index, world, commit)
      ensures writer.connection.Reliable() ==>
                (Storable(StoredClassification(result.classification)) <==> !Unstorable(spec, world, index))
      ensures writer.connection.Reliable() ==>
                (result.status == Succeeded <==> Executes(spec, index, world, old(writer.connection.committed.store)))
    {
      hide Numbered, CommitTo, ClassificationOf, CrawlPassed, Normalizes, Reports, Storable, Unstorable;
      if spec.usageReport {
        result, commit := ExecuteReport(index, spec, world.tenant, world);
        summary.runs := summary.runs + [result];
      } else {
        result, commit := AttemptCrawl(index, spec, world.tenant, world, summary);
      }
    }

    // The same but for usage reports.
    method AttemptCrawl(index: nat, spec: EndpointSpec, tenant: int, world: World, summary: Summary)
      returns (result: CollectionResult, ghost commit: Commit)
      requires writer.Valid() && tenant > 0 && !spec.usageReport
      modifies summary, writer`calls, writer.connection
      ensures writer.Valid() && writer.connection.committed.control == old(writer.connection.committed.control)
      ensures CommitTo(writer.registry, old(writer.connection.committed.store), commit)
                == Some(writer.connection.committed.store)
      ensures writer.calls == old(writer.calls) + if commit.Batch? then [Wrote(commit.written)] else []
      ensures fresh(result) && summary.runs == old(summary.runs) + [result] && result.endpointId == spec.id
      ensures result.status != Skipped
      ensures result.classification == Some(ClassificationOf(spec, index, world, result.status == Succeeded))
      ensures Storable(result.classification.value) <==> !Unstorable(spec, world, index)
      ensures commit == NoCommit
              || (&& spec.id in accepted && world.normalize(index).Some?
                  && commit == Batch(Collection(spec.id, tenant, world.normalize(index).value)))
      ensures result.status == Succeeded <==> CrawlPassed(world, index) && (spec.id in accepted ==> commit.Batch?)
      ensures commit.Batch? ==> CrawlPassed(world, index)
      ensures writer.connection.Reliable() && tenant == world.tenant && CrawlPassed(world, index) ==>
                (commit.Batch? <==>
                 spec.id in accepted && Normalizes(spec, index, world, old(writer.connection.committed.store)))
    {
      hide Numbered, CommitTo, AuthClassification, Normalizes;
      AuthStorable();
      NoCommitKeeps(writer.registry, writer.connection.committed.store);
      commit := NoCommit;
      match world.execute(index)
      case AuthRefused(problem) =>
        summary.authError := Some(problem);
        result := new CollectionResult(spec.id, Errored, Some(AuthClassification(problem)), 0);
        summary.runs := summary.runs + [result];
      case Crashed =>
        result := new CollectionResult(spec.id, Errored, Some(PersistenceFailure), 0);
        summary.runs := summary.runs + [result];
        commit := NormalizeAndWrite(index, spec, tenant, world, result, summary);
      case Ran(classification, rows) =>
        result := new CollectionResult(spec.id, if classification == Pass then Succeeded else Errored,
                                       Some(classification), rows);
        summary.runs := summary.runs + [result];
        commit := NormalizeAndWrite(index, spec, tenant, world, result, summary);
    }

    lemma AuthStorable()
      ensures forall problem :: Storable(AuthClassification(problem))
    {
    }

    /** An executed endpoint: begun, attempted, completed. */
    method ExecuteEndpoint(selected: seq<EndpointSpec>, index: nat, base: Lineage, collection: int, world: World,
                           summary: Summary)
      returns (ok: bool, ghost begun: bool, ghost segment: Segment)
      requires writer.Valid() && world.tenant > 0 && index < |selected|
      requires !NotExecuted(selected, gate, selected[index].id)
      modifies this`lineage, summary, writer`calls, writer.connection
      ensures writer.Valid()
      ensures Progress(ok, begun, segment, collection, world.tenant, old(writer.connection.committed),
                       old(writer.calls))
      ensures writer.connection.Reliable() && collection > 0 ==>
                (ok <==> !Unstorable(selected[index], world, index)) && (!ok ==> begun)
      ensures lineage == base.(endpointRun := lineage.endpointRun) || lineage == old(lineage)
      ensures segment.endpoint == selected[index].id && Commits(selected[index], index, world, segment.commit)
      ensures ok ==>
                && |summary.runs| == |old(summary.runs)| + 1 && summary.runs[..|old(summary.runs)|] == old(summary.runs)
                && fresh(summary.runs[|old(summary.runs)|])
                && Reported(selected, index, world, segment, summary.runs[|old(summary.runs)|])
      ensures writer.connection.Reliable() && ok ==>
                (segment.status == Succeeded <==>
                 Passing(selected, index, world, old(writer.connection.committed.store)))
    {
      hide Numbered, Completed, BegunEndpoint, CommitTo, NotExecuted, Unstorable, Executes, Opened, After, Attempted,
        Reported, Storable, StoredClassification;
      var spec := selected[index];
      segment := Segment(0, spec.id, NoCommit, Errored, Unknown, 0);
      ok, begun := false, false;
      var run := writer.BeginEndpointRun(collection, world.tenant, spec.id);
      if run.Raise? { return; }
      begun := true;
      lineage := base.(endpointRun := Some(run.value));
      var result;
      ghost var commit;
      result, commit := Attempt(index, spec, world, summary);
      segment := Segment(run.value, spec.id, commit, result.status, StoredClassification(result.classification),
                         writer.clock(writer.connection.steps));
      OpenedBy(old(writer.connection.committed), collection, world.tenant, segment, writer.connection.committed);
      var completed := writer.CompleteEndpointRun(run.value, result);
      ok := completed.Ok?;
      if ok { AttemptedIsReported(selected, index, world, segment, result); }
    }

    lemma OpenedBy(before: CollectorDb, collection: int, tenant: int, segment: Segment, now: CollectorDb)
      requires segment.run == before.control.nextEndpoint
      requires CommitTo(writer.registry, before.store, segment.commit) == Some(now.store)
      requires now.control == BegunEndpoint(before.control, collection, tenant, segment.endpoint)
      ensures Opened(writer.registry, before, collection, tenant, segment) == Some(now)
      ensures After(writer.registry, before, collection, tenant, segment)
              == Some(now.(control := Completed(now.control, segment.run, segment.status == Succeeded,
                                                segment.classification, segment.at)))
    {
      hide Completed, BegunEndpoint, CommitTo;
    }

    /** One selected endpoint, skipped or executed. */
    method RunEndpoint(selected: seq<EndpointSpec>, i: nat, base: Lineage, collection: int, world: World,
                       summary: Summary)
      returns (ok: bool, ghost begun: bool, ghost segment: Segment)
      requires writer.Valid() && world.tenant > 0 && i < |selected|
      modifies this`lineage, summary, writer`calls, writer.connection
      ensures writer.Valid()
      ensures Progress(ok, begun, segment, collection, world.tenant, old(writer.connection.committed),
                       old(writer.calls))
      ensures writer.connection.Reliable() && collection > 0 ==> (ok <==> !Stops(selected, i, world)) && (!ok ==> begun)
      ensures lineage == base.(endpointRun := lineage.endpointRun) || lineage == old(lineage)
      ensures segment.endpoint == selected[i].id && Commits(selected[i], i, world, segment.commit)
      ensures ok ==>
                && |summary.runs| == |old(summary.runs)| + 1 && summary.runs[..|old(summary.runs)|] == old(summary.runs)
                && fresh(summary.runs[|old(summary.runs)|])
                && Reported(selected, i, world, segment, summary.runs[|old(summary.runs)|])
      ensures writer.connection.Reliable() && ok ==>
                (segment.status == Succeeded <==> Passing(selected, i, world, old(writer.connection.committed.store)))
    {
      hide Numbered, NotExecuted, Unstorable, Progress, ClassificationOf, Executes;
      if NotExecuted(selected, gate, selected[i].id) {
        ok, begun, segment := SkipEndpoint(selected[i], collection, world.tenant, summary);
      } else {
        ok, begun, segment := ExecuteEndpoint(selected, i, base, collection, world, summary);
      }
    }

    // The endpoint run left begun is that of the endpoint at `i`.
    ghost predicate LeftAt(selected: seq<EndpointSpec>, i: nat, world: World, segment: Segment)
      requires i < |selected|
    {
      segment.endpoint == selected[i].id && Commits(selected[i], i, world, segment.commit)
    }

    /** The endpoint at `i` is executed and cannot be completed. */
    predicate Stops(selected: seq<EndpointSpec>, i: nat, world: World)
      requires i < |selected|
    {
      !NotExecuted(selected, gate, selected[i].id) && Unstorable(selected[i], world, i)
    }

    /** The state of a pass: `segments` completed, and perhaps one more begun. */
    ghost predicate Passed(segments: seq<Segment>, unfinished: Option<Segment>, collection: int, tenant: int,
                           db: CollectorDb, calls: seq<Call>)
      reads writer, writer.connection
    {
      var before := AfterAll(writer.registry, db, collection, tenant, segments);
      && before.Some?
      && (if unfinished.None? then writer.connection.committed == before.value
          else Opened(writer.registry, before.value, collection, tenant, unfinished.value)
               == Some(writer.connection.committed))
      && writer.calls == calls + CallsOf(segments) + if unfinished.Some? then unfinished.value.OpenCalls() else []
    }

    lemma Passes(segments: seq<Segment>, segment: Segment, collection: int, tenant: int, db: CollectorDb,
                 calls: seq<Call>, ok: bool, begun: bool, before: CollectorDb, callsBefore: seq<Call>)
      requires AfterAll(writer.registry, db, collection, tenant, segments) == Some(before)
      requires callsBefore == calls + CallsOf(segments)
      requires Progress(ok, begun, segment, collection, tenant, before, callsBefore)
      ensures ok ==> Passed(segments + [segment], None, collection, tenant, db, calls)
      ensures !ok ==> Passed(segments, if begun then Some(segment) else None, collection, tenant, db, calls)
    {
      hide After, Opened, CallsOf, AfterAll, Segment.Calls, Segment.OpenCalls;
      AfterStep(writer.registry, db, collection, tenant, segments, segment);
      CallsStep(segments, segment);
    }

    /** The pass over the selected endpoints. */
    method RunEndpoints(selected: seq<EndpointSpec>, base: Lineage, collection: int, world: World, summary: Summary)
      returns (ok: bool, ghost segments: seq<Segment>, ghost unfinished: Option<Segment>)
      requires writer.Valid() && world.tenant > 0 && summary.runs == []
      modifies this`lineage, summary, writer`calls, writer.connection
      ensures writer.Valid()
      ensures Passed(segments, unfinished, collection, world.tenant, old(writer.connection.committed),
                     old(writer.calls))
      ensures ok ==> unfinished == None && |summary.runs| == |segments| == |selected|
      ensures ok ==>
                forall i | 0 <= i < |selected| ::
                fresh(summary.runs[i]) && Reported(selected, i, world, segments[i], summary.runs[i])
      ensures !ok ==>
                |segments| < |selected| && (unfinished.Some? ==> LeftAt(selected, |segments|, world, unfinished.value))
      ensures InOrder(segments, selected)
      ensures writer.connection.Reliable() && collection > 0 ==>
                if ok then forall i | 0 <= i < |selected| :: !Stops(selected, i, world)
                else unfinished.Some? && Stops(selected, |segments|, world) && forall i | 0 <= i < |segments| ::
                     !Stops(selected, i, world)
      ensures writer.connection.Reliable() ==>
                Decided(segments, selected, world, old(writer.connection.committed.store))
      ensures lineage == base.(endpointRun := lineage.endpointRun) || lineage == old(lineage)
    {
      hide Numbered, Reported, Decided, CommitAll, Passing, Stops, Progress, Passed, CallsOf, AfterAll, Commits;
      segments, unfinished := [], None;
      ghost var db, calls := writer.connection.committed, writer.calls;
      NothingPassed(collection, world.tenant, db, calls);
      NothingDecided(selected, world, db.store);
      for i := 0 to |selected|
        invariant writer.Valid() && unfinished == None && |summary.runs| == |segments| == i
        invariant Passed(segments, None, collection, world.tenant, db, calls)
        invariant forall k | 0 <= k < i ::
                  fresh(summary.runs[k]) && Reported(selected, k, world, segments[k], summary.runs[k])
        invariant forall k | 0 <= k < i :: segments[k].endpoint == selected[k].id
        invariant writer.connection.Reliable() && collection > 0 ==> forall k | 0 <= k < i :: !Stops(selected, k, world)
        invariant writer.connection.Reliable() ==> Decided(segments, selected, world, db.store)
        invariant lineage == base.(endpointRun := lineage.endpointRun) || lineage == old(lineage)
      {
        ghost var begun, segment;
        ghost var before, callsBefore := writer.connection.committed, writer.calls;
        PassedSoFar(segments, collection, world.tenant, db, calls);
        StoreIsCommits(writer.registry, db, collection, world.tenant, segments);
        ok, begun, segment := RunEndpoint(selected, i, base, collection, world, summary);
        Passes(segments, segment, collection, world.tenant, db, calls, ok, begun, before, callsBefore);
        if !ok {
          unfinished := if begun then Some(segment) else None;
          return;
        }
        if writer.connection.Reliable() { DecidedStep(segments, segment, selected, world, db.store, before.store); }
        segments := segments + [segment];
      }
      ok := true;
    }

    lemma NothingPassed(collection: int, tenant: int, db: CollectorDb, calls: seq<Call>)
      requires writer.connection.committed == db && writer.calls == calls
      ensures Passed([], None, collection, tenant, db, calls)
    {
      NothingAfter(writer.registry, db, collection, tenant);
    }

    lemma PassedSoFar(segments: seq<Segment>, collection: int, tenant: int, db: CollectorDb, calls: seq<Call>)
      requires Passed(segments, None, collection, tenant, db, calls)
      ensures AfterAll(writer.registry, db, collection, tenant, segments) == Some(writer.connection.committed)
      ensures writer.calls == calls + CallsOf(segments)
    {
    }

    ghost predicate AllRefused(runs: seq<CollectionResult>, problem: AuthProblem)
      reads runs
    {
      forall i | 0 <= i < |runs| ::
        runs[i].status == Errored && runs[i].classification == Some(AuthClassification(problem))
    }

    // One refused token stands for every selected endpoint.
    method RefuseAll(selected: seq<EndpointSpec>, problem: AuthProblem, summary: Summary)
      requires summary.runs == []
      modifies summary
      ensures |summary.runs| == |selected| && summary.authError == Some(problem)
      ensures forall i | 0 <= i < |selected| :: fresh(summary.runs[i]) && summary.runs[i].endpointId == selected[i].id
      ensures AllRefused(summary.runs, problem)
    {
      summary.authError := Some(problem);
      for i := 0 to |selected|
        invariant |summary.runs| == i && summary.authError == Some(problem)
        invariant forall k | 0 <= k < i :: fresh(summary.runs[k]) && summary.runs[k].endpointId == selected[k].id
        invariant AllRefused(summary.runs, problem)
      {
        var refused := new CollectionResult(selected[i].id, Errored, Some(AuthClassification(problem)), 0);
        summary.runs := summary.runs + [refused];
      }
    }

    /** What a call does unless it is refused at once. */
    ghost predicate Accepted(selection: Selection, world: World, before: Lineage) {
      && Acceptable(specs, selection) && world.config.None? && world.tenant > 0
      && (before.tenant.None? || before.tenant == Some(world.tenant))
      && (before.collection.None? || before.collection.value > 0)
    }

    /** One call of the runtime. `selected` is what it selected, `began` the collection run it began, `segments` what
        was committed per endpoint and completed, `unfinished` what was begun and not completed. */
    method Run(selection: Selection, world: World)
      returns (r: Result<Summary, RuntimeError>, ghost selected: seq<EndpointSpec>, ghost began: Option<int>,
               ghost segments: seq<Segment>, ghost unfinished: Option<Segment>)
      requires writer.Valid()
      modifies this`lineage, writer`calls, writer.connection
      ensures writer.Valid()
      // On every normal return: one result per selected endpoint, in selection order.
      ensures r.Ok? ==> fresh(r.value) && Resolves(specs, selection, Ok(selected))
      ensures r.Ok? ==>
                |r.value.runs| == |selected| && forall i | 0 <= i < |selected| ::
                r.value.runs[i].endpointId == selected[i].id
      // Without an auth configuration nothing is begun; nor if the call is refused at once.
      ensures r.Ok? && world.config.Some? ==>
                && AllRefused(r.value.runs, world.config.value)
                && writer.calls == old(writer.calls) && writer.connection.committed == old(writer.connection.committed)
      // A collection run is begun only if no lineage was given, under a new number.
      ensures began.Some? ==> old(lineage.collection).None? && lineage.collection == began
                              && began.value == old(writer.connection.committed.control.nextCollection)
      ensures r.Ok? && world.config.None? ==>
                lineage.collection.Some? && lineage.tenant == Some(world.tenant) && world.tenant > 0
      ensures began.None? ==> lineage.collection == old(lineage.collection)
      // The account: everything committed, on a normal return with the collection run closed by as many passed and
      // failed as were selected, and on a raise without.
      ensures r.Ok? && world.config.None? ==>
                var passed := PassCount(StatusesOf(r.value.runs));
                var db := AfterAll(writer.registry,
                                   Started(old(writer.connection.committed), began, world.tenant, selected),
                                   lineage.collection.value, world.tenant, segments);
                && passed <= |selected| && unfinished == None && db.Some?
                && writer.connection.committed
                     == db.value.(control := Closed(db.value.control, lineage.collection.value, passed,
                                                    |selected| - passed))
                && writer.calls == old(writer.calls) + StartCalls(began, selected) + CallsOf(segments)
                                   + [CompletedCollection(lineage.collection.value, passed, |selected| - passed)]
      ensures r.Raise? && lineage.collection.Some? ==>
                Passed(segments, unfinished, lineage.collection.value, world.tenant,
                       Started(old(writer.connection.committed), began, world.tenant, selected),
                       old(writer.calls) + StartCalls(began, selected))
      ensures r.Raise? && lineage.collection.None? ==>
                writer.calls == old(writer.calls) && writer.connection.committed == old(writer.connection.committed)
      ensures InOrder(segments, selected)
      ensures unfinished.Some? ==> |segments| < |selected| && LeftAt(selected, |segments|, world, unfinished.value)
      // Endpoint runs: none if the first token was refused, else one per endpoint.
      ensures r.Ok? && world.config.None? ==>
                && |segments| == (if TokenRefused(selected, gate, world) then 0 else |selected|)
                && (|segments| == |selected| ==>
                    forall i | 0 <= i < |selected| :: Reported(selected, i, world, segments[i], r.value.runs[i]))
                && (TokenRefused(selected, gate, world) ==> AllRefused(r.value.runs, world.token.value))
      // An endpoint passes exactly if it has all it needs, as long as the database does what it is told.
      ensures writer.connection.Reliable() ==>
                Decided(segments, selected, world, old(writer.connection.committed.store))
      // Once accepted, and as long as the database does what it is told, the call raises exactly if there is nothing to
      // begin a collection run with or an executed endpoint ends in a classification that cannot be stored; it stops at
      // the first of these, with that endpoint run left begun.
      ensures Accepted(selection, world, old(lineage)) && writer.connection.Reliable() ==>
                && Resolves(specs, selection, Ok(selected))
                && (began.Some? <==> old(lineage.collection).None? && selected != [])
                && (r.Raise? <==> (old(lineage.collection).None? && selected == [])
                                  || (!TokenRefused(selected, gate, world) && exists i ::
                                      0 <= i < |selected| && Stops(selected, i, world)))
                && (r.Raise? && selected != [] ==>
                      unfinished.Some? && Stops(selected, |segments|, world) && forall i | 0 <= i < |segments| ::
                        !Stops(selected, i, world))
    {
      hide Resolves, Numbered, NotExecuted, CallsOf, PassCount, AuthClassification, Reported, TokenRefused, StatusesOf,
        IdsOf, AfterAll, Stops, Completed, BegunCollection, BegunEndpoint, Opened, Acceptable, Passed, LeftAt, Commits,
        Closed, Decided;
      selected, began, segments, unfinished := [], None, [], None;
      NothingDecided(selected, world, writer.connection.committed.store);
      NothingPassed(0, 0, writer.connection.committed, writer.calls);
      var resolved := ResolveSelection(specs, selection);
      if resolved.Raise? {
        assert writer.calls + StartCalls(began, selected) == writer.calls;
        Untouched();
        return Raise(resolved.error), selected, began, segments, unfinished;
      }
      selected := resolved.value;
      NothingDecided(selected, world, writer.connection.committed.store);
      var summary := new Summary();
      if world.config.Some? {
        RefuseAll(resolved.value, world.config.value, summary);
        return Ok(summary), selected, began, segments, unfinished;
      }
      ghost var given := lineage.collection;
      var bound := BindLineage(resolved.value, world.tenant);
      if bound.Raise? {
        assert writer.calls + StartCalls(began, selected) == writer.calls;
        Untouched();
        return Raise(bound.error), selected, began, segments, unfinished;
      }
      began := if given.Some? then None else Some(bound.value);
      assert old(writer.calls) + StartCalls(began, selected) == writer.calls;
      var ok;
      ok, segments, unfinished := RunCollection(resolved.value, bound.value, world, summary);
      if !ok {
        return Raise(WriterFailed), selected, began, segments, unfinished;
      }
      r := Ok(summary);
    }

    lemma Untouched()
      ensures forall collection, tenant ::
                Passed([], None, collection, tenant, writer.connection.committed, writer.calls)
    {
      forall collection, tenant
        ensures Passed([], None, collection, tenant, writer.connection.committed, writer.calls)
      {
        NothingPassed(collection, tenant, writer.connection.committed, writer.calls);
      }
    }

    // The lineage of the call: supplied, or left by an earlier call, or else a collection run begun now.
    method BindLineage(selected: seq<EndpointSpec>, tenant: int) returns (r: Result<int, RuntimeError>)
      requires writer.Valid()
      modifies this`lineage, writer`calls, writer.connection
      ensures writer.Valid()
      ensures r.Ok? ==> tenant > 0 && lineage.collection == Some(r.value) && lineage.tenant == Some(tenant)
      ensures old(lineage.tenant).Some? && old(lineage.tenant).value != tenant ==> r.Raise?
      ensures old(lineage.collection).Some? ==> lineage.collection == old(lineage.collection)
      ensures r.Raise? || old(lineage.collection).Some? ==>
                writer.connection.committed == old(writer.connection.committed) && writer.calls == old(writer.calls)
      ensures r.Raise? ==> lineage.collection == old(lineage.collection)
      ensures r.Ok? && old(lineage.collection).None? ==>
                && r.value == old(writer.connection.committed.control.nextCollection) && r.value > 0
                && writer.connection.committed
                     == Started(old(writer.connection.committed), Some(r.value), tenant, selected)
                && writer.calls == old(writer.calls) + StartCalls(Some(r.value), selected)
      ensures writer.connection.Reliable() && tenant > 0 &&
                (old(lineage.tenant).None? || old(lineage.tenant) == Some(tenant)) ==>
                (r.Ok? <==> old(lineage.collection).Some? || selected != [])
    {
      hide Numbered, BegunCollection;
      if tenant <= 0 {
        return Raise(MalformedTenant);
      }
      if lineage.tenant.Some? && lineage.tenant.value != tenant {
        return Raise(LineageMismatch);
      }
      lineage := lineage.(tenant := Some(tenant));
      if lineage.collection.None? {
        var begun := writer.BeginCollectionRun(tenant, Ids(selected));
        if begun.Raise? {
          return Raise(WriterFailed);
        }
        lineage := lineage.(collection := Some(begun.value));
      }
      r := Ok(lineage.collection.value);
    }

    // The collection once begun: token, endpoints, closing.
    method RunCollection(selected: seq<EndpointSpec>, collection: int, world: World, summary: Summary)
      returns (ok: bool, ghost segments: seq<Segment>, ghost unfinished: Option<Segment>)
      requires writer.Valid() && world.tenant > 0 && summary.runs == [] && lineage.collection == Some(collection)
      modifies this`lineage, summary, writer`calls, writer.connection
      ensures writer.Valid() && lineage.collection == Some(collection) && lineage.tenant == old(lineage.tenant)
      ensures ok ==>
                && unfinished == None && |summary.runs| == |selected|
                && (forall i | 0 <= i < |selected| ::
                    fresh(summary.runs[i]) && summary.runs[i].endpointId == selected[i].id)
                && |segments| == (if TokenRefused(selected, gate, world) then 0 else |selected|)
                && (|segments| == |selected| ==>
                    forall i | 0 <= i < |selected| :: Reported(selected, i, world, segments[i], summary.runs[i]))
                && (TokenRefused(selected, gate, world) ==> AllRefused(summary.runs, world.token.value))
      ensures ok ==>
                var passed := PassCount(StatusesOf(summary.runs));
                var db := AfterAll(writer.registry, old(writer.connection.committed), collection, world.tenant,
                                   segments);
                && passed <= |selected| && db.Some?
                && writer.connection.committed
                     == db.value.(control := Closed(db.value.control, collection, passed, |selected| - passed))
                && writer.calls == old(writer.calls) + CallsOf(segments) +
                     [CompletedCollection(collection, passed, |selected| - passed)]
      ensures !ok ==>
                Passed(segments, unfinished, collection, world.tenant, old(writer.connection.committed),
                       old(writer.calls))
      ensures InOrder(segments, selected)
      ensures unfinished.Some? ==> |segments| < |selected| && LeftAt(selected, |segments|, world, unfinished.value)
      ensures writer.connection.Reliable() ==>
                Decided(segments, selected, world, old(writer.connection.committed.store))
      ensures writer.connection.Reliable() && collection > 0 ==>
                && (ok <==> TokenRefused(selected, gate, world) || forall i | 0 <= i < |selected| ::
                    !Stops(selected, i, world))
                && (!ok ==> unfinished.Some? && Stops(selected, |segments|, world) && forall i | 0 <= i < |segments| ::
                    !Stops(selected, i, world))
    {
      hide Numbered, NotExecuted, CallsOf, PassCount, Completed, Stops, Passed, AfterAll, TokenRefused, Decided;
      segments, unfinished := [], None;
      NothingDecided(selected, world, writer.connection.committed.store);
      ghost var db, calls := writer.connection.committed, writer.calls;
      NothingPassed(collection, world.tenant, db, calls);
      var refused := TokenRefused(selected, gate, world);
      if refused {
        RefuseAll(selected, TokenProblem(selected, gate, world), summary);
        ok := true;
      } else {
        ok, segments, unfinished := RunEndpoints(selected, lineage, collection, world, summary);
      }
      if ok {
        PassedSoFar(segments, collection, world.tenant, db, calls);
        var closed := writer.CompleteCollectionRun(collection, summary.runs);
        ok := closed.Ok?;
        if !ok { StillPassed(segments, collection, world.tenant, db, calls); }
      }
    }

    lemma StillPassed(segments: seq<Segment>, collection: int, tenant: int, db: CollectorDb, calls: seq<Call>)
      requires AfterAll(writer.registry, db, collection, tenant, segments) == Some(writer.connection.committed)
      requires writer.calls == calls + CallsOf(segments)
      ensures Passed(segments, None, collection, tenant, db, calls)
    {
    }
  }

  /** What a normal return leaves in the control tables and the store: the collection run closed, with as many passed
      and failed as were selected when this call began it; every endpoint run completed, under its own number, as its
      result says; and the rows of the batches and reports committed, in order, and no others. */
  lemma RunLeaves(registry: Registry, db: CollectorDb, began: Option<int>, collection: int, tenant: int,
                  selected: seq<EndpointSpec>, segments: seq<Segment>, passed: nat)
    requires Numbered(db.control) && passed <= |selected|
    requires (began.Some? ==> collection == began.value == db.control.nextCollection)
    requires AfterAll(registry, Started(db, began, tenant, selected), collection, tenant, segments).Some?
    ensures var before := AfterAll(registry, Started(db, began, tenant, selected), collection, tenant, segments).value;
            var c := Closed(before.control, collection, passed, |selected| - passed);
            && (collection in c.collections ==>
                  && c.collections[collection].passed + c.collections[collection].failed == |selected|
                  && c.collections[collection].status == Closing(passed, |selected| - passed))
            && (began.Some? ==>
                  && collection in c.collections && c.collections[collection].total == |selected|
                  && c.collections[collection].selected == IdsOf(selected))
            && (began.None? && collection in db.control.collections ==>
                  && collection in c.collections
                  && c.collections[collection].total == db.control.collections[collection].total
                  && c.collections[collection].selected == db.control.collections[collection].selected)
            && (forall id | id != collection ::
                  (id in c.collections <==> id in db.control.collections)
                  && (id in c.collections ==> c.collections[id] == db.control.collections[id]))
            && (forall i | 0 <= i < |segments| ::
                  && segments[i].run == db.control.nextEndpoint + i && segments[i].run in c.endpoints
                  && c.endpoints[segments[i].run] == EndpointRun(collection, segments[i].endpoint, tenant, true,
                                                                 segments[i].status == Succeeded,
                                                                 segments[i].classification))
            && CommitAll(registry, db.store, segments) == Some(before.store)
  {
    hide AfterAll, CommitAll;
    var started := Started(db, began, tenant, selected);
    EndpointRows(registry, started, collection, tenant, segments);
    StoreIsCommits(registry, started, collection, tenant, segments);
  }

  /** Other tenants' rows stay as they were, if usage reports keep to the tenant too. */
  lemma OtherTenantsUntouched(runtime: CollectorRuntime, selected: seq<EndpointSpec>, world: World,
                              segments: seq<Segment>, store: Store)
    requires |segments| <= |selected| && CommitAll(runtime.writer.registry, store, segments).Some?
    requires forall i | 0 <= i < |segments| :: runtime.Commits(selected[i], i, world, segments[i].commit)
    requires forall i: nat | world.report(i).Parsed? :: KeepsTo(Report(world.report(i).report), world.tenant)
    ensures OnlyTenantChanged(store, CommitAll(runtime.writer.registry, store, segments).value, world.tenant)
  {
    OthersUntouched(runtime.writer.registry, store, segments, world.tenant);
  }

  // What a closed collection run counts, against what it was begun for.
  ghost predicate Counts(run: CollectionRun, selected: seq<string>, counted: nat) {
    run.selected == selected && run.total == |selected| && run.passed + run.failed == counted
  }

  // A call in which nothing is gated and every crawl crashes.
  method CrashingRun(runtime: CollectorRuntime, selection: Selection, world: World, ghost ids: seq<string>)
    requires runtime.writer.Valid() && runtime.writer.connection.Reliable()
    requires runtime.Accepted(selection, world, runtime.lineage) && forall i :: world.execute(i) == Crashed
    requires forall spec | spec in runtime.specs :: !spec.usageReport
    requires ids != []
    requires forall selected | Resolves(runtime.specs, selection, Ok(selected)) :: IdsOf(selected) == ids
    modifies runtime`lineage, runtime.writer`calls, runtime.writer.connection
    ensures runtime.writer.Valid()
    ensures old(runtime.lineage.collection).None? ==>
              var id := old(runtime.writer.connection.committed.control.nextCollection);
              var after := runtime.writer.connection.committed.control.collections;
              && runtime.lineage.collection == Some(id) && id > 0
              && id in after && Counts(after[id], ids, |ids|)
    ensures old(runtime.lineage.collection).Some? ==>
              var id := old(runtime.lineage.collection).value;
              var before, after := old(runtime.writer.connection.committed.control).collections,
                runtime.writer.connection.committed.control.collections;
              && runtime.lineage.collection == Some(id)
              && (id in before ==>
                    && id in after && after[id].total == before[id].total && after[id].selected == before[id].selected
                    && after[id].passed + after[id].failed == |ids|)
    ensures runtime.lineage.tenant == Some(world.tenant)
  {
    hide NotExecuted, Closed, AfterAll, CommitAll, BegunCollection, PassCount, Resolves, CallsOf, Acceptable;
    ghost var db, given := runtime.writer.connection.committed, runtime.lineage.collection;
    var r;
    ghost var selected, began, segments, unfinished;
    r, selected, began, segments, unfinished := runtime.Run(selection, world);
    NothingStops(runtime, selection, selected, world);
    assert |IdsOf(selected)| == |selected|;
    RunLeaves(runtime.writer.registry, db, began, runtime.lineage.collection.value, world.tenant, selected, segments,
              PassCount(StatusesOf(r.value.runs)));
  }

  lemma NothingStops(runtime: CollectorRuntime, selection: Selection, selected: seq<EndpointSpec>, world: World)
    requires Resolves(runtime.specs, selection, Ok(selected)) && Acceptable(runtime.specs, selection)
    requires forall i :: world.execute(i) == Crashed
    requires forall spec | spec in runtime.specs :: !spec.usageReport
    ensures forall i | 0 <= i < |selected| :: !runtime.Stops(selected, i, world)
  {
    hide NotExecuted;
    forall i | 0 <= i < |selected|
      ensures !runtime.Stops(selected, i, world)
    {
      assert selected[i] in Result<seq<EndpointSpec>, RuntimeError>.Ok(selected).value;
    }
  }

  /** A runtime used for one endpoint and then for two closes the collection run of the first call again: its row, begun
      for one endpoint, ends with two counted. */
  method ReusedRuntimeMiscounts(writer: CollectionWriter, tenant: int)
    requires writer.Valid() && writer.connection.Reliable() && tenant > 0
    modifies writer`calls, writer.connection
    ensures writer.Valid()
    ensures var id, c := old(writer.connection.committed.control.nextCollection),
              writer.connection.committed.control.collections;
            id in c && Counts(c[id], ["A"], 2)
  {
    var a, b := EndpointSpec("A", true, true, false, false), EndpointSpec("B", true, true, false, false);
    var world := World(None, tenant, None, _ => Crashed, _ => Unread(NetworkError), _ => None);
    var runtime := new CollectorRuntime([a, b], writer, None, {}, Lineage(None, None, None));
    TwoSpecs(a, b);
    CrashingRun(runtime, Selection(Some("A"), None, false), world, ["A"]);
    CrashingRun(runtime, Selection(None, None, true), world, ["A", "B"]);
  }

  lemma TwoSpecs(a: EndpointSpec, b: EndpointSpec)
    requires a == EndpointSpec("A", true, true, false, false) && b == EndpointSpec("B", true, true, false, false)
    ensures var one, both := Selection(Some("A"), None, false), Selection(None, None, true);
            && Acceptable([a, b], one) && Acceptable([a, b], both)
            && (forall selected | Resolves([a, b], one, Ok(selected)) :: IdsOf(selected) == ["A"])
            && (forall selected | Resolves([a, b], both, Ok(selected)) :: IdsOf(selected) == ["A", "B"])
  {
    assert [a, b][1..] == [b] && [b][1..] == [];
    assert EnabledSpecs([b]) == [b] && EnabledSpecs([a, b]) == [a, b];
    assert IdsOf([a, b]) == ["A", "B"];
  }

  /** One such call: a single usage report that cannot be read. Its endpoint run stays begun, and so does the collection
      run. */
  method UnreadableReportStops(writer: CollectionWriter, tenant: int)
    requires writer.Valid() && writer.connection.Reliable() && tenant > 0
    modifies writer`calls, writer.connection
    ensures writer.Valid()
    ensures var before, after := old(writer.connection.committed).control, writer.connection.committed.control;
            var collection, run := before.nextCollection, before.nextEndpoint;
            && writer.calls == old(writer.calls) +
                 [BeganCollection(collection, ["USAGE-1"]), BeganEndpoint(run, "USAGE-1")]
            && collection in after.collections && after.collections[collection].status == Running
            && run in after.endpoints && !after.endpoints[run].completed
            && writer.connection.committed.store == old(writer.connection.committed.store)
  {
    hide Resolves, Acceptable, PassCount, Closed, CollectorRuntime.Reported, CollectorRuntime.Decided, StatusesOf;
    var spec := EndpointSpec("USAGE-1", true, true, true, false);
    OneSpec(spec);
    var world := World(None, tenant, None, _ => Crashed, _ => Unread(ReportSchemaInvalid), _ => None);
    var runtime := new CollectorRuntime([spec], writer, None, {}, Lineage(None, None, None));
    var r;
    ghost var selected, began, segments, unfinished;
    ghost var db := writer.connection.committed;
    r, selected, began, segments, unfinished := runtime.Run(Selection(None, None, true), world);
    assert IdsOf(selected) == [spec.id];
    assert runtime.Stops(selected, 0, world);
    assert segments == [] && unfinished.Some?;
    assert !TokenRefused(selected, None, world) && r.Raise?;
    NothingAfter(writer.registry, Started(db, began, tenant, selected), runtime.lineage.collection.value, tenant);
    NoCalls();
    NoCommitKeeps(writer.registry, db.store);
  }

  lemma OneSpec(spec: EndpointSpec)
    requires spec.enabled && spec.workload
    ensures Acceptable([spec], Selection(None, None, true))
    ensures forall selected | Resolves([spec], Selection(None, None, true), Ok(selected)) :: selected == [spec]
  {
    assert EnabledSpecs([spec]) == [spec];
  }
}
