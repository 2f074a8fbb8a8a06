/** Persisting evaluated security findings: content-addressed observations and evaluations, and a guarded
    projection of the latest evaluation (security/persistence.py). A digest stands for its payload. */
module SecurityPersistence {
  import opened Basics
  import opened Connections

  // A timestamp or lineage text as the parsers see it.
  datatype Timestamp = Missing | Unreadable | At(time: int)

  datatype Lineage = NoLineage | NotNumeric | RunId(id: int)

  datatype Observation = Observation(
    rule: string, sourceType: string, endpoint: string, field: string, value: Option<string>,
    observedAt: Timestamp, collectionRun: Lineage, endpointRun: Lineage)

  datatype Finding = Finding(
    rule: string, findingId: string, baseline: string, version: string, category: string, status: string,
    severity: string, expectation: string, observedState: string, risk: string, recommendation: string,
    guidance: string, dependency: string, evaluatedAt: Timestamp)

  datatype ObservationDigest = ObservationDigest(
    tenant: int, rule: string, sourceType: string, endpoint: string, field: string, value: Option<string>,
    dependency: string, observedAt: int, collectionRun: Option<int>, endpointRun: Option<int>)

  // The time of evaluation is not part of an evaluation's identity.
  datatype EvaluationDigest = EvaluationDigest(
    tenant: int, findingId: string, observation: ObservationDigest, rule: string, baseline: string, version: string,
    category: string, status: string, severity: string, expectation: string, observedState: string, risk: string,
    recommendation: string, guidance: string, dependency: string)

  datatype Evaluation = Evaluation(id: int, observationId: int, evaluatedAt: int)

  datatype CurrentKey = CurrentKey(tenant: int, rule: string, baseline: string, version: string)

  datatype Current = Current(findingId: string, evaluationId: int, status: string, severity: string,
                             observedState: string, evaluatedAt: int)

  /** security.observation and security.finding_evaluation keyed by their unique digest,
      security.finding_current by its primary key. */
  datatype SecurityDb = SecurityDb(
    observations: map<ObservationDigest, int>,
    evaluations: map<EvaluationDigest, Evaluation>,
    current: map<CurrentKey, Current>,
    nextObservation: int,
    nextEvaluation: int)

  datatype Call = Call(tenant: int, observation: Observation, finding: Finding) {
    predicate Valid() {
      && tenant > 0 && finding.rule == observation.rule
      && observation.observedAt.At? && finding.evaluatedAt.At?
      && GoodLineage(observation.collectionRun) && GoodLineage(observation.endpointRun)
      && (observation.value.Some? ==> |observation.value.value| <= 1024)
    }

    function ObservationPayload(): ObservationDigest
      requires Valid()
    {
      ObservationDigest(tenant, observation.rule, observation.sourceType, observation.endpoint, observation.field,
                        observation.value, finding.dependency, observation.observedAt.time,
                        LineageId(observation.collectionRun), LineageId(observation.endpointRun))
    }

    function EvaluationPayload(): EvaluationDigest
      requires Valid()
    {
      EvaluationDigest(tenant, finding.findingId, ObservationPayload(), finding.rule, finding.baseline, finding.version,
                       finding.category, finding.status, finding.severity, finding.expectation, finding.observedState,
                       finding.risk, finding.recommendation, finding.guidance, finding.dependency)
    }

    function Key(): CurrentKey { CurrentKey(tenant, finding.rule, finding.baseline, finding.version) }

    function Time(): int
      requires Valid()
    {
      finding.evaluatedAt.time
    }
  }

  predicate GoodLineage(l: Lineage) { !l.NotNumeric? && (l.RunId? ==> l.id > 0) }

  function LineageId(l: Lineage): Option<int> { if l.RunId? then Some(l.id) else None }

  // ---- The three statements -------------------------------------------------------------------

  // INSERT ... ON CONFLICT (digest) DO NOTHING; a number is drawn from the sequence either way.
  function InsertObservation(db: SecurityDb, d: ObservationDigest): SecurityDb {
    db.(observations := if d in db.observations then db.observations else db.observations[d := db.nextObservation],
        nextObservation := db.nextObservation + 1)
  }

  function InsertEvaluation(db: SecurityDb, d: EvaluationDigest, observationId: int, evaluatedAt: int): SecurityDb {
    db.(evaluations := if d in db.evaluations then db.evaluations
                       else db.evaluations[d := Evaluation(db.nextEvaluation, observationId, evaluatedAt)],
        nextEvaluation := db.nextEvaluation + 1)
  }

  // The upsert is skipped when the stored row is of a later evaluation.
  function Project(db: SecurityDb, key: CurrentKey, row: Current): SecurityDb {
    if key in db.current && db.current[key].evaluatedAt > row.evaluatedAt then db
    else db.(current := db.current[key := row])
  }

  ghost function Persisted(db: SecurityDb, c: Call): SecurityDb
    requires c.Valid()
  {
    var observed := InsertObservation(db, c.ObservationPayload());
    var evaluated := InsertEvaluation(observed, c.EvaluationPayload(), observed.observations[c.ObservationPayload()],
                                      c.Time());
    Project(evaluated, c.Key(), CurrentRow(c, evaluated.evaluations[c.EvaluationPayload()].id))
  }

  function CurrentRow(c: Call, evaluationId: int): Current
    requires c.Valid()
  {
    Current(c.finding.findingId, evaluationId, c.finding.status, c.finding.severity, c.finding.observedState, c.Time())
  }

  lemma PersistedParts(db: SecurityDb, c: Call)
    requires c.Valid()
    ensures var o, d := c.ObservationPayload(), c.EvaluationPayload();
            var observed := InsertObservation(db, o);
            && o in observed.observations && observed.evaluations == db.evaluations
            && var evaluated := InsertEvaluation(observed, d, observed.observations[o], c.Time());
               && d in evaluated.evaluations
               && Persisted(db, c).observations == observed.observations
               && Persisted(db, c).evaluations == evaluated.evaluations
  {
  }

  datatype SecurityError = InvalidInput | StatementFailed

  datatype Receipt = Receipt(observationId: int, evaluationId: int, observationInserted: bool, evaluationInserted: bool)

  class SecurityPersistenceWriter {
    const connection: Connection<SecurityDb>

    constructor (connection: Connection<SecurityDb>)
      ensures this.connection == connection
    {
      this.connection := connection;
    }

    /** One transaction: all three statements, or nothing. */
    method Persist(c: Call) returns (r: Result<Receipt, SecurityError>)
      requires connection.Idle()
      modifies connection
      ensures connection.Idle()
      ensures !c.Valid() <==> r == Raise(InvalidInput)
      ensures !c.Valid() ==> unchanged(connection)
      ensures connection.Reliable() ==> (r.Ok? <==> c.Valid())
      ensures r.Raise? ==> connection.committed == old(connection.committed) && connection.log == old(connection.log)
      ensures r.Ok? ==> connection.committed == Persisted(old(connection.committed), c)
      ensures r.Ok? ==> connection.log == old(connection.log) + [connection.committed]
      ensures r.Ok? ==>
                && (r.value.observationInserted <==> c.ObservationPayload() !in old(connection.committed).observations)
                && (r.value.evaluationInserted <==> c.EvaluationPayload() !in old(connection.committed).evaluations)
                && r.value.observationId == connection.committed.observations[c.ObservationPayload()]
                && r.value.evaluationId == connection.committed.evaluations[c.EvaluationPayload()].id
    {
      hide InsertObservation, InsertEvaluation, Project, CurrentRow, Call.Valid, Call.ObservationPayload,
        Call.EvaluationPayload;
      if !c.Valid() {
        return Raise(InvalidInput);
      }
      PersistedParts(connection.working, c);
      var observation, evaluation := c.ObservationPayload(), c.EvaluationPayload();
      var observationInserted := observation !in connection.working.observations;
      var ok := connection.Execute(InsertObservation(connection.working, observation));
      if ok && !observationInserted {
        ok := connection.Execute(connection.working);    // SELECT observation_id
      }
      if !ok {
        connection.Rollback();
        return Raise(StatementFailed);
      }
      var observationId := connection.working.observations[observation];
      var evaluationInserted := evaluation !in connection.working.evaluations;
      ok := connection.Execute(InsertEvaluation(connection.working, evaluation, observationId, c.Time()));
      if ok && !evaluationInserted {
        ok := connection.Execute(connection.working);    // SELECT evaluation_id
      }
      if !ok {
        connection.Rollback();
        return Raise(StatementFailed);
      }
      var evaluationId := connection.working.evaluations[evaluation].id;
      ok := connection.Execute(Project(connection.working, c.Key(), CurrentRow(c, evaluationId)));
      if ok {
        ok := connection.Commit();
      }
      if !ok {
        connection.Rollback();
        return Raise(StatementFailed);
      }
      r := Ok(Receipt(observationId, evaluationId, observationInserted, evaluationInserted));
    }
  }

  // ---- Referential agreement --------------------------------------------------------------------

  ghost predicate ObservationsNumbered(db: SecurityDb) {
    && (forall d | d in db.observations :: db.observations[d] < db.nextObservation)
    && (forall d, e | d in db.observations && e in db.observations && d != e ::
        db.observations[d] != db.observations[e])
  }

  ghost predicate EvaluationsNumbered(db: SecurityDb) {
    && (forall d | d in db.evaluations :: db.evaluations[d].id < db.nextEvaluation)
    && (forall d, e | d in db.evaluations && e in db.evaluations && d != e ::
        db.evaluations[d].id != db.evaluations[e].id)
  }

  // An evaluation's row points at the observation it was made of, of the same tenant and rule.
  ghost predicate EvaluationsLinked(db: SecurityDb) {
    forall d | d in db.evaluations ::
      && d.observation in db.observations && db.evaluations[d].observationId == db.observations[d.observation]
      && d.observation.tenant == d.tenant && d.observation.rule == d.rule
  }

  // `d` is what the current row under `key` shows.
  ghost predicate Shows(key: CurrentKey, row: Current, d: EvaluationDigest) {
    && d.tenant == key.tenant && d.rule == key.rule && d.baseline == key.baseline && d.version == key.version
    && d.findingId == row.findingId && d.status == row.status && d.severity == row.severity
    && d.observedState == row.observedState
  }

  ghost predicate CurrentLinked(db: SecurityDb) {
    forall key | key in db.current ::
      exists d :: d in db.evaluations && db.evaluations[d].id == db.current[key].evaluationId &&
        Shows(key, db.current[key], d)
  }

  ghost predicate Agrees(db: SecurityDb) {
    ObservationsNumbered(db) && EvaluationsNumbered(db) && EvaluationsLinked(db) && CurrentLinked(db)
  }

  lemma ObservationKeeps(db: SecurityDb, d: ObservationDigest)
    requires Agrees(db)
    ensures Agrees(InsertObservation(db, d)) && d in InsertObservation(db, d).observations
  {
    hide Shows;
    var after := InsertObservation(db, d);
    assert EvaluationsNumbered(after) && CurrentLinked(after);
  }

  lemma EvaluationKeeps(db: SecurityDb, d: EvaluationDigest, observationId: int, evaluatedAt: int)
    requires Agrees(db) && d.observation in db.observations && observationId == db.observations[d.observation]
    requires d.observation.tenant == d.tenant && d.observation.rule == d.rule
    ensures Agrees(InsertEvaluation(db, d, observationId, evaluatedAt))
    ensures d in InsertEvaluation(db, d, observationId, evaluatedAt).evaluations
  {
    hide Shows, ObservationsNumbered, EvaluationsNumbered, EvaluationsLinked;
    EvaluationNumbering(db, d, observationId, evaluatedAt);
    EvaluationLinking(db, d, observationId, evaluatedAt);
    var after := InsertEvaluation(db, d, observationId, evaluatedAt);
    forall key | key in after.current
      ensures exists e :: e in after.evaluations && after.evaluations[e].id == after.current[key].evaluationId &&
                Shows(key, after.current[key], e)
    {
      var e :| e in db.evaluations && db.evaluations[e].id == db.current[key].evaluationId &&
        Shows(key, db.current[key], e);
      assert e in after.evaluations && after.evaluations[e] == db.evaluations[e];
    }
  }

  lemma EvaluationLinking(db: SecurityDb, d: EvaluationDigest, observationId: int, evaluatedAt: int)
    requires EvaluationsLinked(db) && d.observation in db.observations
    requires observationId == db.observations[d.observation]
    requires d.observation.tenant == d.tenant && d.observation.rule == d.rule
    ensures EvaluationsLinked(InsertEvaluation(db, d, observationId, evaluatedAt))
  {
  }

  lemma EvaluationNumbering(db: SecurityDb, d: EvaluationDigest, observationId: int, evaluatedAt: int)
    requires ObservationsNumbered(db) && EvaluationsNumbered(db)
    ensures ObservationsNumbered(InsertEvaluation(db, d, observationId, evaluatedAt))
    ensures EvaluationsNumbered(InsertEvaluation(db, d, observationId, evaluatedAt))
  {
    var after := InsertEvaluation(db, d, observationId, evaluatedAt);
    forall e | e in after.evaluations
      ensures after.evaluations[e] == (if e in db.evaluations then db.evaluations[e]
                                       else Evaluation(db.nextEvaluation, observationId, evaluatedAt))
    {
    }
  }

  lemma ProjectKeeps(db: SecurityDb, key: CurrentKey, row: Current, d: EvaluationDigest)
    requires Agrees(db) && d in db.evaluations && db.evaluations[d].id == row.evaluationId && Shows(key, row, d)
    ensures Agrees(Project(db, key, row))
  {
    hide Shows, ObservationsNumbered, EvaluationsNumbered, EvaluationsLinked;
    var after := Project(db, key, row);
    SameInserts(db, after);
    forall k | k in after.current
      ensures exists e :: e in after.evaluations && after.evaluations[e].id == after.current[k].evaluationId &&
                Shows(k, after.current[k], e)
    {
      if k == key && after.current[k] == row {
        assert d in after.evaluations;
      } else {
        assert after.current[k] == db.current[k];
      }
    }
  }

  lemma SameInserts(db: SecurityDb, after: SecurityDb)
    requires after == db.(current := after.current)
    ensures ObservationsNumbered(after) <==> ObservationsNumbered(db)
    ensures EvaluationsNumbered(after) <==> EvaluationsNumbered(db)
    ensures EvaluationsLinked(after) <==> EvaluationsLinked(db)
  {
  }

  /** Every call keeps the agreement, so every reachable state has it. */
  lemma PersistKeepsAgreement(db: SecurityDb, c: Call)
    requires Agrees(db) && c.Valid()
    ensures Agrees(Persisted(db, c))
  {
    hide Agrees;
    var o, d := c.ObservationPayload(), c.EvaluationPayload();
    ObservationKeeps(db, o);
    var observed := InsertObservation(db, o);
    EvaluationKeeps(observed, d, observed.observations[o], c.Time());
    var evaluated := InsertEvaluation(observed, d, observed.observations[o], c.Time());
    ProjectKeeps(evaluated, c.Key(), CurrentRow(c, evaluated.evaluations[d].id), d);
  }

  /** The query service joins each current row with its evaluation and that with its observation, on id and
      tenant. Each current row comes out exactly once. */
  lemma JoinLosesNoRow(db: SecurityDb, key: CurrentKey)
    returns (d: EvaluationDigest)
    requires Agrees(db) && key in db.current
    ensures d in db.evaluations && Shows(key, db.current[key], d)
    ensures forall e :: JoinsEvaluation(db, key, e) <==> e == d
    ensures forall o :: JoinsObservation(db, key, d, o) <==> o == d.observation
    ensures d.observation.rule == key.rule
  {
    d :| d in db.evaluations && db.evaluations[d].id == db.current[key].evaluationId && Shows(key, db.current[key], d);
  }

  ghost predicate JoinsEvaluation(db: SecurityDb, key: CurrentKey, e: EvaluationDigest)
    requires key in db.current
  {
    e in db.evaluations && db.evaluations[e].id == db.current[key].evaluationId && e.tenant == key.tenant
  }

  ghost predicate JoinsObservation(db: SecurityDb, key: CurrentKey, e: EvaluationDigest, o: ObservationDigest)
    requires e in db.evaluations
  {
    o in db.observations && db.observations[o] == db.evaluations[e].observationId && o.tenant == key.tenant
  }

  /** Persisting the same pair again adds no row and changes none. */
  lemma PersistTwice(db: SecurityDb, c: Call)
    requires c.Valid()
    ensures var once := Persisted(db, c);
            var twice := Persisted(once, c);
            twice.observations == once.observations && twice.evaluations == once.evaluations &&
              twice.current == once.current
  {
    var once := Persisted(db, c);
    var observed := InsertObservation(db, c.ObservationPayload());
    assert c.EvaluationPayload() in once.evaluations && c.ObservationPayload() in once.observations;
    var row := CurrentRow(c, once.evaluations[c.EvaluationPayload()].id);
    if once.current[c.Key()].evaluatedAt <= row.evaluatedAt {
      assert once.current[c.Key()] == row;
      assert once.current[c.Key() := row] == once.current;
    }
  }

  // ---- Sequences of calls ------------------------------------------------------------------------

  ghost predicate AllValid(calls: seq<Call>) {
    forall i | 0 <= i < |calls| :: calls[i].Valid()
  }

  ghost function PersistAll(db: SecurityDb, calls: seq<Call>): SecurityDb
    requires AllValid(calls)
  {
    if calls == [] then db else Persisted(PersistAll(db, calls[..|calls| - 1]), calls[|calls| - 1])
  }

  /** In every state reachable from an empty database the three tables agree. */
  lemma {:induction false} ReachableAgrees(calls: seq<Call>)
    requires AllValid(calls)
    ensures Agrees(PersistAll(SecurityDb(map[], map[], map[], 1, 1), calls))
  {
    if calls != [] {
      ReachableAgrees(calls[..|calls| - 1]);
      PersistKeepsAgreement(PersistAll(SecurityDb(map[], map[], map[], 1, 1), calls[..|calls| - 1]),
                            calls[|calls| - 1]);
    }
  }

  // The current row under the call's key is the call's, and shows the evaluation the call made or found.
  ghost predicate IsCurrent(db: SecurityDb, c: Call)
    requires c.Valid()
  {
    && c.Key() in db.current && c.EvaluationPayload() in db.evaluations
    && db.current[c.Key()] == CurrentRow(c, db.evaluations[c.EvaluationPayload()].id)
  }

  // Call `i` is the latest evaluation for `key`, and the last persisted among equally late ones.
  ghost predicate Latest(calls: seq<Call>, key: CurrentKey, i: nat)
    requires AllValid(calls)
  {
    && i < |calls| && calls[i].Key() == key
    && (forall j | 0 <= j < |calls| && calls[j].Key() == key :: calls[j].Time() <= calls[i].Time())
    && (forall j | i < j < |calls| && calls[j].Key() == key :: calls[j].Time() < calls[i].Time())
  }

  ghost predicate Mentioned(calls: seq<Call>, key: CurrentKey) {
    exists j :: 0 <= j < |calls| && calls[j].Key() == key
  }

  /** After any sequence of calls the current row of a key is its latest evaluation, however the calls
      were ordered in time; keys never mentioned have none. */
  lemma {:induction false} LatestIsCurrent(db: SecurityDb, calls: seq<Call>, key: CurrentKey)
    returns (i: nat)
    requires AllValid(calls) && key !in db.current
    ensures if Mentioned(calls, key) then Latest(calls, key, i) && IsCurrent(PersistAll(db, calls), calls[i])
            else key !in PersistAll(db, calls).current
  {
    i := 0;
    if calls != [] {
      var n := |calls| - 1;
      i := LatestIsCurrent(db, calls[..n], key);
      var before, c := PersistAll(db, calls[..n]), calls[n];
      hide Persisted, IsCurrent;
      PersistProjects(before, c, key);
      MentionedBefore(calls, key);
      if c.Key() != key {
        if Mentioned(calls[..n], key) {
          StaysCurrent(before, c, calls[i]);
          LatestStays(calls, key, i);
        }
      } else if Mentioned(calls[..n], key) && c.Time() < calls[i].Time() {
        StaysCurrent(before, c, calls[i]);
        LatestStays(calls, key, i);
      } else {
        if Mentioned(calls[..n], key) {
          ShownTime(before, calls[i]);
        }
        LatestReplaced(calls, key, i);
        i := n;
      }
    }
  }

  lemma MentionedBefore(calls: seq<Call>, key: CurrentKey)
    requires calls != []
    ensures Mentioned(calls, key) <==> Mentioned(calls[..|calls| - 1], key) || calls[|calls| - 1].Key() == key
  {
    assert forall j | 0 <= j < |calls| - 1 :: calls[..|calls| - 1][j] == calls[j];
  }

  lemma LatestStays(calls: seq<Call>, key: CurrentKey, i: nat)
    requires calls != [] && AllValid(calls) && Latest(calls[..|calls| - 1], key, i)
    requires var c := calls[|calls| - 1]; c.Key() != key || c.Time() < calls[i].Time()
    ensures Latest(calls, key, i)
  {
    assert forall j | 0 <= j < |calls| - 1 :: calls[..|calls| - 1][j] == calls[j];
  }

  lemma LatestReplaced(calls: seq<Call>, key: CurrentKey, i: nat)
    requires calls != [] && AllValid(calls) && calls[|calls| - 1].Key() == key
    requires Mentioned(calls[..|calls| - 1], key) ==>
               Latest(calls[..|calls| - 1], key, i) && calls[i].Time() <= calls[|calls| - 1].Time()
    ensures Latest(calls, key, |calls| - 1)
  {
    assert forall j | 0 <= j < |calls| - 1 :: calls[..|calls| - 1][j] == calls[j];
  }

  lemma ShownTime(db: SecurityDb, c: Call)
    requires c.Valid() && IsCurrent(db, c)
    ensures c.Key() in db.current && db.current[c.Key()].evaluatedAt == c.Time()
  {
  }

  lemma PersistProjects(db: SecurityDb, c: Call, key: CurrentKey)
    requires c.Valid()
    ensures var after := Persisted(db, c);
            && (key != c.Key() ==> (key in after.current <==> key in db.current))
            && (key == c.Key() && (key in db.current ==> db.current[key].evaluatedAt <= c.Time()) ==>
                IsCurrent(after, c))
  {
  }

  lemma StaysCurrent(db: SecurityDb, c: Call, shown: Call)
    requires c.Valid() && shown.Valid() && IsCurrent(db, shown)
    requires c.Key() != shown.Key() || c.Time() < shown.Time()
    ensures IsCurrent(Persisted(db, c), shown)
  {
  }

  /** Two latest calls of the same calls in different order are the same call, if no two of the key are
      equally late. */
  lemma SameLatest(calls: seq<Call>, reordered: seq<Call>, key: CurrentKey, i: nat, k: nat)
    requires AllValid(calls) && AllValid(reordered) && multiset(calls) == multiset(reordered)
    requires forall i, j | 0 <= i < j < |calls| && calls[i].Key() == key && calls[j].Key() == key ::
              calls[i].Time() != calls[j].Time()
    requires Latest(calls, key, i) && Latest(reordered, key, k)
    ensures calls[i] == reordered[k]
  {
    assert calls[i] in multiset(reordered) && reordered[k] in multiset(calls);
    var j :| 0 <= j < |calls| && calls[j] == reordered[k];
    var m :| 0 <= m < |reordered| && reordered[m] == calls[i];
    assert calls[j].Time() <= calls[i].Time() == reordered[m].Time() <= reordered[k].Time();
    assert i == j;
  }

  lemma MentionedInBoth(calls: seq<Call>, reordered: seq<Call>, key: CurrentKey)
    requires multiset(calls) == multiset(reordered)
    ensures Mentioned(calls, key) <==> Mentioned(reordered, key)
  {
    if j :| 0 <= j < |calls| && calls[j].Key() == key {
      assert calls[j] in multiset(reordered);
    }
    if j :| 0 <= j < |reordered| && reordered[j].Key() == key {
      assert reordered[j] in multiset(calls);
    }
  }

  /** Reordering the calls changes no current finding, as long as no two of a key are equally late: both
      orders show the same call, up to the numbers given to evaluations. */
  lemma OrderIrrelevant(db: SecurityDb, calls: seq<Call>, reordered: seq<Call>, key: CurrentKey)
    requires AllValid(calls) && AllValid(reordered) && multiset(calls) == multiset(reordered) && key !in db.current
    requires forall i, j | 0 <= i < j < |calls| && calls[i].Key() == key && calls[j].Key() == key ::
              calls[i].Time() != calls[j].Time()
    ensures if Mentioned(calls, key)
            then exists c ::
                   && c in calls && c.Key() == key && c.Valid()
                   && IsCurrent(PersistAll(db, calls), c) && IsCurrent(PersistAll(db, reordered), c)
            else key !in PersistAll(db, calls).current && key !in PersistAll(db, reordered).current
  {
    var i := LatestIsCurrent(db, calls, key);
    var k := LatestIsCurrent(db, reordered, key);
    MentionedInBoth(calls, reordered, key);
    if Mentioned(calls, key) {
      SameLatest(calls, reordered, key, i, k);
      hide PersistAll, IsCurrent, Latest;
      assert calls[i] in calls;
    }
  }

  // ---- Persisting again ----------------------------------------------------------------------------

  lemma {:induction false} PayloadsStay(db: SecurityDb, calls: seq<Call>, c: Call)
    requires AllValid(calls) && c in calls
    ensures c.ObservationPayload() in PersistAll(db, calls).observations
    ensures c.EvaluationPayload() in PersistAll(db, calls).evaluations
  {
    hide Call.EvaluationPayload, Call.ObservationPayload, Call.Valid, Persisted;
    var n := |calls| - 1;
    PersistedHas(PersistAll(db, calls[..n]), calls[n]);
    if c != calls[n] {
      PayloadsStay(db, calls[..n], c);
    }
  }

  lemma PersistedHas(db: SecurityDb, c: Call)
    requires c.Valid()
    ensures c.ObservationPayload() in Persisted(db, c).observations
    ensures c.EvaluationPayload() in Persisted(db, c).evaluations
    ensures db.observations.Keys <= Persisted(db, c).observations.Keys
    ensures db.evaluations.Keys <= Persisted(db, c).evaluations.Keys
  {
    hide Call.EvaluationPayload, Call.ObservationPayload, Call.Valid;
  }

  /** Persisting any earlier call again, after any others, adds no row and changes none, unless another call for the
      same key was equally late: then the current finding may go back to this one. */
  lemma PersistAgain(db: SecurityDb, calls: seq<Call>, c: Call)
    requires AllValid(calls) && c in calls
    ensures var now := PersistAll(db, calls);
            var again := Persisted(now, c);
            && again.observations == now.observations && again.evaluations == now.evaluations
            && (c.Key() !in db.current &&
                (forall other | other in calls && other.Key() == c.Key() && other.Time() == c.Time() :: other == c) ==>
                  again.current == now.current)
  {
    hide PersistAll, Persisted, IsCurrent, Call.EvaluationPayload, Call.ObservationPayload, Call.Key, Call.Valid;
    var now := PersistAll(db, calls);
    PayloadsStay(db, calls, c);
    InsertsAgain(now, c);
    if c.Key() !in db.current {
      var i := LatestIsCurrent(db, calls, c.Key());
      var k :| 0 <= k < |calls| && calls[k] == c;
      ShownTime(now, calls[i]);
      if c.Time() < calls[i].Time() {
        LateStays(now, c);
      } else {
        CurrentAgain(now, calls[i]);
      }
    }
  }

  lemma InsertsAgain(db: SecurityDb, c: Call)
    requires c.Valid() && c.ObservationPayload() in db.observations && c.EvaluationPayload() in db.evaluations
    ensures Persisted(db, c).observations == db.observations && Persisted(db, c).evaluations == db.evaluations
  {
    hide Call.EvaluationPayload, Call.ObservationPayload, Call.Key, Call.Valid;
  }

  lemma LateStays(db: SecurityDb, c: Call)
    requires c.Valid() && c.Key() in db.current && c.Time() < db.current[c.Key()].evaluatedAt
    ensures Persisted(db, c).current == db.current
  {
    hide Call.EvaluationPayload, Call.ObservationPayload, Call.Key, Call.Valid;
  }

  lemma CurrentAgain(db: SecurityDb, c: Call)
    requires c.Valid() && IsCurrent(db, c)
    ensures Persisted(db, c).current == db.current
  {
    hide Call.EvaluationPayload, Call.ObservationPayload, Call.Key, Call.Valid;
    assert db.current[c.Key() := db.current[c.Key()]] == db.current;
  }

  // ---- The two times of evaluation ---------------------------------------------------------------

  // Call `i` is the first to make the evaluation.
  ghost predicate FirstOf(calls: seq<Call>, d: EvaluationDigest, i: nat)
    requires AllValid(calls)
  {
    i < |calls| && calls[i].EvaluationPayload() == d && forall j | 0 <= j < i :: calls[j].EvaluationPayload() != d
  }

  ghost predicate Made(calls: seq<Call>, d: EvaluationDigest)
    requires AllValid(calls)
  {
    exists i :: 0 <= i < |calls| && calls[i].EvaluationPayload() == d
  }

  /** An evaluation keeps the time of the first call that made it, whatever is persisted later. */
  lemma {:induction false} EvaluationKeepsFirstTime(db: SecurityDb, calls: seq<Call>, d: EvaluationDigest)
    returns (i: nat)
    requires AllValid(calls) && d !in db.evaluations
    ensures d in PersistAll(db, calls).evaluations <==> Made(calls, d)
    ensures Made(calls, d) ==>
              FirstOf(calls, d, i) && PersistAll(db, calls).evaluations[d].evaluatedAt == calls[i].Time()
  {
    hide Persisted, Call.EvaluationPayload, Call.Valid, FirstOf;
    i := 0;
    if calls != [] {
      var n := |calls| - 1;
      i := EvaluationKeepsFirstTime(db, calls[..n], d);
      EvaluationOnce(PersistAll(db, calls[..n]), calls[n], d);
      MadeBefore(calls, d);
      if Made(calls[..n], d) {
        FirstStays(calls, d, i);
      } else if calls[n].EvaluationPayload() == d {
        FirstAtEnd(calls, d);
        i := n;
      }
    }
  }

  lemma FirstStays(calls: seq<Call>, d: EvaluationDigest, i: nat)
    requires calls != [] && AllValid(calls) && FirstOf(calls[..|calls| - 1], d, i)
    ensures FirstOf(calls, d, i) && i < |calls| - 1
  {
    hide Call.EvaluationPayload, Call.Valid;
    assert forall j | 0 <= j < |calls| - 1 :: calls[..|calls| - 1][j] == calls[j];
  }

  lemma FirstAtEnd(calls: seq<Call>, d: EvaluationDigest)
    requires calls != [] && AllValid(calls) && !Made(calls[..|calls| - 1], d)
    requires calls[|calls| - 1].EvaluationPayload() == d
    ensures FirstOf(calls, d, |calls| - 1)
  {
    hide Call.EvaluationPayload, Call.Valid;
    assert forall j | 0 <= j < |calls| - 1 :: calls[..|calls| - 1][j] == calls[j];
  }

  lemma MadeBefore(calls: seq<Call>, d: EvaluationDigest)
    requires calls != [] && AllValid(calls)
    ensures Made(calls, d) <==> Made(calls[..|calls| - 1], d) || calls[|calls| - 1].EvaluationPayload() == d
  {
    hide Call.EvaluationPayload, Call.Valid;
    assert forall j | 0 <= j < |calls| - 1 :: calls[..|calls| - 1][j] == calls[j];
  }

  lemma EvaluationOnce(db: SecurityDb, c: Call, d: EvaluationDigest)
    requires c.Valid()
    ensures d in Persisted(db, c).evaluations <==> d in db.evaluations || d == c.EvaluationPayload()
    ensures d in db.evaluations ==> Persisted(db, c).evaluations[d] == db.evaluations[d]
    ensures d !in db.evaluations && d == c.EvaluationPayload() ==>
              Persisted(db, c).evaluations[d].evaluatedAt == c.Time()
  {
    hide Call.EvaluationPayload, Call.ObservationPayload, Call.Valid;
  }

  /** A current finding and the evaluation it points to bear the same time exactly if the latest call of its key is
      as late as the first one with that evaluation. The finding is never the earlier of the two. */
  lemma TimesAgreeIff(calls: seq<Call>, key: CurrentKey)
    returns (latest: nat, first: nat)
    requires AllValid(calls) && Mentioned(calls, key)
    ensures Latest(calls, key, latest) && FirstOf(calls, calls[latest].EvaluationPayload(), first)
    ensures var db, d := PersistAll(SecurityDb(map[], map[], map[], 1, 1), calls), calls[latest].EvaluationPayload();
            && key in db.current && d in db.evaluations && db.evaluations[d].id == db.current[key].evaluationId
            && db.current[key].evaluatedAt == calls[latest].Time()
            && (db.current[key].evaluatedAt == db.evaluations[d].evaluatedAt <==>
                calls[latest].Time() == calls[first].Time())
            && db.evaluations[d].evaluatedAt == calls[first].Time() <= db.current[key].evaluatedAt
  {
    var empty := SecurityDb(map[], map[], map[], 1, 1);
    latest := LatestIsCurrent(empty, calls, key);
    first := EvaluationKeepsFirstTime(empty, calls, calls[latest].EvaluationPayload());
    SamePayloadSameKey(calls[first], calls[latest]);
    hide PersistAll, Call.EvaluationPayload, Call.Key;
  }

  lemma SamePayloadSameKey(c: Call, other: Call)
    requires c.Valid() && other.Valid() && c.EvaluationPayload() == other.EvaluationPayload()
    ensures c.Key() == other.Key()
  {
  }

  /** They come apart: the same evaluation made again at a later time leaves its row with the earlier one. */
  lemma EvaluatedAgainLater(c: Call, time: int)
    returns (again: Call)
    requires c.Valid() && c.Time() < time
    ensures again.Valid() && again.Time() == time && again.EvaluationPayload() == c.EvaluationPayload()
    ensures again.Key() == c.Key()
    ensures var db := PersistAll(SecurityDb(map[], map[], map[], 1, 1), [c, again]);
            && db.current[c.Key()].evaluatedAt == time && db.evaluations[c.EvaluationPayload()].evaluatedAt == c.Time()
            && db.current[c.Key()].evaluationId == db.evaluations[c.EvaluationPayload()].id
  {
    again := c.(finding := c.finding.(evaluatedAt := At(time)));
    var calls := [c, again];
    assert calls[0].EvaluationPayload() == c.EvaluationPayload() == calls[1].EvaluationPayload();
    assert calls[1].Key() == c.Key();
    var latest, first := TimesAgreeIff(calls, c.Key());
    assert latest == 1 && first == 0;
    hide PersistAll, Call.EvaluationPayload, Call.Key;
  }
}
