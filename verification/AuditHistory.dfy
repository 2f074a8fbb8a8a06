/** Whole histories of audit runs: any number of runs for any tenants, each ending anywhere, mixed with
    other collectors' endpoint completions. */
module AuditHistory {
  import opened Basics
  import opened AuditRecords
  import opened AuditStore
  import opened Checkpoints
  import opened AuditIngestion

  datatype Event =
    | Audit(run: Run)
    | EndpointPassed(tenant: int, endpoint: string, at: int)

  ghost predicate Next(source: Source, db: AuditDb, e: Event, after: AuditDb) {
    match e
    case Audit(run) => RunStep(source, db, run, after)
    case EndpointPassed(tenant, endpoint, at) =>
      after == db.(checkpoints := Touched(db.checkpoints, tenant, endpoint, at))
  }

  /** `states[i]` is the store before event `i`. The initial store is arbitrary but for unique keys. */
  ghost predicate History(source: Source, states: seq<AuditDb>, events: seq<Event>) {
    && |states| == |events| + 1
    && DistinctKeys(states[0].events)
    && (forall i | 0 <= i < |events| :: Next(source, states[i], events[i], states[i + 1]))
    && (forall i | 0 <= i < |events| && events[i].EndpointPassed? :: events[i].endpoint != COLLECTOR)
  }

  // The runs of `tenant` back off by at least `delay`, give or take one tick of the clock, and judge
  // times alike.
  ghost predicate Overlapping(events: seq<Event>, tenant: int, delay: int, validTime: string -> bool) {
    forall i | 0 <= i < |events| && events[i].Audit? && events[i].run.request.stamp.tenant == tenant ::
      delay <= events[i].run.request.overlap + 1 && events[i].run.request.stamp.validTime == validTime
  }

  /** Where the first finished run of `tenant` among the first `n` events started reading. */
  ghost function Origin(states: seq<AuditDb>, events: seq<Event>, tenant: int, n: nat): Option<int>
    requires n <= |events| < |states|
  {
    if n == 0 then None
    else if Origin(states, events, tenant, n - 1).Some? then Origin(states, events, tenant, n - 1)
    else
      match events[n - 1]
      case EndpointPassed(_, _, _) => None
      case Audit(run) =>
        if run.request.stamp.tenant == tenant && run.ending == Finished
        then Some(run.request.EffectiveStart(CheckpointOf(states[n - 1].checkpoints, tenant)))
        else None
  }

  /** The promise at one point of time: whatever the service listed from `origin` on and before the
      checkpoint, and made available by the checkpoint and no later than `delay` after listing it, is stored. */
  ghost predicate NoGap(source: Source, events: seq<Row>, tenant: int, validTime: string -> bool, origin: int,
                        checkpoint: int, delay: int) {
    forall b, record |
      InPromise(b, origin, checkpoint, delay) && b in source.shown && HighValueIn(b, record, validTime) ::
      HasKey(events, RecordKey(tenant, record))
  }

  ghost predicate InPromise(b: SourceBlob, origin: int, checkpoint: int, delay: int) {
    origin <= b.listed < checkpoint && b.available <= checkpoint && b.available - b.listed <= delay
  }

  /** One event keeps the promise; a finished run extends it to the checkpoint it sets. */
  lemma EventKeepsPromise(source: Source, db: AuditDb, e: Event, after: AuditDb, tenant: int,
                          validTime: string -> bool, origin: Option<int>, delay: int)
    requires Next(source, db, e, after) && DistinctKeys(db.events)
    requires e.EndpointPassed? ==> e.endpoint != COLLECTOR
    requires e.Audit? && e.run.request.stamp.tenant == tenant ==>
               delay <= e.run.request.overlap + 1 && e.run.request.stamp.validTime == validTime
    requires origin.Some? <==> CheckpointOf(db.checkpoints, tenant).Some?
    requires origin.Some? ==>
              NoGap(source, db.events, tenant, validTime, origin.value, CheckpointOf(db.checkpoints, tenant).value,
                    delay)
    ensures DistinctKeys(after.events) && db.events <= after.events
    ensures var before, now := CheckpointOf(db.checkpoints, tenant), CheckpointOf(after.checkpoints, tenant);
            var finished := e.Audit? && e.run.request.stamp.tenant == tenant && e.run.ending == Finished;
            var origin' := if origin.Some? then origin
                           else if finished then Some(e.run.request.EffectiveStart(before)) else None;
            && (origin'.Some? <==> now.Some?)
            && (before.Some? ==> now.Some? && before.value <= now.value)
            && (!finished ==> now == before)
            && (now.Some? ==> NoGap(source, after.events, tenant, validTime, origin'.value, now.value, delay))
  {
    hide HighValue, RecordKey;
    var before, now := CheckpointOf(db.checkpoints, tenant), CheckpointOf(after.checkpoints, tenant);
    if e.EndpointPassed? {
      TouchedKeepsAuditIff(db.checkpoints, e.tenant, e.endpoint, e.at, tenant);
    } else {
      InsertAllEffect(db.events, e.run.rows);
      var mine := e.run.request.stamp.tenant == tenant;
      if e.run.ending == Finished {
        AdvancedIsMaximum(db.checkpoints, e.run.request.stamp.tenant, e.run.request.end, (tenant, COLLECTOR));
      }
      if mine && e.run.ending == Finished {
        FinishedRunKeepsPromise(source, db, e.run, validTime, origin, delay);
      } else if before.Some? {
        StoredStays(source, db.events, after.events, tenant, validTime, origin.value, before.value, delay);
      }
    }
  }

  lemma StoredStays(source: Source, events: seq<Row>, after: seq<Row>, tenant: int, validTime: string -> bool,
                    origin: int, checkpoint: int, delay: int)
    requires NoGap(source, events, tenant, validTime, origin, checkpoint, delay) && events <= after
    ensures NoGap(source, after, tenant, validTime, origin, checkpoint, delay)
  {
    hide HighValue, RecordKey, InPromise;
    forall b, record | InPromise(b, origin, checkpoint, delay) && b in source.shown && HighValueIn(b, record, validTime)
      ensures HasKey(after, RecordKey(tenant, record))
    {
      var i :| 0 <= i < |events| && KeyOf(events[i]) == RecordKey(tenant, record);
      assert KeyOf(after[i]) == RecordKey(tenant, record);
    }
  }

  /** The heart of it. A record that the new checkpoint newly promises was listed or made available after
      the old one, so at most `delay` before it: within the overlap the run read again. */
  lemma FinishedRunKeepsPromise(source: Source, db: AuditDb, run: Run, validTime: string -> bool,
                                origin: Option<int>, delay: int)
    requires run.ending == Finished && DistinctKeys(db.events)
    requires RunStep(source, db, run, CheckpointCommitted(db, run))
    requires delay <= run.request.overlap + 1 && run.request.stamp.validTime == validTime
    requires var before := CheckpointOf(db.checkpoints, run.request.stamp.tenant);
             && (origin.Some? <==> before.Some?)
             && (origin.Some? ==>
                 NoGap(source, db.events, run.request.stamp.tenant, validTime, origin.value, before.value, delay))
    ensures var before := CheckpointOf(db.checkpoints, run.request.stamp.tenant);
            var from := if origin.Some? then origin.value else run.request.EffectiveStart(before);
            NoGap(source, InsertAll(db.events, run.rows), run.request.stamp.tenant, validTime, from,
                  if before.Some? then Max(before.value, run.request.end) else run.request.end, delay)
  {
    hide HighValue, RecordKey;
    var request := run.request;
    var tenant := request.stamp.tenant;
    var before := CheckpointOf(db.checkpoints, tenant);
    var lo := request.EffectiveStart(before);
    var from := if origin.Some? then origin.value else lo;
    var now := if before.Some? then Max(before.value, request.end) else request.end;
    var after := InsertAll(db.events, run.rows);
    InsertAllEffect(db.events, run.rows);
    forall b, record | InPromise(b, from, now, delay) && b in source.shown && HighValueIn(b, record, validTime)
      ensures HasKey(after, RecordKey(tenant, record))
    {
      if before.Some? && InPromise(b, from, before.value, delay) {
        assert HasKey(db.events, RecordKey(tenant, record));
      } else {
        assert lo <= b.listed < request.end && b.available <= request.end;
        var i :| 0 <= i < |run.rows| && KeyOf(run.rows[i]) == RecordKey(tenant, record);
      }
    }
  }

  /** In every reachable state: no key is stored twice, and the promise holds for the stored checkpoint. */
  lemma {:induction false} NoGapsNoDuplicates(source: Source, states: seq<AuditDb>, events: seq<Event>,
                                              tenant: int, validTime: string -> bool, delay: int, n: nat)
    requires History(source, states, events) && Overlapping(events, tenant, delay, validTime) && n <= |events|
    requires CheckpointOf(states[0].checkpoints, tenant).None?
    ensures DistinctKeys(states[n].events)
    ensures var checkpoint := CheckpointOf(states[n].checkpoints, tenant);
            var origin := Origin(states, events, tenant, n);
            && (checkpoint.Some? <==> origin.Some?)
            && (checkpoint.Some? ==>
                NoGap(source, states[n].events, tenant, validTime, origin.value, checkpoint.value, delay))
  {
    if n > 0 {
      NoGapsNoDuplicates(source, states, events, tenant, validTime, delay, n - 1);
      hide NoGap, RunStep, DistinctKeys;
      EventKeepsPromise(source, states[n - 1], events[n - 1], states[n], tenant, validTime,
                        Origin(states, events, tenant, n - 1), delay);
    }
  }

  /** So too in the state others see between the two commits of a finishing run: the checkpoint still
      covers only what is committed. */
  lemma BetweenCommits(source: Source, states: seq<AuditDb>, events: seq<Event>, tenant: int,
                       validTime: string -> bool, delay: int, n: nat)
    requires History(source, states, events) && Overlapping(events, tenant, delay, validTime) && n < |events|
    requires CheckpointOf(states[0].checkpoints, tenant).None? && events[n].Audit? && events[n].run.ending == Finished
    ensures var between := Commits(states[n], events[n].run)[0];
            var checkpoint := CheckpointOf(between.checkpoints, tenant);
            && DistinctKeys(between.events) && checkpoint == CheckpointOf(states[n].checkpoints, tenant)
            && (checkpoint.Some? ==> Origin(states, events, tenant, n).Some?
                                     && NoGap(source, between.events, tenant, validTime,
                                              Origin(states, events, tenant, n).value, checkpoint.value, delay))
    ensures Commits(states[n], events[n].run)[1] == states[n + 1]
  {
    NoGapsNoDuplicates(source, states, events, tenant, validTime, delay, n);
    assert Next(source, states[n], events[n], states[n + 1]);
    var run := events[n].run;
    var stopped := run.(ending := BatchOnly);
    hide NoGap, DistinctKeys, Covers, InsertAll, History, Advanced, Origin;
    assert RunStep(source, states[n], stopped, BatchCommitted(states[n], run));
    EventKeepsPromise(source, states[n], Audit(stopped), BatchCommitted(states[n], run), tenant, validTime,
                      Origin(states, events, tenant, n), delay);
  }

  /** The same, record by record: it is in the table exactly once. */
  lemma PromisedRecordStoredOnce(source: Source, states: seq<AuditDb>, events: seq<Event>, tenant: int,
                                 validTime: string -> bool, delay: int, n: nat, b: SourceBlob, record: Json)
    requires History(source, states, events) && Overlapping(events, tenant, delay, validTime) && n <= |events|
    requires CheckpointOf(states[0].checkpoints, tenant).None? && CheckpointOf(states[n].checkpoints, tenant).Some?
    requires b in source.shown && HighValueIn(b, record, validTime)
    requires Origin(states, events, tenant, n).Some? &&
               InPromise(b, Origin(states, events, tenant, n).value, CheckpointOf(states[n].checkpoints, tenant).value,
                         delay)
    ensures Copies(states[n].events, RecordKey(tenant, record)) == 1
  {
    NoGapsNoDuplicates(source, states, events, tenant, validTime, delay, n);
    CopiesWhenDistinct(states[n].events, RecordKey(tenant, record));
  }

  /** Between any two points of a history: rows once stored keep their place and content, and no
      tenant's checkpoint moves back. */
  lemma {:induction false} NothingIsUndone(source: Source, states: seq<AuditDb>, events: seq<Event>,
                                           tenant: int, m: nat, n: nat)
    requires History(source, states, events) && m <= n <= |events|
    ensures states[m].events <= states[n].events && DistinctKeys(states[n].events)
    ensures CheckpointOf(states[m].checkpoints, tenant).Some? ==>
              && CheckpointOf(states[n].checkpoints, tenant).Some?
              && CheckpointOf(states[m].checkpoints, tenant).value <= CheckpointOf(states[n].checkpoints, tenant).value
    decreases n
  {
    if n > 0 {
      if m < n {
        NothingIsUndone(source, states, events, tenant, m, n - 1);
      } else {
        NothingIsUndone(source, states, events, tenant, n - 1, n - 1);
      }
      var e := events[n - 1];
      if e.EndpointPassed? {
        TouchedKeepsAuditIff(states[n - 1].checkpoints, e.tenant, e.endpoint, e.at, tenant);
      } else {
        InsertAllEffect(states[n - 1].events, e.run.rows);
        AdvancedIsMaximum(states[n - 1].checkpoints, e.run.request.stamp.tenant, e.run.request.end,
                          (tenant, COLLECTOR));
      }
    }
  }

  /** A run that did not finish, or a dry run, moves no checkpoint; one that stopped before its first
      commit changes nothing at all. */
  lemma UnfinishedRunMovesNoCheckpoint(source: Source, db: AuditDb, run: Run, after: AuditDb)
    requires RunStep(source, db, run, after)
    ensures run.ending == Untouched ==> after == db
    ensures run.ending != Finished ==> after.checkpoints == db.checkpoints
    ensures run.ending == Finished ==>
              forall key :: key != (run.request.stamp.tenant, COLLECTOR) ==>
                (key in after.checkpoints <==> key in db.checkpoints) &&
                  (key in db.checkpoints ==> after.checkpoints[key] == db.checkpoints[key])
  {
    hide Covers, InsertAll;
    forall key | key != (run.request.stamp.tenant, COLLECTOR) && run.ending == Finished
      ensures (key in after.checkpoints <==> key in db.checkpoints)
      ensures (key in db.checkpoints ==> after.checkpoints[key] == db.checkpoints[key])
    {
      AdvancedIsMaximum(db.checkpoints, run.request.stamp.tenant, run.request.end, key);
    }
  }

  /** The checkpoint a run reports is the one stored exactly when no later one was stored before. */
  lemma ReportedCheckpointStoredIff(source: Source, db: AuditDb, run: Run, after: AuditDb)
    requires run.ending == Finished && RunStep(source, db, run, after)
    ensures var tenant := run.request.stamp.tenant;
            CheckpointOf(after.checkpoints, tenant) == Some(run.request.end) <==>
            CheckpointOf(db.checkpoints, tenant).None? || CheckpointOf(db.checkpoints, tenant).value <= run.request.end
  {
    hide Covers, InsertAll;
    AdvancedIsMaximum(db.checkpoints, run.request.stamp.tenant, run.request.end, (run.request.stamp.tenant, COLLECTOR));
  }

  /** Every stored event that was not there to begin with is the normal form of a high-value record of a blob held,
      listed in the span read by the run that stored it. */
  lemma {:induction false} EventsAreGenuine(source: Source, states: seq<AuditDb>, events: seq<Event>, n: nat, i: nat)
    returns (k: nat, row: Row, b: SourceBlob, record: Json)
    requires History(source, states, events) && n <= |events| && |states[0].events| <= i < |states[n].events|
    ensures k < n && events[k].Audit?
    ensures var request := events[k].run.request;
            var lo := request.EffectiveStart(CheckpointOf(states[k].checkpoints, request.stamp.tenant));
            IsFormOf(source.held, request.stamp, lo, request.end, row, b, record)
    ensures HighValueIn(b, record, events[k].run.request.stamp.validTime)
    ensures states[n].events[i] == Stored(row)
  {
    hide Normalize, Covers, InsertAll, HighValue, DistinctKeys;
    var m := n - 1;
    NothingIsUndone(source, states, events, 1, 0, n);
    assert n > 0 ==> Next(source, states[m], events[m], states[m + 1]);
    if i < |states[m].events| {
      NothingIsUndone(source, states, events, 1, m, n);
      k, row, b, record := EventsAreGenuine(source, states, events, m, i);
    } else {
      var run := events[m].run;
      var j := InsertAllFrom(states[m].events, run.rows, i);
      k, row := m, run.rows[j];
      var lo := run.request.EffectiveStart(CheckpointOf(states[m].checkpoints, run.request.stamp.tenant));
      assert HasSource(source.held, run.request.stamp, lo, run.request.end, row);
      b, record :| IsFormOf(source.held, run.request.stamp, lo, run.request.end, row, b, record);
      NormalizedIffHighValue(record.fields, run.request.stamp);
    }
  }
}
