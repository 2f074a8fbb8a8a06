# Verified model of the tenant monitoring service

A Dafny model of the stateful core of the service: incremental audit ingestion, the persistence
boundary, the collection runtime, the anonymiser and the discovery state. Each part is modelled in
the form its source has: code that changes state is a class or a method with a loop, proved against a
specification function or predicate, and what the source promises is proved of that specification.

| Files | Source | Subject |
|---|---|---|
| `AuditWindows`, `AuditTransport`, `AuditRecords`, `AuditStore`, `Checkpoints`, `AuditIngestion`, `AuditHistory`, `LateArrival` | `collectors/onedrive_audit.py`, `collectors/persistence/core.py` | one audit run, any history of audit runs, and two runs that lose a late record |
| `Tables`, `PersistenceModes`, `Replay`, `CollectionWriting` | `collectors/persistence/core.py` | statements by their effect on keyed tables, the five persistence modes, licences, writing again, the transaction boundary, control rows |
| `SecurityPersistence` | `security/persistence.py`, `api/security.py` | content-addressed findings and their current projection |
| `Retry`, `Collector`, `Accounts`, `Runtime` | `collectors/core/` | retry policy, crawling one endpoint, what a pass commits, one pass over the selected endpoints |
| `Anonymizer`, `Deanonymize` | `agent/anonymizer.py` | tokens, maps, payload trees, putting names back |
| `Discovery`, `DiscoveryState`, `Sorting` | `agents/discovery/discovery_agent.py` | permission groups, merging results, batch and resume |
| `Basics` | | optional values, exceptions as results, JSON, and `Connections.Connection`, a transactional store |

What the environment decides is a parameter of the model and is quantified over: a server is an
arbitrary function from the number of the request and its URL to an answer; which statements and
commits of a connection fail is an arbitrary function of the number of the statement, so a run can stop
anywhere, between two commits included (a connection on which nothing fails is called reliable); clocks,
jitter, `str()` of JSON values, date parsing and endpoint discovery are functions. A connection keeps the committed and the working copy of its store and
a log of every state it committed. PostgreSQL tables are maps from the columns of their unique key. Times
are integers, so that the smallest step of a timestamp is 1. Digests stand for their payloads.

The no-gap theorems ask one thing of the service (`AuditIngestion.Faithful`): a listing read to its end
shows every blob of its window available at the end of the run, and an entry that names a blob leads to
its records. That nothing else gets into the table asks the converse (`AuditIngestion.Honest`): what is
had of an entry listed for a window is a blob listed in it. Either can be asked without the other.
Everything else about the client is proved for servers that answer anything at all.

To check the project: `dafny verify dfyconfig.toml`.

## Where the code and its promise part

Each of these is proved in the model; where the code does not do what is asked of it, exactly when it does.

- **No gaps.** A finished audit run extends the promise to its checkpoint for records listed before it,
  available by it, and available no later after being listed than the overlap and one tick. For any later
  delay there are a faithful service and two runs of the collector over it, both returning normally, that lose a
  record (`LateArrival.LoseLateArrival`). Run end times need not increase.
- **Reported checkpoint.** `collect_and_persist_onedrive_audit` reports the proposed end as the new
  checkpoint; it is the stored one exactly when no later one was stored (`AuditHistory.ReportedCheckpointStoredIff`).
- **Endpoint completion and the audit checkpoint.** `complete_endpoint_run` writes its checkpoint
  unguarded. It leaves the `onedrive_audit` row alone exactly unless a passing run of that tenant is
  registered under the very id `onedrive_audit` (`CollectionWriting.CompletionKeepsAuditCheckpointIff`).
- **Blob accounting.** A blob that arrives but is no array, or for which the token provider raises, is counted
  as attempted and neither as succeeded nor as failed (`AuditTransport.Transport.FetchBlob`).
- **Licence refresh.** The insert of an assignment joins on `sku_id`, which is not a unique key. A collection that
  passes every check is refused by the database exactly if it refreshes licences and names a SKU the tenant
  subscribes to more than once, and with it the whole collection (`Replay.RefusedByDatabaseIff`,
  `Replay.TwiceSubscribedRefused`). A refresh also forgets when a kept assignment was first observed
  (`Tables.RefreshReplaces`).
- **Two times of evaluation.** An evaluation's digest leaves out its time, so that the same evaluation made again later
  keeps its first time while the current finding takes the new one. The two agree exactly if the latest call of the
  finding is as late as the first one with that evaluation (`SecurityPersistence.TimesAgreeIff`,
  `SecurityPersistence.EvaluatedAgainLater`).
- **PASS.** A crawl passes at the end of its link chain, or, were one ever raised, on an HTTP error carrying a
  2xx code (`Collector.PassIsWholeChainIff`).
- **Putting names back.** The loop is meant to be the simultaneous substitution of names for tokens. A name can be
  read as a token if at some underscore in it the up to four characters before end "USER" likewise and what follows
  agrees, as far as it goes, with the token's letters; that does no harm only if the token is replaced by itself. `svc_backup` can be read as
  none (`Deanonymize.ServiceAccountReadsNothing`). For at
  most 26 names the loop is the substitution, on every text and whatever the order of the map, exactly if no
  name can be read as another's token to any harm (`Deanonymize.EveryOrderIff`). In the order the tokens were assigned,
  and for any number of names, it is so from the first name to the last exactly if no name among the first 26 can be
  read as a later token to any harm and each name past the 26th happens to be its first letter's name followed by its
  other letters (`Deanonymize.CorrectThroughoutIff`). For a single size of the map that is sufficient but not
  necessary: three names can be disturbed and come out right (`Deanonymize.RightByAccident`).
- **Group builders.** The batch-time and the state-time builder agree exactly when no denied endpoint that documents
  a permission has an empty id (`Discovery.BuildersAgreeIff`).
- **Reusing a runtime.** The lineage bound by one call stays on the runtime object, so a second call begins no
  collection run and closes the first one again (`Runtime.CollectorRuntime.Run`, where
  none is begun; `Runtime.ReusedRuntimeMiscounts`, where one endpoint is selected and two are counted).
- **Raising calls.** Once the selection and the lineage are accepted, and as long as no statement fails, `run` raises
  exactly if nothing is selected and no lineage was given, or no token is refused and some executed endpoint ends in a
  classification outside the stored vocabulary or a usage report that does not fit its table. It stops at the first
  such endpoint, leaves that endpoint run begun and the collection run open, and keeps what was committed before
  (`Runtime.CollectorRuntime.Run`). A usage report that cannot be read is such a case
  (`Runtime.UnreadableReportStops`).

## Model

| member | source | states |
|---|---|---|
| AuditWindows.BoundedWindows | collectors/onedrive_audit.py:81-91 | Raises exactly for an empty span or a non-positive maximum; otherwise the windows tile the span, all but the last of full length, and number the span over the maximum, rounded up. |
| AuditWindows.EveryInstantHasAWindow | collectors/onedrive_audit.py:85-91 | Every instant of the span lies in a window. |
| AuditWindows.WindowsDisjoint | collectors/onedrive_audit.py:85-91 | No two windows overlap. |
| AuditWindows.WindowsWithin | collectors/onedrive_audit.py:85-91 | Each window is a non-empty part of the span. |
| AuditTransport.Transport.Get | collectors/onedrive_audit.py:100-130 | A rejected URL is never requested; otherwise all requests of the call went to it, all but the last failed transiently within the retry budget, the last is what is reported, and the retry counter grew by one less than the requests. |
| AuditTransport.AnsweredOutcome | collectors/onedrive_audit.py:117-128 | A call succeeds exactly if its last answer was good; permission and decoding failures are reported as themselves; RETRY_EXHAUSTED means exactly a transient failure after more than one request. |
| AuditTransport.Transport.Subscription | collectors/onedrive_audit.py:132-137 | The first matching entry of a listed answer is returned exactly if its status reads enabled, and otherwise SUBSCRIPTION_UNAVAILABLE is raised; an answer that is no list matches nothing, and a failing request is reported as it failed. |
| AuditTransport.Transport.FetchBlob | collectors/onedrive_audit.py:157-163 | A returned blob is what the server answered; each attempt is counted once as attempted and then as succeeded, as failed, or, for a non-array or a missing token, as neither. |
| AuditTransport.Transport.FetchEntry | collectors/onedrive_audit.py:151-164 | A malformed entry counts nothing; an entry repeating a non-empty content id asks for nothing; any other adds its one content after those before. |
| AuditTransport.Transport.FetchEntries | collectors/onedrive_audit.py:151-164 | After one page, what was asked for is the repeat-free front of everything listed so far, and the counters moved by exactly that. |
| AuditTransport.Transport.CollectPage | collectors/onedrive_audit.py:144-167 | One turn of the loop extends the unbroken chain of distinct pages and keeps everything listed so far fetched in order; a failure leaves a repeat-free front. |
| AuditTransport.Transport.Collect | collectors/onedrive_audit.py:139-168 | Against any server: at most max_pages pages, none twice, each linked from the one before; no non-empty content id asked for twice; on return the listing was followed to its end and the output is one content per kept entry in listing order; attempted, succeeded, failed and parsed counts are exact. It raises exactly for what is there: the bound reached with another page to come, a link back to a page fetched, a malformed link or entry, or the failure of the last request; so a listing of any number of pages within the bound that can be read is read. |
| AuditTransport.Transport.NothingExplains | collectors/onedrive_audit.py:139-168 | For a listing within the page bound, of distinct pages ending in none, whose pages and blobs can be had, there is no cause to raise. |
| AuditTransport.KeptCovers | collectors/onedrive_audit.py:153-156 | Skipping repeats loses nothing: each listed entry is kept or shares its content id with a kept one. |
| AuditTransport.KeptListed | collectors/onedrive_audit.py:153-156 | Only listed entries are kept. |
| AuditTransport.KeptDistinct | collectors/onedrive_audit.py:153-156 | No non-empty content id is kept twice. |
| AuditTransport.MappingsKeepObjects | collectors/onedrive_audit.py:164 | The records of a content are exactly the mapping members of its blob. |
| AuditRecords.NormalizedIffHighValue | collectors/onedrive_audit.py:214-226 | A record gives a row exactly if it is one of the locked OneDrive events with an id and a readable time; normalising raises exactly when a OneDrive record lacks what the filter needs. |
| AuditRecords.NormalizedRowAccepted | collectors/persistence/core.py:383-416 | Every row the normaliser makes for a positive tenant and a valid collection time passes the batch validator. |
| AuditRecords.NormalizedRowCopies | collectors/onedrive_audit.py:226 | Every column is bound, and each of the thirteen cells taken from the record is copied unchanged. |
| AuditRecords.NormalizedRowStamped | collectors/onedrive_audit.py:220-226 | Tenant, time and lineage are the run's; the anonymous and external flags follow from the operation. |
| AuditRecords.NormalizeRecords | collectors/onedrive_audit.py:193-200 | Stops at the first record that raises; otherwise normalised plus dropped is the number of records read, and the OneDrive records are counted. |
| AuditRecords.BatchRows | collectors/onedrive_audit.py:193-200 | Rows and high-value records correspond in both directions. |
| Checkpoints.AdvancedIsMaximum | collectors/persistence/core.py:435-455 | Advancing raises the tenant's audit checkpoint to the maximum of the stored and the proposed time and moves no other key. |
| Checkpoints.TouchedKeepsAuditIff | collectors/persistence/core.py:1043-1051 | An unguarded checkpoint write leaves a tenant's audit checkpoint alone exactly if it is another tenant's, another id's, or writes the stored value. |
| AuditStore.InsertAllEffect | collectors/persistence/core.py:458-476 | Insert-or-skip only appends, keeps keys unique, and a key is present afterwards exactly if it was before or a row of the batch has it. |
| AuditStore.ReplayAddsNothing | collectors/persistence/core.py:458-476 | A batch whose keys are all stored adds nothing. |
| AuditStore.ReplayAfterOthers | collectors/persistence/core.py:458-476 | A batch written again after any number of other batches adds nothing. |
| AuditStore.PersistBatch | collectors/persistence/core.py:458-498 | One commit with the whole batch, or the committed store as it was; a single rejected row refuses the batch; attempted is inserted plus skipped and the table grew by the former. |
| AuditStore.AdvanceCheckpoint | collectors/persistence/core.py:435-455 | One commit raising the checkpoint, or nothing; the proposed time is returned even when a later one is stored. |
| AuditIngestion.Gather | collectors/onedrive_audit.py:188-192 | Windows tiling the whole span, each with the complete content of its listing, before anything is written. |
| AuditIngestion.OnePageServiceIsFaithful | collectors/onedrive_audit.py:139-168 | The promise the no-gap theorems ask of the service is kept by any service that lists in one page all that is available and serves the blobs its entries name. |
| AuditIngestion.AnythingMayBeHeld | collectors/onedrive_audit.py:139-168 | Of any service at all it may be said that it is honest about all blobs there could be, so the no-gap theorems do not depend on honesty. |
| AuditIngestion.WindowShowsBlob | collectors/onedrive_audit.py:139-168 | If the service shows a blob in a window's listing, its records are in the window's content, whatever repeats or paging it used. |
| AuditIngestion.GatheredCovers | collectors/onedrive_audit.py:188-200 | Every high-value record of a blob listed in the span and available by its end has a row under its key. |
| AuditIngestion.RowsGenuine | collectors/onedrive_audit.py:188-200 | Every row is the normal form of one of the records gathered. |
| AuditIngestion.RecordsServed | collectors/onedrive_audit.py:139-200 | Each record gathered is in the complete content of a window of the span, as the service listed and served it. |
| AuditIngestion.ServedIsGenuine | collectors/onedrive_audit.py:188-200 | Rows made of what an honest service served are normal forms of records of its blobs listed in the span. |
| AuditIngestion.Prepare | collectors/onedrive_audit.py:187-200 | The read-only half of a run covers its span, makes its rows of served records only, raises only for cause, and returns if the service is healthy. |
| AuditIngestion.CollectAndPersist | collectors/onedrive_audit.py:171-211 | Whatever the server and the store do, the committed states are those of one of three endings: untouched, batch only, finished; if the service is honest, what is committed comes from its blobs listed in the span; a dry run is untouched; a normal return of any other run is exactly a finished one; it raises only for cause, and returns if service and store do what they should, over listings of any number of pages; the report agrees with the store and with what was served; inserted plus skipped is the batch. |
| AuditHistory.EventKeepsPromise | collectors/onedrive_audit.py:171-211 | One event of any kind keeps the no-gap promise, never lowers a checkpoint and removes no row. |
| AuditHistory.FinishedRunKeepsPromise | collectors/onedrive_audit.py:178-205 | A finished run whose overlap reaches back over the delay extends the promise to the maximum of the stored checkpoint and its end. |
| AuditHistory.NoGapsNoDuplicates | collectors/onedrive_audit.py:171-211 | In every state of every history of runs and of endpoint completions under other ids, keys are unique and every promised record is stored. |
| AuditHistory.PromisedRecordStoredOnce | collectors/onedrive_audit.py:171-211 | Each promised high-value record is in the event table exactly once. |
| AuditHistory.BetweenCommits | collectors/onedrive_audit.py:202-205 | The state visible between the two commits keeps the promise for the old checkpoint, which therefore never runs ahead of committed data. |
| AuditHistory.NothingIsUndone | collectors/persistence/core.py:435-476 | Over any stretch of a history stored rows keep their place and content and no tenant's checkpoint moves back. |
| AuditHistory.UnfinishedRunMovesNoCheckpoint | collectors/onedrive_audit.py:202-209 | A failed or dry run moves no checkpoint; one that stopped before its first commit changes nothing; a finished run moves only its own tenant's audit row. |
| AuditHistory.ReportedCheckpointStoredIff | collectors/onedrive_audit.py:205-207 | The reported checkpoint is the stored one exactly when no later one was stored before. |
| AuditHistory.EventsAreGenuine | collectors/onedrive_audit.py:188-205 | Every event stored during a history is the normal form of a high-value record of a blob the service holds, listed in the span read by the run that stored it. |
| LateArrival.ServiceFaithful | collectors/onedrive_audit.py:139-168 | A service that lists one late blob, from when it is available on, keeps the promise asked of a service. |
| LateArrival.ServiceHonest | collectors/onedrive_audit.py:139-168 | That service shows nothing but the blob, and only for windows it was listed in. |
| LateArrival.ServiceHealthy | collectors/onedrive_audit.py:132-168 | That service is subscribed to, can be read at any time, and shows no record that stops a run. |
| LateArrival.LoseLateArrival | collectors/onedrive_audit.py:171-211 | For every overlap and every delay beyond it and one tick: two calls of the collector over such faithful and honest services, both finishing, after which a high-value record listed from the first start on and before the checkpoint, and available by it, is not stored. |
| Tables.RunKeepsOtherTenants | collectors/persistence/core.py:780-920 | Statements of one tenant leave every other tenant's rows and assignments identical. |
| Tables.DistinctUpsertIsUpsert | collectors/persistence/core.py:881-920 | The IS DISTINCT FROM upsert stores what the plain upsert would. |
| Tables.PlainRunsAlike | collectors/persistence/core.py:881-920 | The same over whole batches, and rows stay under their keys. |
| Tables.LastRecordWins | collectors/persistence/core.py:798-843 | In an upserted table each key ends with its last record of the batch. |
| Tables.InsertedRowStays | collectors/persistence/core.py:780-878 | A row no statement upserts stays as it is. |
| Tables.ReplayIsIdempotent | collectors/persistence/core.py:780-920 | Statements that write only rows, to tables each written in one way, change nothing when run again at once. |
| Tables.RefreshIsIdempotent | collectors/persistence/core.py:281-317 | So does a licence refresh: rows, assignments and the times they were observed. |
| Tables.AssignmentsGrow | collectors/persistence/core.py:303-317 | A users batch adds exactly the pairs it names whose SKU the tenant subscribes to, first seen when the batch says. |
| Tables.RefusedIff | collectors/persistence/core.py:303-317 | The database refuses such a batch exactly when it names a SKU the tenant subscribes to more than once. |
| Tables.RefreshReplaces | collectors/persistence/core.py:281-317 | After a refresh the tenant's assignments are exactly those pairs, stale ones gone and first-observed times taken from the batch; other tenants' are untouched. |
| PersistenceModes.CollectionPlanOf | collectors/persistence/core.py:923-962 | Past the boundary checks, every statement of every mode is well formed and about the trusted tenant. |
| PersistenceModes.UsersBatchReplaces | collectors/persistence/core.py:281-317 | When every user record carries licence data, the tenant's assignments afterwards are exactly the (user, SKU) pairs named whose SKU it subscribes to. |
| PersistenceModes.UsersBatchPreserves | collectors/persistence/core.py:281-317 | When a record lacks licence data or the batch is empty, the batch runs and assignments are unchanged. |
| Replay.CollectionFollows | collectors/persistence/core.py:923-962 | The plan of any collection, in every mode and for refreshes, writes each table the one way the registry has it. |
| Replay.TidyThroughout | collectors/persistence/core.py:1094-1111 | After any sequence of writes and refusals rows are stored under their keys, if they were before; in an empty database they are (`Replay.EmptyIsTidy`). |
| Replay.WriteTwice | collectors/persistence/core.py:1094-1111 | Writing a collection twice stores what writing it once stored, in every mode and for refreshes. |
| Replay.InsertedRowsSurvive | collectors/persistence/core.py:780-878 | Event, snapshot and history rows, once stored, survive every later write of any collection. |
| Replay.LastRecordStored | collectors/persistence/core.py:798-843 | After a write each key of an upserted table has its last record of the collection, users included. |
| Replay.RefusedByDatabaseIff | collectors/persistence/core.py:303-317 | A collection that passes the checks is refused by the database exactly if it refreshes licences and names a SKU the tenant subscribes to more than once. |
| Replay.TwiceSubscribedRefused | collectors/persistence/core.py:303-317 | A store and a one-user collection of which that is so. |
| CollectionWriting.CollectionWriter.Write | collectors/persistence/core.py:1094-1111 | The whole collection in one commit or the committed database unchanged; the rows afterwards are those of the plan run on the rows before; without failures it succeeds exactly if there is a record writer or nothing to write and the plan can be made and run; no other tenant's row or assignment differs and no control row does. |
| CollectionWriting.CollectionWriter.Dispatch | collectors/persistence/core.py:923-951 | The statements executed one by one are those planned, or it raises. |
| CollectionWriting.CollectionWriter.DispatchUsers | collectors/persistence/core.py:281-317 | Likewise for a users batch: one tenant, clearing first, or plain upserts. |
| CollectionWriting.CollectionWriter.WriteUsageReport | collectors/persistence/core.py:1113-1128 | A whole usage report in a commit of its own, or nothing; another tenant's rows are refused before the transaction, rows that do not fit in it, and both are told apart from a failing statement; without failures it succeeds exactly if it is proper and can be stored. |
| CollectionWriting.CollectionWriter.BeginCollectionRun | collectors/persistence/core.py:976-998 | A new positive id and one new running row recording the selection and its size, or nothing. |
| CollectionWriting.CollectionWriter.BeginEndpointRun | collectors/persistence/core.py:1000-1020 | A new positive id and one new open row, or nothing. |
| CollectionWriting.CollectionWriter.CompleteEndpointRun | collectors/persistence/core.py:1022-1052 | Refuses classifications outside the stored vocabulary; otherwise one commit updating status and classification of that row and, if passing and present, its own checkpoint; no collected row changes. |
| CollectionWriting.CollectionWriter.CompleteCollectionRun | collectors/persistence/core.py:1054-1069 | Closes the run with passed and failed adding up to the number of results. |
| CollectionWriting.CollectionWriter.RecoverOrphaned | collectors/persistence/core.py:1071-1092 | Fails a run still running, and only that; otherwise raises and changes nothing; without failures it raises for no other reason. |
| CollectionWriting.ClosingMeans | collectors/persistence/core.py:1056-1058 | A closed run is a success exactly if every result passed, failed exactly if there are results and none passed, partial otherwise. |
| CollectionWriting.CompletionKeepsAuditCheckpointIff | collectors/persistence/core.py:1043-1051 | Completing an endpoint run leaves a tenant's audit checkpoint alone exactly unless a passing run of that tenant is registered under the audit collector's id and writes another time. |
| SecurityPersistence.SecurityPersistenceWriter.Persist | security/persistence.py:63-161 | Invalid input raises exactly when the checks fail; otherwise all three statements in one commit or nothing, and, without failures, never nothing; the receipt says which rows were new and names the stored ids. |
| SecurityPersistence.PersistKeepsAgreement | security/persistence.py:81-154 | Every call keeps the three tables in referential agreement. |
| SecurityPersistence.ReachableAgrees | security/persistence.py:81-154 | So does every sequence of calls from an empty database: each current finding points to an evaluation of the same tenant, rule, baseline, version, finding, status, severity and state, and that to its observation. |
| SecurityPersistence.JoinLosesNoRow | api/security.py:97-104 | The joins of the query service give each current row exactly once. |
| SecurityPersistence.PersistTwice | security/persistence.py:81-154 | Persisting the same pair again adds no row and changes none. |
| SecurityPersistence.PersistAgain | security/persistence.py:81-154 | Persisting any earlier call again, after any others, adds no observation and no evaluation and changes none, nor the current finding unless another call of its key was equally late. |
| SecurityPersistence.LatestIsCurrent | security/persistence.py:142-153 | After any sequence of calls the current row of a key is its latest evaluation, the last persisted among equally late ones; keys never mentioned have none. |
| SecurityPersistence.OrderIrrelevant | security/persistence.py:142-153 | Any reordering of calls with distinct times shows the same call for every key. |
| SecurityPersistence.EvaluationKeepsFirstTime | security/persistence.py:109-140 | An evaluation keeps the time of the first call that made it, whatever is persisted later. |
| SecurityPersistence.TimesAgreeIff | security/persistence.py:109-154 | A current finding and its evaluation bear the same time exactly if the latest call of the key is as late as the first with that evaluation; the finding is never the earlier. |
| SecurityPersistence.EvaluatedAgainLater | security/persistence.py:109-154 | The same evaluation persisted again at any later time makes the two differ. |
| Retry.RetryGrantedIff | collectors/core/retry.py:145-195 | A retry is granted exactly for the four transient classifications while fewer than max_retries are done. |
| Retry.SleepWithinCeiling | collectors/core/retry.py:145-195 | No decision asks for more than the largest configured delay. |
| Retry.BackoffNeverShrinks | collectors/core/retry.py:145-195 | Without jitter and with a factor of at least 1 a later retry never waits less. |
| Retry.RetryAfterHonouredIff | collectors/core/retry.py:145-195 | On a throttled answer with an integer Retry-After (section 10.2.3 of RFC 9110) a retry comes no earlier than asked exactly if what is asked is within the configured ceiling, and never later than either. |
| Collector.RunPages | collectors/core/pagination.py:63-114 | The result is that of the crawl from the initial URL along the links to the first answer that stops it: its items are those of the pages, in order, and its classification is that answer's. |
| Collector.PassIsWholeChainIff | collectors/core/pagination.py:63-114 | PASS is exactly the end of the link chain (or a 2xx HTTP error); in the former case every page of the chain is in the result. |
| Collector.Sleeper.Wait | collectors/core/retry.py:197-200 | Sleeps exactly when a retry asks for a positive time. |
| Collector.Collect | collectors/core/collector.py:65-144 | At most max_retries + 1 crawls, each from the initial URL, all but the last retryable, none of the budget left unused after a retryable failure; records and every reported field come from the last crawl alone; it sleeps exactly what the policy decides after each crawl, within the ceiling. It raises exactly when a token is refused, within the same budget. |
| Collector.PermanentFailureIsLast | collectors/core/collector.py:65-144 | An authentication or permission failure, or a success, is the last attempt. |
| Collector.TotalSleepBounded | collectors/core/retry.py:145-200 | The total sleep per endpoint is at most max_retries times the ceiling. |
| Runtime.FindSpecFinds | collectors/core/runtime.py:180-187 | A non-empty id is found exactly if some spec has it. |
| Runtime.EnabledSpecsAll | collectors/core/runtime.py:176-178 | The default selection is exactly the enabled workload specs. |
| Runtime.ResolveList | collectors/core/runtime.py:205-228 | A list is accepted exactly if it is non-empty and every id is selectable; it keeps its order, repeats dropped. |
| Runtime.ResolveSelection | collectors/core/runtime.py:189-233 | Every way of selecting gives known, enabled workloads in the order asked for, or raises. |
| Runtime.FirstsDistinct | collectors/core/runtime.py:205-228 | Dropping repeats keeps each id once and loses none. |
| Accounts.StoreIsCommits | collectors/core/runtime.py:417-490 | The rows after a pass are those of its commits, run in order from the rows before, and no others. |
| Accounts.EndpointRows | collectors/persistence/core.py:1000-1052 | The pass's endpoint runs are numbered from the next free number and each is completed under its number with whether it passed and with its classification; no other endpoint or collection run changes. |
| Accounts.OthersUntouched | collectors/persistence/core.py:771-777 | Commits that keep to a tenant leave every other tenant's rows and assignments identical. |
| Accounts.AuditCheckpointsKept | collectors/persistence/core.py:1043-1051 | A pass without an endpoint under the audit collector's id leaves every tenant's audit checkpoint alone. |
| Accounts.CompletedExactlyOnce | collectors/core/runtime.py:417-490 | Among a pass's calls every endpoint run begun is completed exactly once and no other is. |
| Runtime.CollectorRuntime.NormalizeAndWrite | collectors/core/runtime.py:656-707 | A passing payload of an endpoint with a normalizer stays passing exactly if its records were committed, and then the rows are what writing them makes of the rows before; otherwise the result already in the summary becomes an error and no row changes. Without failures the records are committed exactly if the payload passed, normalises and can be stored. |
| Runtime.CollectorRuntime.ExecuteReport | collectors/core/runtime.py:548-654 | A usage report passes exactly if its rows were committed, in a commit of its own; otherwise the result is an error and no row changes. Without failures it is committed exactly if it was read, is proper and can be stored. |
| Runtime.CollectorRuntime.RunEndpoint | collectors/core/runtime.py:417-490 | One selected endpoint: one result under its id, skipped exactly if gated out, with the classification of what happened; the database afterwards is the one before with one new endpoint run, its commit made and the run completed; without failures it raises exactly if what it ends in cannot be stored, and passes exactly if its crawl passed, its payload normalises and its batch can be stored in the rows as they then are. |
| Runtime.CollectorRuntime.RunEndpoints | collectors/core/runtime.py:417-490 | The pass: one result and one segment per selected endpoint, in order; the database is the segments' account, whether the pass ends or stops at the first endpoint it cannot complete; without failures each passes exactly if it has all it needs, given what those before it committed. |
| Runtime.CollectorRuntime.BindLineage | collectors/core/runtime.py:515-527 | The collection run is the supplied or retained one, or one begun now; another tenant's lineage is refused. |
| Runtime.CollectorRuntime.Run | collectors/core/runtime.py:299-502 | On a normal return one result per selected endpoint in selection order, and the database and the writer's calls are exactly an optional begin, the segments, and one close with passed plus failed the number selected; an endpoint passes only if its crawl did and, without failures, exactly if what it gave normalises and can be stored; on a raise the segments finished and at most one endpoint run begun, and no close; without failures, exactly when it raises; without an auth configuration nothing is begun and every result bears that error. |
| Runtime.RunLeaves | collectors/core/runtime.py:417-502 | After a normal return the collection run is closed with passed plus failed as many as were selected, every endpoint run is completed with its result, other collection runs are as before, and the rows are those of the commits. |
| Runtime.OtherTenantsUntouched | collectors/core/runtime.py:417-490 | A pass leaves other tenants' rows alone if its usage reports keep to the tenant. |
| Runtime.ReusedRuntimeMiscounts | collectors/core/runtime.py:417-527 | One runtime called for one endpoint and then for two: the one collection run, begun for one, ends with two counted. |
| Runtime.UnreadableReportStops | collectors/core/runtime.py:548-654 | One raising call: a usage report that cannot be read leaves its endpoint run and the collection run begun. |
| Tokens.SpellToken | agent/anonymizer.py:21-31 | The digit loop spells the token of the counter. |
| Tokens.LettersCount | agent/anonymizer.py:21-31 | Letters are non-empty and upper case, count back to the counter, and are single exactly for the first 26. |
| Tokens.NumberSpells | agent/anonymizer.py:21-31 | Every non-empty upper-case string is the spelling of the number it counts as. |
| Tokens.LettersBijection | agent/anonymizer.py:21-31 | Counters and non-empty upper-case strings correspond one to one. |
| Anonymizer.Anonymizer.AnonymizeValue | agent/anonymizer.py:33-40 | No assignment changes, a new name gets the next token, the empty name and "Unknown" pass through, and the maps stay inverse. |
| Anonymizer.Anonymizer.AnonymizeData | agent/anonymizer.py:42-48 | The result masks every string under a listed key by the final maps, though they grow during the walk. |
| Anonymizer.MapsInverse | agent/anonymizer.py:33-40 | The two maps undo each other and have one entry per name. |
| Anonymizer.RestoreUndoesMask | agent/anonymizer.py:42-48 | Looking tokens up in the final map gives back the original tree. |
| Anonymizer.MaskKeepsShape | agent/anonymizer.py:42-48 | Everything but the names is left as it was. |
| Anonymizer.MaskHides | agent/anonymizer.py:42-48 | Under a listed key there is afterwards only a token, "" or "Unknown". |
| Anonymizer.Anonymizer.Deanonymize | agent/anonymizer.py:63-66 | The loop replaces the tokens in the order they were assigned. |
| Deanonymize.StepFills | agent/anonymizer.py:63-66 | Replacing a single-letter token fills exactly the tokens that begin with that letter, longer ones included, in any text where no other piece reads as that token. |
| Deanonymize.LoopFills | agent/anonymizer.py:63-66 | Any number of such replacements, in an order in which no name put in reads as a token still to come, fills exactly the tokens beginning with one of those letters. |
| Deanonymize.EveryOrderIff | agent/anonymizer.py:63-66 | At most 26 names: the loop is the simultaneous substitution on every text and in every order exactly if no name reads as another's token, one replaced by itself excepted. |
| Deanonymize.AnyOrderIsSimultaneous | agent/anonymizer.py:63-66 | So it is for names without underscores. |
| Deanonymize.InsertionOrderFills | agent/anonymizer.py:63-66 | For any number of undisturbed names, what the loop makes of any text. |
| Deanonymize.SimultaneousIff | agent/anonymizer.py:63-66 | For undisturbed names the loop is the simultaneous substitution on every text exactly if each name past the 26th is its first letter's name followed by its other letters. |
| Deanonymize.TokenMisread | agent/anonymizer.py:63-66 | What the loop makes of a single token of more letters, and what it should. |
| Deanonymize.CorrectThroughoutIff | agent/anonymizer.py:63-66 | For any names: the loop is the simultaneous substitution with every beginning of the map exactly if no name is disturbed and the names past the 26th are such. |
| Deanonymize.Disturbed | agent/anonymizer.py:63-66 | The first name that reads as a later token makes some text go wrong when that token is given out. |
| Deanonymize.NameReadAsToken | agent/anonymizer.py:63-66 | A first name that is the second's token goes wrong exactly unless the second name is that token too. |
| Deanonymize.RightByAccident | agent/anonymizer.py:63-66 | Three names that are disturbed, wrong with two of them, and right with all three. |
| Discovery.BuildPermissionGroups | agents/discovery/discovery_agent.py:224-247 | Groups in order of permission, one per permission a denied result documents, each listing those endpoints once, by first appearance. |
| Discovery.RecomputePermissionGroups | agents/discovery/discovery_agent.py:450-481 | The same of endpoint states, passing over empty ids. |
| Discovery.GroupsUnique | agents/discovery/discovery_agent.py:450-481 | That description determines the groups. |
| Discovery.GroupsInvert | agents/discovery/discovery_agent.py:450-481 | An id is in a permission's group exactly if it is the non-empty id of an endpoint still denied that documents the permission. |
| Discovery.GroupIdsDistinct | agents/discovery/discovery_agent.py:235-247 | Ids in a group are distinct, names go with them, and the approval status tells whether the role is present. |
| Discovery.BuildersAgreeIff | agents/discovery/discovery_agent.py:224-262 | The two builders give equal groups for the same results exactly when no denied result that documents a permission has an empty id. |
| DiscoveryState.MergeIntoState | agents/discovery/discovery_agent.py:427-439 | Ids are sorted, unique and those of either side; an id tested now carries its first result, any other its last stored state; groups and workflow describe the merged endpoints; the batch time is kept. |
| DiscoveryState.MergeTwice | agents/discovery/discovery_agent.py:427-439 | Merging the same results again changes only the time stamp. |
| DiscoveryState.ChainCarriesMostRecent | agents/discovery/discovery_agent.py:427-439 | After any chain of resumes each endpoint carries its most recent test result, and ids are exactly those first stored and those ever tested. |
| DiscoveryState.WorkflowMeans | agents/discovery/discovery_agent.py:209-221 | Each workflow state exactly by its endpoints' classifications, and groups are stored exactly if a denied endpoint documents a permission. |
| DiscoveryState.RunBatch | agents/discovery/discovery_agent.py:495-522 | A batch's stored groups follow the rule resumes recompute by exactly when no denied result that documents a permission has an empty id. |
| DiscoveryState.GrantedWaiting | agents/discovery/discovery_agent.py:534-541 | Exactly the ids in a group whose non-empty permission is now granted. |
| DiscoveryState.ThrottledIds | agents/discovery/discovery_agent.py:484-492 | Exactly the non-empty ids of throttled endpoints. |
| DiscoveryState.WaitingIffDue | agents/discovery/discovery_agent.py:484-541 | In a consistent state an id waits exactly if its endpoint is throttled, or denied and documents a permission now granted. |
| DiscoveryState.Resume | agents/discovery/discovery_agent.py:544-610 | NO_CHANGE exactly if nothing waits; otherwise what waits and is in the inventory is tested again, in order of id, and merged. |
| DiscoveryState.ResumeTouchesOnlyDue | agents/discovery/discovery_agent.py:544-610 | A resume replaces exactly the endpoints that are due and in the inventory; every other keeps its state and none appears or disappears. |

## Left out

- HTTP, TLS, URL parsing, OAuth tokens and their caching: answers, accepted URLs and token failures are parameters.
- SQL text, JSONB adaptation and foreign-key or CHECK constraints: a statement is its effect on keyed maps, and any statement may fail.
- The refusal of further statements in a failed transaction until it is rolled back; the model discards the working copy at once.
- `collectors/sharepoint_audit.py` and its tables, a near copy of the OneDrive collector.
- The registry of endpoints, tables and columns: it is a parameter, with the users endpoint's table and key as the only condition.
- The renaming of sign-in columns by `write_signin_log_record`, and the per-product collectors.
- PersistenceModes.UsersBatchReplaces: says nothing of an `_assigned_licenses` value that is a text or a mapping, which the source would iterate over and the model refuses.
- How a usage report is parsed and which statements store it: the parsed report is an effect on the rows, or does not fit.
- A record writer other than `dispatch_persistence`.
- The runtime without a lifecycle writer or with a mock writer, where nothing is recorded.
- Fields of results and summaries that no branch depends on: messages, wall-clock times, durations, `rows_total`, `RecoveryTracker`.
- Sleeping inside the audit client's `_get`: its decisions come from the same policy as those in `Collector`.
- Time zones and the refusal of naive timestamps; times are integers.
- Rounding of floating-point delays; delays are reals.
- Rows of a JSON payload holding non-integer numbers.
- `anonymize_text`, sessions and their expiry.
- Persisting, printing and documenting discovery state, and the waiting for Retry-After before a throttled endpoint is tested again.
- Classifications of discovery results outside the five the agent produces.
- Collector.RunPages: requires a link chain that ends, because the source has no guard against cycles and does not return on one.
- CollectionWriting.CollectionWriter.CompleteEndpointRun: says nothing of counters and timestamps of the control rows.
- AuditIngestion.CollectAndPersist: says nothing of the counters already stated for the parts, such as pages and blobs.
