/** The state the discovery agent persists: written by a batch, patched by resumes
    (agents/discovery/discovery_agent.py). */
module DiscoveryState {
  import opened Basics
  import opened Sorting
  import opened Discovery

  datatype Workflow = Complete | AwaitingApproval | Partial | Fail

  datatype State = State(
    updatedAt: string, workflow: Workflow, roles: seq<string>, lastBatch: Option<string>,
    endpoints: seq<EndpointState>, groups: seq<Group>)

  // ---- Workflow ---------------------------------------------------------------------------------

  function ComputeWorkflow(classes: set<Class>): Workflow {
    if classes == {} then Fail
    else if AuthFailure in classes then Fail
    else if classes == {Pass} then Complete
    else if PermissionRequired in classes then AwaitingApproval
    else if Throttled in classes || ApiError in classes then Partial
    else Fail
  }

  ghost function Classes(endpoints: seq<EndpointState>): set<Class> { set e | e in endpoints :: e.classification }

  // ---- Merging ----------------------------------------------------------------------------------

  ghost predicate Tested(results: seq<TestResult>, id: string) { exists i :: 0 <= i < |results| && results[i].id == id }

  /** The first result for an id. */
  ghost function FirstResult(results: seq<TestResult>, id: string): (r: TestResult)
    requires Tested(results, id)
    ensures r in results && r.id == id
  {
    if results[0].id == id then results[0]
    else
      assert forall i | 1 <= i < |results| :: results[1..][i - 1] == results[i];
      FirstResult(results[1..], id)
  }

  ghost predicate Known(endpoints: seq<EndpointState>, id: string) {
    exists i :: 0 <= i < |endpoints| && endpoints[i].id == id
  }

  /** The last endpoint with an id. */
  ghost function LastEndpoint(endpoints: seq<EndpointState>, id: string): (e: EndpointState)
    requires Known(endpoints, id)
    ensures e in endpoints && e.id == id
  {
    var n := |endpoints| - 1;
    if endpoints[n].id == id then endpoints[n]
    else
      assert forall i | 0 <= i < n :: endpoints[..n][i] == endpoints[i];
      LastEndpoint(endpoints[..n], id)
  }

  ghost function EndpointIds(endpoints: seq<EndpointState>): seq<string> {
    seq(|endpoints|, i requires 0 <= i < |endpoints| => endpoints[i].id)
  }

  // What merging keeps for one id.
  ghost predicate Chosen(previous: seq<EndpointState>, results: seq<TestResult>, slug: string -> string,
                         e: EndpointState) {
    if Tested(results, e.id) then e == StateOf(FirstResult(results, e.id), slug)
    else Known(previous, e.id) && e == LastEndpoint(previous, e.id)
  }

  ghost predicate Merged(previous: seq<EndpointState>, results: seq<TestResult>, slug: string -> string,
                         endpoints: seq<EndpointState>) {
    && Increasing(EndpointIds(endpoints))
    && (forall id :: id in EndpointIds(endpoints) <==> Known(previous, id) || Tested(results, id))
    && (forall e | e in endpoints :: Chosen(previous, results, slug, e))
  }

  /** Groups and workflow describe the endpoints they are stored with. */
  ghost predicate Consistent(s: State) {
    && GroupsOf(s.groups, StateEntries(s.endpoints), s.roles, true)
    && s.workflow == ComputeWorkflow(Classes(s.endpoints))
  }

  ghost predicate MergedInto(previous: State, results: seq<TestResult>, roles: seq<string>, slug: string -> string,
                             next: State) {
    && Merged(previous.endpoints, results, slug, next.endpoints)
    && Consistent(next) && next.roles == roles
    && next.lastBatch.Some? && next.lastBatch.value != ""
    && (previous.lastBatch.Some? && previous.lastBatch.value != "" ==> next.lastBatch == previous.lastBatch)
  }

  // The clock is read twice, and never reads as an empty text.
  method MergeIntoState(previous: State, results: seq<TestResult>, roles: seq<string>, slug: string -> string,
                        now: string, batchNow: string) returns (next: State)
    requires batchNow != ""
    ensures MergedInto(previous, results, roles, slug, next) && next.updatedAt == now
    ensures next.lastBatch == if previous.lastBatch == None || previous.lastBatch == Some("") then Some(batchNow)
                              else previous.lastBatch
  {
    hide GroupsOf, Merged, ComputeWorkflow;
    var endpoints := MergeEndpoints(previous.endpoints, results, slug);
    var groups := RecomputePermissionGroups(endpoints, roles);
    var workflow := ComputeWorkflow(set e | e in endpoints :: e.classification);
    next := State(now, workflow, roles,
                  if previous.lastBatch == None || previous.lastBatch == Some("") then Some(batchNow)
                  else previous.lastBatch,
                  endpoints, groups);
  }

  method MergeEndpoints(previous: seq<EndpointState>, results: seq<TestResult>, slug: string -> string)
    returns (endpoints: seq<EndpointState>)
    ensures Merged(previous, results, slug, endpoints)
  {
    hide Chosen, Increasing;
    var latest := IndexById(previous);
    var ids := Sorted(latest.Keys + set r | r in results :: r.id);
    endpoints := [];
    for i := 0 to |ids|
      invariant EndpointIds(endpoints) == ids[..i]
      invariant forall e | e in endpoints :: Chosen(previous, results, slug, e)
    {
      assert ids[i] in ids;
      var e := Choose(previous, latest, results, slug, ids[i]);
      endpoints := endpoints + [e];
    }
    assert ids[..|ids|] == ids;
    assert forall id :: Tested(results, id) <==> id in set r | r in results :: r.id;
  }

  method IndexById(endpoints: seq<EndpointState>) returns (latest: map<string, EndpointState>)
    ensures forall id :: id in latest <==> Known(endpoints, id)
    ensures forall id | id in latest :: latest[id] == LastEndpoint(endpoints, id)
  {
    latest := map[];
    for i := 0 to |endpoints|
      invariant forall id :: id in latest <==> Known(endpoints[..i], id)
      invariant forall id | id in latest :: latest[id] == LastEndpoint(endpoints[..i], id)
    {
      KnownStep(endpoints[..i], endpoints[i]);
      assert endpoints[..i + 1] == endpoints[..i] + [endpoints[i]];
      latest := latest[endpoints[i].id := endpoints[i]];
    }
    assert endpoints[..|endpoints|] == endpoints;
  }

  lemma KnownStep(endpoints: seq<EndpointState>, e: EndpointState)
    ensures forall id :: Known(endpoints + [e], id) <==> Known(endpoints, id) || id == e.id
    ensures forall id | Known(endpoints + [e], id) ::
              LastEndpoint(endpoints + [e], id) == if id == e.id then e else LastEndpoint(endpoints, id)
  {
    var all := endpoints + [e];
    assert all[|endpoints|] == e && all[..|endpoints|] == endpoints;
    forall id
      ensures Known(all, id) <==> Known(endpoints, id) || id == e.id
    {
      if i :| 0 <= i < |endpoints| && endpoints[i].id == id { assert all[i].id == id; }
    }
  }

  method Choose(ghost previous: seq<EndpointState>, latest: map<string, EndpointState>, results: seq<TestResult>,
                slug: string -> string, id: string)
    returns (e: EndpointState)
    requires forall id :: id in latest <==> Known(previous, id)
    requires forall id | id in latest :: latest[id] == LastEndpoint(previous, id)
    requires id in latest || exists r :: r in results && r.id == id
    ensures e.id == id && Chosen(previous, results, slug, e)
  {
    var i := 0;
    while i < |results| && results[i].id != id
      invariant i <= |results| && (Tested(results, id) <==> Tested(results[i..], id))
      invariant Tested(results, id) ==> FirstResult(results, id) == FirstResult(results[i..], id)
    {
      assert results[i..][1..] == results[i + 1..];
      assert Tested(results[i..], id) ==> Tested(results[i + 1..], id);
      i := i + 1;
    }
    if i < |results| {
      assert results[i..][0] == results[i];
      return StateOf(results[i], slug);
    }
    e := latest[id];
  }

  // ---- What merging comes to --------------------------------------------------------------------

  lemma MergedUnique(previous: seq<EndpointState>, results: seq<TestResult>, slug: string -> string,
                     a: seq<EndpointState>, b: seq<EndpointState>)
    requires Merged(previous, results, slug, a) && Merged(previous, results, slug, b)
    ensures a == b
  {
    IncreasingUnique(EndpointIds(a), EndpointIds(b));
    assert |a| == |EndpointIds(a)| == |EndpointIds(b)| == |b|;
    forall i | 0 <= i < |a|
      ensures a[i] == b[i]
    {
      assert EndpointIds(a)[i] == EndpointIds(b)[i];
      assert Chosen(previous, results, slug, a[i]) && Chosen(previous, results, slug, b[i]);
    }
  }

  lemma KnownIff(endpoints: seq<EndpointState>, id: string)
    ensures Known(endpoints, id) <==> id in EndpointIds(endpoints)
  {
    if i :| 0 <= i < |endpoints| && endpoints[i].id == id { assert EndpointIds(endpoints)[i] == id; }
  }

  /** Merging the same results again changes nothing but the time stamp. */
  lemma MergeTwice(previous: State, results: seq<TestResult>, roles: seq<string>, slug: string -> string, next: State,
                   again: State)
    requires MergedInto(previous, results, roles, slug, next) && MergedInto(next, results, roles, slug, again)
    ensures again == next.(updatedAt := again.updatedAt)
  {
    hide GroupsOf, ComputeWorkflow, Increasing;
    forall id
      ensures Known(next.endpoints, id) <==> id in EndpointIds(next.endpoints)
    {
      KnownIff(next.endpoints, id);
    }
    forall e | e in again.endpoints
      ensures Chosen(previous.endpoints, results, slug, e)
    {
      assert Chosen(next.endpoints, results, slug, e);
    }
    MergedUnique(previous.endpoints, results, slug, next.endpoints, again.endpoints);
    GroupsUnique(next.groups, again.groups, StateEntries(next.endpoints), roles, true);
  }

  datatype Batch = Batch(results: seq<TestResult>, roles: seq<string>)

  /** A first state, and the state after each of a sequence of resumes. */
  ghost predicate Chain(states: seq<State>, batches: seq<Batch>, slug: string -> string) {
    && |states| == |batches| + 1
    && forall i | 0 <= i < |batches| :: MergedInto(states[i], batches[i].results, batches[i].roles, slug, states[i + 1])
  }

  ghost predicate EverTested(batches: seq<Batch>, id: string) {
    exists i :: 0 <= i < |batches| && Tested(batches[i].results, id)
  }

  /** The result of the last batch that tested an id. */
  ghost function MostRecent(batches: seq<Batch>, id: string): (r: TestResult)
    requires EverTested(batches, id)
    ensures r.id == id
  {
    var n := |batches| - 1;
    if Tested(batches[n].results, id) then FirstResult(batches[n].results, id)
    else
      assert forall i | 0 <= i < n :: batches[..n][i] == batches[i];
      MostRecent(batches[..n], id)
  }

  /** After any number of resumes the ids are those first stored and those ever tested, sorted and
      unique, and each endpoint carries its most recent test result. */
  lemma {:induction false} ChainCarriesMostRecent(states: seq<State>, batches: seq<Batch>, slug: string -> string)
    requires Chain(states, batches, slug) && batches != []
    ensures var last := states[|batches|].endpoints;
            && Increasing(EndpointIds(last))
            && (forall id :: Known(last, id) <==> Known(states[0].endpoints, id) || EverTested(batches, id))
            && forall e | e in last :: e == if EverTested(batches, e.id) then StateOf(MostRecent(batches, e.id), slug)
                                            else LastEndpoint(states[0].endpoints, e.id)
  {
    hide GroupsOf, ComputeWorkflow, Increasing;
    var n := |batches| - 1;
    var front, before, last := batches[..n], states[n].endpoints, states[n + 1].endpoints;
    assert MergedInto(states[n], batches[n].results, batches[n].roles, slug, states[n + 1]);
    forall id
      ensures Known(last, id) <==> id in EndpointIds(last)
      ensures EverTested(batches, id) <==> EverTested(front, id) || Tested(batches[n].results, id)
    {
      KnownIff(last, id);
      assert forall i | 0 <= i < n :: front[i] == batches[i];
    }
    if n > 0 {
      ChainCarriesMostRecent(states[..n + 1], front, slug);
    }
    forall e | e in last
      ensures e == if EverTested(batches, e.id) then StateOf(MostRecent(batches, e.id), slug)
                   else LastEndpoint(states[0].endpoints, e.id)
    {
      assert Chosen(before, batches[n].results, slug, e);
    }
  }

  lemma HasClass(endpoints: seq<EndpointState>, c: Class)
    ensures c in Classes(endpoints) <==> exists i :: 0 <= i < |endpoints| && endpoints[i].classification == c
  {
    if i :| 0 <= i < |endpoints| && endpoints[i].classification == c { assert endpoints[i] in endpoints; }
  }

  ghost predicate Denied(e: EndpointState) { e.classification == PermissionRequired }

  /** What a stored state says about its endpoints. */
  lemma WorkflowMeans(s: State)
    requires Consistent(s)
    ensures s.workflow == Complete <==> s.endpoints != [] && forall e | e in s.endpoints :: e.classification == Pass
    ensures s.workflow == Fail <==> s.endpoints == [] || exists e :: e in s.endpoints && e.classification == AuthFailure
    ensures s.workflow == AwaitingApproval <==> s.workflow != Fail && exists e :: e in s.endpoints && Denied(e)
    ensures s.groups != [] <==> exists e :: e in s.endpoints && Denied(e) && e.permissions != []
  {
    var endpoints := s.endpoints;
    HasClass(endpoints, AuthFailure);
    HasClass(endpoints, PermissionRequired);
    assert endpoints != [] ==> endpoints[0] in endpoints && endpoints[0].classification in Classes(endpoints);
    if Classes(endpoints) == {Pass} {
      forall e | e in endpoints
        ensures e.classification == Pass
      {
        assert e.classification in Classes(endpoints);
      }
    }
    if endpoints != [] && forall e | e in endpoints :: e.classification == Pass {
      assert Classes(endpoints) == {Pass};
    }
    GroupsWhenDenied(s);
  }

  lemma GroupsWhenDenied(s: State)
    requires Consistent(s)
    ensures s.groups != [] <==> exists e :: e in s.endpoints && Denied(e) && e.permissions != []
  {
    var entries := StateEntries(s.endpoints);
    if s.groups != [] {
      var p := s.groups[0].permission;
      assert Permissions(s.groups)[0] == p;
      assert Asked(entries, p);
      var i :| 0 <= i < |entries| && Wants(entries[i], p);
      assert s.endpoints[i] in s.endpoints;
    }
    if e :| e in s.endpoints && Denied(e) && e.permissions != [] {
      var i :| 0 <= i < |s.endpoints| && s.endpoints[i] == e;
      assert Wants(entries[i], e.permissions[0]);
      assert Asked(entries, e.permissions[0]);
      assert e.permissions[0] in Permissions(s.groups);
    }
  }

  // ---- Batch and resume ---------------------------------------------------------------------------

  /** A batch stores what it found. Its state is consistent with the rule resumes follow unless a
      denied endpoint that documents a permission has an empty id. */
  method RunBatch(results: seq<TestResult>, roles: seq<string>, slug: string -> string, now: string, batchNow: string)
    returns (s: State)
    ensures s.endpoints == StatesOf(results, slug) && s.roles == roles && s.lastBatch == Some(batchNow)
    ensures s.updatedAt == now
    ensures Consistent(s) <==>
              forall i | 0 <= i < |results| && results[i].classification == PermissionRequired &&
                results[i].permissions != [] :: results[i].id != ""
  {
    hide GroupsOf, ComputeWorkflow;
    var groups := BuildPermissionGroups(results, roles);
    var endpoints := seq(|results|, i requires 0 <= i < |results| => StateOf(results[i], slug));
    s := State(now, ComputeWorkflow(set r | r in results :: r.classification), roles, Some(batchNow), endpoints,
               groups);
    assert Classes(endpoints) == set r | r in results :: r.classification by { SameClasses(results, slug); }
    var recomputed := RecomputePermissionGroups(endpoints, roles);
    BuildersAgreeIff(results, slug, roles, groups, recomputed);
    if GroupsOf(groups, StateEntries(endpoints), roles, true) {
      GroupsUnique(groups, recomputed, StateEntries(endpoints), roles, true);
    }
  }

  lemma SameClasses(results: seq<TestResult>, slug: string -> string)
    ensures Classes(StatesOf(results, slug)) == set r | r in results :: r.classification
  {
    var endpoints := StatesOf(results, slug);
    forall c
      ensures c in Classes(endpoints) <==> exists r :: r in results && r.classification == c
    {
      HasClass(endpoints, c);
      if r :| r in results && r.classification == c {
        var i :| 0 <= i < |results| && results[i] == r;
        assert endpoints[i].classification == c;
      }
      if i :| 0 <= i < |endpoints| && endpoints[i].classification == c { assert results[i] in results; }
    }
  }

  ghost predicate Granted(groups: seq<Group>, roles: seq<string>, id: string) {
    exists g :: g in groups && g.permission != "" && g.permission in roles && id in g.ids
  }

  ghost predicate IsThrottled(endpoints: seq<EndpointState>, id: string) {
    exists e :: e in endpoints && e.classification == Throttled && id != "" && e.id == id
  }

  method GrantedWaiting(groups: seq<Group>, roles: seq<string>) returns (granted: set<string>)
    ensures forall id :: id in granted <==> Granted(groups, roles, id)
  {
    granted := {};
    for i := 0 to |groups|
      invariant forall id :: id in granted <==> Granted(groups[..i], roles, id)
    {
      assert groups[..i + 1] == groups[..i] + [groups[i]];
      if groups[i].permission != "" && groups[i].permission in roles {
        granted := granted + set id | id in groups[i].ids;
      }
    }
    assert groups[..|groups|] == groups;
  }

  method ThrottledIds(endpoints: seq<EndpointState>) returns (throttled: set<string>)
    ensures forall id :: id in throttled <==> IsThrottled(endpoints, id)
  {
    throttled := {};
    for i := 0 to |endpoints|
      invariant forall id :: id in throttled <==> IsThrottled(endpoints[..i], id)
    {
      assert endpoints[..i + 1] == endpoints[..i] + [endpoints[i]];
      if endpoints[i].classification == Throttled && endpoints[i].id != "" {
        throttled := throttled + {endpoints[i].id};
      }
    }
    assert endpoints[..|endpoints|] == endpoints;
  }

  ghost predicate Waiting(previous: State, roles: seq<string>, id: string) {
    Granted(previous.groups, roles, id) || IsThrottled(previous.endpoints, id)
  }

  // What a resume tests again, in order of id.
  ghost predicate Rerun(previous: State, inventory: set<string>, roles: seq<string>, discover: string -> TestResult,
                        results: seq<TestResult>) {
    && Increasing(ResultIds(results))
    && (forall id :: Tested(results, id) <==> Waiting(previous, roles, id) && id in inventory)
    && (forall r | r in results :: r == discover(r.id))
  }

  ghost function ResultIds(results: seq<TestResult>): seq<string> {
    seq(|results|, i requires 0 <= i < |results| => results[i].id)
  }

  /** Testing again what was throttled or has been granted, and merging the results. `None` is the
      NO_CHANGE answer. */
  method Resume(previous: State, inventory: set<string>, roles: seq<string>, discover: string -> TestResult,
                slug: string -> string, now: string, batchNow: string)
    returns (next: Option<State>, results: seq<TestResult>)
    requires batchNow != "" && forall id :: discover(id).id == id
    ensures next.None? <==> forall id :: !Waiting(previous, roles, id)
    ensures next.Some? ==>
              Rerun(previous, inventory, roles, discover, results) &&
              MergedInto(previous, results, roles, slug, next.value)
    ensures next.Some? ==> next.value.updatedAt == now
  {
    hide MergedInto, Granted, IsThrottled;
    var granted := GrantedWaiting(previous.groups, roles);
    var throttled := ThrottledIds(previous.endpoints);
    results := [];
    if granted == {} && throttled == {} {
      return None, [];
    }
    assert exists id :: Waiting(previous, roles, id) by {
      var id :| id in granted + throttled;
      assert Waiting(previous, roles, id);
    }
    var ids := Sorted((granted + throttled) * inventory);
    for i := 0 to |ids|
      invariant ResultIds(results) == ids[..i]
      invariant forall r | r in results :: r == discover(r.id)
    {
      results := results + [discover(ids[i])];
    }
    assert ids[..|ids|] == ids;
    forall id
      ensures Tested(results, id) <==> id in ids
    {
      if i :| 0 <= i < |results| && results[i].id == id { assert ResultIds(results)[i] == id; }
      if id in ids {
        var i :| 0 <= i < |ids| && ids[i] == id;
        assert ResultIds(results)[i] == results[i].id;
      }
    }
    var s := MergeIntoState(previous, results, roles, slug, now, batchNow);
    next := Some(s);
  }

  /** Due for another test: throttled, or denied and documenting a permission now granted. */
  ghost predicate Due(e: EndpointState, roles: seq<string>) {
    && e.id != ""
    && (e.classification == Throttled || (Denied(e) && exists p :: p in e.permissions && p != "" && p in roles))
  }

  ghost predicate DistinctIds(endpoints: seq<EndpointState>) {
    forall i, j | 0 <= i < j < |endpoints| :: endpoints[i].id != endpoints[j].id
  }

  lemma WaitingIffDue(previous: State, roles: seq<string>, id: string)
    requires Consistent(previous)
    ensures Waiting(previous, roles, id) <==> exists e :: e in previous.endpoints && e.id == id && Due(e, roles)
  {
    hide ComputeWorkflow, GroupsOf;
    var entries := StateEntries(previous.endpoints);
    if Granted(previous.groups, roles, id) {
      var g :| g in previous.groups && g.permission != "" && g.permission in roles && id in g.ids;
      GroupsInvert(previous.groups, entries, previous.roles, g.permission, id);
      var i :| 0 <= i < |entries| && entries[i].id == id && Wants(entries[i], g.permission);
      assert previous.endpoints[i] in previous.endpoints && Due(previous.endpoints[i], roles);
    }
    if e :| e in previous.endpoints && e.id == id && Due(e, roles) {
      if e.classification != Throttled {
        var p :| p in e.permissions && p != "" && p in roles;
        GroupsInvert(previous.groups, entries, previous.roles, p, id);
        var i :| 0 <= i < |previous.endpoints| && previous.endpoints[i] == e;
        assert entries[i].id == id && Wants(entries[i], p);
      }
    }
  }

  /** A resume replaces exactly the endpoints that are due and still in the inventory; every other
      endpoint keeps its state, and none appears or disappears. */
  lemma ResumeTouchesOnlyDue(previous: State, inventory: set<string>, roles: seq<string>,
                             discover: string -> TestResult, slug: string -> string, results: seq<TestResult>,
                             next: State)
    requires Consistent(previous) && DistinctIds(previous.endpoints)
    requires Rerun(previous, inventory, roles, discover, results) && MergedInto(previous, results, roles, slug, next)
    ensures forall id :: Known(next.endpoints, id) <==> Known(previous.endpoints, id)
    ensures forall e | e in previous.endpoints ::
              (if Due(e, roles) && e.id in inventory then StateOf(discover(e.id), slug) else e) in next.endpoints
  {
    hide ComputeWorkflow, GroupsOf, Increasing, Waiting, Due;
    forall id
      ensures Known(next.endpoints, id) <==> Known(previous.endpoints, id)
    {
      KnownIff(next.endpoints, id);
      WaitingIffDue(previous, roles, id);
    }
    forall e | e in previous.endpoints
      ensures (if Due(e, roles) && e.id in inventory then StateOf(discover(e.id), slug) else e) in next.endpoints
    {
      var i :| 0 <= i < |previous.endpoints| && previous.endpoints[i] == e;
      assert Known(previous.endpoints, e.id) && LastEndpoint(previous.endpoints, e.id) == e;
      WaitingIffDue(previous, roles, e.id);
      var k :| 0 <= k < |next.endpoints| && next.endpoints[k].id == e.id;
      assert Chosen(previous.endpoints, results, slug, next.endpoints[k]);
    }
  }
}
