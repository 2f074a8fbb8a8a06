/** The discovery agent's state: permission groups, and merging the results of resumes
    (agents/discovery/discovery_agent.py). */
module Discovery {
  import opened Basics
  import opened Sorting

  datatype Class = Pass | PermissionRequired | Throttled | ApiError | AuthFailure

  datatype TestResult = TestResult(
    id: string, name: string, classification: Class, permissions: seq<string>, httpStatus: Option<int>,
    timestamp: string, pages: nat, rows: nat, retryAfter: Option<string>)

  datatype EndpointState = EndpointState(
    id: string, key: string, name: string, classification: Class, httpStatus: Option<int>, lastTested: string,
    permissions: seq<string>, pages: nat, rows: nat, retryAfter: Option<string>)

  // `slug` lower-cases a name and drops its spaces.
  function StateOf(r: TestResult, slug: string -> string): EndpointState {
    EndpointState(r.id, slug(r.name), r.name, r.classification, r.httpStatus, r.timestamp, r.permissions, r.pages,
                  r.rows, r.retryAfter)
  }

  // ---- Permission groups ------------------------------------------------------------------------

  // What both group builders read of an endpoint.
  datatype Entry = Entry(id: string, name: string, denied: bool, permissions: seq<string>)

  function ResultEntry(r: TestResult): Entry {
    Entry(r.id, r.name, r.classification == PermissionRequired, r.permissions)
  }

  function StateEntry(e: EndpointState): Entry {
    Entry(e.id, e.name, e.classification == PermissionRequired, e.permissions)
  }

  datatype Approval = Required | RolePresentButDenied

  datatype Group = Group(permission: string, ids: seq<string>, names: seq<string>, rolePresent: bool,
                         approval: Approval)

  predicate Wants(e: Entry, permission: string) { e.denied && permission in e.permissions }

  ghost predicate Asked(entries: seq<Entry>, permission: string) {
    exists i :: 0 <= i < |entries| && Wants(entries[i], permission)
  }

  // The state-time builder passes over endpoints without an id.
  predicate Listable(e: Entry, skipEmpty: bool) { skipEmpty ==> e.id != "" }

  /** The denied endpoints documenting a permission, each id once, where it first appears. */
  ghost function Affected(entries: seq<Entry>, permission: string, skipEmpty: bool): seq<Entry> {
    if entries == [] then []
    else
      var before, e := Affected(entries[..|entries| - 1], permission, skipEmpty), entries[|entries| - 1];
      if Wants(e, permission) && Listable(e, skipEmpty) && !HasId(before, e.id) then before + [e] else before
  }

  ghost predicate HasId(entries: seq<Entry>, id: string) { exists i :: 0 <= i < |entries| && entries[i].id == id }

  ghost function Ids(entries: seq<Entry>): seq<string> {
    seq(|entries|, i requires 0 <= i < |entries| => entries[i].id)
  }

  ghost function Names(entries: seq<Entry>): seq<string> {
    seq(|entries|, i requires 0 <= i < |entries| => entries[i].name)
  }

  // An endpoint with this id is denied and documents the permission.
  ghost predicate Waits(entries: seq<Entry>, permission: string, skipEmpty: bool, id: string) {
    exists i :: 0 <= i < |entries| && entries[i].id == id && Wants(entries[i], permission) &&
      Listable(entries[i], skipEmpty)
  }

  lemma WaitsStep(entries: seq<Entry>, permission: string, skipEmpty: bool, id: string)
    requires entries != []
    ensures var e := entries[|entries| - 1];
            Waits(entries, permission, skipEmpty, id) <==>
              Waits(entries[..|entries| - 1], permission, skipEmpty, id) ||
                (e.id == id && Wants(e, permission) && Listable(e, skipEmpty))
  {
    hide Wants, Listable;
    assert forall i | 0 <= i < |entries| - 1 :: entries[..|entries| - 1][i] == entries[i];
  }

  lemma {:induction false} AffectedIff(entries: seq<Entry>, permission: string, skipEmpty: bool, id: string)
    ensures HasId(Affected(entries, permission, skipEmpty), id) <==> Waits(entries, permission, skipEmpty, id)
  {
    if entries != [] {
      hide HasId, Waits;
      var n := |entries| - 1;
      AffectedIff(entries[..n], permission, skipEmpty, id);
      WaitsStep(entries, permission, skipEmpty, id);
      var before := Affected(entries[..n], permission, skipEmpty);
      assert (before + [entries[n]])[..|before|] == before;
      HasIdStep(before + [entries[n]], id);
    }
  }

  ghost function GroupFor(entries: seq<Entry>, permission: string, roles: seq<string>, skipEmpty: bool): Group {
    var affected := Affected(entries, permission, skipEmpty);
    Group(permission, Ids(affected), Names(affected), permission in roles,
          if permission in roles then RolePresentButDenied else Required)
  }

  /** The groups of `entries`: one per permission some denied endpoint documents, in order of permission. */
  ghost predicate GroupsOf(groups: seq<Group>, entries: seq<Entry>, roles: seq<string>, skipEmpty: bool) {
    && Increasing(Permissions(groups))
    && (forall p :: p in Permissions(groups) <==> Asked(entries, p))
    && (forall i | 0 <= i < |groups| :: groups[i] == GroupFor(entries, groups[i].permission, roles, skipEmpty))
  }

  ghost function Permissions(groups: seq<Group>): seq<string> {
    seq(|groups|, i requires 0 <= i < |groups| => groups[i].permission)
  }

  /** The groups are determined by what they describe. */
  lemma GroupsUnique(a: seq<Group>, b: seq<Group>, entries: seq<Entry>, roles: seq<string>, skipEmpty: bool)
    requires GroupsOf(a, entries, roles, skipEmpty) && GroupsOf(b, entries, roles, skipEmpty)
    ensures a == b
  {
    hide GroupFor, Asked;
    IncreasingUnique(Permissions(a), Permissions(b));
    assert |a| == |Permissions(a)| == |Permissions(b)| == |b|;
    forall i | 0 <= i < |a|
      ensures a[i] == b[i]
    {
      assert Permissions(a)[i] == Permissions(b)[i];
    }
  }

  /** The groups are the inverse of "still denied and documents this permission". */
  lemma GroupsInvert(groups: seq<Group>, entries: seq<Entry>, roles: seq<string>, permission: string, id: string)
    requires GroupsOf(groups, entries, roles, true)
    ensures (exists g :: g in groups && g.permission == permission && id in g.ids) <==>
              id != "" && exists i :: 0 <= i < |entries| && entries[i].id == id && Wants(entries[i], permission)
  {
    AffectedIff(entries, permission, true, id);
    var affected := Affected(entries, permission, true);
    HasIdIff(affected, id);
    if g :| g in groups && g.permission == permission && id in g.ids {
      assert g == GroupFor(entries, permission, roles, true);
    }
    if HasId(affected, id) {
      assert Asked(entries, permission);
      assert permission in Permissions(groups);
      var i :| 0 <= i < |groups| && Permissions(groups)[i] == permission;
      assert groups[i] in groups && groups[i].ids == Ids(affected);
    }
  }

  // Each affected endpoint is listed once, and names go with ids.
  lemma {:induction false} AffectedDistinct(entries: seq<Entry>, permission: string, skipEmpty: bool)
    ensures forall i, j | 0 <= i < j < |Affected(entries, permission, skipEmpty)| ::
              Affected(entries, permission, skipEmpty)[i].id != Affected(entries, permission, skipEmpty)[j].id
  {
    if entries != [] { AffectedDistinct(entries[..|entries| - 1], permission, skipEmpty); }
  }

  lemma GroupIdsDistinct(groups: seq<Group>, entries: seq<Entry>, roles: seq<string>, skipEmpty: bool, g: Group)
    requires GroupsOf(groups, entries, roles, skipEmpty) && g in groups
    ensures |g.ids| == |g.names| && forall i, j | 0 <= i < j < |g.ids| :: g.ids[i] != g.ids[j]
    ensures g.approval == RolePresentButDenied <==> g.permission in roles
  {
    AffectedDistinct(entries, g.permission, skipEmpty);
  }

  // ---- Building them ------------------------------------------------------------------------------

  // The group of a permission while the dict of groups is filled: nothing is known of the approval yet.
  ghost function OpenGroup(permission: string, affected: seq<Entry>, roles: seq<string>): Group {
    Group(permission, Ids(affected), Names(affected), permission in roles, Required)
  }

  ghost predicate Filled(groups: map<string, Group>, entries: seq<Entry>, roles: seq<string>, skipEmpty: bool) {
    && (forall p :: p in groups <==> Asked(entries, p))
    && (forall p | p in groups :: groups[p] == OpenGroup(p, Affected(entries, p, skipEmpty), roles))
  }

  // The same with `e` entered under the permissions `done` only.
  ghost predicate Entered(groups: map<string, Group>, before: seq<Entry>, e: Entry, done: seq<string>,
                          roles: seq<string>, skipEmpty: bool) {
    && (forall p :: p in groups <==> Asked(before, p) || p in done)
    && (forall p | p in groups ::
          groups[p] == OpenGroup(p, Affected(if p in done then before + [e] else before, p, skipEmpty), roles))
  }

  ghost function WithEntry(group: Group, e: Entry, skipEmpty: bool): Group {
    if Listable(e, skipEmpty) && e.id !in group.ids
    then group.(ids := group.ids + [e.id], names := group.names + [e.name]) else group
  }

  lemma NoneEntered(groups: map<string, Group>, before: seq<Entry>, e: Entry, roles: seq<string>, skipEmpty: bool)
    requires Filled(groups, before, roles, skipEmpty)
    ensures Entered(groups, before, e, [], roles, skipEmpty)
  {
  }

  lemma OneEntered(groups: map<string, Group>, before: seq<Entry>, e: Entry, done: seq<string>, p: string,
                   roles: seq<string>, skipEmpty: bool)
    requires Entered(groups, before, e, done, roles, skipEmpty) && Wants(e, p)
    ensures var group := if p in groups then groups[p] else Group(p, [], [], p in roles, Required);
            Entered(groups[p := WithEntry(group, e, skipEmpty)], before, e, done + [p], roles, skipEmpty)
  {
    hide Affected, Asked, Wants, WithEntry;
    var group := if p in groups then groups[p] else Group(p, [], [], p in roles, Required);
    NotAskedNotAffected(before, p, skipEmpty);
    assert Ids([]) == [] && Names([]) == [];
    GroupWithEntry(before, e, p, roles, skipEmpty);
    assert WithEntry(group, e, skipEmpty) == OpenGroup(p, Affected(before + [e], p, skipEmpty), roles);
  }

  lemma GroupWithEntry(before: seq<Entry>, e: Entry, p: string, roles: seq<string>, skipEmpty: bool)
    requires Wants(e, p)
    ensures var all, some := Affected(before + [e], p, skipEmpty), Affected(before, p, skipEmpty);
            && WithEntry(OpenGroup(p, some, roles), e, skipEmpty) == OpenGroup(p, all, roles)
            && WithEntry(OpenGroup(p, all, roles), e, skipEmpty) == OpenGroup(p, all, roles)
  {
    hide Affected;
    var some, all := Affected(before, p, skipEmpty), Affected(before + [e], p, skipEmpty);
    AffectedTwice(before, e, p, skipEmpty);
    HasIdIff(some, e.id);
    HasIdIff(all, e.id);
    assert Ids(some + [e]) == Ids(some) + [e.id] && Names(some + [e]) == Names(some) + [e.name];
  }

  lemma HasIdIff(entries: seq<Entry>, id: string)
    ensures HasId(entries, id) <==> id in Ids(entries)
  {
    if i :| 0 <= i < |entries| && entries[i].id == id { assert Ids(entries)[i] == id; }
  }

  lemma AllEntered(groups: map<string, Group>, before: seq<Entry>, e: Entry, done: seq<string>, roles: seq<string>,
                   skipEmpty: bool)
    requires Entered(groups, before, e, done, roles, skipEmpty) && forall p :: p in done <==> Wants(e, p)
    ensures Filled(groups, before + [e], roles, skipEmpty)
  {
    hide Affected, Asked, Wants;
    AskedStep(before, e);
    forall p
      ensures !Wants(e, p) ==> Affected(before + [e], p, skipEmpty) == Affected(before, p, skipEmpty)
    {
      if !Wants(e, p) { NotWantedNotAdded(before, e, p, skipEmpty); }
    }
  }

  lemma NotWantedNotAdded(before: seq<Entry>, e: Entry, p: string, skipEmpty: bool)
    requires !Wants(e, p)
    ensures Affected(before + [e], p, skipEmpty) == Affected(before, p, skipEmpty)
  {
    assert (before + [e])[..|before|] == before;
  }

  lemma AskedStep(before: seq<Entry>, e: Entry)
    ensures forall p :: Asked(before + [e], p) <==> Asked(before, p) || Wants(e, p)
  {
    var all := before + [e];
    assert all[|before|] == e;
    forall p
      ensures Asked(all, p) <==> Asked(before, p) || Wants(e, p)
    {
      if i :| 0 <= i < |before| && Wants(before[i], p) { assert all[i] == before[i]; }
    }
  }

  lemma HasIdStep(entries: seq<Entry>, id: string)
    requires entries != []
    ensures HasId(entries, id) <==> HasId(entries[..|entries| - 1], id) || entries[|entries| - 1].id == id
  {
    assert forall i | 0 <= i < |entries| - 1 :: entries[..|entries| - 1][i] == entries[i];
  }

  lemma {:induction false} NotAskedNotAffected(entries: seq<Entry>, permission: string, skipEmpty: bool)
    ensures !Asked(entries, permission) ==> Affected(entries, permission, skipEmpty) == []
  {
    if entries != [] {
      NotAskedNotAffected(entries[..|entries| - 1], permission, skipEmpty);
      assert forall i | 0 <= i < |entries| - 1 :: entries[..|entries| - 1][i] == entries[i];
    }
  }

  // A permission an endpoint documents twice makes no difference.
  lemma AffectedTwice(before: seq<Entry>, e: Entry, p: string, skipEmpty: bool)
    requires Wants(e, p)
    ensures var all, some := Affected(before + [e], p, skipEmpty), Affected(before, p, skipEmpty);
            && all == (if Listable(e, skipEmpty) && !HasId(some, e.id) then some + [e] else some)
            && (Listable(e, skipEmpty) ==> HasId(all, e.id))
  {
    assert (before + [e])[..|before|] == before;
    var some := Affected(before, p, skipEmpty);
    assert (some + [e])[|some|] == e;
  }

  method AddResult(groups: map<string, Group>, result: TestResult, roles: seq<string>, ghost before: seq<Entry>)
    returns (r: map<string, Group>)
    requires Filled(groups, before, roles, false)
    ensures Filled(r, before + [ResultEntry(result)], roles, false)
  {
    hide Filled, Entered;
    r := groups;
    ghost var e := ResultEntry(result);
    NoneEntered(groups, before, e, roles, false);
    if result.classification != PermissionRequired {
      AllEntered(groups, before, e, [], roles, false);
      return;
    }
    for j := 0 to |result.permissions|
      invariant Entered(r, before, e, result.permissions[..j], roles, false)
    {
      var permission := result.permissions[j];
      OneEntered(r, before, e, result.permissions[..j], permission, roles, false);
      assert result.permissions[..j + 1] == result.permissions[..j] + [permission];
      var group := if permission in r then r[permission] else Group(permission, [], [], permission in roles, Required);
      if result.id !in group.ids {
        group := group.(ids := group.ids + [result.id], names := group.names + [result.name]);
      }
      r := r[permission := group];
    }
    assert result.permissions[..|result.permissions|] == result.permissions;
    AllEntered(r, before, e, result.permissions, roles, false);
  }

  method AddState(groups: map<string, Group>, state: EndpointState, roles: seq<string>, ghost before: seq<Entry>)
    returns (r: map<string, Group>)
    requires Filled(groups, before, roles, true)
    ensures Filled(r, before + [StateEntry(state)], roles, true)
  {
    hide Filled, Entered;
    r := groups;
    ghost var e := StateEntry(state);
    NoneEntered(groups, before, e, roles, true);
    if state.classification != PermissionRequired {
      AllEntered(groups, before, e, [], roles, true);
      return;
    }
    for j := 0 to |state.permissions|
      invariant Entered(r, before, e, state.permissions[..j], roles, true)
    {
      var permission := state.permissions[j];
      OneEntered(r, before, e, state.permissions[..j], permission, roles, true);
      assert state.permissions[..j + 1] == state.permissions[..j] + [permission];
      var group := if permission in r then r[permission] else Group(permission, [], [], permission in roles, Required);
      if state.id != "" && state.id !in group.ids {
        group := group.(ids := group.ids + [state.id], names := group.names + [state.name]);
      }
      r := r[permission := group];
    }
    assert state.permissions[..|state.permissions|] == state.permissions;
    AllEntered(r, before, e, state.permissions, roles, true);
  }

  // What both builders end with: the approvals, and the groups in order of permission.
  method FinishGroups(open: map<string, Group>, ghost entries: seq<Entry>, roles: seq<string>, ghost skipEmpty: bool)
    returns (groups: seq<Group>)
    requires Filled(open, entries, roles, skipEmpty)
    ensures GroupsOf(groups, entries, roles, skipEmpty)
  {
    hide Affected, Asked, Less;
    var permissions := Sorted(open.Keys);
    groups := [];
    for i := 0 to |permissions|
      invariant Permissions(groups) == permissions[..i]
      invariant forall k | 0 <= k < i :: groups[k] == GroupFor(entries, permissions[k], roles, skipEmpty)
    {
      assert permissions[i] in permissions;
      var group := open[permissions[i]];
      if group.rolePresent {
        group := group.(approval := RolePresentButDenied);
      }
      groups := groups + [group];
    }
    assert permissions[..|permissions|] == permissions;
  }

  lemma NothingFilled(roles: seq<string>, skipEmpty: bool)
    ensures Filled(map[], [], roles, skipEmpty)
  {
  }

  /** The batch-time builder. */
  method BuildPermissionGroups(results: seq<TestResult>, roles: seq<string>) returns (groups: seq<Group>)
    ensures GroupsOf(groups, ResultEntries(results), roles, false)
  {
    hide Filled, GroupsOf;
    var open: map<string, Group> := map[];
    ghost var entries := ResultEntries(results);
    NothingFilled(roles, false);
    assert entries[..0] == [];
    for i := 0 to |results|
      invariant Filled(open, entries[..i], roles, false)
    {
      assert entries[..i + 1] == entries[..i] + [ResultEntry(results[i])];
      open := AddResult(open, results[i], roles, entries[..i]);
    }
    assert entries[..|results|] == entries;
    groups := FinishGroups(open, entries, roles, false);
  }

  /** The state-time builder. */
  method RecomputePermissionGroups(states: seq<EndpointState>, roles: seq<string>) returns (groups: seq<Group>)
    ensures GroupsOf(groups, StateEntries(states), roles, true)
  {
    hide Filled, GroupsOf;
    var open: map<string, Group> := map[];
    ghost var entries := StateEntries(states);
    NothingFilled(roles, true);
    assert entries[..0] == [];
    for i := 0 to |states|
      invariant Filled(open, entries[..i], roles, true)
    {
      assert entries[..i + 1] == entries[..i] + [StateEntry(states[i])];
      open := AddState(open, states[i], roles, entries[..i]);
    }
    assert entries[..|states|] == entries;
    groups := FinishGroups(open, entries, roles, true);
  }

  ghost function ResultEntries(results: seq<TestResult>): seq<Entry> {
    seq(|results|, i requires 0 <= i < |results| => ResultEntry(results[i]))
  }

  ghost function StateEntries(states: seq<EndpointState>): seq<Entry> {
    seq(|states|, i requires 0 <= i < |states| => StateEntry(states[i]))
  }

  ghost function StatesOf(results: seq<TestResult>, slug: string -> string): seq<EndpointState> {
    seq(|results|, i requires 0 <= i < |results| => StateOf(results[i], slug))
  }

  lemma {:induction false} SkippingMattersNot(entries: seq<Entry>, p: string)
    requires forall i | 0 <= i < |entries| && Wants(entries[i], p) :: entries[i].id != ""
    ensures Affected(entries, p, true) == Affected(entries, p, false)
  {
    if entries != [] { SkippingMattersNot(entries[..|entries| - 1], p); }
  }

  /** The two builders give equal groups for the same results exactly when no denied endpoint that
      documents a permission has an empty id. */
  lemma BuildersAgreeIff(results: seq<TestResult>, slug: string -> string, roles: seq<string>, batch: seq<Group>,
                         state: seq<Group>)
    requires GroupsOf(batch, ResultEntries(results), roles, false)
    requires GroupsOf(state, StateEntries(StatesOf(results, slug)), roles, true)
    ensures batch == state <==>
              forall i | 0 <= i < |results| && results[i].classification == PermissionRequired &&
                results[i].permissions != [] :: results[i].id != ""
  {
    var entries := ResultEntries(results);
    assert StateEntries(StatesOf(results, slug)) == entries;
    if i :|
      && 0 <= i < |results| && results[i].classification == PermissionRequired
      && results[i].permissions != [] && results[i].id == "" {
      EmptyIdShows(batch, state, entries, roles, i, results[i].permissions[0]);
    } else {
      forall p
        ensures GroupFor(entries, p, roles, true) == GroupFor(entries, p, roles, false)
      {
        SkippingMattersNot(entries, p);
      }
      assert GroupsOf(batch, entries, roles, true);
      GroupsUnique(batch, state, entries, roles, true);
    }
  }

  lemma EmptyIdShows(batch: seq<Group>, state: seq<Group>, entries: seq<Entry>, roles: seq<string>, i: nat, p: string)
    requires GroupsOf(batch, entries, roles, false) && GroupsOf(state, entries, roles, true)
    requires i < |entries| && entries[i].id == "" && Wants(entries[i], p)
    ensures batch != state
  {
    AffectedIff(entries, p, false, "");
    assert Asked(entries, p) && p in Permissions(batch);
    var k :| 0 <= k < |batch| && Permissions(batch)[k] == p;
    assert "" in batch[k].ids by {
      var with := Affected(entries, p, false);
      var j :| 0 <= j < |with| && with[j].id == "";
      assert batch[k].ids[j] == "";
    }
    forall g | g in state
      ensures "" !in g.ids
    {
      AffectedIff(entries, g.permission, true, "");
      assert g == GroupFor(entries, g.permission, roles, true);
    }
    assert batch[k] in batch;
  }
}
