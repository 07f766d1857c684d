/** The group-membership handlers of internal/handlers/group.go:
    UpdateGroupMembers and SetUserGroups, over a stand-in for the MinIO group
    service that keeps each user's ordered group list and a log of the calls
    made to it. */
module Groups {
  import opened Common
  import opened Gin
  import StorageUsage

  // ---------------------------------------------------------------------------
  // The group service

  /** A call into the group service. The session credentials travel with
      every call and are left out. */
  datatype Call =
    | AddUsers(group: string, users: seq<string>)
    | RemoveUsers(group: string, users: seq<string>)
    | GetUser(user: string)

  /** Who is in which groups: each user's groups, in the order the server
      reports them as MemberOf. */
  type Membership = map<string, seq<string>>

  /** A user's groups; a user the table does not know is in none. */
  function GroupsOf(m: Membership, user: string): seq<string>
  {
    if user in m then m[user] else []
  }

  /** A group list with `g` added once. */
  function Join(groups: seq<string>, g: string): (r: seq<string>)
    ensures g in r && |r| >= |groups| && r[..|groups|] == groups
  {
    if g in groups then groups else groups + [g]
  }

  /** A group list with every occurrence of `g` removed. */
  function Without(groups: seq<string>, g: string): (r: seq<string>)
    ensures g !in r && |r| <= |groups|
  {
    if groups == [] then []
    else
      var rest := Without(groups[..|groups| - 1], g);
      if groups[|groups| - 1] == g then rest else rest + [groups[|groups| - 1]]
  }

  /** Join adds exactly `g`. */
  lemma JoinMembers(groups: seq<string>, g: string, x: string)
    ensures x in Join(groups, g) <==> x in groups || x == g
  {
  }

  /** Without removes exactly `g`. */
  lemma {:induction false} WithoutMembers(groups: seq<string>, g: string, x: string)
    ensures x in Without(groups, g) <==> x in groups && x != g
  {
    if groups != [] {
      var init := groups[..|groups| - 1];
      WithoutMembers(init, g, x);
      assert x in groups <==> x in init || x == groups[|groups| - 1] by {
        assert groups == init + [groups[|groups| - 1]];
      }
    }
  }

  /** What a call that succeeds does to the membership table. */
  function Effect(m: Membership, call: Call): Membership
  {
    match call
    case AddUsers(group, users) =>
      map u | u in m.Keys + (set x | x in users) :: if u in users then Join(GroupsOf(m, u), group) else m[u]
    case RemoveUsers(group, users) =>
      map u | u in m.Keys :: if u in users then Without(m[u], group) else m[u]
    case GetUser(_) => m
  }

  /** The service's answer to a call: the configured error or success. */
  function OutcomeOf(call: Call, failures: map<Call, string>): (r: Outcome)
    ensures r.Fail? <==> call in failures
    ensures r.Fail? ==> r.error == failures[call]
  {
    if call in failures then Fail(failures[call]) else Pass
  }

  /** The table after one call; a failing call changes nothing. */
  function Apply(m: Membership, call: Call, failures: map<Call, string>): Membership
  {
    if call in failures then m else Effect(m, call)
  }

  /** The table after a sequence of calls. */
  function Run(m: Membership, calls: seq<Call>, failures: map<Call, string>): Membership
  {
    if calls == [] then m
    else Apply(Run(m, calls[..|calls| - 1], failures), calls[|calls| - 1], failures)
  }

  /** A single successful call has its effect. */
  lemma RunOne(m: Membership, call: Call)
    ensures Run(m, [call], map[]) == Effect(m, call)
  {
    assert [call][..0] == [];
  }

  /** Running one more call is applying it to the table so far. */
  lemma RunSnoc(m: Membership, calls: seq<Call>, call: Call, failures: map<Call, string>)
    ensures Run(m, calls + [call], failures) == Apply(Run(m, calls, failures), call, failures)
  {
    assert (calls + [call])[..|calls|] == calls;
  }

  /** Running two call sequences one after the other is running them joined. */
  lemma {:induction false} RunAppend(m: Membership, a: seq<Call>, b: seq<Call>, failures: map<Call, string>)
    ensures Run(m, a + b, failures) == Run(Run(m, a, failures), b, failures)
  {
    if b == [] {
      assert a + b == a;
    } else {
      assert (a + b)[..|a + b| - 1] == a + b[..|b| - 1];
      RunAppend(m, a, b[..|b| - 1], failures);
    }
  }

  /** A successful add puts the group into each listed user's list, and into
      no other user's. */
  lemma AddEffect(m: Membership, group: string, users: seq<string>, u: string, g: string)
    ensures g in GroupsOf(Effect(m, AddUsers(group, users)), u) <==>
              g in GroupsOf(m, u) || (u in users && g == group)
  {
    JoinMembers(GroupsOf(m, u), group, g);
  }

  /** A successful remove takes the group out of each listed user's list and
      leaves every other list alone. */
  lemma RemoveEffect(m: Membership, group: string, users: seq<string>, u: string, g: string)
    ensures g in GroupsOf(Effect(m, RemoveUsers(group, users)), u) <==>
              g in GroupsOf(m, u) && !(u in users && g == group)
  {
    if u in m {
      WithoutMembers(m[u], group, g);
    }
  }

  /** The stand-in for the MinIO group operations: failing calls are fixed
      when it is built; every call is logged, and the table is always what
      the logged calls made of the initial one. */
  class GroupService {
    const initial: Membership
    const failures: map<Call, string>
    var memberOf: Membership
    var log: seq<Call>

    ghost predicate Valid()
      reads this
    {
      memberOf == Run(initial, log, failures)
    }

    constructor (memberOf: Membership, failures: map<Call, string>)
      ensures Valid()
      ensures this.memberOf == memberOf && initial == memberOf && this.failures == failures && log == []
    {
      this.initial := memberOf;
      this.memberOf := memberOf;
      this.failures := failures;
      log := [];
    }

    /** AddUsersToGroup. */
    method AddUsersToGroup(group: string, users: seq<string>) returns (r: Outcome)
      requires Valid()
      modifies this
      ensures Valid()
      ensures log == old(log) + [AddUsers(group, users)]
      ensures memberOf == Apply(old(memberOf), AddUsers(group, users), failures)
      ensures r == OutcomeOf(AddUsers(group, users), failures)
    {
      RunSnoc(initial, log, AddUsers(group, users), failures);
      log := log + [AddUsers(group, users)];
      r := OutcomeOf(AddUsers(group, users), failures);
      if r.Pass? {
        memberOf := Effect(memberOf, AddUsers(group, users));
      }
    }

    /** RemoveUsersFromGroup. */
    method RemoveUsersFromGroup(group: string, users: seq<string>) returns (r: Outcome)
      requires Valid()
      modifies this
      ensures Valid()
      ensures log == old(log) + [RemoveUsers(group, users)]
      ensures memberOf == Apply(old(memberOf), RemoveUsers(group, users), failures)
      ensures r == OutcomeOf(RemoveUsers(group, users), failures)
    {
      RunSnoc(initial, log, RemoveUsers(group, users), failures);
      log := log + [RemoveUsers(group, users)];
      r := OutcomeOf(RemoveUsers(group, users), failures);
      if r.Pass? {
        memberOf := Effect(memberOf, RemoveUsers(group, users));
      }
    }

    /** GetUser: the user's groups, or the configured error. */
    method GetUserInfo(user: string) returns (r: Result<seq<string>>)
      requires Valid()
      modifies this
      ensures Valid()
      ensures log == old(log) + [GetUser(user)] && memberOf == old(memberOf)
      ensures GetUser(user) in failures ==> r == Failure(failures[GetUser(user)])
      ensures GetUser(user) !in failures ==> r == Success(GroupsOf(memberOf, user))
    {
      RunSnoc(initial, log, GetUser(user), failures);
      log := log + [GetUser(user)];
      if GetUser(user) in failures {
        r := Failure(failures[GetUser(user)]);
      } else {
        r := Success(GroupsOf(memberOf, user));
      }
    }
  }

  /** The body of the 400 answer to a request that cannot be bound. */
  const InvalidRequestBody: H := map["error" := Str("Invalid request")]

  function ErrorBody(message: string): H
  {
    map["error" := Str(message)]
  }

  function MessageBody(message: string): H
  {
    map["message" := Str(message)]
  }

  // ---------------------------------------------------------------------------
  // UpdateGroupMembers

  /** The calls UpdateGroupMembers makes: the add for a non-empty add list,
      then the remove for a non-empty remove list unless the add failed. */
  function UpdateCalls(group: string, add: seq<string>, remove: seq<string>, failures: map<Call, string>)
    : (calls: seq<Call>)
    ensures |add| > 0 ==> |calls| > 0 && calls[0] == AddUsers(group, add)
    ensures RemoveUsers(group, remove) in calls <==>
              |remove| > 0 && !(|add| > 0 && AddUsers(group, add) in failures)
  {
    var adds := if |add| > 0 then [AddUsers(group, add)] else [];
    var addFailed := |add| > 0 && AddUsers(group, add) in failures;
    adds + (if |remove| > 0 && !addFailed then [RemoveUsers(group, remove)] else [])
  }

  /** The answer of UpdateGroupMembers once the request is bound: 200 with
      the success message exactly when none of the calls it made failed,
      otherwise 500 with an error. */
  function UpdateResponse(group: string, add: seq<string>, remove: seq<string>, failures: map<Call, string>): (r: Response)
    ensures r.Json? && (r.code == StatusOK || r.code == StatusInternalServerError)
    ensures r.code == StatusOK <==> forall call | call in UpdateCalls(group, add, remove, failures) :: call !in failures
    ensures r.code == StatusOK ==> r.body == MessageBody("Group members updated successfully")
    ensures r.code == StatusInternalServerError ==> "error" in r.body && "message" !in r.body
  {
    if |add| > 0 && AddUsers(group, add) in failures then
      Json(StatusInternalServerError, ErrorBody("Failed to add users: " + failures[AddUsers(group, add)]))
    else if |remove| > 0 && RemoveUsers(group, remove) in failures then
      Json(StatusInternalServerError, ErrorBody("Failed to remove users: " + failures[RemoveUsers(group, remove)]))
    else Json(StatusOK, MessageBody("Group members updated successfully"))
  }

  /** With both lists empty no call is made and the update succeeds. */
  lemma {:induction false} EmptyUpdateIsNoOp(group: string, failures: map<Call, string>)
    ensures UpdateCalls(group, [], [], failures) == []
    ensures UpdateResponse(group, [], [], failures) == Json(StatusOK, MessageBody("Group members updated successfully"))
  {
  }

  /** The add comes first, and a failed add prevents the removal. */
  lemma {:induction false} FailedAddPreventsRemoval(group: string, add: seq<string>, remove: seq<string>,
                                                    failures: map<Call, string>)
    requires |add| > 0 && AddUsers(group, add) in failures
    ensures UpdateCalls(group, add, remove, failures) == [AddUsers(group, add)]
    ensures UpdateResponse(group, add, remove, failures).code == StatusInternalServerError
  {
  }

  /** When the calls succeed, the group afterwards holds each listed user
      that is not also to be removed and none of the users to be removed;
      every other membership is as before. */
  lemma {:induction false} UpdateMembership(m: Membership, group: string, add: seq<string>, remove: seq<string>,
                                            u: string, g: string)
    ensures var after := Run(m, UpdateCalls(group, add, remove, map[]), map[]);
            g in GroupsOf(after, u) <==>
              (g in GroupsOf(m, u) || (u in add && g == group)) && !(u in remove && g == group)
  {
    var adds := if |add| > 0 then [AddUsers(group, add)] else [];
    var removes := if |remove| > 0 then [RemoveUsers(group, remove)] else [];
    assert UpdateCalls(group, add, remove, map[]) == adds + removes;
    RunAppend(m, adds, removes, map[]);
    var mid := Run(m, adds, map[]);
    assert g in GroupsOf(mid, u) <==> g in GroupsOf(m, u) || (u in add && g == group) by {
      if |add| > 0 {
        RunOne(m, AddUsers(group, add));
        AddEffect(m, group, add, u, g);
      }
    }
    if |remove| > 0 {
      RunOne(mid, RemoveUsers(group, remove));
      RemoveEffect(mid, group, remove, u, g);
    }
  }

  /** The service side of UpdateGroupMembers once the request is bound, with
      the status and body of its answer. */
  method ApplyMemberUpdate(svc: GroupService, group: string, add: seq<string>, remove: seq<string>)
    returns (code: int, body: H)
    requires svc.Valid()
    modifies svc
    ensures svc.Valid()
    ensures svc.log == old(svc.log) + UpdateCalls(group, add, remove, svc.failures)
    ensures Json(code, body) == UpdateResponse(group, add, remove, svc.failures)
  {
    ghost var log0 := svc.log;
    if |add| > 0 {
      var r := svc.AddUsersToGroup(group, add);
      if r.Fail? {
        return StatusInternalServerError, ErrorBody("Failed to add users: " + r.error);
      }
    }
    if |remove| > 0 {
      var r := svc.RemoveUsersFromGroup(group, remove);
      if r.Fail? {
        return StatusInternalServerError, ErrorBody("Failed to remove users: " + r.error);
      }
    }
    assert svc.log == log0 + UpdateCalls(group, add, remove, svc.failures);
    return StatusOK, MessageBody("Group members updated successfully");
  }

  /** UpdateGroupMembers (the group name is the route's :name parameter, the
      request body the bound lists or None when binding fails). */
  method UpdateGroupMembers(c: Context, svc: GroupService, group: string, req: Option<(seq<string>, seq<string>)>)
    requires StorageUsage.CredentialsTyped(c) && svc.Valid()
    modifies c, svc
    ensures svc.Valid()
    ensures c.keys == old(c.keys) && c.aborted == old(c.aborted) && c.setCookies == old(c.setCookies)
    ensures StorageUsage.GetCredentials(c).Failure? ==>
              c.response == Json(StatusUnauthorized, StorageUsage.MissingCredentialsBody) && svc.log == old(svc.log)
    ensures StorageUsage.GetCredentials(c).Success? && req.None? ==>
              c.response == Json(StatusBadRequest, InvalidRequestBody) && svc.log == old(svc.log)
    ensures StorageUsage.GetCredentials(c).Success? && req.Some? ==>
              svc.log == old(svc.log) + UpdateCalls(group, req.value.0, req.value.1, svc.failures)
              && c.response == UpdateResponse(group, req.value.0, req.value.1, svc.failures)
  {
    var credentials := StorageUsage.GetCredentials(c);
    if credentials.Failure? {
      c.JSON(StatusUnauthorized, StorageUsage.MissingCredentialsBody);
      return;
    }
    if req.None? {
      c.JSON(StatusBadRequest, InvalidRequestBody);
      return;
    }
    var (add, remove) := req.value;
    var code, body := ApplyMemberUpdate(svc, group, add, remove);
    c.JSON(code, body);
  }

  // ---------------------------------------------------------------------------
  // SetUserGroups

  /** A requested group name counts only when it is not blank. */
  predicate IsBlank(g: string)
  {
    forall i | 0 <= i < |g| :: IsSpace(g[i])
  }

  /** The handler's test: a name trims to nothing exactly when it is blank. */
  lemma TrimsToEmptyIffBlank(g: string)
    ensures TrimSpace(g) == "" <==> IsBlank(g)
  {
    var left := TrimLeftSpace(g);
    assert TrimSpace(g) == TrimRightSpace(left);
    assert forall i | 0 <= i < |left| :: g[|g| - |left| + i] == left[i];
  }

  /** One removal call per current group, in the reported order. */
  function RemoveCalls(user: string, groups: seq<string>): (calls: seq<Call>)
    ensures |calls| == |groups|
  {
    if groups == [] then []
    else RemoveCalls(user, groups[..|groups| - 1]) + [RemoveUsers(groups[|groups| - 1], [user])]
  }

  /** One add call per non-blank requested group, in request order and with
      the untrimmed name, up to and including the first that fails. */
  function AddCalls(user: string, requested: seq<string>, failures: map<Call, string>): seq<Call>
  {
    if requested == [] then []
    else if IsBlank(requested[0]) then AddCalls(user, requested[1..], failures)
    else if AddUsers(requested[0], [user]) in failures then [AddUsers(requested[0], [user])]
    else [AddUsers(requested[0], [user])] + AddCalls(user, requested[1..], failures)
  }

  /** The first non-blank requested group whose add fails, if any. */
  function FirstFailedAdd(user: string, requested: seq<string>, failures: map<Call, string>): (r: Option<string>)
    ensures r.Some? ==> AddUsers(r.value, [user]) in failures
  {
    if requested == [] then None
    else if IsBlank(requested[0]) then FirstFailedAdd(user, requested[1..], failures)
    else if AddUsers(requested[0], [user]) in failures then Some(requested[0])
    else FirstFailedAdd(user, requested[1..], failures)
  }

  /** Every call SetUserGroups makes once the request is bound, given the
      membership table when it starts. */
  function SetUserGroupsCalls(user: string, m: Membership, requested: seq<string>, failures: map<Call, string>)
    : seq<Call>
  {
    if GetUser(user) in failures then [GetUser(user)]
    else [GetUser(user)] + RemoveCalls(user, GroupsOf(m, user)) + AddCalls(user, requested, failures)
  }

  /** No add call fails exactly when there is no first failed add. */
  lemma {:induction false} NoFailedAddCall(user: string, requested: seq<string>, failures: map<Call, string>)
    ensures FirstFailedAdd(user, requested, failures).None? <==>
              forall call | call in AddCalls(user, requested, failures) :: call !in failures
    decreases |requested|
  {
    if requested != [] {
      NoFailedAddCall(user, requested[1..], failures);
    }
  }

  /** Its answer once the request is bound: 200 with the success message
      exactly when GetUser and every add call succeeded, whatever the
      removals did; otherwise 500 with an error. */
  function SetUserGroupsResponse(user: string, requested: seq<string>, failures: map<Call, string>): (r: Response)
    ensures r.Json? && (r.code == StatusOK || r.code == StatusInternalServerError)
    ensures r.code == StatusOK <==>
              GetUser(user) !in failures && forall call | call in AddCalls(user, requested, failures) :: call !in failures
    ensures r.code == StatusOK ==> r.body == MessageBody("User groups updated successfully")
    ensures r.code == StatusInternalServerError ==> "error" in r.body && "message" !in r.body
  {
    NoFailedAddCall(user, requested, failures);
    if GetUser(user) in failures then
      Json(StatusInternalServerError, ErrorBody("Failed to get user info: " + failures[GetUser(user)]))
    else match FirstFailedAdd(user, requested, failures)
      case Some(g) =>
        Json(StatusInternalServerError,
             ErrorBody("Failed to add user to group '" + g + "': " + failures[AddUsers(g, [user])]))
      case None => Json(StatusOK, MessageBody("User groups updated successfully"))
  }

  /** A failing GetUser ends the handler before any membership change. */
  lemma {:induction false} GetUserFailureChangesNothing(user: string, m: Membership, requested: seq<string>,
                                                        failures: map<Call, string>)
    requires GetUser(user) in failures
    ensures Run(m, SetUserGroupsCalls(user, m, requested, failures), failures) == m
  {
    assert SetUserGroupsCalls(user, m, requested, failures) == [] + [GetUser(user)];
  }

  /** The removal calls cover every current group. */
  lemma {:induction false} EveryCurrentGroupIsRemoved(user: string, groups: seq<string>, g: string)
    requires g in groups
    ensures RemoveUsers(g, [user]) in RemoveCalls(user, groups)
  {
    var init := groups[..|groups| - 1];
    if g != groups[|groups| - 1] {
      assert g in init by {
        assert groups == init + [groups[|groups| - 1]];
      }
      EveryCurrentGroupIsRemoved(user, init, g);
    }
  }

  /** The removals, when they succeed, clear exactly those groups from the
      user's list and touch no other user. */
  lemma {:induction false} RemoveCallsEffect(m: Membership, user: string, groups: seq<string>, u: string, g: string)
    ensures g in GroupsOf(Run(m, RemoveCalls(user, groups), map[]), u) <==>
              g in GroupsOf(m, u) && !(u == user && g in groups)
  {
    if groups != [] {
      var init := groups[..|groups| - 1];
      var last := groups[|groups| - 1];
      var calls := RemoveCalls(user, groups);
      assert calls[..|calls| - 1] == RemoveCalls(user, init);
      RemoveCallsEffect(m, user, init, u, g);
      RemoveEffect(Run(m, RemoveCalls(user, init), map[]), last, [user], u, g);
      assert forall x :: x in groups <==> x in init || x == last by {
        assert groups == init + [last];
      }
    }
  }

  /** Every add names a non-blank requested group as it was written, with
      the user alone. */
  lemma {:induction false} AddCallsUseRequestedNames(user: string, requested: seq<string>, failures: map<Call, string>,
                                                     k: nat)
    requires k < |AddCalls(user, requested, failures)|
    ensures var call := AddCalls(user, requested, failures)[k];
            call.AddUsers? && call.users == [user] && call.group in requested && !IsBlank(call.group)
  {
    var rest := requested[1..];
    assert forall x | x in rest :: x in requested;
    if IsBlank(requested[0]) {
      AddCallsUseRequestedNames(user, rest, failures, k);
    } else if k > 0 {
      AddCallsUseRequestedNames(user, rest, failures, k - 1);
    }
  }

  /** The adds stop at the first failure: only the last add made can have
      failed. */
  lemma {:induction false} AddCallsStopAtFailure(user: string, requested: seq<string>, failures: map<Call, string>,
                                                 k: nat)
    requires k + 1 < |AddCalls(user, requested, failures)|
    ensures AddCalls(user, requested, failures)[k] !in failures
  {
    var rest := requested[1..];
    if IsBlank(requested[0]) {
      AddCallsStopAtFailure(user, rest, failures, k);
    } else if k > 0 {
      AddCallsStopAtFailure(user, rest, failures, k - 1);
    }
  }

  /** Running a successful call and then others is running the others on
      the call's effect. */
  lemma {:induction false} AddFirst(m: Membership, user: string, first: string, rest: seq<Call>)
    ensures Run(m, [AddUsers(first, [user])] + rest, map[]) == Run(Effect(m, AddUsers(first, [user])), rest, map[])
  {
    RunAppend(m, [AddUsers(first, [user])], rest, map[]);
    assert [AddUsers(first, [user])][..0] == [];
  }

  /** The adds, when they succeed, put exactly the non-blank requested groups
      into the user's list and touch no other user. */
  lemma {:induction false} AddCallsEffect(m: Membership, user: string, requested: seq<string>, u: string, g: string)
    ensures g in GroupsOf(Run(m, AddCalls(user, requested, map[]), map[]), u) <==>
              g in GroupsOf(m, u) || (u == user && g in requested && !IsBlank(g))
    decreases requested
  {
    if requested != [] {
      var first := requested[0];
      var rest := requested[1..];
      assert g in requested <==> g == first || g in rest by {
        assert requested == [first] + rest;
      }
      if IsBlank(first) {
        AddCallsEffect(m, user, rest, u, g);
      } else {
        var m1 := Effect(m, AddUsers(first, [user]));
        AddFirst(m, user, first, AddCalls(user, rest, map[]));
        AddEffect(m, first, [user], u, g);
        AddCallsEffect(m1, user, rest, u, g);
      }
    }
  }

  /** When every call succeeds, SetUserGroups leaves the user in exactly the
      non-blank requested groups, as "sets all groups for a user" promises,
      and every other user's groups as they were. */
  lemma {:induction false} SetUserGroupsSetsExactly(m: Membership, user: string, requested: seq<string>,
                                                    u: string, g: string)
    ensures var after := Run(m, SetUserGroupsCalls(user, m, requested, map[]), map[]);
            (u == user ==> (g in GroupsOf(after, u) <==> g in requested && !IsBlank(g)))
            && (u != user ==> (g in GroupsOf(after, u) <==> g in GroupsOf(m, u)))
  {
    var removes := RemoveCalls(user, GroupsOf(m, user));
    var adds := AddCalls(user, requested, map[]);
    assert SetUserGroupsCalls(user, m, requested, map[]) == ([GetUser(user)] + removes) + adds;
    RunAppend(m, [GetUser(user)] + removes, adds, map[]);
    RunAppend(m, [GetUser(user)], removes, map[]);
    assert Run(m, [GetUser(user)], map[]) == m by {
      assert [GetUser(user)][..0] == [];
    }
    var cleared := Run(m, removes, map[]);
    RemoveCallsEffect(m, user, GroupsOf(m, user), u, g);
    AddCallsEffect(cleared, user, requested, u, g);
  }

  /** The removal loop of SetUserGroups: one call per current group, in
      order, whatever each call answers. */
  method RemoveFromGroups(svc: GroupService, userName: string, current: seq<string>)
    requires svc.Valid()
    modifies svc
    ensures svc.Valid()
    ensures svc.log == old(svc.log) + RemoveCalls(userName, current)
  {
    ghost var log0 := svc.log;
    for i := 0 to |current|
      invariant svc.Valid()
      invariant svc.log == log0 + RemoveCalls(userName, current[..i])
    {
      assert current[..i + 1][..i] == current[..i];
      var r := svc.RemoveUsersFromGroup(current[i], [userName]);
    }
    assert current[..|current|] == current;
  }

  /** The add loop skips a blank name. */
  lemma SkipBlank(user: string, requested: seq<string>, i: nat, failures: map<Call, string>)
    requires i < |requested| && IsBlank(requested[i])
    ensures AddCalls(user, requested[i..], failures) == AddCalls(user, requested[i + 1..], failures)
    ensures FirstFailedAdd(user, requested[i..], failures) == FirstFailedAdd(user, requested[i + 1..], failures)
  {
    assert requested[i..][1..] == requested[i + 1..];
  }

  /** A successful add is made and the loop goes on. */
  lemma AddAndContinue(user: string, requested: seq<string>, i: nat, failures: map<Call, string>)
    requires i < |requested| && !IsBlank(requested[i]) && AddUsers(requested[i], [user]) !in failures
    ensures AddCalls(user, requested[i..], failures)
            == [AddUsers(requested[i], [user])] + AddCalls(user, requested[i + 1..], failures)
    ensures FirstFailedAdd(user, requested[i..], failures) == FirstFailedAdd(user, requested[i + 1..], failures)
  {
    assert requested[i..][1..] == requested[i + 1..];
  }

  /** A failing add is the last call and the one reported. */
  lemma AddAndStop(user: string, requested: seq<string>, i: nat, failures: map<Call, string>)
    requires i < |requested| && !IsBlank(requested[i]) && AddUsers(requested[i], [user]) in failures
    ensures AddCalls(user, requested[i..], failures) == [AddUsers(requested[i], [user])]
    ensures FirstFailedAdd(user, requested[i..], failures) == Some(requested[i])
  {
  }

  /** One turn of the add loop: a group name that trims to "" is skipped,
      any other is added. */
  method AddIfNamed(svc: GroupService, userName: string, group: string) returns (r: Outcome)
    requires svc.Valid()
    modifies svc
    ensures svc.Valid()
    ensures IsBlank(group) ==> r == Pass && svc.log == old(svc.log)
    ensures !IsBlank(group) ==>
              svc.log == old(svc.log) + [AddUsers(group, [userName])] && r == OutcomeOf(AddUsers(group, [userName]), svc.failures)
  {
    TrimsToEmptyIffBlank(group);
    if TrimSpace(group) != "" {
      r := svc.AddUsersToGroup(group, [userName]);
    } else {
      r := Pass;
    }
  }

  /** The add loop of SetUserGroups: the non-blank requested groups in
      order, stopping at the first failure, which it reports with its error. */
  method AddToGroups(svc: GroupService, userName: string, requested: seq<string>)
    returns (failed: Option<(string, string)>)
    requires svc.Valid()
    modifies svc
    ensures svc.Valid()
    ensures svc.log == old(svc.log) + AddCalls(userName, requested, svc.failures)
    ensures failed.None? <==> FirstFailedAdd(userName, requested, svc.failures).None?
    ensures failed.Some? ==>
              failed.value.0 == FirstFailedAdd(userName, requested, svc.failures).value
              && failed.value.1 == svc.failures[AddUsers(failed.value.0, [userName])]
  {
    ghost var log0 := svc.log;
    ghost var made: seq<Call> := [];
    for i := 0 to |requested|
      invariant svc.Valid()
      invariant made + AddCalls(userName, requested[i..], svc.failures) == AddCalls(userName, requested, svc.failures)
      invariant FirstFailedAdd(userName, requested[i..], svc.failures) == FirstFailedAdd(userName, requested, svc.failures)
      invariant svc.log == log0 + made
    {
      ghost var call := AddUsers(requested[i], [userName]);
      ghost var madeBefore := made;
      var r := AddIfNamed(svc, userName, requested[i]);
      if IsBlank(requested[i]) {
        SkipBlank(userName, requested, i, svc.failures);
      } else if r.Fail? {
        AddAndStop(userName, requested, i, svc.failures);
        made := made + [call];
        assert made == AddCalls(userName, requested, svc.failures);
        return Some((requested[i], r.error));
      } else {
        AddAndContinue(userName, requested, i, svc.failures);
        made := made + [call];
        assert made + AddCalls(userName, requested[i + 1..], svc.failures)
               == madeBefore + AddCalls(userName, requested[i..], svc.failures);
      }
    }
    assert requested[|requested|..] == [];
    assert AddCalls(userName, [], svc.failures) == [];
    assert made == AddCalls(userName, requested, svc.failures);
    return None;
  }

  /** The service side of SetUserGroups once the request is bound, with the
      status and body of its answer. */
  method ResetUserGroups(svc: GroupService, userName: string, requested: seq<string>) returns (code: int, body: H)
    requires svc.Valid()
    modifies svc
    ensures svc.Valid()
    ensures svc.log == old(svc.log) + SetUserGroupsCalls(userName, old(svc.memberOf), requested, svc.failures)
    ensures Json(code, body) == SetUserGroupsResponse(userName, requested, svc.failures)
  {
    ghost var log0 := svc.log;
    ghost var calls := SetUserGroupsCalls(userName, svc.memberOf, requested, svc.failures);
    var userInfo := svc.GetUserInfo(userName);
    if userInfo.Failure? {
      return StatusInternalServerError, ErrorBody("Failed to get user info: " + userInfo.error);
    }
    ghost var removes := RemoveCalls(userName, userInfo.value);
    ghost var adds := AddCalls(userName, requested, svc.failures);
    assert calls == [GetUser(userName)] + removes + adds;
    RemoveFromGroups(svc, userName, userInfo.value);
    var failed := AddToGroups(svc, userName, requested);
    assert ((log0 + [GetUser(userName)]) + removes) + adds == log0 + ([GetUser(userName)] + removes + adds);
    if failed.Some? {
      return StatusInternalServerError,
             ErrorBody("Failed to add user to group '" + failed.value.0 + "': " + failed.value.1);
    }
    return StatusOK, MessageBody("User groups updated successfully");
  }

  /** SetUserGroups (the user is the route's :name parameter, the request
      body the bound group list or None when binding fails): GetUser, then a
      removal from every current group that carries on past failures, then
      the adds that stop at the first failure. */
  method SetUserGroups(c: Context, svc: GroupService, userName: string, req: Option<seq<string>>)
    requires StorageUsage.CredentialsTyped(c) && svc.Valid()
    modifies c, svc
    ensures svc.Valid()
    ensures c.keys == old(c.keys) && c.aborted == old(c.aborted) && c.setCookies == old(c.setCookies)
    ensures StorageUsage.GetCredentials(c).Failure? ==>
              c.response == Json(StatusUnauthorized, StorageUsage.MissingCredentialsBody) && svc.log == old(svc.log)
    ensures StorageUsage.GetCredentials(c).Success? && req.None? ==>
              c.response == Json(StatusBadRequest, InvalidRequestBody) && svc.log == old(svc.log)
    ensures StorageUsage.GetCredentials(c).Success? && req.Some? ==>
              svc.log == old(svc.log) + SetUserGroupsCalls(userName, old(svc.memberOf), req.value, svc.failures)
              && c.response == SetUserGroupsResponse(userName, req.value, svc.failures)
  {
    var credentials := StorageUsage.GetCredentials(c);
    if credentials.Failure? {
      c.JSON(StatusUnauthorized, StorageUsage.MissingCredentialsBody);
      return;
    }
    if req.None? {
      c.JSON(StatusBadRequest, InvalidRequestBody);
      return;
    }
    var code, body := ResetUserGroups(svc, userName, req.value);
    c.JSON(code, body);
  }
}
