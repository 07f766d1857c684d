/** The route table of main.go: the router, its groups and the middleware
    chain each route runs before its handler, plus the PORT default.

    A path is kept as its list of '/'-separated segments, so "/" is [],
    "/buckets/:name/policy" is ["buckets", ":name", "policy"], and joining a
    group prefix with a relative path is concatenation. */
module Routes {
  import opened Common
  import opened Gin
  import Jwt
  import I18n
  import Language
  import AuthMiddleware
  import Config

  datatype Verb = GET | POST | PUT | DELETE

  /** A middleware function as it appears in a handler chain. */
  datatype Guard =
    | Localize                  // middleware.LanguageMiddleware()
    | Auth                      // middleware.AuthRequired()
    | Require(permission: string)  // middleware.RequirePermission(permission)

  /** A registered route: the verb, the full path, the middleware that runs
      before the handler, in order, and the handler's name. */
  datatype Route = Route(verb: Verb, path: seq<string>, guards: seq<Guard>, handler: string)

  /** A router group: its path prefix and the middleware it hands to every
      route and sub-group registered through it. */
  datatype Group = Group(prefix: seq<string>, guards: seq<Guard>)

  /** RouterGroup.Group: a sub-group under the relative path, starting with
      the parent's middleware. */
  function SubGroup(g: Group, relativePath: seq<string>): Group
  {
    Group(g.prefix + relativePath, g.guards)
  }

  /** RouterGroup.Use: the group with one more middleware at the end. */
  function WithGuard(g: Group, guard: Guard): Group
  {
    Group(g.prefix, g.guards + [guard])
  }

  /** The gin engine: the root group's middleware and the routes registered
      so far. */
  class Engine {
    var middleware: seq<Guard>
    var routes: seq<Route>

    /** gin.Default() before any Use: no middleware of the model's and no route. */
    constructor ()
      ensures middleware == [] && routes == []
    {
      middleware := [];
      routes := [];
    }

    /** The engine as a group: prefix "/" and its own middleware. */
    function Root(): Group
      reads this
    {
      Group([], middleware)
    }

    /** Engine.Use: adds a middleware that later routes will run first. */
    method Use(guard: Guard)
      modifies this
      ensures middleware == old(middleware) + [guard] && routes == old(routes)
    {
      middleware := middleware + [guard];
    }

    /** group.GET/POST/PUT/DELETE: registers a route under the group's prefix
        whose chain is the group's middleware, then the route's own. */
    method Handle(g: Group, verb: Verb, relativePath: seq<string>, own: seq<Guard>, handler: string)
      modifies this
      ensures routes == old(routes) + [Route(verb, g.prefix + relativePath, g.guards + own, handler)]
      ensures middleware == old(middleware)
    {
      routes := routes + [Route(verb, g.prefix + relativePath, g.guards + own, handler)];
    }
  }

  // ---------------------------------------------------------------------------
  // What the routes promise

  /** The four routes outside AuthRequired. */
  predicate IsPublic(path: seq<string>)
  {
    path in {[], ["health"], ["login"], ["logout"]}
  }

  /** The permissions a route needs, as main.go's comments describe them:
      the bucket area needs canListBuckets, and creating, deleting and setting
      a bucket's policy need one more flag each; user, group, service-account
      and policy management need canManageUsers; the settings page needs
      isAdmin; the dashboard and the AJAX API need none. */
  function RequiredFlags(verb: Verb, path: seq<string>): set<string>
  {
    var area := if |path| > 0 then path[0] else "";
    (if area == "buckets" then {"canListBuckets"} else {})
    + (if verb == POST && path == ["buckets"] then {"canCreateBuckets"} else {})
    + (if verb == DELETE && path == ["buckets", ":name"] then {"canDeleteBuckets"} else {})
    + (if verb == PUT && path == ["buckets", ":name", "policy"] then {"canManagePolicies"} else {})
    + (if area in {"users", "groups", "service-accounts", "policies"} then {"canManageUsers"} else {})
    + (if path == ["settings"] then {"isAdmin"} else {})
  }

  predicate RequiresOnly(guards: seq<Guard>)
  {
    forall i | 0 <= i < |guards| :: guards[i].Require?
  }

  /** The permissions a run of guards checks. */
  function PermissionsOf(guards: seq<Guard>): set<string>
  {
    if guards == [] then {}
    else (if guards[0].Require? then {guards[0].permission} else {}) + PermissionsOf(guards[1..])
  }

  /** A route registered on an engine whose middleware is `base` is guarded as
      promised: a public route runs only `base`; any other runs `base`, then
      AuthRequired, then exactly the permission checks RequiredFlags names. */
  predicate Guarded(route: Route, base: seq<Guard>)
  {
    |route.guards| >= |base| && route.guards[..|base|] == base
    && var own := route.guards[|base|..];
       if IsPublic(route.path) then own == []
       else |own| > 0 && own[0] == Auth && RequiresOnly(own[1..])
            && PermissionsOf(own[1..]) == RequiredFlags(route.verb, route.path)
  }

  // ---------------------------------------------------------------------------
  // The table setupRoutes registers

  function PublicTable(base: seq<Guard>): seq<Route>
  {
    [Route(GET, ["health"], base, "health"),
     Route(GET, [], base, "authHandler.LoginPage"),
     Route(POST, ["login"], base, "authHandler.Login"),
     Route(POST, ["logout"], base, "authHandler.Logout")]
  }

  function BucketTable(base: seq<Guard>): seq<Route>
  {
    var list := Require("canListBuckets");
    [Route(GET, ["buckets"], base + [Auth, list], "bucketHandler.ListBuckets"),
     Route(POST, ["buckets"], base + [Auth, list, Require("canCreateBuckets")], "bucketHandler.CreateBucket"),
     Route(DELETE, ["buckets", ":name"], base + [Auth, list, Require("canDeleteBuckets")], "bucketHandler.DeleteBucket"),
     Route(GET, ["buckets", ":name", "policy"], base + [Auth, list], "bucketHandler.GetBucketPolicy"),
     Route(PUT, ["buckets", ":name", "policy"], base + [Auth, list, Require("canManagePolicies")],
           "bucketHandler.SetBucketPolicy")]
  }

  function UserTable(base: seq<Guard>): seq<Route>
  {
    var g := base + [Auth, Require("canManageUsers")];
    [Route(GET, ["users"], g, "userHandler.ListUsers"),
     Route(POST, ["users"], g, "userHandler.CreateUser"),
     Route(GET, ["users", ":name"], g, "userHandler.GetUser"),
     Route(GET, ["users", ":name", "details"], g, "userHandler.GetUserDetails"),
     Route(GET, ["users", ":name", "credentials"], g, "userHandler.GetUserCredentials"),
     Route(DELETE, ["users", ":name"], g, "userHandler.DeleteUser"),
     Route(PUT, ["users", ":name", "credentials"], g, "userHandler.UpdateUserCredentials"),
     Route(PUT, ["users", ":name", "status"], g, "userHandler.SetUserStatus"),
     Route(GET, ["users", ":name", "policy"], g, "userHandler.GetUserPolicy"),
     Route(PUT, ["users", ":name", "policy"], g, "userHandler.SetUserPolicy"),
     Route(PUT, ["users", ":name", "groups"], g, "groupHandler.SetUserGroups")]
  }

  function GroupTable(base: seq<Guard>): seq<Route>
  {
    var g := base + [Auth, Require("canManageUsers")];
    [Route(GET, ["groups"], g, "groupHandler.ListGroups"),
     Route(POST, ["groups"], g, "groupHandler.CreateGroup"),
     Route(GET, ["groups", ":name"], g, "groupHandler.GetGroupInfo"),
     Route(DELETE, ["groups", ":name"], g, "groupHandler.DeleteGroup"),
     Route(PUT, ["groups", ":name", "members"], g, "groupHandler.UpdateGroupMembers"),
     Route(PUT, ["groups", ":name", "policy"], g, "groupHandler.SetGroupPolicy")]
  }

  function ServiceAccountTable(base: seq<Guard>): seq<Route>
  {
    var g := base + [Auth, Require("canManageUsers")];
    [Route(GET, ["service-accounts"], g, "serviceAccountHandler.ListServiceAccounts"),
     Route(POST, ["service-accounts"], g, "serviceAccountHandler.CreateServiceAccount"),
     Route(GET, ["service-accounts", ":accessKey"], g, "serviceAccountHandler.GetServiceAccountInfo"),
     Route(DELETE, ["service-accounts", ":accessKey"], g, "serviceAccountHandler.DeleteServiceAccount")]
  }

  function PolicyTable(base: seq<Guard>): seq<Route>
  {
    var g := base + [Auth, Require("canManageUsers")];
    [Route(GET, ["policies"], g, "policyHandler.ListPolicies"),
     Route(GET, ["policies", ":name"], g, "policyHandler.GetPolicyDocument"),
     Route(POST, ["policies", ":name"], g, "policyHandler.CreateOrUpdatePolicy"),
     Route(PUT, ["policies", ":name"], g, "policyHandler.CreateOrUpdatePolicy"),
     Route(DELETE, ["policies", ":name"], g, "policyHandler.DeletePolicy")]
  }

  function DashboardTable(base: seq<Guard>): seq<Route>
  {
    [Route(GET, ["dashboard"], base + [Auth], "dashboard")]
  }

  function SettingsTable(base: seq<Guard>): seq<Route>
  {
    [Route(GET, ["settings"], base + [Auth, Require("isAdmin")], "settingsHandler.ShowSettings")]
  }

  /** The AJAX API: authentication only. */
  function ApiTable(base: seq<Guard>): seq<Route>
  {
    var g := base + [Auth];
    [Route(GET, ["api", "server-info"], g, "apiHandler.GetServerInfo"),
     Route(GET, ["api", "metrics"], g, "apiHandler.GetMetrics"),
     Route(GET, ["api", "storage-usage"], g, "apiHandler.GetStorageUsage"),
     Route(GET, ["api", "policies"], g, "userHandler.ListPolicies"),
     Route(GET, ["api", "groups"], g, "groupHandler.ListGroups as JSON"),
     Route(GET, ["api", "service-accounts"], g, "serviceAccountHandler.ListServiceAccounts"),
     Route(POST, ["api", "service-accounts"], g, "serviceAccountHandler.CreateServiceAccount"),
     Route(GET, ["api", "service-accounts", ":accessKey"], g, "serviceAccountHandler.GetServiceAccountInfo"),
     Route(DELETE, ["api", "service-accounts", ":accessKey"], g, "serviceAccountHandler.DeleteServiceAccount")]
  }

  /** The routes of the management groups, in registration order. */
  function ManagementTable(base: seq<Guard>): seq<Route>
  {
    UserTable(base) + GroupTable(base) + ServiceAccountTable(base) + PolicyTable(base)
  }

  /** Every route setupRoutes registers, in registration order. */
  function RouteTable(base: seq<Guard>): seq<Route>
  {
    PublicTable(base) + DashboardTable(base) + BucketTable(base) + ManagementTable(base)
    + SettingsTable(base) + ApiTable(base)
  }

  predicate AllGuarded(routes: seq<Route>, base: seq<Guard>)
  {
    forall i | 0 <= i < |routes| :: Guarded(routes[i], base)
  }

  lemma {:induction false} AllGuardedJoin(a: seq<Route>, b: seq<Route>, base: seq<Guard>)
    requires AllGuarded(a, base) && AllGuarded(b, base)
    ensures AllGuarded(a + b, base)
  {
    forall i | 0 <= i < |a + b|
      ensures Guarded((a + b)[i], base)
    {
      if i >= |a| {
        assert (a + b)[i] == b[i - |a|];
      }
    }
  }

  /** A protected route is guarded when its own chain is AuthRequired then
      exactly the checks its path needs. */
  lemma {:induction false} ProtectedGuarded(route: Route, base: seq<Guard>, checks: seq<Guard>)
    requires route.guards == base + ([Auth] + checks) && !IsPublic(route.path)
    requires RequiresOnly(checks) && PermissionsOf(checks) == RequiredFlags(route.verb, route.path)
    ensures Guarded(route, base)
  {
    assert route.guards[|base|..] == [Auth] + checks;
    assert ([Auth] + checks)[1..] == checks;
  }

  lemma {:induction false} PermissionsOfPair(p: string, q: string)
    ensures PermissionsOf([Require(p), Require(q)]) == {p, q}
  {
    assert [Require(q)][1..] == [];
    assert PermissionsOf([Require(q)]) == {q};
    assert [Require(p), Require(q)][1..] == [Require(q)];
  }

  lemma {:induction false} BucketTableGuarded(base: seq<Guard>)
    ensures AllGuarded(BucketTable(base), base)
  {
    var routes := BucketTable(base);
    var list := Require("canListBuckets");
    PermissionsOfPair("canListBuckets", "canCreateBuckets");
    PermissionsOfPair("canListBuckets", "canDeleteBuckets");
    PermissionsOfPair("canListBuckets", "canManagePolicies");
    ProtectedGuarded(routes[0], base, [list]);
    ProtectedGuarded(routes[1], base, [list, Require("canCreateBuckets")]);
    ProtectedGuarded(routes[2], base, [list, Require("canDeleteBuckets")]);
    ProtectedGuarded(routes[3], base, [list]);
    ProtectedGuarded(routes[4], base, [list, Require("canManagePolicies")]);
  }

  lemma {:induction false} ApiTableGuarded(base: seq<Guard>)
    ensures AllGuarded(ApiTable(base), base)
  {
    var routes := ApiTable(base);
    forall i | 0 <= i < |routes|
      ensures Guarded(routes[i], base)
    {
      ProtectedGuarded(routes[i], base, []);
    }
  }

  lemma {:induction false} PublicTableGuarded(base: seq<Guard>)
    ensures AllGuarded(PublicTable(base), base)
  {
  }

  lemma {:induction false} UserTableGuarded(base: seq<Guard>)
    ensures AllGuarded(UserTable(base), base)
  {
    ManagedGuarded(UserTable(base), base);
  }

  lemma {:induction false} GroupTableGuarded(base: seq<Guard>)
    ensures AllGuarded(GroupTable(base), base)
  {
    ManagedGuarded(GroupTable(base), base);
  }

  lemma {:induction false} ServiceAccountTableGuarded(base: seq<Guard>)
    ensures AllGuarded(ServiceAccountTable(base), base)
  {
    ManagedGuarded(ServiceAccountTable(base), base);
  }

  lemma {:induction false} PolicyTableGuarded(base: seq<Guard>)
    ensures AllGuarded(PolicyTable(base), base)
  {
    ManagedGuarded(PolicyTable(base), base);
  }

  lemma {:induction false} ManagementTableGuarded(base: seq<Guard>)
    ensures AllGuarded(ManagementTable(base), base)
  {
    var users, groups, accounts, policies := UserTable(base), GroupTable(base), ServiceAccountTable(base), PolicyTable(base);
    UserTableGuarded(base);
    GroupTableGuarded(base);
    ServiceAccountTableGuarded(base);
    PolicyTableGuarded(base);
    AllGuardedJoin(users, groups, base);
    AllGuardedJoin(users + groups, accounts, base);
    AllGuardedJoin(users + groups + accounts, policies, base);
  }

  /** Every route of the table keeps the promise of Guarded. */
  lemma {:induction false} RouteTableGuarded(base: seq<Guard>)
    ensures AllGuarded(RouteTable(base), base)
  {
    var t0 := PublicTable(base);
    var t1 := t0 + DashboardTable(base);
    var t2 := t1 + BucketTable(base);
    var t3 := t2 + ManagementTable(base);
    var t4 := t3 + SettingsTable(base);
    PublicTableGuarded(base);
    ProtectedGuarded(DashboardTable(base)[0], base, []);
    BucketTableGuarded(base);
    ManagementTableGuarded(base);
    ProtectedGuarded(SettingsTable(base)[0], base, [Require("isAdmin")]);
    ApiTableGuarded(base);
    AllGuardedJoin(t0, DashboardTable(base), base);
    AllGuardedJoin(t1, BucketTable(base), base);
    AllGuardedJoin(t2, ManagementTable(base), base);
    AllGuardedJoin(t3, SettingsTable(base), base);
    AllGuardedJoin(t4, ApiTable(base), base);
  }

  /** A management table: every route is under one area that needs
      canManageUsers, and its chain is AuthRequired then that one check. */
  lemma {:induction false} ManagedGuarded(routes: seq<Route>, base: seq<Guard>)
    requires forall i | 0 <= i < |routes| ::
               routes[i].guards == base + [Auth, Require("canManageUsers")]
               && |routes[i].path| > 0 && routes[i].path[0] in {"users", "groups", "service-accounts", "policies"}
    ensures AllGuarded(routes, base)
  {
    forall i | 0 <= i < |routes|
      ensures Guarded(routes[i], base)
    {
      assert !IsPublic(routes[i].path);
    }
  }

  // ---------------------------------------------------------------------------
  // setupRoutes

  /** The health check and the three authentication routes, on the engine. */
  method SetupPublicRoutes(r: Engine)
    modifies r
    ensures r.routes == old(r.routes) + PublicTable(r.middleware) && r.middleware == old(r.middleware)
  {
    var root := r.Root();
    assert root.prefix + ["health"] == ["health"];
    assert root.guards + [] == r.middleware;
    assert root.prefix + [] == [];
    assert root.prefix + ["login"] == ["login"];
    assert root.prefix + ["logout"] == ["logout"];
    r.Handle(root, GET, ["health"], [], "health");
    r.Handle(root, GET, [], [], "authHandler.LoginPage");
    r.Handle(root, POST, ["login"], [], "authHandler.Login");
    r.Handle(root, POST, ["logout"], [], "authHandler.Logout");
  }

  /** The bucket group under the protected group: canListBuckets for the
      group, one more check on the routes that change something. */
  method SetupBucketRoutes(r: Engine, protected: Group)
    requires protected == Group([], r.middleware + [Auth])
    modifies r
    ensures r.routes == old(r.routes) + BucketTable(r.middleware) && r.middleware == old(r.middleware)
  {
    var bucketRoutes := WithGuard(SubGroup(protected, ["buckets"]), Require("canListBuckets"));
    assert bucketRoutes.prefix + [] == ["buckets"];
    assert bucketRoutes.guards + [] == r.middleware + [Auth, Require("canListBuckets")];
    assert bucketRoutes.guards + [Require("canCreateBuckets")] == r.middleware + [Auth, Require("canListBuckets"), Require("canCreateBuckets")];
    assert bucketRoutes.prefix + [":name"] == ["buckets", ":name"];
    assert bucketRoutes.guards + [Require("canDeleteBuckets")] == r.middleware + [Auth, Require("canListBuckets"), Require("canDeleteBuckets")];
    assert bucketRoutes.prefix + [":name", "policy"] == ["buckets", ":name", "policy"];
    assert bucketRoutes.guards + [Require("canManagePolicies")] == r.middleware + [Auth, Require("canListBuckets"), Require("canManagePolicies")];
    r.Handle(bucketRoutes, GET, [], [], "bucketHandler.ListBuckets");
    r.Handle(bucketRoutes, POST, [], [Require("canCreateBuckets")], "bucketHandler.CreateBucket");
    r.Handle(bucketRoutes, DELETE, [":name"], [Require("canDeleteBuckets")], "bucketHandler.DeleteBucket");
    r.Handle(bucketRoutes, GET, [":name", "policy"], [], "bucketHandler.GetBucketPolicy");
    r.Handle(bucketRoutes, PUT, [":name", "policy"], [Require("canManagePolicies")], "bucketHandler.SetBucketPolicy");
  }

  /** The user group: canManageUsers for every route. */
  method SetupUserRoutes(r: Engine, protected: Group)
    requires protected == Group([], r.middleware + [Auth])
    modifies r
    ensures r.routes == old(r.routes) + UserTable(r.middleware) && r.middleware == old(r.middleware)
  {
    var userRoutes := WithGuard(SubGroup(protected, ["users"]), Require("canManageUsers"));
    assert userRoutes.prefix + [] == ["users"];
    assert userRoutes.guards + [] == r.middleware + [Auth, Require("canManageUsers")];
    assert userRoutes.prefix + [":name"] == ["users", ":name"];
    assert userRoutes.prefix + [":name", "details"] == ["users", ":name", "details"];
    assert userRoutes.prefix + [":name", "credentials"] == ["users", ":name", "credentials"];
    assert userRoutes.prefix + [":name", "status"] == ["users", ":name", "status"];
    assert userRoutes.prefix + [":name", "policy"] == ["users", ":name", "policy"];
    assert userRoutes.prefix + [":name", "groups"] == ["users", ":name", "groups"];
    r.Handle(userRoutes, GET, [], [], "userHandler.ListUsers");
    r.Handle(userRoutes, POST, [], [], "userHandler.CreateUser");
    r.Handle(userRoutes, GET, [":name"], [], "userHandler.GetUser");
    r.Handle(userRoutes, GET, [":name", "details"], [], "userHandler.GetUserDetails");
    r.Handle(userRoutes, GET, [":name", "credentials"], [], "userHandler.GetUserCredentials");
    r.Handle(userRoutes, DELETE, [":name"], [], "userHandler.DeleteUser");
    r.Handle(userRoutes, PUT, [":name", "credentials"], [], "userHandler.UpdateUserCredentials");
    r.Handle(userRoutes, PUT, [":name", "status"], [], "userHandler.SetUserStatus");
    r.Handle(userRoutes, GET, [":name", "policy"], [], "userHandler.GetUserPolicy");
    r.Handle(userRoutes, PUT, [":name", "policy"], [], "userHandler.SetUserPolicy");
    r.Handle(userRoutes, PUT, [":name", "groups"], [], "groupHandler.SetUserGroups");
  }

  /** The group-management group: canManageUsers for every route. */
  method SetupGroupRoutes(r: Engine, protected: Group)
    requires protected == Group([], r.middleware + [Auth])
    modifies r
    ensures r.routes == old(r.routes) + GroupTable(r.middleware) && r.middleware == old(r.middleware)
  {
    var groupRoutes := WithGuard(SubGroup(protected, ["groups"]), Require("canManageUsers"));
    assert groupRoutes.prefix + [] == ["groups"];
    assert groupRoutes.guards + [] == r.middleware + [Auth, Require("canManageUsers")];
    assert groupRoutes.prefix + [":name"] == ["groups", ":name"];
    assert groupRoutes.prefix + [":name", "members"] == ["groups", ":name", "members"];
    assert groupRoutes.prefix + [":name", "policy"] == ["groups", ":name", "policy"];
    r.Handle(groupRoutes, GET, [], [], "groupHandler.ListGroups");
    r.Handle(groupRoutes, POST, [], [], "groupHandler.CreateGroup");
    r.Handle(groupRoutes, GET, [":name"], [], "groupHandler.GetGroupInfo");
    r.Handle(groupRoutes, DELETE, [":name"], [], "groupHandler.DeleteGroup");
    r.Handle(groupRoutes, PUT, [":name", "members"], [], "groupHandler.UpdateGroupMembers");
    r.Handle(groupRoutes, PUT, [":name", "policy"], [], "groupHandler.SetGroupPolicy");
  }

  /** The service-account group: canManageUsers for every route. */
  method SetupServiceAccountRoutes(r: Engine, protected: Group)
    requires protected == Group([], r.middleware + [Auth])
    modifies r
    ensures r.routes == old(r.routes) + ServiceAccountTable(r.middleware) && r.middleware == old(r.middleware)
  {
    var accountRoutes := WithGuard(SubGroup(protected, ["service-accounts"]), Require("canManageUsers"));
    assert accountRoutes.prefix + [] == ["service-accounts"];
    assert accountRoutes.guards + [] == r.middleware + [Auth, Require("canManageUsers")];
    assert accountRoutes.prefix + [":accessKey"] == ["service-accounts", ":accessKey"];
    r.Handle(accountRoutes, GET, [], [], "serviceAccountHandler.ListServiceAccounts");
    r.Handle(accountRoutes, POST, [], [], "serviceAccountHandler.CreateServiceAccount");
    r.Handle(accountRoutes, GET, [":accessKey"], [], "serviceAccountHandler.GetServiceAccountInfo");
    r.Handle(accountRoutes, DELETE, [":accessKey"], [], "serviceAccountHandler.DeleteServiceAccount");
  }

  /** The policy group: canManageUsers for every route. */
  method SetupPolicyRoutes(r: Engine, protected: Group)
    requires protected == Group([], r.middleware + [Auth])
    modifies r
    ensures r.routes == old(r.routes) + PolicyTable(r.middleware) && r.middleware == old(r.middleware)
  {
    var policyRoutes := WithGuard(SubGroup(protected, ["policies"]), Require("canManageUsers"));
    assert policyRoutes.prefix + [] == ["policies"];
    assert policyRoutes.guards + [] == r.middleware + [Auth, Require("canManageUsers")];
    assert policyRoutes.prefix + [":name"] == ["policies", ":name"];
    r.Handle(policyRoutes, GET, [], [], "policyHandler.ListPolicies");
    r.Handle(policyRoutes, GET, [":name"], [], "policyHandler.GetPolicyDocument");
    r.Handle(policyRoutes, POST, [":name"], [], "policyHandler.CreateOrUpdatePolicy");
    r.Handle(policyRoutes, PUT, [":name"], [], "policyHandler.CreateOrUpdatePolicy");
    r.Handle(policyRoutes, DELETE, [":name"], [], "policyHandler.DeletePolicy");
  }

  /** The API group, which adds no middleware of its own. */
  method SetupApiRoutes(r: Engine, protected: Group)
    requires protected == Group([], r.middleware + [Auth])
    modifies r
    ensures r.routes == old(r.routes) + ApiTable(r.middleware) && r.middleware == old(r.middleware)
  {
    var api := SubGroup(protected, ["api"]);
    assert api.guards + [] == r.middleware + [Auth];
    assert api.prefix + ["server-info"] == ["api", "server-info"];
    assert api.prefix + ["metrics"] == ["api", "metrics"];
    assert api.prefix + ["storage-usage"] == ["api", "storage-usage"];
    assert api.prefix + ["policies"] == ["api", "policies"];
    assert api.prefix + ["groups"] == ["api", "groups"];
    assert api.prefix + ["service-accounts"] == ["api", "service-accounts"];
    assert api.prefix + ["service-accounts", ":accessKey"] == ["api", "service-accounts", ":accessKey"];
    r.Handle(api, GET, ["server-info"], [], "apiHandler.GetServerInfo");
    r.Handle(api, GET, ["metrics"], [], "apiHandler.GetMetrics");
    r.Handle(api, GET, ["storage-usage"], [], "apiHandler.GetStorageUsage");
    r.Handle(api, GET, ["policies"], [], "userHandler.ListPolicies");
    r.Handle(api, GET, ["groups"], [], "groupHandler.ListGroups as JSON");
    r.Handle(api, GET, ["service-accounts"], [], "serviceAccountHandler.ListServiceAccounts");
    r.Handle(api, POST, ["service-accounts"], [], "serviceAccountHandler.CreateServiceAccount");
    r.Handle(api, GET, ["service-accounts", ":accessKey"], [], "serviceAccountHandler.GetServiceAccountInfo");
    r.Handle(api, DELETE, ["service-accounts", ":accessKey"], [], "serviceAccountHandler.DeleteServiceAccount");
  }

  /** Regrouping the registered routes: SetupRoutes adds one block of its
      table at a time and needs this step named to stay cheap to check. */
  lemma {:induction false} RoutesJoin(a: seq<Route>, b: seq<Route>, c: seq<Route>)
    ensures a + b + c == a + (b + c)
  {
  }

  /** The four management groups, in the order setupRoutes creates them. */
  method SetupManagementRoutes(r: Engine, protected: Group)
    requires protected == Group([], r.middleware + [Auth])
    modifies r
    ensures r.routes == old(r.routes) + ManagementTable(r.middleware) && r.middleware == old(r.middleware)
  {
    ghost var before := r.routes;
    SetupUserRoutes(r, protected);
    SetupGroupRoutes(r, protected);
    SetupServiceAccountRoutes(r, protected);
    SetupPolicyRoutes(r, protected);
    assert r.routes == before + UserTable(r.middleware) + GroupTable(r.middleware)
                       + ServiceAccountTable(r.middleware) + PolicyTable(r.middleware);
  }

  /** setupRoutes: registers the whole table on the engine (RouteTableGuarded
      says what every route of it demands). */
  method SetupRoutes(r: Engine)
    modifies r
    ensures r.routes == old(r.routes) + RouteTable(r.middleware) && r.middleware == old(r.middleware)
  {
    ghost var before := r.routes;
    var base := r.middleware;
    SetupPublicRoutes(r);
    ghost var done := PublicTable(base);
    var protected := WithGuard(SubGroup(r.Root(), []), Auth);
    assert protected.prefix + ["dashboard"] == ["dashboard"] && protected.prefix + ["settings"] == ["settings"];
    assert protected.guards + [] == base + [Auth];
    assert protected.guards + [Require("isAdmin")] == base + [Auth, Require("isAdmin")];
    r.Handle(protected, GET, ["dashboard"], [], "dashboard");
    RoutesJoin(before, done, DashboardTable(base));
    done := done + DashboardTable(base);
    SetupBucketRoutes(r, protected);
    RoutesJoin(before, done, BucketTable(base));
    done := done + BucketTable(base);
    SetupManagementRoutes(r, protected);
    RoutesJoin(before, done, ManagementTable(base));
    done := done + ManagementTable(base);
    r.Handle(protected, GET, ["settings"], [Require("isAdmin")], "settingsHandler.ShowSettings");
    RoutesJoin(before, done, SettingsTable(base));
    done := done + SettingsTable(base);
    SetupApiRoutes(r, protected);
    RoutesJoin(before, done, ApiTable(base));
    done := done + ApiTable(base);
    assert done == RouteTable(base);
    RouteTableGuarded(base);
  }

  // ---------------------------------------------------------------------------
  // Running a route's middleware chain

  /** A permission the session's claims grant. */
  predicate Grants(claims: Jwt.Claims, permission: string)
  {
    permission in claims.permissions && claims.permissions[permission]
  }

  /** CheckPermission on a context whose key store is `keys`. */
  predicate PermissionHeld(keys: map<string, Value>, permission: string)
  {
    "permissions" in keys && keys["permissions"].Flags?
    && permission in keys["permissions"].flags && keys["permissions"].flags[permission]
  }

  /** Whether a request reaches the handler behind `guards`, starting from the
      key store `keys`: the language middleware stores the request's language
      `lang` and passes; AuthRequired passes with the request's session
      `session` and stores it; a permission check passes when the stored
      permissions grant it. The first guard that fails ends the chain. */
  function Admitted(guards: seq<Guard>, keys: map<string, Value>, session: Option<Jwt.Claims>, lang: string): bool
    decreases |guards|
  {
    if guards == [] then true
    else
      match guards[0]
      case Localize => Admitted(guards[1..], keys["language" := Str(lang)], session, lang)
      case Auth => session.Some? && Admitted(guards[1..], AuthMiddleware.SessionKeys(keys, session.value), session, lang)
      case Require(p) => PermissionHeld(keys, p) && Admitted(guards[1..], keys, session, lang)
  }

  /** The language the language middleware picks for the request. */
  function RequestLanguage(c: Context, reg: I18n.Registry): string
    reads reg
  {
    Language.ResolveLanguage(c.Query("lang"), c.Cookie("language"), c.GetHeader("Accept-Language"), reg.availableLangs)
  }

  /** gin's c.Next() over a route's middleware: each guard runs in turn until
      one aborts the request; the handler is reached exactly when none does,
      which is what Admitted says of the request. */
  method RunChain(c: Context, guards: seq<Guard>, reg: I18n.Registry, now: int, codec: Jwt.Codec) returns (reached: bool)
    requires !c.aborted
    modifies c
    ensures reached == !c.aborted
    ensures reached == Admitted(guards, old(c.keys), AuthMiddleware.Authenticate(c, now, codec), RequestLanguage(c, reg))
  {
    ghost var session := AuthMiddleware.Authenticate(c, now, codec);
    ghost var lang := RequestLanguage(c, reg);
    var i := 0;
    while i < |guards| && !c.aborted
      invariant 0 <= i <= |guards|
      invariant !c.aborted ==> Admitted(guards, old(c.keys), session, lang) == Admitted(guards[i..], c.keys, session, lang)
      invariant c.aborted ==> !Admitted(guards, old(c.keys), session, lang)
      decreases |guards| - i
    {
      assert guards[i..][1..] == guards[i + 1..];
      match guards[i] {
        case Localize => Language.LanguageMiddleware(c, reg);
        case Auth => AuthMiddleware.AuthRequired(c, now, codec);
        case Require(p) => AuthMiddleware.RequirePermission(c, p);
      }
      i := i + 1;
    }
    reached := !c.aborted;
  }

  /** A run of permission checks after AuthRequired has stored the session
      passes exactly when the session grants every permission it names. */
  lemma {:induction false} ChecksAdmitted(checks: seq<Guard>, keys: map<string, Value>, claims: Jwt.Claims, lang: string)
    requires RequiresOnly(checks)
    requires "permissions" in keys && keys["permissions"] == Flags(claims.permissions)
    ensures Admitted(checks, keys, Some(claims), lang) <==> forall p | p in PermissionsOf(checks) :: Grants(claims, p)
  {
    if checks != [] {
      assert RequiresOnly(checks[1..]) by {
        forall i | 0 <= i < |checks[1..]| ensures checks[1..][i].Require? {
          assert checks[1..][i] == checks[i + 1];
        }
      }
      ChecksAdmitted(checks[1..], keys, claims, lang);
      assert PermissionHeld(keys, checks[0].permission) <==> Grants(claims, checks[0].permission);
      assert PermissionsOf(checks) == {checks[0].permission} + PermissionsOf(checks[1..]);
    }
  }

  /** Who gets through a guarded route of the running server, whose engine
      middleware is the language middleware: everyone on a public route;
      otherwise exactly the requests with a valid session that grants every
      flag RequiredFlags names. */
  lemma {:induction false} GuardedAccess(route: Route, keys: map<string, Value>, session: Option<Jwt.Claims>, lang: string)
    requires Guarded(route, [Localize])
    ensures Admitted(route.guards, keys, session, lang) <==>
              IsPublic(route.path)
              || (session.Some? && forall p | p in RequiredFlags(route.verb, route.path) :: Grants(session.value, p))
  {
    var own := route.guards[1..];
    var localized := keys["language" := Str(lang)];
    assert route.guards[0] == Localize;
    if !IsPublic(route.path) {
      assert own[0] == Auth;
      if session.Some? {
        var stored := AuthMiddleware.SessionKeys(localized, session.value);
        ChecksAdmitted(own[1..], stored, session.value, lang);
      }
    }
  }

  /** The router main builds: the language middleware on the engine, then
      the table of setupRoutes. */
  method NewRouter() returns (r: Engine)
    ensures fresh(r) && r.middleware == [Localize] && r.routes == RouteTable([Localize])
    ensures AllGuarded(r.routes, [Localize])
  {
    r := new Engine();
    r.Use(Localize);
    SetupRoutes(r);
    RouteTableGuarded([Localize]);
  }

  /** Every session may list policies through /api/policies, while
      GET /policies demands canManageUsers. */
  lemma {:induction false} ApiPoliciesSkipsUserCheck(keys: map<string, Value>, claims: Jwt.Claims, lang: string)
    ensures ApiTable([Localize])[3].path == ["api", "policies"]
    ensures Admitted(ApiTable([Localize])[3].guards, keys, Some(claims), lang)
    ensures PolicyTable([Localize])[0].path == ["policies"]
    ensures Admitted(PolicyTable([Localize])[0].guards, keys, Some(claims), lang) <==> Grants(claims, "canManageUsers")
  {
    ApiTableGuarded([Localize]);
    PolicyTableGuarded([Localize]);
    GuardedAccess(ApiTable([Localize])[3], keys, Some(claims), lang);
    GuardedAccess(PolicyTable([Localize])[0], keys, Some(claims), lang);
  }

  // ---------------------------------------------------------------------------
  // The listening port

  /** The PORT variable, "8080" when it is unset or empty. */
  function Port(env: Config.Env): (port: string)
    ensures port != ""
    ensures "PORT" in env && env["PORT"] != "" ==> port == env["PORT"]
    ensures !("PORT" in env && env["PORT"] != "") ==> port == "8080"
  {
    var port := if "PORT" in env then env["PORT"] else "";
    if port == "" then "8080" else port
  }
}
