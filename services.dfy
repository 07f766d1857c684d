/** Client construction, credential validation and the capability probe of the
    storage service (internal/services/base.go; internal/services/minio.go
    repeats the same functions). The storage cluster is not modelled: the
    results its clients return are inputs. */
module Services {
  import opened Common
  import Config

  datatype BucketInfo = BucketInfo(name: string, creationDate: string, size: int, objectCount: int)

  datatype UserInfo = UserInfo(
    accessKey: string,
    status: string,
    policyName: string,
    memberOf: seq<string>,
    updatedAt: string)

  /** What the clients' constructors (minio.New, madmin.New) return for the
      configured endpoint; neither performs network I/O. */
  datatype ClientInit = ClientInit(data: Outcome, admin: Outcome)

  /** A data-plane client and an administrative client, both bound to one
      endpoint and one set of static credentials. */
  datatype Clients = Clients(endpoint: string, secure: bool, accessKey: string, secretKey: string)

  /** What the cluster answers to the two trial calls issued with one set of
      credentials: listing buckets and listing administrative users. */
  datatype Trials = Trials(listBuckets: Outcome, listUsers: Outcome)

  /** CreateClients: a constructor that may fail. The data-plane client is
      built first; its failure is reported before the admin client is tried. */
  function CreateClients(cfg: Config.Config, username: string, password: string, init: ClientInit): (r: Result<Clients>)
    ensures r.Success? <==> init.data.Pass? && init.admin.Pass?
    ensures init.data.Fail? ==> r.error == "failed to initialize MinIO client: " + init.data.error
    ensures init.data.Pass? && init.admin.Fail? ==> r.error == "failed to initialize MinIO admin client: " + init.admin.error
    ensures r.Success? ==> r.value.endpoint == Config.GetMinIOEndpoint(cfg) && r.value.secure == cfg.minioUseSsl
    ensures r.Success? ==> r.value.accessKey == username && r.value.secretKey == password
  {
    if init.data.Fail? then Failure("failed to initialize MinIO client: " + init.data.error)
    else if init.admin.Fail? then Failure("failed to initialize MinIO admin client: " + init.admin.error)
    else Success(Clients(Config.GetMinIOEndpoint(cfg), cfg.minioUseSsl, username, password))
  }

  const ErrCreateClients := "failed to create MinIO clients: "
  const ErrInvalidCredentials := "invalid MinIO credentials or connection failed: "
  const ErrNotAdmin := "user does not have admin privileges: "

  /** ValidateCredentials accepts only credentials for which the clients can be
      built and both trials succeed; each stage that fails has its own error. */
  function ValidateCredentials(cfg: Config.Config, username: string, password: string, init: ClientInit, trials: Trials): (r: Result<UserInfo>)
    ensures r.Success? <==> init.data.Pass? && init.admin.Pass? && trials.listBuckets.Pass? && trials.listUsers.Pass?
    ensures CreateClients(cfg, username, password, init).Failure? ==>
              r == Failure(ErrCreateClients + CreateClients(cfg, username, password, init).error)
    ensures CreateClients(cfg, username, password, init).Success? && trials.listBuckets.Fail? ==>
              r == Failure(ErrInvalidCredentials + trials.listBuckets.error)
    ensures CreateClients(cfg, username, password, init).Success? && trials.listBuckets.Pass? && trials.listUsers.Fail? ==>
              r == Failure(ErrNotAdmin + trials.listUsers.error)
    ensures r.Success? ==> r.value == UserInfo(username, "enabled", "admin", [], "")
  {
    var clients := CreateClients(cfg, username, password, init);
    if clients.Failure? then Failure(ErrCreateClients + clients.error)
    else if trials.listBuckets.Fail? then Failure(ErrInvalidCredentials + trials.listBuckets.error)
    else if trials.listUsers.Fail? then Failure(ErrNotAdmin + trials.listUsers.error)
    else Success(UserInfo(username, "enabled", "admin", [], ""))
  }

  /** After a failed bucket-list trial the user-list trial is never consulted:
      its outcome cannot change the result. */
  lemma {:induction false} UserTrialSkippedAfterBucketFailure(cfg: Config.Config, username: string, password: string,
                                                              init: ClientInit, t1: Trials, t2: Trials)
    requires t1.listBuckets.Fail? && t1.listBuckets == t2.listBuckets
    ensures ValidateCredentials(cfg, username, password, init, t1) == ValidateCredentials(cfg, username, password, init, t2)
  {
  }

  /** A successful validation is granted the "admin" policy whoever the user is. */
  lemma {:induction false} SuccessIsAlwaysAdmin(cfg: Config.Config, username: string, password: string, init: ClientInit, trials: Trials)
    requires ValidateCredentials(cfg, username, password, init, trials).Success?
    ensures ValidateCredentials(cfg, username, password, init, trials).value.policyName == "admin"
    ensures ValidateCredentials(cfg, username, password, init, trials).value.accessKey == username
  {
  }

  // ---------------------------------------------------------------------------
  // The capability probe

  const CanListBuckets := "canListBuckets"
  const CanCreateBuckets := "canCreateBuckets"
  const CanDeleteBuckets := "canDeleteBuckets"
  const CanManageUsers := "canManageUsers"
  const CanManagePolicies := "canManagePolicies"
  const IsAdmin := "isAdmin"

  const BucketFlags: set<string> := {CanListBuckets, CanCreateBuckets, CanDeleteBuckets}
  const AdminFlags: set<string> := {CanManageUsers, CanManagePolicies, IsAdmin}
  const PermissionKeys: set<string> := BucketFlags + AdminFlags

  /** The permission map with every one of the six flags false. */
  function NoPermissions(): (m: map<string, bool>)
    ensures m.Keys == PermissionKeys
    ensures forall k | k in m :: !m[k]
  {
    map[CanListBuckets := false, CanCreateBuckets := false, CanDeleteBuckets := false,
        CanManageUsers := false, CanManagePolicies := false, IsAdmin := false]
  }

  /** The permission map the probe yields: each bucket flag says whether the
      clients could be built and the bucket-list trial passed, each admin flag
      whether they could be built and the user-list trial passed. */
  function ProbedPermissions(cfg: Config.Config, username: string, password: string, init: ClientInit, trials: Trials)
    : (m: map<string, bool>)
    ensures m.Keys == PermissionKeys
    ensures CreateClients(cfg, username, password, init).Failure? ==> m == NoPermissions()
    ensures forall k | k in BucketFlags ::
              m[k] == (CreateClients(cfg, username, password, init).Success? && trials.listBuckets.Pass?)
    ensures forall k | k in AdminFlags ::
              m[k] == (CreateClients(cfg, username, password, init).Success? && trials.listUsers.Pass?)
  {
    var built := CreateClients(cfg, username, password, init).Success?;
    map k | k in PermissionKeys ::
      if k in BucketFlags then built && trials.listBuckets.Pass? else built && trials.listUsers.Pass?
  }

  /** The three bucket flags always agree, and so do the three admin flags. */
  lemma {:induction false} FlagsAgreeWithinGroups(cfg: Config.Config, username: string, password: string,
                                                  init: ClientInit, trials: Trials)
    ensures var m := ProbedPermissions(cfg, username, password, init, trials);
            m[CanListBuckets] == m[CanCreateBuckets] == m[CanDeleteBuckets]
            && m[CanManageUsers] == m[CanManagePolicies] == m[IsAdmin]
  {
  }

  /** The permission map with every one of the six flags true. */
  function AllPermissions(): (m: map<string, bool>)
    ensures m.Keys == PermissionKeys
    ensures forall k | k in m :: m[k]
  {
    map[CanListBuckets := true, CanCreateBuckets := true, CanDeleteBuckets := true,
        CanManageUsers := true, CanManagePolicies := true, IsAdmin := true]
  }

  /** Credentials that pass validation are granted every flag when the probe
      sees the same client constructors and trial outcomes. */
  lemma {:induction false} ValidatedUserGetsAllFlags(cfg: Config.Config, username: string, password: string,
                                                     init: ClientInit, trials: Trials)
    requires ValidateCredentials(cfg, username, password, init, trials).Success?
    ensures ProbedPermissions(cfg, username, password, init, trials) == AllPermissions()
  {
    var m := ProbedPermissions(cfg, username, password, init, trials);
    assert forall k | k in m :: m[k];
  }

  /** GetUserPermissions: the six flags, all false when the clients cannot be
      built; otherwise the bucket flags record the bucket-list trial and the
      admin flags the user-list trial, each independently of the other. */
  method GetUserPermissions(cfg: Config.Config, username: string, password: string, init: ClientInit, trials: Trials)
    returns (permissions: map<string, bool>)
    ensures permissions == ProbedPermissions(cfg, username, password, init, trials)
  {
    var clients := CreateClients(cfg, username, password, init);
    if clients.Failure? {
      return NoPermissions();
    }
    permissions := NoPermissions();
    if trials.listBuckets.Pass? {
      permissions := permissions[CanListBuckets := true];
      permissions := permissions[CanCreateBuckets := true];
      permissions := permissions[CanDeleteBuckets := true];
    }
    if trials.listUsers.Pass? {
      permissions := permissions[CanManageUsers := true];
      permissions := permissions[CanManagePolicies := true];
      permissions := permissions[IsAdmin := true];
    }
  }
}
