/** Reading the session credentials (getCredentials, repeated in
    internal/handlers/api.go and internal/handlers/group.go) and the
    storage-usage summary GetStorageUsage (internal/handlers/api.go). */
module StorageUsage {
  import opened Common
  import opened Gin
  import Config
  import Services
  import BucketStats
  import ByteFormat

  // ---------------------------------------------------------------------------
  // getCredentials

  /** A stored user name or password that is present and not nil must be a
      string: the handlers' type assertions would panic otherwise. */
  predicate CredentialsTyped(c: Context)
    reads c
  {
    ("username" in c.keys && c.keys["username"] != Nil ==> c.keys["username"].Str?)
    && ("password" in c.keys && c.keys["password"] != Nil ==> c.keys["password"].Str?)
  }

  const ErrMissingCredentials := "missing credentials"

  /** getCredentials: the stored user name and password, or an error when
      either is absent or nil. */
  function GetCredentials(c: Context): (r: Result<(string, string)>)
    requires CredentialsTyped(c)
    reads c
    ensures r.Success? <==> "username" in c.keys && c.keys["username"] != Nil
                            && "password" in c.keys && c.keys["password"] != Nil
    ensures r.Success? ==> r.value == (c.keys["username"].s, c.keys["password"].s)
    ensures r.Failure? ==> r.error == ErrMissingCredentials
  {
    var username := c.Get("username");
    var password := c.Get("password");
    if username.None? || password.None? || username.value == Nil || password.value == Nil
    then Failure(ErrMissingCredentials)
    else Success((username.value.s, password.value.s))
  }

  /** The body of every 401 answer of these handlers. */
  const MissingCredentialsBody: H := map["error" := Str("Missing credentials")]

  // ---------------------------------------------------------------------------
  // int64 accumulation

  /** A bucket's statistics count only when both values are non-negative,
      which rules out the (-1, -1) sentinel. */
  predicate HasStats(stat: (int, int))
  {
    stat.0 >= 0 && stat.1 >= 0
  }

  datatype Totals = Totals(size: int, objects: int, withStats: nat)

  /** One bucket's turn of the handler's loop: its statistics are added, with
      int64 wrap-around, only when it has them. */
  function Step(t: Totals, stat: (int, int)): Totals
  {
    if HasStats(stat) then Totals(Wrap64(t.size + stat.0), Wrap64(t.objects + stat.1), t.withStats + 1) else t
  }

  /** The running totals over the per-bucket statistics, with the int64
      wrap-around of the handler's `+=`. */
  function Accumulate(stats: seq<(int, int)>): (t: Totals)
    ensures t.withStats <= |stats|
    ensures MinInt64 <= t.size <= MaxInt64 && MinInt64 <= t.objects <= MaxInt64
  {
    if stats == [] then Totals(0, 0, 0)
    else
      Step(Accumulate(stats[..|stats| - 1]), stats[|stats| - 1])
  }

  /** The reference totals: exact sums over the buckets with statistics and
      their number. */
  function ExactSize(stats: seq<(int, int)>): (n: nat)
  {
    if stats == [] then 0
    else ExactSize(stats[..|stats| - 1]) + (if HasStats(stats[|stats| - 1]) then stats[|stats| - 1].0 else 0)
  }

  function ExactObjects(stats: seq<(int, int)>): (n: nat)
  {
    if stats == [] then 0
    else ExactObjects(stats[..|stats| - 1]) + (if HasStats(stats[|stats| - 1]) then stats[|stats| - 1].1 else 0)
  }

  function CountWithStats(stats: seq<(int, int)>): nat
  {
    |set i | 0 <= i < |stats| && HasStats(stats[i])|
  }

  /** The buckets with statistics among a prefix grow by one exactly when the
      next bucket has statistics. */
  lemma {:induction false} CountWithStatsStep(stats: seq<(int, int)>)
    requires stats != []
    ensures CountWithStats(stats)
              == CountWithStats(stats[..|stats| - 1]) + (if HasStats(stats[|stats| - 1]) then 1 else 0)
  {
    var init := stats[..|stats| - 1];
    var before := set i | 0 <= i < |init| && HasStats(init[i]);
    var after := set i | 0 <= i < |stats| && HasStats(stats[i]);
    if HasStats(stats[|stats| - 1]) {
      assert after == before + {|stats| - 1};
    } else {
      assert after == before;
    }
  }

  /** As long as the exact sums fit into int64 nothing wraps: the handler's
      totals are the exact sums, and buckets_with_stats counts exactly the
      buckets that have statistics. */
  lemma {:induction false} AccumulateIsExact(stats: seq<(int, int)>)
    requires ExactSize(stats) <= MaxInt64 && ExactObjects(stats) <= MaxInt64
    ensures Accumulate(stats) == Totals(ExactSize(stats), ExactObjects(stats), CountWithStats(stats))
  {
    if stats != [] {
      var init := stats[..|stats| - 1];
      AccumulateIsExact(init);
      CountWithStatsStep(stats);
    }
  }

  /** Worked example: statistics (100, 2), the sentinel and (0, 0) give 100
      bytes in 2 objects, with 2 of the 3 buckets counted. */
  lemma WorkedExample()
    ensures Accumulate([(100, 2), (-1, -1), (0, 0)]) == Totals(100, 2, 2)
  {
    assert [(100, 2), (-1, -1), (0, 0)][..2] == [(100, 2), (-1, -1)];
    assert [(100, 2), (-1, -1)][..1] == [(100, 2)];
    assert [(100, 2)][..0] == [];
  }

  // ---------------------------------------------------------------------------
  // GetStorageUsage

  /** What GetBucketStatsQuick reports for a bucket whose listing is `entries`. */
  function QuickStats(cfg: Config.Config, username: string, password: string, init: Services.ClientInit,
                      entries: seq<BucketStats.ListEntry>): (int, int)
  {
    if Services.CreateClients(cfg, username, password, init).Failure? then BucketStats.Unknown
    else BucketStats.ScanResult(entries, BucketStats.QuickScanBudget)
  }

  /** The per-bucket statistics of the listed buckets, in listing order. */
  function StatsOf(cfg: Config.Config, username: string, password: string, init: Services.ClientInit,
                   buckets: seq<Services.BucketInfo>, objectsOf: string -> seq<BucketStats.ListEntry>): (s: seq<(int, int)>)
    ensures |s| == |buckets|
  {
    if buckets == [] then []
    else StatsOf(cfg, username, password, init, buckets[..|buckets| - 1], objectsOf)
         + [QuickStats(cfg, username, password, init, objectsOf(buckets[|buckets| - 1].name))]
  }

  /** The bucket entries ListBucketsQuick returns for a listing. */
  function QuickInfos(buckets: seq<BucketStats.Bucket>): (r: seq<Services.BucketInfo>)
    ensures |r| == |buckets|
    ensures forall i | 0 <= i < |r| :: r[i] == Services.BucketInfo(buckets[i].name, buckets[i].creationDate, -1, -1)
  {
    seq(|buckets|, i requires 0 <= i < |buckets| => Services.BucketInfo(buckets[i].name, buckets[i].creationDate, -1, -1))
  }

  /** One more bucket adds its quick statistics to the list. */
  lemma StatsOfStep(cfg: Config.Config, username: string, password: string, init: Services.ClientInit,
                    bs: seq<Services.BucketInfo>, i: nat, objectsOf: string -> seq<BucketStats.ListEntry>)
    requires i < |bs|
    ensures StatsOf(cfg, username, password, init, bs[..i + 1], objectsOf)
            == StatsOf(cfg, username, password, init, bs[..i], objectsOf)
               + [QuickStats(cfg, username, password, init, objectsOf(bs[i].name))]
  {
    assert bs[..i + 1][..i] == bs[..i];
  }

  /** One more statistics pair is added to the totals when it is known. */
  lemma AccumulateStep(stats: seq<(int, int)>, stat: (int, int))
    ensures Accumulate(stats + [stat]) == Step(Accumulate(stats), stat)
  {
    var all := stats + [stat];
    assert all != [] && all[..|all| - 1] == stats && all[|all| - 1] == stat;
  }

  /** The quick statistics of one bucket, as QuickStats describes them. */
  method BucketQuickStats(cfg: Config.Config, username: string, password: string, init: Services.ClientInit,
                          entries: seq<BucketStats.ListEntry>) returns (size: int, objectCount: int)
    ensures (size, objectCount) == QuickStats(cfg, username, password, init, entries)
  {
    size, objectCount := BucketStats.GetBucketStatsQuick(cfg, username, password, init, entries);
  }

  /** The body of the statistics loop: a bucket's values are added to the
      running int64 totals, and the bucket counted, only when both are >= 0. */
  method AddBucketStats(totalSize: int, totalObjects: int, bucketsWithStats: nat, size: int, objectCount: int)
    returns (totalSize': int, totalObjects': int, bucketsWithStats': nat)
    ensures Totals(totalSize', totalObjects', bucketsWithStats')
              == Step(Totals(totalSize, totalObjects, bucketsWithStats), (size, objectCount))
  {
    totalSize', totalObjects', bucketsWithStats' := totalSize, totalObjects, bucketsWithStats;
    if size >= 0 && objectCount >= 0 {
      totalSize' := Wrap64(totalSize + size);
      totalObjects' := Wrap64(totalObjects + objectCount);
      bucketsWithStats' := bucketsWithStats + 1;
    }
  }

  /** The statistics loop of GetStorageUsage. */
  method SumBucketStats(cfg: Config.Config, username: string, password: string, init: Services.ClientInit,
                        bs: seq<Services.BucketInfo>, objectsOf: string -> seq<BucketStats.ListEntry>)
    returns (totalSize: int, totalObjects: int, bucketsWithStats: nat)
    ensures Totals(totalSize, totalObjects, bucketsWithStats) == Accumulate(StatsOf(cfg, username, password, init, bs, objectsOf))
  {
    totalSize, totalObjects, bucketsWithStats := 0, 0, 0;
    for i := 0 to |bs|
      invariant Totals(totalSize, totalObjects, bucketsWithStats)
                  == Accumulate(StatsOf(cfg, username, password, init, bs[..i], objectsOf))
    {
      ghost var prev := StatsOf(cfg, username, password, init, bs[..i], objectsOf);
      ghost var stat := QuickStats(cfg, username, password, init, objectsOf(bs[i].name));
      var size, objectCount := BucketQuickStats(cfg, username, password, init, objectsOf(bs[i].name));
      StatsOfStep(cfg, username, password, init, bs, i, objectsOf);
      AccumulateStep(prev, stat);
      totalSize, totalObjects, bucketsWithStats := AddBucketStats(totalSize, totalObjects, bucketsWithStats, size, objectCount);
    }
    assert bs[..|bs|] == bs;
  }

  /** The 200 answer for the totals `t` of `bucketCount` buckets, the total
      size formatted as api.go's formatBytes formats it (IsApiText). */
  ghost predicate IsUsageResponse(r: Response, t: Totals, bucketCount: nat)
  {
    exists formatted | ByteFormat.IsApiText(t.size, formatted) :: r == Json(StatusOK, UsageBody(t, bucketCount, formatted))
  }

  /** The 200 body for the totals `t` of `bucketCount` buckets and the text of
      the total size. */
  function UsageBody(t: Totals, bucketCount: nat, formatted: ByteFormat.ByteText): H
  {
    map["total_size" := Int(t.size), "total_objects" := Int(t.objects), "total_buckets" := Int(bucketCount),
        "buckets_with_stats" := Int(t.withStats), "formatted_size" := SizeText(formatted)]
  }

  /** GetStorageUsage: 401 without credentials and 500 with the error text when
      the buckets cannot be listed, both before any statistics are gathered;
      otherwise the totals over all listed buckets, sentinel ones counted in
      total_buckets but left out of the sums. A total size below one exbibyte
      gives 200 with the totals; from one exbibyte up formatBytes panics and
      gin's Recovery middleware answers 500 with an empty body. */
  method GetStorageUsage(c: Context, cfg: Config.Config, init: Services.ClientInit,
                         listing: Result<seq<BucketStats.Bucket>>, objectsOf: string -> seq<BucketStats.ListEntry>)
    requires CredentialsTyped(c)
    modifies c
    ensures c.keys == old(c.keys) && c.setCookies == old(c.setCookies)
    ensures c.aborted == (old(c.aborted) || c.response == Status(StatusInternalServerError))
    ensures GetCredentials(c).Failure? ==> c.response == Json(StatusUnauthorized, MissingCredentialsBody)
    ensures GetCredentials(c).Success? ==>
              var (username, password) := GetCredentials(c).value;
              var clients := Services.CreateClients(cfg, username, password, init);
              (clients.Failure? ==> c.response == Json(StatusInternalServerError, map["error" := Str(clients.error)]))
              && (clients.Success? && listing.Failure? ==>
                    c.response == Json(StatusInternalServerError, map["error" := Str(listing.error)]))
    ensures GetCredentials(c).Success? ==>
              var (username, password) := GetCredentials(c).value;
              Services.CreateClients(cfg, username, password, init).Success? && listing.Success? ==>
                var t := Accumulate(StatsOf(cfg, username, password, init, QuickInfos(listing.value), objectsOf));
                (t.size < ByteFormat.Pow1024(6) ==> IsUsageResponse(c.response, t, |listing.value|))
                && (t.size >= ByteFormat.Pow1024(6) ==> c.response == Status(StatusInternalServerError))
  {
    var credentials := GetCredentials(c);
    if credentials.Failure? {
      c.JSON(StatusUnauthorized, MissingCredentialsBody);
      return;
    }
    var (username, password) := credentials.value;
    var buckets := BucketStats.ListBucketsQuick(cfg, username, password, init, listing);
    if buckets.Failure? {
      c.JSON(StatusInternalServerError, map["error" := Str(buckets.error)]);
      return;
    }
    assert buckets.value == QuickInfos(listing.value);
    var bs := buckets.value;
    var totalSize, totalObjects, bucketsWithStats := SumBucketStats(cfg, username, password, init, bs, objectsOf);
    var formatted := ByteFormat.FormatBytesApiAsWritten(totalSize);
    if formatted.None? {
      c.AbortWithStatus(StatusInternalServerError);
      return;
    }
    c.JSON(StatusOK, UsageBody(Totals(totalSize, totalObjects, bucketsWithStats), |bs|, formatted.value));
    assert IsUsageResponse(c.response, Totals(totalSize, totalObjects, bucketsWithStats), |bs|);
  }
}
