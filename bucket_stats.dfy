/** Bucket listing, the timeout-bounded bucket-statistics scanner and bucket
    policy retrieval (internal/services/minio_buckets.go; the same bodies are
    repeated in internal/services/minio.go). */
module BucketStats {
  import opened Common
  import Config
  import opened Services

  /** One value received from the recursive object listing: either an error
      entry or an object with its size. `elapsed` is the time since the scan
      started, in nanoseconds, at which the loop checks the deadline while
      handling this entry. */
  datatype ListEntry = ListEntry(failed: bool, size: int, elapsed: nat)

  /** A bucket as the bucket listing returns it, its creation date already
      formatted as "2006-01-02 15:04:05". */
  datatype Bucket = Bucket(name: string, creationDate: string)

  const Second: nat := 1_000_000_000
  /** The budget of getBucketStats, used for the full bucket listing. */
  const FullScanBudget: nat := 30 * Second
  /** The budget GetBucketStatsQuick hands to getBucketStatsWithTimeout. */
  const QuickScanBudget: nat := 5 * Second

  /** The "not calculated" sentinel. */
  const Unknown: (int, int) := (-1, -1)

  /** The deadline derived from `budget` has passed when the loop handles `e`. */
  predicate Expired(e: ListEntry, budget: nat)
  {
    e.elapsed >= budget
  }

  predicate DeadlineSeen(entries: seq<ListEntry>, budget: nat)
  {
    exists i | 0 <= i < |entries| :: Expired(entries[i], budget)
  }

  /** The size an entry adds: its object's size, nothing for an error entry. */
  function EntryBytes(e: ListEntry): int
  {
    if e.failed then 0 else e.size
  }

  /** The running int64 `totalSize += object.Size` over the listing, error
      entries left out, with two's-complement wrap-around. */
  function ObjectBytes(entries: seq<ListEntry>): (r: int)
    ensures MinInt64 <= r <= MaxInt64
  {
    if entries == [] then 0
    else Wrap64(ObjectBytes(entries[..|entries| - 1]) + EntryBytes(entries[|entries| - 1]))
  }

  /** The reference total: the exact sum of the sizes of the listed objects. */
  function ExactBytes(entries: seq<ListEntry>): int
  {
    if entries == [] then 0
    else ExactBytes(entries[..|entries| - 1]) + EntryBytes(entries[|entries| - 1])
  }

  /** The number of listed objects, error entries left out. */
  function ObjectCount(entries: seq<ListEntry>): (n: nat)
    ensures n <= |entries|
  {
    if entries == [] then 0
    else ObjectCount(entries[..|entries| - 1]) + (if entries[|entries| - 1].failed then 0 else 1)
  }

  /** What a scan reports: the sentinel whenever the deadline is observed at
      any entry, otherwise the int64 size total and the count of the listed
      objects. */
  function ScanResult(entries: seq<ListEntry>, budget: nat): (r: (int, int))
  {
    if DeadlineSeen(entries, budget) then Unknown else (ObjectBytes(entries), ObjectCount(entries))
  }

  // ---------------------------------------------------------------------------
  // Properties of the scan

  /** The int64 total is the exact total wrapped into the int64 range. */
  lemma {:induction false} ObjectBytesWraps(entries: seq<ListEntry>)
    ensures ObjectBytes(entries) == Wrap64(ExactBytes(entries))
  {
    if entries != [] {
      var init := entries[..|entries| - 1];
      ObjectBytesWraps(init);
      WrapOfPartialSum(ExactBytes(init), EntryBytes(entries[|entries| - 1]));
    }
  }

  /** Sizes are never lost: the int64 total is the exact total whenever the
      exact total fits into int64. */
  lemma ObjectBytesIsExact(entries: seq<ListEntry>)
    requires MinInt64 <= ExactBytes(entries) <= MaxInt64
    ensures ObjectBytes(entries) == ExactBytes(entries)
  {
    ObjectBytesWraps(entries);
  }

  lemma {:induction false} ExactBytesNonNegative(entries: seq<ListEntry>)
    requires forall i | 0 <= i < |entries| :: entries[i].size >= 0
    ensures ExactBytes(entries) >= 0
  {
    if entries != [] {
      ExactBytesNonNegative(entries[..|entries| - 1]);
    }
  }

  /** Without negative sizes, and as long as the exact total fits into int64,
      the int64 total is not negative. */
  lemma ObjectBytesNonNegative(entries: seq<ListEntry>)
    requires forall i | 0 <= i < |entries| :: entries[i].size >= 0
    requires ExactBytes(entries) <= MaxInt64
    ensures ObjectBytes(entries) >= 0
  {
    ExactBytesNonNegative(entries);
    ObjectBytesIsExact(entries);
  }

  /** A scan yields either the sentinel or a non-negative count, and a
      non-negative size when no object has a negative size and the exact
      total fits into int64. */
  lemma ScanResultShape(entries: seq<ListEntry>, budget: nat)
    ensures ScanResult(entries, budget) == Unknown || ScanResult(entries, budget).1 >= 0
    ensures (forall i | 0 <= i < |entries| :: entries[i].size >= 0) && ExactBytes(entries) <= MaxInt64 ==>
              ScanResult(entries, budget) == Unknown || ScanResult(entries, budget).0 >= 0
  {
    if (forall i | 0 <= i < |entries| :: entries[i].size >= 0) && ExactBytes(entries) <= MaxInt64 {
      ObjectBytesNonNegative(entries);
    }
  }

  lemma {:induction false} ExactTotalsOfConcatenation(a: seq<ListEntry>, b: seq<ListEntry>)
    ensures ExactBytes(a + b) == ExactBytes(a) + ExactBytes(b)
    ensures ObjectCount(a + b) == ObjectCount(a) + ObjectCount(b)
    decreases |b|
  {
    if b == [] {
      assert a + b == a;
    } else {
      var b' := b[..|b| - 1];
      assert (a + b)[..|a + b| - 1] == a + b';
      ExactTotalsOfConcatenation(a, b');
    }
  }

  /** Listing `a` and then `b` adds up the two parts' totals, in int64. */
  lemma TotalsOfConcatenation(a: seq<ListEntry>, b: seq<ListEntry>)
    ensures ObjectBytes(a + b) == Wrap64(ObjectBytes(a) + ObjectBytes(b))
    ensures ObjectCount(a + b) == ObjectCount(a) + ObjectCount(b)
  {
    ExactTotalsOfConcatenation(a, b);
    var ea, eb := ExactBytes(a), ExactBytes(b);
    ObjectBytesWraps(a + b);
    ObjectBytesWraps(a);
    ObjectBytesWraps(b);
    calc {
      Wrap64(ObjectBytes(a) + ObjectBytes(b));
      Wrap64(Wrap64(ea) + Wrap64(eb));
      { WrapOfPartialSum(ea, Wrap64(eb)); }
      Wrap64(Wrap64(eb) + ea);
      { WrapOfPartialSum(eb, ea); }
      Wrap64(ea + eb);
    }
  }

  /** An error entry adds nothing to either total. */
  lemma ErrorAddsNothing(a: seq<ListEntry>, e: ListEntry, b: seq<ListEntry>)
    requires e.failed
    ensures ObjectBytes(a + [e] + b) == ObjectBytes(a + b)
    ensures ObjectCount(a + [e] + b) == ObjectCount(a + b)
  {
    assert a + [e] + b == a + ([e] + b);
    ExactTotalsOfConcatenation(a, [e] + b);
    ExactTotalsOfConcatenation([e], b);
    ExactTotalsOfConcatenation(a, b);
    assert ExactBytes([e]) == 0 && ObjectCount([e]) == 0 by {
      assert [e][..0] == [];
    }
    ObjectBytesWraps(a + [e] + b);
    ObjectBytesWraps(a + b);
  }

  /** An entry whose deadline has not passed changes nothing about whether
      the deadline is observed. */
  lemma DeadlineSeenWithout(a: seq<ListEntry>, e: ListEntry, b: seq<ListEntry>, budget: nat)
    requires !Expired(e, budget)
    ensures DeadlineSeen(a + [e] + b, budget) <==> DeadlineSeen(a + b, budget)
  {
    if DeadlineSeen(a + [e] + b, budget) {
      var i :| 0 <= i < |a + [e] + b| && Expired((a + [e] + b)[i], budget);
      assert i != |a|;
      if i < |a| {
        assert (a + b)[i] == a[i];
      } else {
        assert (a + b)[i - 1] == b[i - |a| - 1];
      }
    }
    if DeadlineSeen(a + b, budget) {
      var i :| 0 <= i < |a + b| && Expired((a + b)[i], budget);
      if i < |a| {
        assert (a + [e] + b)[i] == a[i];
      } else {
        assert (a + [e] + b)[i + 1] == b[i - |a|];
      }
    }
  }

  /** An error entry met before the deadline is skipped: it changes neither total. */
  lemma ErrorBeforeDeadlineIsSkipped(a: seq<ListEntry>, e: ListEntry, b: seq<ListEntry>, budget: nat)
    requires e.failed && !Expired(e, budget)
    ensures ScanResult(a + [e] + b, budget) == ScanResult(a + b, budget)
  {
    ErrorAddsNothing(a, e, b);
    DeadlineSeenWithout(a, e, b, budget);
  }

  /** A listing that ends before the deadline gives the exact totals when the
      exact size fits into int64; an empty one gives (0, 0). */
  lemma CompletedScanIsExact(entries: seq<ListEntry>, budget: nat)
    requires forall i | 0 <= i < |entries| :: !Expired(entries[i], budget)
    requires MinInt64 <= ExactBytes(entries) <= MaxInt64
    ensures ScanResult(entries, budget) == (ExactBytes(entries), ObjectCount(entries))
    ensures entries == [] ==> ScanResult(entries, budget) == (0, 0)
  {
    ObjectBytesIsExact(entries);
  }

  /** A deadline observed at any entry, before or after that entry's object is
      counted, discards the partial sums. */
  lemma {:induction false} DeadlineGivesSentinel(entries: seq<ListEntry>, budget: nat, i: nat)
    requires i < |entries| && Expired(entries[i], budget)
    ensures ScanResult(entries, budget) == Unknown
  {
  }

  /** A scan that completes within a budget completes, with the same totals,
      within every larger budget. */
  lemma {:induction false} LongerBudgetKeepsResult(entries: seq<ListEntry>, budget: nat, larger: nat)
    requires budget <= larger
    requires ScanResult(entries, budget) != Unknown
    ensures ScanResult(entries, larger) == ScanResult(entries, budget)
  {
    assert !DeadlineSeen(entries, budget);
    forall i | 0 <= i < |entries|
      ensures !Expired(entries[i], larger)
    {
      assert !Expired(entries[i], budget);
    }
  }

  // ---------------------------------------------------------------------------
  // The scanner loops

  /** getBucketStatsWithTimeout: accumulates size (in int64) and count over the listing,
      skips error entries, and returns the sentinel as soon as the deadline is
      observed (at an error entry, or right after an object is counted). */
  method GetBucketStatsWithTimeout(entries: seq<ListEntry>, timeout: nat) returns (totalSize: int, objectCount: int)
    ensures (totalSize, objectCount) == ScanResult(entries, timeout)
  {
    totalSize, objectCount := 0, 0;
    var i := 0;
    while i < |entries|
      invariant 0 <= i <= |entries|
      invariant !DeadlineSeen(entries[..i], timeout)
      invariant totalSize == ObjectBytes(entries[..i]) && objectCount == ObjectCount(entries[..i])
    {
      var entry := entries[i];
      assert entries[..i + 1][..i] == entries[..i];
      if entry.failed {
        if Expired(entry, timeout) {
          assert Expired(entries[i], timeout);
          return -1, -1;
        }
        i := i + 1;
        continue;
      }
      totalSize := Wrap64(totalSize + entry.size);
      objectCount := objectCount + 1;
      if Expired(entry, timeout) {
        assert Expired(entries[i], timeout);
        return -1, -1;
      }
      i := i + 1;
    }
    assert entries[..i] == entries;
  }

  /** getBucketStats: the same loop with the 30-second budget. */
  method GetBucketStats(entries: seq<ListEntry>) returns (totalSize: int, objectCount: int)
    ensures (totalSize, objectCount) == ScanResult(entries, FullScanBudget)
  {
    totalSize, objectCount := GetBucketStatsWithTimeout(entries, FullScanBudget);
  }

  /** GetBucketStatsQuick: the sentinel without scanning when the clients
      cannot be built, otherwise a scan with the 5-second budget. */
  method GetBucketStatsQuick(cfg: Config.Config, username: string, password: string, init: ClientInit,
                             entries: seq<ListEntry>) returns (size: int, objectCount: int)
    ensures CreateClients(cfg, username, password, init).Failure? ==> (size, objectCount) == Unknown
    ensures CreateClients(cfg, username, password, init).Success? ==>
              (size, objectCount) == ScanResult(entries, QuickScanBudget)
  {
    var clients := CreateClients(cfg, username, password, init);
    if clients.Failure? {
      return -1, -1;
    }
    size, objectCount := GetBucketStatsWithTimeout(entries, QuickScanBudget);
  }

  // ---------------------------------------------------------------------------
  // Bucket listings

  /** ListBuckets: one entry per listed bucket, in order, each with the
      statistics of a full scan of that bucket's objects (`objectsOf`). */
  method ListBuckets(cfg: Config.Config, username: string, password: string, init: ClientInit,
                     listing: Result<seq<Bucket>>, objectsOf: string -> seq<ListEntry>)
    returns (r: Result<seq<BucketInfo>>)
    ensures CreateClients(cfg, username, password, init).Failure? ==> r == Failure(CreateClients(cfg, username, password, init).error)
    ensures CreateClients(cfg, username, password, init).Success? && listing.Failure? ==> r == Failure(listing.error)
    ensures r.Success? <==> CreateClients(cfg, username, password, init).Success? && listing.Success?
    ensures r.Success? ==> |r.value| == |listing.value|
    ensures r.Success? ==> forall i | 0 <= i < |r.value| ::
              var b := listing.value[i];
              r.value[i] == BucketInfo(b.name, b.creationDate, ScanResult(objectsOf(b.name), FullScanBudget).0,
                                       ScanResult(objectsOf(b.name), FullScanBudget).1)
  {
    var clients := CreateClients(cfg, username, password, init);
    if clients.Failure? {
      return Failure(clients.error);
    }
    if listing.Failure? {
      return Failure(listing.error);
    }
    var buckets := listing.value;
    var bucketInfos: seq<BucketInfo> := [];
    for i := 0 to |buckets|
      invariant |bucketInfos| == i
      invariant forall j | 0 <= j < i ::
                  bucketInfos[j] == BucketInfo(buckets[j].name, buckets[j].creationDate,
                                               ScanResult(objectsOf(buckets[j].name), FullScanBudget).0,
                                               ScanResult(objectsOf(buckets[j].name), FullScanBudget).1)
    {
      var bucket := buckets[i];
      var size, objectCount := GetBucketStats(objectsOf(bucket.name));
      bucketInfos := bucketInfos + [BucketInfo(bucket.name, bucket.creationDate, size, objectCount)];
    }
    return Success(bucketInfos);
  }

  /** ListBucketsQuick: one entry per listed bucket, in order, with both
      statistics set to the "not calculated" value -1. */
  method ListBucketsQuick(cfg: Config.Config, username: string, password: string, init: ClientInit,
                          listing: Result<seq<Bucket>>)
    returns (r: Result<seq<BucketInfo>>)
    ensures CreateClients(cfg, username, password, init).Failure? ==> r == Failure(CreateClients(cfg, username, password, init).error)
    ensures CreateClients(cfg, username, password, init).Success? && listing.Failure? ==> r == Failure(listing.error)
    ensures r.Success? <==> CreateClients(cfg, username, password, init).Success? && listing.Success?
    ensures r.Success? ==> |r.value| == |listing.value|
    ensures r.Success? ==> forall i | 0 <= i < |r.value| ::
              r.value[i] == BucketInfo(listing.value[i].name, listing.value[i].creationDate, -1, -1)
  {
    var clients := CreateClients(cfg, username, password, init);
    if clients.Failure? {
      return Failure(clients.error);
    }
    if listing.Failure? {
      return Failure(listing.error);
    }
    var buckets := listing.value;
    var bucketInfos: seq<BucketInfo> := [];
    for i := 0 to |buckets|
      invariant |bucketInfos| == i
      invariant forall j | 0 <= j < i ::
                  bucketInfos[j] == BucketInfo(buckets[j].name, buckets[j].creationDate, -1, -1)
    {
      bucketInfos := bucketInfos + [BucketInfo(buckets[i].name, buckets[i].creationDate, -1, -1)];
    }
    return Success(bucketInfos);
  }

  // ---------------------------------------------------------------------------
  // Bucket policy

  const NoPolicy1 := "policy does not exist"
  const NoPolicy2 := "NoSuchBucketPolicy"
  const NoPolicy3 := "The bucket policy does not exist"

  /** The error texts GetBucketPolicy reads as "this bucket has no policy". */
  predicate IsNoPolicyError(e: string)
  {
    Contains(e, NoPolicy1) || Contains(e, NoPolicy2) || Contains(e, NoPolicy3)
  }

  /** GetBucketPolicy: a "no policy" error becomes the empty policy without an
      error; every other error, and every policy text, is passed through. */
  function GetBucketPolicy(cfg: Config.Config, username: string, password: string, init: ClientInit,
                           fetched: Result<string>): (r: Result<string>)
    ensures CreateClients(cfg, username, password, init).Failure? ==> r == Failure(CreateClients(cfg, username, password, init).error)
    ensures CreateClients(cfg, username, password, init).Success? ==>
              (fetched.Success? ==> r == fetched)
              && (fetched.Failure? && IsNoPolicyError(fetched.error) ==> r == Success(""))
              && (fetched.Failure? && !IsNoPolicyError(fetched.error) ==> r == fetched)
  {
    var clients := CreateClients(cfg, username, password, init);
    if clients.Failure? then Failure(clients.error)
    else if fetched.Failure? && IsNoPolicyError(fetched.error) then Success("")
    else fetched
  }

  /** The third phrase is redundant: it contains the first, so the
      classification depends on the first two phrases only. */
  lemma {:induction false} ThirdPhraseRedundant(e: string)
    ensures IsNoPolicyError(e) <==> Contains(e, NoPolicy1) || Contains(e, NoPolicy2)
  {
    if Contains(e, NoPolicy3) {
      assert OccursAt(NoPolicy3, NoPolicy1, 11);
      ContainsTransitive(e, NoPolicy3, NoPolicy1, 11);
    }
  }
}
