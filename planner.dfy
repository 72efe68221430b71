/** The sync planner of the HubLink client: given the bucket's object listing and the local
    mirror directory, decide which keys must be downloaded and how many bytes that is.

    The outside world is passed in as values: the outcome of the storage service's listing
    call is a `ListResponse`, and the local filesystem is a `LocalDir` (a root directory, a
    path-joining function and a map from path to what `stat` reports). */
module Planner {
  import opened Options

  /** One entry of the bucket listing: its `Key` and its `Size` in bytes. */
  datatype RemoteObject = RemoteObject(key: string, size: nat)

  /** What the filesystem reports for a path that exists: its byte size, or a failure of the
      size query (the path exists but asking for its size raises an OS error). */
  datatype LocalEntry = Sized(bytes: nat) | Unstatable

  /** The local mirror: its root, how a key is joined onto the root, and every existing path.
      A path missing from `files` does not exist. */
  datatype LocalDir = LocalDir(root: string, join: (string, string) -> string, files: map<string, LocalEntry>)

  /** The exception families the planner tells apart when the listing call fails. */
  datatype ErrorKind =
    | NoCredentials       // the SDK found no credentials
    | PartialCredentials  // the SDK found only part of them
    | ServiceError        // the service answered with an error (authentication, missing bucket, ...)
    | OtherError          // anything else raised while listing

  /** The outcome of creating the client and listing the bucket: an exception, or a response
      that may lack its `Contents` entry (which the service omits for an empty bucket). */
  datatype ListResponse = Raised(error: ErrorKind) | Listed(contents: Option<seq<RemoteObject>>)

  /** The planner's result: the keys to sync, in listing order, and their total byte size. */
  datatype SyncPlan = SyncPlan(keys: seq<string>, totalBytes: nat)

  /** Which message the planner printed; the one thing that tells a failure from an empty plan. */
  datatype Notice =
    | InvalidCredentials
    | CredentialFailure
    | ClientFailure
    | UnexpectedFailure
    | NoObjects
    | UpToDate
    | FilesPending

  const EmptyPlan := SyncPlan([], 0)

  /** The Python truth value of an optional string: `None` and `""` are false. */
  predicate Truthy(s: Option<string>) {
    s.Some? && s.value != ""
  }

  /** The guard at the top of the planner: all three credential fields must be truthy. */
  function CredentialsPresent(access: Option<string>, secret: Option<string>, bucket: Option<string>): (ok: bool)
    ensures !ok <==> access in {None, Some("")} || secret in {None, Some("")} || bucket in {None, Some("")}
  {
    Truthy(access) && Truthy(secret) && Truthy(bucket)
  }

  /** The notice printed for each family of listing exceptions. */
  function FailureNotice(e: ErrorKind): (n: Notice)
    ensures n in {CredentialFailure, ClientFailure, UnexpectedFailure}
    ensures n == CredentialFailure <==> e in {NoCredentials, PartialCredentials}
    ensures n == ClientFailure <==> e == ServiceError
  {
    match e
    case NoCredentials => CredentialFailure
    case PartialCredentials => CredentialFailure
    case ServiceError => ClientFailure
    case OtherError => UnexpectedFailure
  }

  /** The local path of a key. */
  function PathOf(dir: LocalDir, key: string): string {
    dir.join(dir.root, key)
  }

  /** Probing the object's local path raises: it exists, but its size cannot be read. */
  predicate ProbeFails(dir: LocalDir, o: RemoteObject) {
    var p := PathOf(dir, o.key);
    p in dir.files && dir.files[p].Unstatable?
  }

  /** The staleness test: no local file, or one whose size differs from the listed size. */
  predicate NeedsSync(dir: LocalDir, o: RemoteObject) {
    var p := PathOf(dir, o.key);
    p !in dir.files || (dir.files[p].Sized? && dir.files[p].bytes != o.size)
  }

  predicate AnyProbeFails(dir: LocalDir, objs: seq<RemoteObject>) {
    exists i :: 0 <= i < |objs| && ProbeFails(dir, objs[i])
  }

  /** The listed objects that need syncing, in listing order. */
  function Pending(dir: LocalDir, objs: seq<RemoteObject>): (r: seq<RemoteObject>)
    ensures |r| <= |objs|
    decreases |objs|
  {
    if objs == [] then []
    else
      var last := objs[|objs| - 1];
      Pending(dir, objs[..|objs| - 1]) + (if NeedsSync(dir, last) then [last] else [])
  }

  /** The keys of a sequence of objects, in order. */
  function KeysOf(objs: seq<RemoteObject>): (r: seq<string>)
    ensures |r| == |objs|
    decreases |objs|
  {
    if objs == [] then [] else KeysOf(objs[..|objs| - 1]) + [objs[|objs| - 1].key]
  }

  /** `KeysOf` keeps positions: the key at each position is that object's key. */
  lemma {:induction false} KeysOfAt(objs: seq<RemoteObject>, i: nat)
    requires i < |objs|
    ensures KeysOf(objs)[i] == objs[i].key
    decreases |objs|
  {
    if i < |objs| - 1 {
      KeysOfAt(objs[..|objs| - 1], i);
    }
  }

  /** The total byte size of a sequence of objects. */
  function SumSizes(objs: seq<RemoteObject>): nat
    decreases |objs|
  {
    if objs == [] then 0 else SumSizes(objs[..|objs| - 1]) + objs[|objs| - 1].size
  }

  /** The plan of a listing that was read to the end without a probe failure. */
  function PlanOf(dir: LocalDir, objs: seq<RemoteObject>): SyncPlan {
    var p := Pending(dir, objs);
    SyncPlan(KeysOf(p), SumSizes(p))
  }

  /** The key list and total as the planner's loop holds them after visiting the first `n`
      listed objects: each stale object appends its key and adds its size. */
  function RunningPlan(dir: LocalDir, objs: seq<RemoteObject>, n: nat): SyncPlan
    requires n <= |objs|
    decreases n
  {
    if n == 0 then EmptyPlan
    else
      var before, o := RunningPlan(dir, objs, n - 1), objs[n - 1];
      if NeedsSync(dir, o) then SyncPlan(before.keys + [o.key], before.totalBytes + o.size) else before
  }

  /** What the planner returns, as a function of its inputs: the plan and the notice printed. */
  function Requirements(access: Option<string>, secret: Option<string>, bucket: Option<string>,
                        response: ListResponse, dir: LocalDir): (SyncPlan, Notice)
  {
    if !CredentialsPresent(access, secret, bucket) then (EmptyPlan, InvalidCredentials)
    else match response
      case Raised(e) => (EmptyPlan, FailureNotice(e))
      case Listed(None) => (EmptyPlan, NoObjects)
      case Listed(Some(objs)) =>
        if AnyProbeFails(dir, objs) then (EmptyPlan, UnexpectedFailure)
        else
          var plan := PlanOf(dir, objs);
          (plan, if plan.keys == [] then UpToDate else FilesPending)
  }

  /** `calculate_sync_requirements`: the credential guard, the listing's outcome, then one
      pass over the listing that appends each stale key and adds its size to the total. */
  method CalculateSyncRequirements(access: Option<string>, secret: Option<string>, bucket: Option<string>,
                                   response: ListResponse, dir: LocalDir)
    returns (plan: SyncPlan, notice: Notice)
    ensures (plan, notice) == Requirements(access, secret, bucket, response, dir)
  {
    if !CredentialsPresent(access, secret, bucket) {
      return EmptyPlan, InvalidCredentials;
    }
    match response {
      case Raised(e) =>
        return EmptyPlan, FailureNotice(e);
      case Listed(None) =>
        return EmptyPlan, NoObjects;
      case Listed(Some(objs)) =>
        var filesToSync: seq<string> := [];
        var totalSize: nat := 0;
        var i := 0;
        while i < |objs|
          invariant 0 <= i <= |objs|
          invariant forall j :: 0 <= j < i ==> !ProbeFails(dir, objs[j])
          invariant SyncPlan(filesToSync, totalSize) == RunningPlan(dir, objs, i)
        {
          var obj := objs[i];
          var localPath := dir.join(dir.root, obj.key);
          if localPath in dir.files && dir.files[localPath].Unstatable? {
            ProbeFailureAborts(access, secret, bucket, objs, dir, i);
            return EmptyPlan, UnexpectedFailure;
          }
          if localPath !in dir.files || dir.files[localPath].bytes != obj.size {
            filesToSync := filesToSync + [obj.key];
            totalSize := totalSize + obj.size;
          }
          i := i + 1;
        }
        RunningPlanIsPlan(dir, objs, i);
        assert objs[..i] == objs;
        ListingReadToEnd(access, secret, bucket, objs, dir);
        plan := SyncPlan(filesToSync, totalSize);
        notice := if filesToSync == [] then UpToDate else FilesPending;
    }
  }

  // ---------------------------------------------------------------------------------------
  // Properties of the pure specification

  /** Planning a concatenated listing is planning each part. */
  lemma {:induction false} PendingAppend(dir: LocalDir, a: seq<RemoteObject>, b: seq<RemoteObject>)
    ensures Pending(dir, a + b) == Pending(dir, a) + Pending(dir, b)
    decreases |b|
  {
    if b == [] {
      assert a + b == a;
    } else {
      var b' := b[..|b| - 1];
      var last := b[|b| - 1];
      assert (a + b)[..|a + b| - 1] == a + b';
      PendingAppend(dir, a, b');
    }
  }

  lemma {:induction false} SumSizesAppend(a: seq<RemoteObject>, b: seq<RemoteObject>)
    ensures SumSizes(a + b) == SumSizes(a) + SumSizes(b)
    decreases |b|
  {
    if b == [] {
      assert a + b == a;
    } else {
      assert (a + b)[..|a + b| - 1] == a + b[..|b| - 1];
      SumSizesAppend(a, b[..|b| - 1]);
    }
  }

  lemma {:induction false} KeysOfAppend(a: seq<RemoteObject>, b: seq<RemoteObject>)
    ensures KeysOf(a + b) == KeysOf(a) + KeysOf(b)
    decreases |b|
  {
    if b == [] {
      assert a + b == a;
    } else {
      assert (a + b)[..|a + b| - 1] == a + b[..|b| - 1];
      KeysOfAppend(a, b[..|b| - 1]);
    }
  }

  /** The plan of a listing split in two: the first part's keys followed by the second's,
      and the sum of the two totals. */
  lemma PlanOfAppend(dir: LocalDir, a: seq<RemoteObject>, b: seq<RemoteObject>)
    ensures PlanOf(dir, a + b).keys == PlanOf(dir, a).keys + PlanOf(dir, b).keys
    ensures PlanOf(dir, a + b).totalBytes == PlanOf(dir, a).totalBytes + PlanOf(dir, b).totalBytes
  {
    PendingAppend(dir, a, b);
    KeysOfAppend(Pending(dir, a), Pending(dir, b));
    SumSizesAppend(Pending(dir, a), Pending(dir, b));
  }

  /** An object is planned exactly when it is listed and stale. */
  lemma {:induction false} PendingMembership(dir: LocalDir, objs: seq<RemoteObject>, o: RemoteObject)
    ensures o in Pending(dir, objs) <==> o in objs && NeedsSync(dir, o)
    decreases |objs|
  {
    if objs != [] {
      var init := objs[..|objs| - 1];
      assert objs == init + [objs[|objs| - 1]];
      PendingMembership(dir, init, o);
    }
  }

  /** A listed key is planned iff some listed object with that key has no local file or a
      local file of a different size; an equal-size local file excludes it. */
  lemma PlannedKeyIff(dir: LocalDir, objs: seq<RemoteObject>, k: string)
    ensures k in PlanOf(dir, objs).keys <==> exists o :: o in objs && o.key == k && NeedsSync(dir, o)
  {
    var p := Pending(dir, objs);
    if k in KeysOf(p) {
      var j :| 0 <= j < |p| && KeysOf(p)[j] == k;
      KeysOfAt(p, j);
      PendingMembership(dir, objs, p[j]);
    }
    if o :| o in objs && o.key == k && NeedsSync(dir, o) {
      PendingMembership(dir, objs, o);
      var j :| 0 <= j < |p| && p[j] == o;
      KeysOfAt(p, j);
    }
  }

  /** The positions in the listing of the planned objects. */
  function PendingIndices(dir: LocalDir, objs: seq<RemoteObject>): (idx: seq<nat>)
    decreases |objs|
  {
    if objs == [] then []
    else
      var n := |objs| - 1;
      PendingIndices(dir, objs[..n]) + (if NeedsSync(dir, objs[n]) then [n] else [])
  }

  /** The planned positions are exactly the positions of stale objects. */
  lemma {:induction false} PendingIndicesExact(dir: LocalDir, objs: seq<RemoteObject>, i: nat)
    ensures i in PendingIndices(dir, objs) <==> i < |objs| && NeedsSync(dir, objs[i])
    decreases |objs|
  {
    if objs != [] {
      var n := |objs| - 1;
      PendingIndicesExact(dir, objs[..n], i);
      if i < n {
        assert objs[..n][i] == objs[i];
      }
    }
  }

  /** `a` is the subsequence of `b` picked out by the strictly increasing positions `idx`. */
  ghost predicate Embeds<T>(idx: seq<nat>, a: seq<T>, b: seq<T>) {
    && |idx| == |a|
    && (forall j :: 0 <= j < |idx| ==> idx[j] < |b| && a[j] == b[idx[j]])
    && (forall j, k :: 0 <= j < k < |idx| ==> idx[j] < idx[k])
  }

  /** The planned objects sit at strictly increasing positions of the listing. */
  lemma {:induction false} PendingEmbeds(dir: LocalDir, objs: seq<RemoteObject>)
    ensures Embeds(PendingIndices(dir, objs), Pending(dir, objs), objs)
    ensures forall j :: 0 <= j < |PendingIndices(dir, objs)| ==> PendingIndices(dir, objs)[j] < |objs|
    decreases |objs|
  {
    if objs != [] {
      var n := |objs| - 1;
      PendingEmbeds(dir, objs[..n]);
    }
  }

  /** The planned keys keep listing order: they are a subsequence of the listed keys. */
  lemma PlanKeepsListingOrder(dir: LocalDir, objs: seq<RemoteObject>)
    ensures Embeds(PendingIndices(dir, objs), PlanOf(dir, objs).keys, KeysOf(objs))
    ensures |PlanOf(dir, objs).keys| <= |objs|
  {
    var idx, p := PendingIndices(dir, objs), Pending(dir, objs);
    PendingEmbeds(dir, objs);
    forall j | 0 <= j < |idx| ensures KeysOf(p)[j] == KeysOf(objs)[idx[j]] {
      KeysOfAt(p, j);
      KeysOfAt(objs, idx[j]);
    }
  }

  /** Only the planned objects' sizes count toward the total: an object whose local copy
      exists with exactly the listed size can be dropped anywhere from the listing without
      changing the plan. */
  lemma SkippedObjectsDoNotContribute(dir: LocalDir, a: seq<RemoteObject>, o: RemoteObject, b: seq<RemoteObject>)
    requires PathOf(dir, o.key) in dir.files && dir.files[PathOf(dir, o.key)] == Sized(o.size)
    ensures PlanOf(dir, a + [o] + b) == PlanOf(dir, a + b)
  {
    assert Pending(dir, [o]) == [] by {
      assert [o][..0] == [];
    }
    calc {
      Pending(dir, a + [o] + b);
      { PendingAppend(dir, a + [o], b); }
      Pending(dir, a + [o]) + Pending(dir, b);
      { PendingAppend(dir, a, [o]); }
      Pending(dir, a) + Pending(dir, b);
      { PendingAppend(dir, a, b); }
      Pending(dir, a + b);
    }
  }

  /** The total is the sum of the planned objects' sizes, so it never exceeds the listing's. */
  lemma {:induction false} PlanTotalBounded(dir: LocalDir, objs: seq<RemoteObject>)
    ensures PlanOf(dir, objs).totalBytes <= SumSizes(objs)
    decreases |objs|
  {
    if objs != [] {
      var n := |objs| - 1;
      PlanTotalBounded(dir, objs[..n]);
      assert objs == objs[..n] + [objs[n]];
      PlanStep(dir, objs[..n], objs[n]);
    }
  }

  /** One more listed object extends the plan by its key and the total by its size exactly
      when it is stale; otherwise neither changes. */
  lemma PlanStep(dir: LocalDir, a: seq<RemoteObject>, o: RemoteObject)
    ensures PlanOf(dir, a + [o]).keys == PlanOf(dir, a).keys + (if NeedsSync(dir, o) then [o.key] else [])
    ensures PlanOf(dir, a + [o]).totalBytes == PlanOf(dir, a).totalBytes + (if NeedsSync(dir, o) then o.size else 0)
  {
    var p := Pending(dir, a);
    assert (a + [o])[..|a|] == a;
    if NeedsSync(dir, o) {
      assert Pending(dir, a + [o]) == p + [o];
      assert (p + [o])[..|p|] == p;
      assert KeysOf(p + [o]) == KeysOf(p) + [o.key];
      assert SumSizes(p + [o]) == SumSizes(p) + o.size;
    } else {
      assert Pending(dir, a + [o]) == p;
    }
  }

  /** The running key list and total after `n` objects are the plan of the first `n` objects:
      the stale keys in listing order and the sum of their sizes. */
  lemma {:induction false} RunningPlanIsPlan(dir: LocalDir, objs: seq<RemoteObject>, n: nat)
    requires n <= |objs|
    ensures RunningPlan(dir, objs, n) == PlanOf(dir, objs[..n])
    decreases n
  {
    if n == 0 {
      assert objs[..0] == [];
    } else {
      RunningPlanIsPlan(dir, objs, n - 1);
      assert objs[..n] == objs[..n - 1] + [objs[n - 1]];
      PlanStep(dir, objs[..n - 1], objs[n - 1]);
    }
  }

  // ---------------------------------------------------------------------------------------
  // Properties of the planner's guards

  /** Missing or empty credentials: an empty plan whatever the bucket and the local directory
      hold, so the outcome of the listing call is never consulted. */
  lemma CredentialGuard(access: Option<string>, secret: Option<string>, bucket: Option<string>,
                        r1: ListResponse, d1: LocalDir, r2: ListResponse, d2: LocalDir)
    requires !CredentialsPresent(access, secret, bucket)
    ensures Requirements(access, secret, bucket, r1, d1) == Requirements(access, secret, bucket, r2, d2)
    ensures Requirements(access, secret, bucket, r1, d1) == (EmptyPlan, InvalidCredentials)
  {
  }

  /** A response without `Contents` (an empty bucket) gives the empty plan. */
  lemma EmptyBucket(access: Option<string>, secret: Option<string>, bucket: Option<string>, dir: LocalDir)
    requires CredentialsPresent(access, secret, bucket)
    ensures Requirements(access, secret, bucket, Listed(None), dir) == (EmptyPlan, NoObjects)
  {
  }

  /** A size probe that raises, at any position of the listing, empties the whole plan: the
      keys already collected are discarded. */
  lemma ProbeFailureAborts(access: Option<string>, secret: Option<string>, bucket: Option<string>,
                           objs: seq<RemoteObject>, dir: LocalDir, i: nat)
    requires CredentialsPresent(access, secret, bucket)
    requires i < |objs| && PathOf(dir, objs[i].key) in dir.files && dir.files[PathOf(dir, objs[i].key)].Unstatable?
    ensures Requirements(access, secret, bucket, Listed(Some(objs)), dir) == (EmptyPlan, UnexpectedFailure)
  {
  }

  /** A listing read to the end without a probe failure yields its plan; the notice says
      whether anything is pending. */
  lemma ListingReadToEnd(access: Option<string>, secret: Option<string>, bucket: Option<string>,
                         objs: seq<RemoteObject>, dir: LocalDir)
    requires CredentialsPresent(access, secret, bucket)
    requires forall j :: 0 <= j < |objs| ==> !ProbeFails(dir, objs[j])
    ensures Requirements(access, secret, bucket, Listed(Some(objs)), dir).0 == PlanOf(dir, objs)
    ensures Requirements(access, secret, bucket, Listed(Some(objs)), dir).1
            == if PlanOf(dir, objs).keys == [] then UpToDate else FilesPending
  {
  }

  /** Every failure, of the listing call or of a local size probe, gives the empty plan, which
      is exactly the plan of a listing whose files are all up to date; only the notice differs. */
  lemma FailureLooksLikeNothingToSync(access: Option<string>, secret: Option<string>, bucket: Option<string>,
                                      response: ListResponse, dir: LocalDir)
    requires CredentialsPresent(access, secret, bucket)
    requires response.Raised? || (response.contents.Some? && AnyProbeFails(dir, response.contents.value))
    ensures Requirements(access, secret, bucket, response, dir).0 == EmptyPlan
    ensures Requirements(access, secret, bucket, response, dir).1 in {CredentialFailure, ClientFailure, UnexpectedFailure}
    ensures Requirements(access, secret, bucket, Listed(Some([])), dir) == (EmptyPlan, UpToDate)
  {
  }

  /** When the listing is read to the end, the plan is the stale keys and their total. */
  lemma SuccessfulPlan(access: Option<string>, secret: Option<string>, bucket: Option<string>,
                       objs: seq<RemoteObject>, dir: LocalDir, k: string)
    requires CredentialsPresent(access, secret, bucket)
    requires !AnyProbeFails(dir, objs)
    ensures var (plan, notice) := Requirements(access, secret, bucket, Listed(Some(objs)), dir);
      && (k in plan.keys <==> exists o :: o in objs && o.key == k && NeedsSync(dir, o))
      && plan.totalBytes <= SumSizes(objs)
      && (notice == FilesPending <==> plan.keys != [])
  {
    PlannedKeyIff(dir, objs, k);
    PlanTotalBounded(dir, objs);
  }

  /** An example: `a.txt` (100 bytes) is present locally with 100 bytes and `b.txt`
      (200 bytes) is absent, so only `b.txt` is planned, for 200 bytes. */
  lemma TwoObjectExample(dir: LocalDir)
    requires PathOf(dir, "a.txt") in dir.files && dir.files[PathOf(dir, "a.txt")] == Sized(100)
    requires PathOf(dir, "b.txt") !in dir.files
    ensures Requirements(Some("id"), Some("secret"), Some("bucket"),
                         Listed(Some([RemoteObject("a.txt", 100), RemoteObject("b.txt", 200)])), dir)
            == (SyncPlan(["b.txt"], 200), FilesPending)
  {
    var a, b := RemoteObject("a.txt", 100), RemoteObject("b.txt", 200);
    assert !NeedsSync(dir, a) && NeedsSync(dir, b);
    assert !ProbeFails(dir, a) && !ProbeFails(dir, b);
    assert [] + [a] == [a] && [a] + [b] == [a, b];
    PlanStep(dir, [], a);
    assert PlanOf(dir, [a]) == EmptyPlan;
    PlanStep(dir, [a], b);
    assert PlanOf(dir, [a, b]).keys == [b.key];
    ListingReadToEnd(Some("id"), Some("secret"), Some("bucket"), [a, b], dir);
  }
}
