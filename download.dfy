/** downloadFile: fetch the file's download plan, then fetch every chunk the plan
    locates from its bucket, with the bucket's download token, concurrently, and
    lay the chunks out in chunk-index order. */
module Download {
  import opened VaultTypes
  import opened Chunking

  /** Everything one downloadFile call does: the remote calls it issues, in the
      order it issues them, and the file it returns or the error it throws. */
  datatype Outcome = Outcome(calls: seq<Call>, result: Result<seq<byte>>)

  /** The comparison `a.bucket_id.toText() === loc.bucket.toText()`. */
  predicate ForBucket(a: BucketAuth, bucket: Principal)
  {
    a.bucketId.text == bucket.text
  }

  /** `plan.auth.find(...)`: the first auth entry for `bucket`, if there is one. */
  function FindAuth(auth: seq<BucketAuth>, bucket: Principal): (r: Option<BucketAuth>)
    ensures r.Some? ==> ForBucket(r.value, bucket)
  {
    if |auth| == 0 then None
    else if ForBucket(auth[0], bucket) then Some(auth[0])
    else FindAuth(auth[1..], bucket)
  }

  /** FindAuth finds nothing exactly when no entry is for the bucket, and
      otherwise finds the entry for it that comes first. */
  lemma {:induction false} FindAuthFirst(auth: seq<BucketAuth>, bucket: Principal)
    ensures FindAuth(auth, bucket).None? <==> forall k :: 0 <= k < |auth| ==> !ForBucket(auth[k], bucket)
    ensures FindAuth(auth, bucket).Some? ==>
              exists k :: 0 <= k < |auth| && auth[k] == FindAuth(auth, bucket).value
                          && forall m :: 0 <= m < k ==> !ForBucket(auth[m], bucket)
  {
    if |auth| > 0 && !ForBucket(auth[0], bucket) {
      var tail := auth[1..];
      FindAuthFirst(tail, bucket);
      assert forall k :: 1 <= k < |auth| ==> auth[k] == tail[k - 1];
      if FindAuth(tail, bucket).Some? {
        var k :| 0 <= k < |tail| && tail[k] == FindAuth(tail, bucket).value
                 && forall m :: 0 <= m < k ==> !ForBucket(tail[m], bucket);
        assert auth[k + 1] == FindAuth(auth, bucket).value;
      }
    } else if |auth| > 0 {
      assert auth[0] == FindAuth(auth, bucket).value;
    }
  }

  /** The getChunk call for location `loc` when its bucket has auth `a`. */
  function Fetch(loc: ChunkLocation, a: BucketAuth): Call
  {
    GetChunk(loc.bucket, a.token, loc.chunkIndex)
  }

  /** The getChunk calls issued for the locations `locs`, in location order: one
      for each location whose bucket has an auth entry; a location without one
      throws before it fetches anything. */
  function FetchCalls(auth: seq<BucketAuth>, locs: seq<ChunkLocation>): (r: seq<Call>)
    ensures |r| <= |locs|
    ensures forall k :: 0 <= k < |r| ==> r[k].GetChunk?
  {
    if |locs| == 0 then []
    else
      var loc := locs[|locs| - 1];
      FetchCalls(auth, locs[..|locs| - 1])
        + match FindAuth(auth, loc.bucket)
          case None => []
          case Some(a) => [Fetch(loc, a)]
  }

  predicate Authorized(auth: seq<BucketAuth>, loc: ChunkLocation)
  {
    FindAuth(auth, loc.bucket).Some?
  }

  /** The bucket of the first location, in location order, that has no auth entry:
      the error downloadFile throws. */
  function FirstUnauthorized(auth: seq<BucketAuth>, locs: seq<ChunkLocation>): (r: Option<Principal>)
    ensures r.Some? ==> exists j :: 0 <= j < |locs| && r.value == locs[j].bucket
  {
    if |locs| == 0 then None
    else
      var init := locs[..|locs| - 1];
      match FirstUnauthorized(auth, init)
      case Some(bucket) =>
        assert forall j :: 0 <= j < |init| ==> init[j] == locs[j];
        Some(bucket)
      case None => if Authorized(auth, locs[|locs| - 1]) then None else Some(locs[|locs| - 1].bucket)
  }

  /** FirstUnauthorized finds nothing exactly when every location is authorised,
      and otherwise the bucket of the first location that is not. */
  lemma {:induction false} FirstUnauthorizedIsFirst(auth: seq<BucketAuth>, locs: seq<ChunkLocation>)
    ensures FirstUnauthorized(auth, locs).None? <==> forall j :: 0 <= j < |locs| ==> Authorized(auth, locs[j])
    ensures FirstUnauthorized(auth, locs).Some? ==>
              exists j :: 0 <= j < |locs| && !Authorized(auth, locs[j])
                          && FirstUnauthorized(auth, locs).value == locs[j].bucket
                          && forall m :: 0 <= m < j ==> Authorized(auth, locs[m])
  {
    if |locs| > 0 {
      var n := |locs| - 1;
      var init := locs[..n];
      FirstUnauthorizedIsFirst(auth, init);
      assert forall j :: 0 <= j < n ==> init[j] == locs[j];
    }
  }

  /** The plan's locations name chunk indexes below `chunk_count`, no index twice,
      and every index below `chunk_count`: every slot of the chunk array is written
      exactly once. */
  predicate WellFormedPlan(plan: DownloadPlan)
  {
    && (forall j :: 0 <= j < |plan.locations| ==> plan.locations[j].chunkIndex < plan.chunkCount)
    && (forall j, j' :: 0 <= j < j' < |plan.locations| ==>
          plan.locations[j].chunkIndex != plan.locations[j'].chunkIndex)
    && (forall c :: 0 <= c < plan.chunkCount ==> Located(plan.locations, c))
  }

  /** Some location holds the chunk with index `c`. */
  predicate Located(locs: seq<ChunkLocation>, c: nat)
  {
    exists j :: 0 <= j < |locs| && locs[j].chunkIndex == c
  }

  /** `order` lists every index below `m` exactly once: an order in which `m`
      concurrent fetches can complete. */
  predicate IsOrder(order: seq<nat>, m: nat)
  {
    && (forall t :: 0 <= t < |order| ==> order[t] < m)
    && (forall t, u :: 0 <= t < u < |order| ==> order[t] != order[u])
    && (forall j :: 0 <= j < m ==> j in order)
  }

  /** The location whose chunk index is `c`. */
  function LocationOf(locs: seq<ChunkLocation>, c: nat): (j: nat)
    requires Located(locs, c)
    ensures j < |locs| && locs[j].chunkIndex == c
    decreases |locs|
  {
    if locs[0].chunkIndex == c then 0
    else
      assert forall j :: 1 <= j < |locs| ==> locs[j] == locs[1..][j - 1];
      1 + LocationOf(locs[1..], c)
  }

  /** The answers to the `m` fetches that follow the plan request in `calls`: the
      fetch issued `k`-th is answered given the calls up to and including it. */
  function Replies(remote: Remote, calls: seq<Call>, m: nat): (r: seq<Result<seq<byte>>>)
    requires m < |calls|
    ensures |r| == m
  {
    seq(m, k requires 0 <= k < m => remote.getChunk(calls[..k + 2]))
  }

  /** The error of the first fetch, in completion order, that fails: the one
      `Promise.all` rejects with. */
  function FirstFailure(replies: seq<Result<seq<byte>>>, order: seq<nat>): (e: Option<Error>)
    requires forall t :: 0 <= t < |order| ==> order[t] < |replies|
    ensures e.Some? ==> exists t :: 0 <= t < |order| && replies[order[t]] == Err(e.value)
    decreases |order|
  {
    if |order| == 0 then None
    else if replies[order[0]].Err? then Some(replies[order[0]].error)
    else FirstFailure(replies, order[1..])
  }

  /** FirstFailure finds nothing exactly when every fetch in `order` succeeded. */
  lemma {:induction false} FirstFailureNone(replies: seq<Result<seq<byte>>>, order: seq<nat>)
    requires forall t :: 0 <= t < |order| ==> order[t] < |replies|
    ensures FirstFailure(replies, order).None? <==> forall t :: 0 <= t < |order| ==> replies[order[t]].Ok?
    decreases |order|
  {
    if |order| > 0 {
      FirstFailureNone(replies, order[1..]);
      assert forall t :: 1 <= t < |order| ==> order[t] == order[1..][t - 1];
    }
  }

  /** `sortedChunks[loc.chunk_index] = chunkContent` for the fetch of location `k`,
      if it succeeded. */
  function Settle(slots: seq<seq<byte>>, locs: seq<ChunkLocation>, replies: seq<Result<seq<byte>>>, k: nat): seq<seq<byte>>
    requires k < |locs| && k < |replies|
    requires locs[k].chunkIndex < |slots|
  {
    if replies[k].Ok? then slots[locs[k].chunkIndex := replies[k].value] else slots
  }

  /** The chunk array once the fetches of the locations in `order` have completed,
      in that order. */
  function SettleAll(slots: seq<seq<byte>>, locs: seq<ChunkLocation>, replies: seq<Result<seq<byte>>>,
                     order: seq<nat>): (r: seq<seq<byte>>)
    requires |replies| == |locs|
    requires forall j :: 0 <= j < |locs| ==> locs[j].chunkIndex < |slots|
    requires forall t :: 0 <= t < |order| ==> order[t] < |locs|
    ensures |r| == |slots|
  {
    if |order| == 0 then slots
    else Settle(SettleAll(slots, locs, replies, order[..|order| - 1]), locs, replies, order[|order| - 1])
  }

  /** The requirement downloadFile places on the directory's answer, and the
      requirement on the completion order: once the plan is known, `completion`
      orders its locations. */
  predicate Admissible(remote: Remote, fileId: FileId, completion: seq<nat>)
  {
    match remote.getDownloadPlan([GetDownloadPlan(fileId)])
    case Err(_) => true
    case Ok(plan) => WellFormedPlan(plan) && IsOrder(completion, |plan.locations|)
  }

  /** The reference run of downloadFile against `remote`, the fetches completing in
      the order `completion`. */
  function Run(remote: Remote, fileId: FileId, completion: seq<nat>): (o: Outcome)
    requires Admissible(remote, fileId, completion)
    ensures 0 < |o.calls| && o.calls[0] == GetDownloadPlan(fileId)
    ensures forall k :: 1 <= k < |o.calls| ==> o.calls[k].GetChunk?
  {
    var h := [GetDownloadPlan(fileId)];
    match remote.getDownloadPlan(h)
    case Err(e) => Outcome(h, Err(e))
    case Ok(plan) =>
      var calls := h + FetchCalls(plan.auth, plan.locations);
      match FirstUnauthorized(plan.auth, plan.locations)
      case Some(bucket) => Outcome(calls, Err(NoAuthForBucket(bucket)))
      case None =>
        FirstUnauthorizedIsFirst(plan.auth, plan.locations);
        FetchCallsAuthorized(plan.auth, plan.locations);
        var replies := Replies(remote, calls, |plan.locations|);
        match FirstFailure(replies, completion)
        case Some(e) => Outcome(calls, Err(e))
        case None =>
          Outcome(calls, Ok(Concat(SettleAll(seq(plan.chunkCount, _ => []), plan.locations, replies, completion))))
  }

  /** When every location is authorised, there is one fetch per location, in
      location order, each to the location's bucket, for its chunk, with the token
      of the bucket's first auth entry. */
  lemma {:induction false} FetchCallsAuthorized(auth: seq<BucketAuth>, locs: seq<ChunkLocation>)
    requires forall j :: 0 <= j < |locs| ==> Authorized(auth, locs[j])
    ensures |FetchCalls(auth, locs)| == |locs|
    ensures forall j :: 0 <= j < |locs| ==>
              && Authorized(auth, locs[j])
              && FetchCalls(auth, locs)[j] == Fetch(locs[j], FindAuth(auth, locs[j].bucket).value)
    decreases |locs|
  {
    if |locs| > 0 {
      var n := |locs| - 1;
      var init := locs[..n];
      FetchCallsAuthorized(auth, init);
      var a := FindAuth(auth, locs[n].bucket).value;
      assert FetchCalls(auth, locs) == FetchCalls(auth, init) + [Fetch(locs[n], a)];
      forall j | 0 <= j < n
        ensures FetchCalls(auth, locs)[j] == Fetch(locs[j], FindAuth(auth, locs[j].bucket).value)
      {
        assert init[j] == locs[j];
      }
    }
  }

  /** downloadFile. Returns the file's bytes or the error thrown, and the remote
      calls issued; the fetches complete in the order `completion`. */
  method DownloadFile(remote: Remote, fileId: FileId, completion: seq<nat>)
    returns (result: Result<seq<byte>>, calls: seq<Call>)
    requires Admissible(remote, fileId, completion)
    ensures Outcome(calls, result) == Run(remote, fileId, completion)
  {
    calls := [GetDownloadPlan(fileId)];
    var planResult := remote.getDownloadPlan(calls);
    if planResult.Err? {
      result := Err(planResult.error);
      return;
    }
    var plan := planResult.value;
    var locs := plan.locations;
    var sortedChunks := new seq<byte>[plan.chunkCount](_ => []);
    ghost var empty := sortedChunks[..];

    var fetches, missing := IssueFetches(plan.auth, locs);
    calls := calls + fetches;
    if missing.Some? {
      result := Err(NoAuthForBucket(missing.value));
      return;
    }

    // The fetches complete in the order `completion`; each successful one fills
    // its chunk's slot.
    FirstUnauthorizedIsFirst(plan.auth, locs);
    FetchCallsAuthorized(plan.auth, locs);
    var replies := Replies(remote, calls, |locs|);
    var failure := SettleInPlace(sortedChunks, locs, replies, completion);
    if failure.Some? {
      result := Err(failure.value);
      return;
    }
    assert empty == seq(plan.chunkCount, _ => []);
    result := Ok(Concat(sortedChunks[..]));
  }

  /** The synchronous part of each `plan.locations.map` callback, in location
      order: look up the location's auth entry, then throw or issue the fetch.
      Returns the fetches issued and the bucket of the first location that threw. */
  method IssueFetches(auth: seq<BucketAuth>, locs: seq<ChunkLocation>)
    returns (fetches: seq<Call>, missing: Option<Principal>)
    ensures fetches == FetchCalls(auth, locs)
    ensures missing == FirstUnauthorized(auth, locs)
  {
    fetches, missing := [], None;
    var j := 0;
    while j < |locs|
      invariant j <= |locs|
      invariant fetches == FetchCalls(auth, locs[..j])
      invariant missing == FirstUnauthorized(auth, locs[..j])
    {
      var loc := locs[j];
      var found := FindAuth(auth, loc.bucket);
      assert locs[..j + 1][..j] == locs[..j];
      if found.None? {
        if missing.None? {
          missing := Some(loc.bucket);
        }
      } else {
        fetches := fetches + [Fetch(loc, found.value)];
      }
      j := j + 1;
    }
    assert locs[..j] == locs;
  }

  /** Applies the completions of the fetches in the order `order` to the chunk array
      `slots`, and returns the error of the first failed fetch. */
  method SettleInPlace(slots: array<seq<byte>>, locs: seq<ChunkLocation>, replies: seq<Result<seq<byte>>>,
                       order: seq<nat>)
    returns (failure: Option<Error>)
    requires |replies| == |locs|
    requires forall j :: 0 <= j < |locs| ==> locs[j].chunkIndex < slots.Length
    requires forall t :: 0 <= t < |order| ==> order[t] < |locs|
    modifies slots
    ensures slots[..] == SettleAll(old(slots[..]), locs, replies, order)
    ensures failure == FirstFailure(replies, order)
  {
    failure := None;
    var t := 0;
    while t < |order|
      invariant t <= |order|
      invariant slots[..] == SettleAll(old(slots[..]), locs, replies, order[..t])
      invariant failure.None? ==> forall u :: 0 <= u < t ==> replies[order[u]].Ok?
      invariant failure.Some? ==> failure == FirstFailure(replies, order)
    {
      var k := order[t];
      assert order[..t + 1][..t] == order[..t];
      match replies[k] {
        case Ok(content) =>
          slots[locs[k].chunkIndex] := content;
        case Err(e) =>
          if failure.None? {
            FirstFailureAt(replies, order, t);
            failure := Some(e);
          }
      }
      t := t + 1;
    }
    assert order[..t] == order;
    FirstFailureNone(replies, order);
  }

  /** If the fetch at position `t` of the completion order is the first that failed,
      it is the one whose error Promise.all rejects with. */
  lemma {:induction false} FirstFailureAt(replies: seq<Result<seq<byte>>>, order: seq<nat>, t: nat)
    requires forall u :: 0 <= u < |order| ==> order[u] < |replies|
    requires t < |order| && replies[order[t]].Err?
    requires forall u :: 0 <= u < t ==> replies[order[u]].Ok?
    ensures FirstFailure(replies, order) == Some(replies[order[t]].error)
    decreases t
  {
    if t > 0 {
      assert forall u :: 0 <= u < |order| - 1 ==> order[1..][u] == order[u + 1];
      FirstFailureAt(replies, order[1..], t - 1);
    }
  }
}
