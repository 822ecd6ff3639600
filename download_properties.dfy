/** What downloadFile promises: the file comes back in chunk-index order whatever
    order the fetches complete in, every fetch uses the first auth entry of its
    bucket, and a bucket without one makes the download fail. */
module DownloadProperties {
  import opened VaultTypes
  import opened Chunking
  import opened Download

  /** The directory's answer to the plan request. */
  function PlanOf(remote: Remote, fileId: FileId): Result<DownloadPlan>
  {
    remote.getDownloadPlan([GetDownloadPlan(fileId)])
  }

  /** The answers to the fetches of a plan whose locations all have auth, one per
      location, in location order. */
  function FetchReplies(remote: Remote, fileId: FileId, plan: DownloadPlan): (r: seq<Result<seq<byte>>>)
    requires FirstUnauthorized(plan.auth, plan.locations).None?
    ensures |r| == |plan.locations|
  {
    FirstUnauthorizedIsFirst(plan.auth, plan.locations);
    FetchCallsAuthorized(plan.auth, plan.locations);
    Replies(remote, [GetDownloadPlan(fileId)] + FetchCalls(plan.auth, plan.locations), |plan.locations|)
  }

  /** The fetched chunks laid out by chunk index: slot `c` holds what the fetch of
      the location with index `c` returned. */
  function InIndexOrder(locs: seq<ChunkLocation>, replies: seq<Result<seq<byte>>>, n: nat): (r: seq<seq<byte>>)
    requires |replies| == |locs|
    requires forall c :: 0 <= c < n ==> Located(locs, c)
    ensures |r| == n
  {
    seq(n, c requires 0 <= c < n =>
      var reply := replies[LocationOf(locs, c)];
      if reply.Ok? then reply.value else [])
  }

  /** Every fetch issued goes to the bucket of some location that has an auth
      entry, for that location's chunk, with the token of the bucket's first
      auth entry; a location without one gets no fetch. */
  lemma {:induction false} FetchCallsOnlyAuthorized(auth: seq<BucketAuth>, locs: seq<ChunkLocation>, k: nat)
    requires k < |FetchCalls(auth, locs)|
    ensures exists j :: 0 <= j < |locs| && Authorized(auth, locs[j])
                        && FetchCalls(auth, locs)[k] == Fetch(locs[j], FindAuth(auth, locs[j].bucket).value)
    decreases |locs|
  {
    var init := locs[..|locs| - 1];
    assert forall j :: 0 <= j < |init| ==> init[j] == locs[j];
    if k < |FetchCalls(auth, init)| {
      FetchCallsOnlyAuthorized(auth, init, k);
    } else {
      assert Authorized(auth, locs[|locs| - 1]);
    }
  }

  /** Slot `c`, which only the location `loc` names, holds that location's chunk
      once the fetches in `order` have completed if its fetch is among them and
      succeeded, and is untouched otherwise: no other fetch writes it. */
  lemma {:induction false} SettledSlot(slots: seq<seq<byte>>, locs: seq<ChunkLocation>,
                                       replies: seq<Result<seq<byte>>>, order: seq<nat>, loc: nat)
    requires |replies| == |locs|
    requires forall j :: 0 <= j < |locs| ==> locs[j].chunkIndex < |slots|
    requires forall j, j' :: 0 <= j < j' < |locs| ==> locs[j].chunkIndex != locs[j'].chunkIndex
    requires forall t :: 0 <= t < |order| ==> order[t] < |locs|
    requires forall t, u :: 0 <= t < u < |order| ==> order[t] != order[u]
    requires loc < |locs|
    ensures SettleAll(slots, locs, replies, order)[locs[loc].chunkIndex]
         == if loc in order && replies[loc].Ok? then replies[loc].value else slots[locs[loc].chunkIndex]
    decreases |order|
  {
    if |order| > 0 {
      var last := |order| - 1;
      var p, k := order[..last], order[last];
      SettledSlot(slots, locs, replies, p, loc);
      assert SettleAll(slots, locs, replies, order) == Settle(SettleAll(slots, locs, replies, p), locs, replies, k);
      assert order == p + [k];
      if k == loc {
        assert loc !in p by {
          assert forall t :: 0 <= t < last ==> p[t] == order[t];
        }
      } else {
        assert locs[k].chunkIndex != locs[loc].chunkIndex;
      }
    }
  }

  /** Once every fetch of a well-formed plan has completed successfully, in any
      order, the chunk array holds the chunks in chunk-index order. */
  lemma SettledInIndexOrder(plan: DownloadPlan, replies: seq<Result<seq<byte>>>, order: seq<nat>)
    requires WellFormedPlan(plan) && IsOrder(order, |plan.locations|)
    requires |replies| == |plan.locations|
    requires forall k :: 0 <= k < |replies| ==> replies[k].Ok?
    ensures SettleAll(seq(plan.chunkCount, _ => []), plan.locations, replies, order)
         == InIndexOrder(plan.locations, replies, plan.chunkCount)
  {
    var slots: seq<seq<byte>> := seq(plan.chunkCount, _ => []);
    forall c | 0 <= c < plan.chunkCount
      ensures SettleAll(slots, plan.locations, replies, order)[c]
           == InIndexOrder(plan.locations, replies, plan.chunkCount)[c]
    {
      SettledSlot(slots, plan.locations, replies, order, LocationOf(plan.locations, c));
    }
  }

  /** downloadFile returns a file exactly when the plan arrives, every location's
      bucket has an auth entry and every fetch succeeds; the file is then the
      fetched chunks laid end to end in chunk-index order. */
  lemma RunSucceeds(remote: Remote, fileId: FileId, completion: seq<nat>)
    requires Admissible(remote, fileId, completion)
    ensures Run(remote, fileId, completion).result.Ok? <==>
              && PlanOf(remote, fileId).Ok?
              && FirstUnauthorized(PlanOf(remote, fileId).value.auth, PlanOf(remote, fileId).value.locations).None?
              && forall k :: 0 <= k < |PlanOf(remote, fileId).value.locations| ==>
                   FetchReplies(remote, fileId, PlanOf(remote, fileId).value)[k].Ok?
    ensures Run(remote, fileId, completion).result.Ok? ==>
              var plan := PlanOf(remote, fileId).value;
              Run(remote, fileId, completion).result.value
                == Concat(InIndexOrder(plan.locations, FetchReplies(remote, fileId, plan), plan.chunkCount))
  {
    match PlanOf(remote, fileId)
    case Err(_) =>
    case Ok(plan) =>
      if FirstUnauthorized(plan.auth, plan.locations).None? {
        var replies := FetchReplies(remote, fileId, plan);
        FirstFailureNone(replies, completion);
        if FirstFailure(replies, completion).None? {
          assert IsOrder(completion, |plan.locations|);
          forall k | 0 <= k < |replies| ensures replies[k].Ok? {
            assert k in completion;
            var t :| 0 <= t < |completion| && completion[t] == k;
          }
          SettledInIndexOrder(plan, replies, completion);
        } else {
          var t :| 0 <= t < |completion| && replies[completion[t]].Err?;
        }
      }
  }

  /** The order in which the fetches complete changes neither the calls issued
      nor, when the download succeeds, the file returned. */
  lemma RunIgnoresCompletionOrder(remote: Remote, fileId: FileId, first: seq<nat>, second: seq<nat>)
    requires Admissible(remote, fileId, first) && Admissible(remote, fileId, second)
    ensures Run(remote, fileId, first).calls == Run(remote, fileId, second).calls
    ensures Run(remote, fileId, first).result.Ok? <==> Run(remote, fileId, second).result.Ok?
    ensures Run(remote, fileId, first).result.Ok? ==>
              Run(remote, fileId, first).result == Run(remote, fileId, second).result
  {
    RunSucceeds(remote, fileId, first);
    RunSucceeds(remote, fileId, second);
  }

  /** When the plan names a location whose bucket has no auth entry, the download
      throws `No auth for bucket` for the first such location, after issuing the
      fetches of the locations that do have one. */
  lemma RunFailsWithoutAuth(remote: Remote, fileId: FileId, completion: seq<nat>, j: nat)
    requires Admissible(remote, fileId, completion)
    requires PlanOf(remote, fileId).Ok?
    requires var locs := PlanOf(remote, fileId).value.locations;
             j < |locs| && !Authorized(PlanOf(remote, fileId).value.auth, locs[j])
             && forall m :: 0 <= m < j ==> Authorized(PlanOf(remote, fileId).value.auth, locs[m])
    ensures var plan := PlanOf(remote, fileId).value;
            Run(remote, fileId, completion)
              == Outcome([GetDownloadPlan(fileId)] + FetchCalls(plan.auth, plan.locations),
                         Err(NoAuthForBucket(plan.locations[j].bucket)))
  {
    var plan := PlanOf(remote, fileId).value;
    var r := FirstUnauthorized(plan.auth, plan.locations);
    FirstUnauthorizedIsFirst(plan.auth, plan.locations);
    var j' :| 0 <= j' < |plan.locations| && !Authorized(plan.auth, plan.locations[j'])
              && r.value == plan.locations[j'].bucket
              && forall m :: 0 <= m < j' ==> Authorized(plan.auth, plan.locations[m]);
    assert j' == j;
  }

  /** A plan for two chunks held in two buckets, each with its own auth entry, is
      well formed, authorises both locations and has each fetched with its own
      bucket's token. */
  lemma TwoBucketPlan(x: Principal, y: Principal, tx: DownloadToken, ty: DownloadToken)
    requires x.text != y.text
    ensures var plan := DownloadPlan(2, [ChunkLocation(x, 0), ChunkLocation(y, 1)],
                                     [BucketAuth(x, tx), BucketAuth(y, ty)]);
            && WellFormedPlan(plan)
            && FirstUnauthorized(plan.auth, plan.locations).None?
            && FetchCalls(plan.auth, plan.locations) == [GetChunk(x, tx, 0), GetChunk(y, ty, 1)]
            && LocationOf(plan.locations, 0) == 0 && LocationOf(plan.locations, 1) == 1
  {
    var auth := [BucketAuth(x, tx), BucketAuth(y, ty)];
    var locs := [ChunkLocation(x, 0), ChunkLocation(y, 1)];
    assert Located(locs, 0) && Located(locs, 1) by {
      assert locs[0].chunkIndex == 0 && locs[1].chunkIndex == 1;
    }
    assert FindAuth(auth, x) == Some(BucketAuth(x, tx));
    assert FindAuth(auth, y) == Some(BucketAuth(y, ty)) by {
      assert FindAuth(auth[1..], y) == Some(BucketAuth(y, ty));
    }
    assert locs[..1] == [ChunkLocation(x, 0)] && locs[..1][..0] == [];
    assert FetchCalls(auth, locs[..1]) == [GetChunk(x, tx, 0)];
    assert FirstUnauthorized(auth, locs[..1]).None?;
  }

  /** The scenario of a two-chunk file whose chunks sit in two buckets, each with
      its own auth entry: downloadFile fetches chunk 0 from the first bucket and
      chunk 1 from the second, each with its bucket's token, and returns the two
      chunks in index order, whichever fetch completes first. */
  lemma TwoBucketDownload(remote: Remote, fileId: FileId, x: Principal, y: Principal,
                          tx: DownloadToken, ty: DownloadToken, cx: seq<byte>, cy: seq<byte>,
                          completion: seq<nat>)
    requires x.text != y.text
    requires PlanOf(remote, fileId)
          == Ok(DownloadPlan(2, [ChunkLocation(x, 0), ChunkLocation(y, 1)], [BucketAuth(x, tx), BucketAuth(y, ty)]))
    requires remote.getChunk([GetDownloadPlan(fileId), GetChunk(x, tx, 0)]) == Ok(cx)
    requires remote.getChunk([GetDownloadPlan(fileId), GetChunk(x, tx, 0), GetChunk(y, ty, 1)]) == Ok(cy)
    requires completion == [0, 1] || completion == [1, 0]
    ensures Admissible(remote, fileId, completion)
    ensures Run(remote, fileId, completion)
         == Outcome([GetDownloadPlan(fileId), GetChunk(x, tx, 0), GetChunk(y, ty, 1)], Ok(cx + cy))
  {
    var plan := PlanOf(remote, fileId).value;
    TwoBucketPlan(x, y, tx, ty);
    assert IsOrder(completion, 2) by {
      assert completion[0] in completion && completion[1] in completion;
    }
    var calls := [GetDownloadPlan(fileId)] + FetchCalls(plan.auth, plan.locations);
    assert calls == [GetDownloadPlan(fileId), GetChunk(x, tx, 0), GetChunk(y, ty, 1)];
    assert calls[..2] == [GetDownloadPlan(fileId), GetChunk(x, tx, 0)] && calls[..3] == calls;
    RunSucceeds(remote, fileId, completion);
    var replies := FetchReplies(remote, fileId, plan);
    assert replies[0] == Ok(cx) && replies[1] == Ok(cy);
    assert InIndexOrder(plan.locations, replies, 2) == [cx, cy];
    ConcatPair(cx, cy);
  }

  lemma ConcatPair(a: seq<byte>, b: seq<byte>)
    ensures Concat([a, b]) == a + b
  {
    assert [a, b][..1] == [a] && [a][..0] == [];
    assert Concat([a]) == a;
  }

  /** A two-chunk file whose second bucket has no auth entry: the first chunk is
      still fetched, and the download throws `No auth for bucket` for the second. */
  lemma MissingAuthDownload(remote: Remote, fileId: FileId, x: Principal, y: Principal,
                            tx: DownloadToken, completion: seq<nat>)
    requires x.text != y.text
    requires PlanOf(remote, fileId)
          == Ok(DownloadPlan(2, [ChunkLocation(x, 0), ChunkLocation(y, 1)], [BucketAuth(x, tx)]))
    requires completion == [0, 1] || completion == [1, 0]
    ensures Admissible(remote, fileId, completion)
    ensures Run(remote, fileId, completion)
         == Outcome([GetDownloadPlan(fileId), GetChunk(x, tx, 0)], Err(NoAuthForBucket(y)))
  {
    var plan := PlanOf(remote, fileId).value;
    var locs := plan.locations;
    assert Located(locs, 0) && Located(locs, 1) by {
      assert locs[0].chunkIndex == 0 && locs[1].chunkIndex == 1;
    }
    assert IsOrder(completion, 2) by {
      assert completion[0] in completion && completion[1] in completion;
    }
    assert FindAuth(plan.auth, x) == Some(BucketAuth(x, tx));
    assert FindAuth(plan.auth, y) == None;
    assert locs[..1] == [ChunkLocation(x, 0)] && locs[..1][..0] == [];
    assert FetchCalls(plan.auth, locs[..1]) == [GetChunk(x, tx, 0)];
    RunFailsWithoutAuth(remote, fileId, completion, 1);
  }
}
