/** What uploadFile promises about the calls it issues, the value it returns and
    the progress it reports, proved of the reference run `Upload.Run`. */
module UploadProperties {
  import opened VaultTypes
  import opened Chunking
  import opened Upload

  /** The calls uploadFile issues inside its loop. */
  predicate IsChunkCall(c: Call)
  {
    c.GetUploadTokens? || c.Approve? || c.PutChunk?
  }

  /** uploadFile carried on after every call of `h`. */
  predicate Proceeded(remote: Remote, h: seq<Call>)
  {
    |h| == 0 || (Proceeded(remote, h[..|h| - 1]) && Thrown(remote, h) == None)
  }

  /** uploadFile carried on after the call at position `k`. */
  predicate ProceedsAt(remote: Remote, calls: seq<Call>, k: int)
  {
    0 <= k < |calls| && Thrown(remote, calls[..k + 1]) == None
  }

  /** The session startUpload answered, once the first two calls have been issued. */
  function SessionOf(remote: Remote, calls: seq<Call>): Option<UploadSession>
  {
    if |calls| < 2 then None
    else match remote.startUpload(calls[..2])
      case Ok(session) => Some(session)
      case Err(_) => None
  }

  /** Chunk `j`, whose bytes are `data`, is done: its three calls sit at positions
      2+3j, 3+3j and 4+3j, in this order, and each went through. The token request
      names chunk `j` alone, the approval is for the first token answered, and the
      put carries that token and `data`. */
  ghost predicate ChunkDone(cfg: Config, remote: Remote, session: UploadSession,
                            calls: seq<Call>, j: nat, data: seq<byte>)
  {
    5 + 3 * j <= |calls|
    && calls[2 + 3 * j] == TokenRequest(session, j)
    && var tokens := remote.getUploadTokens(calls[..3 + 3 * j]);
       tokens.Ok? && |tokens.value| > 0
       && calls[3 + 3 * j] == BucketApproval(cfg, tokens.value[0])
       && remote.approve(calls[..4 + 3 * j]).Ok?
       && calls[4 + 3 * j] == Put(cfg, tokens.value[0], j, data)
       && remote.putChunk(calls[..5 + 3 * j]).Ok?
  }

  /** The chunks `parts[..k]` are done in `calls`. */
  ghost predicate AllDone(cfg: Config, remote: Remote, session: UploadSession,
                          calls: seq<Call>, parts: seq<seq<byte>>, k: nat)
    requires k <= |parts|
  {
    forall j :: 0 <= j < k ==> ChunkDone(cfg, remote, session, calls, j, parts[j])
  }

  /** The number of chunks the buckets accepted: putChunk calls answered Ok. */
  function ChunksStored(remote: Remote, calls: seq<Call>): nat
  {
    if |calls| == 0 then 0
    else ChunksStored(remote, calls[..|calls| - 1])
         + (if calls[|calls| - 1].PutChunk? && Thrown(remote, calls) == None then 1 else 0)
  }

  /** The bytes sent by the putChunk calls, in the order they were issued. */
  function UploadedBytes(calls: seq<Call>): seq<byte>
  {
    if |calls| == 0 then []
    else UploadedBytes(calls[..|calls| - 1])
         + (if calls[|calls| - 1].PutChunk? then calls[|calls| - 1].content else [])
  }

  /** Every put comes right after the approval of the bucket its token names, and
      is sent to the bucket `cfg.target` selects for that token. */
  predicate PutsFollowApprovals(cfg: Config, calls: seq<Call>)
  {
    forall k :: 0 <= k < |calls| && calls[k].PutChunk? ==>
      1 <= k && calls[k - 1] == BucketApproval(cfg, calls[k].token)
      && calls[k].bucket == PutBucket(cfg, calls[k].token)
  }

  /** uploadFile carried on after `h + [c]` exactly when it carried on after `h`
      and after `c`. */
  lemma ProceededAfter(remote: Remote, h: seq<Call>, c: Call)
    ensures Proceeded(remote, h + [c]) <==> Proceeded(remote, h) && Thrown(remote, h + [c]) == None
  {
    assert (h + [c])[..|h + [c]| - 1] == h;
  }

  // ---------------------------------------------------------------------------
  // One pass of the loop body

  /** One pass appends one to three per-chunk calls, three when the chunk is stored. */
  lemma ChunkStepShape(cfg: Config, remote: Remote, session: UploadSession,
                       i: nat, data: seq<byte>, h: seq<Call>)
    ensures var s := ChunkStep(cfg, remote, session, i, data, h);
      |h| < |s.calls| <= |h| + 3 && s.calls[..|h|] == h
      && (forall k :: |h| <= k < |s.calls| ==> IsChunkCall(s.calls[k]))
      && (s.Stored? ==> |s.calls| == |h| + 3)
  {
  }

  /** One pass carries on after each of its calls but the last, and stops exactly
      when that call throws. */
  lemma ChunkStepProceeds(cfg: Config, remote: Remote, session: UploadSession,
                          i: nat, data: seq<byte>, h: seq<Call>)
    requires Proceeded(remote, h)
    ensures var s := ChunkStep(cfg, remote, session, i, data, h);
      Proceeded(remote, s.calls[..|s.calls| - 1])
      && (s.Stored? ==> Proceeded(remote, s.calls))
      && (s.Threw? ==> Thrown(remote, s.calls) == Some(s.error))
  {
    var ht := h + [TokenRequest(session, i)];
    assert ht[..|ht| - 1] == h;
    ProceededAfter(remote, h, TokenRequest(session, i));
    var tokens := remote.getUploadTokens(ht);
    if tokens.Ok? && |tokens.value| > 0 {
      var ha := ht + [BucketApproval(cfg, tokens.value[0])];
      assert ha[..|ha| - 1] == ht;
      ProceededAfter(remote, ht, BucketApproval(cfg, tokens.value[0]));
      if remote.approve(ha).Ok? {
        var put := Put(cfg, tokens.value[0], i, data);
        assert (ha + [put])[..|ha + [put]| - 1] == ha;
        ProceededAfter(remote, ha, put);
        assert Thrown(remote, ha + [put]) == ErrorOf(remote.putChunk(ha + [put]));
      } else {
        assert Thrown(remote, ha) == ErrorOf(remote.approve(ha));
      }
    }
  }

  /** A pass that stores chunk `i` after `2 + 3i` calls leaves it done. */
  lemma ChunkStepDone(cfg: Config, remote: Remote, session: UploadSession,
                      i: nat, data: seq<byte>, h: seq<Call>)
    requires |h| == 2 + 3 * i
    ensures var s := ChunkStep(cfg, remote, session, i, data, h);
      s.Stored? ==> ChunkDone(cfg, remote, session, s.calls, i, data)
  {
    var s := ChunkStep(cfg, remote, session, i, data, h);
    if s.Stored? {
      var ht := h + [TokenRequest(session, i)];
      var tokens := remote.getUploadTokens(ht).value;
      var ha := ht + [BucketApproval(cfg, tokens[0])];
      assert s.calls == ha + [Put(cfg, tokens[0], i, data)];
      assert s.calls[..3 + 3 * i] == ht;
      assert s.calls[..4 + 3 * i] == ha;
      assert s.calls[..5 + 3 * i] == s.calls;
    }
  }

  /** Chunk `j` stays done when more calls follow. */
  lemma ChunkDoneStable(cfg: Config, remote: Remote, session: UploadSession,
                        short: seq<Call>, long: seq<Call>, j: nat, data: seq<byte>)
    requires |short| <= |long| && long[..|short|] == short
    requires ChunkDone(cfg, remote, session, short, j, data)
    ensures ChunkDone(cfg, remote, session, long, j, data)
  {
    assert long[..3 + 3 * j] == short[..3 + 3 * j];
    assert long[..4 + 3 * j] == short[..4 + 3 * j];
    assert long[..5 + 3 * j] == short[..5 + 3 * j];
  }

  /** Chunks that are done stay done when more calls follow. */
  lemma AllDoneStable(cfg: Config, remote: Remote, session: UploadSession,
                      short: seq<Call>, long: seq<Call>, parts: seq<seq<byte>>, k: nat)
    requires k <= |parts|
    requires |short| <= |long| && long[..|short|] == short
    requires AllDone(cfg, remote, session, short, parts, k)
    ensures AllDone(cfg, remote, session, long, parts, k)
  {
    forall j | 0 <= j < k
      ensures ChunkDone(cfg, remote, session, long, j, parts[j])
    {
      ChunkDoneStable(cfg, remote, session, short, long, j, parts[j]);
    }
  }

  /** A pass that stores chunk `i` after chunks `0..i-1` are done leaves chunks
      `0..i` done, three calls each. */
  lemma ChunkStepKeepsDone(cfg: Config, remote: Remote, session: UploadSession,
                           parts: seq<seq<byte>>, i: nat, h: seq<Call>)
    requires i < |parts|
    requires |h| == 2 + 3 * i
    requires AllDone(cfg, remote, session, h, parts, i)
    ensures var s := ChunkStep(cfg, remote, session, i, parts[i], h);
      s.Stored? ==> |s.calls| == 2 + 3 * (i + 1) && AllDone(cfg, remote, session, s.calls, parts, i + 1)
  {
    ChunkStepShape(cfg, remote, session, i, parts[i], h);
    ChunkStepDone(cfg, remote, session, i, parts[i], h);
    var s := ChunkStep(cfg, remote, session, i, parts[i], h);
    if s.Stored? {
      AllDoneStable(cfg, remote, session, h, s.calls, parts, i);
    }
  }

  /** A pass stores one more chunk exactly when it ends Stored. */
  lemma ChunkStepCounts(cfg: Config, remote: Remote, session: UploadSession,
                        i: nat, data: seq<byte>, h: seq<Call>)
    ensures var s := ChunkStep(cfg, remote, session, i, data, h);
      ChunksStored(remote, s.calls) == ChunksStored(remote, h) + (if s.Stored? then 1 else 0)
  {
    var ht := h + [TokenRequest(session, i)];
    assert ht[..|ht| - 1] == h;
    assert ChunksStored(remote, ht) == ChunksStored(remote, h);
    var tokens := remote.getUploadTokens(ht);
    if tokens.Ok? && |tokens.value| > 0 {
      var ha := ht + [BucketApproval(cfg, tokens.value[0])];
      assert ha[..|ha| - 1] == ht;
      assert ChunksStored(remote, ha) == ChunksStored(remote, h);
      var hp := ha + [Put(cfg, tokens.value[0], i, data)];
      assert hp[..|hp| - 1] == ha;
      assert ChunksStored(remote, hp) == ChunksStored(remote, h) + (if remote.putChunk(hp).Ok? then 1 else 0);
    }
  }

  /** A pass that stores its chunk has sent exactly that chunk's bytes. */
  lemma ChunkStepBytes(cfg: Config, remote: Remote, session: UploadSession,
                       i: nat, data: seq<byte>, h: seq<Call>)
    ensures var s := ChunkStep(cfg, remote, session, i, data, h);
      s.Stored? ==> UploadedBytes(s.calls) == UploadedBytes(h) + data
  {
    var s := ChunkStep(cfg, remote, session, i, data, h);
    if s.Stored? {
      var ht := h + [TokenRequest(session, i)];
      assert ht[..|ht| - 1] == h;
      assert UploadedBytes(ht) == UploadedBytes(h);
      var tokens := remote.getUploadTokens(ht).value;
      var ha := ht + [BucketApproval(cfg, tokens[0])];
      assert ha[..|ha| - 1] == ht;
      assert UploadedBytes(ha) == UploadedBytes(h);
      assert s.calls == ha + [Put(cfg, tokens[0], i, data)];
      assert s.calls[..|s.calls| - 1] == ha;
    }
  }

  /** The put of a pass directly follows the PUT_CHUNK approval of the bucket its
      token names, and goes to the bucket `cfg.target` selects. */
  lemma ChunkStepApprovals(cfg: Config, remote: Remote, session: UploadSession,
                           i: nat, data: seq<byte>, h: seq<Call>)
    requires PutsFollowApprovals(cfg, h)
    ensures PutsFollowApprovals(cfg, ChunkStep(cfg, remote, session, i, data, h).calls)
  {
    var ht := h + [TokenRequest(session, i)];
    assert PutsFollowApprovals(cfg, ht);
    var tokens := remote.getUploadTokens(ht);
    if tokens.Ok? && |tokens.value| > 0 {
      var ha := ht + [BucketApproval(cfg, tokens.value[0])];
      assert PutsFollowApprovals(cfg, ha);
      var hp := ha + [Put(cfg, tokens.value[0], i, data)];
      assert PutsFollowApprovals(cfg, hp);
    }
  }

  // ---------------------------------------------------------------------------
  // The loop, chunk after chunk

  /** The loop only appends to the calls already issued. */
  lemma {:induction false} RunChunksExtends(cfg: Config, remote: Remote, notify: bool, session: UploadSession,
                                            parts: seq<seq<byte>>, i: nat, h: seq<Call>, reports: seq<Fraction>,
                                            o: Outcome)
    requires o == RunChunks(cfg, remote, notify, session, parts, i, h, reports)
    ensures |h| < |o.calls| && o.calls[..|h|] == h
    decreases |parts| - i
  {
    if i < |parts| {
      ChunkStepShape(cfg, remote, session, i, parts[i], h);
      var s := ChunkStep(cfg, remote, session, i, parts[i], h);
      if s.Stored? {
        var next := NextReports(notify, reports, i, |parts|);
        RunChunksExtends(cfg, remote, notify, session, parts, i + 1, s.calls, next, o);
        assert o.calls[..|h|] == o.calls[..|s.calls|][..|h|];
      }
    }
  }

  /** What the loop appends are per-chunk calls, except for a final commit. */
  lemma {:induction false} RunChunksKinds(cfg: Config, remote: Remote, notify: bool, session: UploadSession,
                                          parts: seq<seq<byte>>, i: nat, h: seq<Call>, reports: seq<Fraction>,
                                          o: Outcome)
    requires o == RunChunks(cfg, remote, notify, session, parts, i, h, reports)
    ensures forall k :: |h| <= k < |o.calls| ==>
        IsChunkCall(o.calls[k]) || (k == |o.calls| - 1 && o.calls[k] == Commit(session))
    decreases |parts| - i
  {
    if i < |parts| {
      ChunkStepShape(cfg, remote, session, i, parts[i], h);
      var s := ChunkStep(cfg, remote, session, i, parts[i], h);
      if s.Stored? {
        var next := NextReports(notify, reports, i, |parts|);
        RunChunksKinds(cfg, remote, notify, session, parts, i + 1, s.calls, next, o);
        RunChunksExtends(cfg, remote, notify, session, parts, i + 1, s.calls, next, o);
        forall k | |h| <= k < |s.calls|
          ensures IsChunkCall(o.calls[k])
        {
          assert o.calls[k] == o.calls[..|s.calls|][k];
        }
      }
    }
  }

  /** The loop returns normally only through the commit, its last call. */
  lemma {:induction false} RunChunksOkCommits(cfg: Config, remote: Remote, notify: bool, session: UploadSession,
                                              parts: seq<seq<byte>>, i: nat, h: seq<Call>, reports: seq<Fraction>,
                                              o: Outcome)
    requires o == RunChunks(cfg, remote, notify, session, parts, i, h, reports)
    ensures 0 < |o.calls| && (o.result.Ok? ==> o.calls[|o.calls| - 1] == Commit(session))
    decreases |parts| - i
  {
    if i < |parts| {
      ChunkStepShape(cfg, remote, session, i, parts[i], h);
      var s := ChunkStep(cfg, remote, session, i, parts[i], h);
      if s.Stored? {
        var next := NextReports(notify, reports, i, |parts|);
        RunChunksOkCommits(cfg, remote, notify, session, parts, i + 1, s.calls, next, o);
      }
    }
  }

  /** The loop stops at the first call that throws, and returns what that call threw
      or what the commit answered. */
  lemma {:induction false} RunChunksProceeds(cfg: Config, remote: Remote, notify: bool, session: UploadSession,
                                             parts: seq<seq<byte>>, i: nat, h: seq<Call>, reports: seq<Fraction>,
                                             o: Outcome)
    requires Proceeded(remote, h)
    requires o == RunChunks(cfg, remote, notify, session, parts, i, h, reports)
    ensures 0 < |o.calls| && Proceeded(remote, o.calls[..|o.calls| - 1])
      && (o.result.Ok? <==> Thrown(remote, o.calls) == None)
      && (o.result.Err? ==> Thrown(remote, o.calls) == Some(o.result.error))
    decreases |parts| - i
  {
    if i >= |parts| {
      var hc := h + [Commit(session)];
      assert hc[..|hc| - 1] == h;
    } else {
      ChunkStepProceeds(cfg, remote, session, i, parts[i], h);
      var s := ChunkStep(cfg, remote, session, i, parts[i], h);
      if s.Stored? {
        var next := NextReports(notify, reports, i, |parts|);
        RunChunksProceeds(cfg, remote, notify, session, parts, i + 1, s.calls, next, o);
      }
    }
  }

  /** A loop that reaches the commit has made three calls per chunk from `i` on,
      and returns what the commit answered. */
  lemma {:induction false} RunChunksLength(cfg: Config, remote: Remote, notify: bool, session: UploadSession,
                                           parts: seq<seq<byte>>, i: nat, h: seq<Call>, reports: seq<Fraction>,
                                           o: Outcome)
    requires i <= |parts|
    requires |h| == 2 + 3 * i
    requires o == RunChunks(cfg, remote, notify, session, parts, i, h, reports)
    ensures 0 < |o.calls|
      && (o.calls[|o.calls| - 1] == Commit(session) ==>
            |o.calls| == 3 + 3 * |parts| && o.result == remote.commitUpload(o.calls))
    decreases |parts| - i
  {
    if i < |parts| {
      ChunkStepShape(cfg, remote, session, i, parts[i], h);
      var s := ChunkStep(cfg, remote, session, i, parts[i], h);
      if s.Stored? {
        var next := NextReports(notify, reports, i, |parts|);
        RunChunksLength(cfg, remote, notify, session, parts, i + 1, s.calls, next, o);
      } else {
        assert IsChunkCall(s.calls[|s.calls| - 1]);
      }
    }
  }

  /** A loop that reaches the commit has done every chunk from `i` on; `o` is
      that loop's outcome. */
  lemma {:induction false} RunChunksDone(cfg: Config, remote: Remote, notify: bool, session: UploadSession,
                                         parts: seq<seq<byte>>, i: nat, h: seq<Call>, reports: seq<Fraction>,
                                         o: Outcome)
    requires i <= |parts|
    requires |h| == 2 + 3 * i
    requires AllDone(cfg, remote, session, h, parts, i)
    requires o == RunChunks(cfg, remote, notify, session, parts, i, h, reports)
    ensures 0 < |o.calls|
    ensures o.calls[|o.calls| - 1] == Commit(session) ==> AllDone(cfg, remote, session, o.calls, parts, |parts|)
    decreases |parts| - i
  {
    if i < |parts| {
      ChunkStepShape(cfg, remote, session, i, parts[i], h);
      RunChunksAfter(cfg, remote, notify, session, parts, i, h, reports);
      var s := ChunkStep(cfg, remote, session, i, parts[i], h);
      if s.Stored? {
        ChunkStepKeepsDone(cfg, remote, session, parts, i, h);
        var next := NextReports(notify, reports, i, |parts|);
        assert o == RunChunks(cfg, remote, notify, session, parts, i + 1, s.calls, next);
        RunChunksDone(cfg, remote, notify, session, parts, i + 1, s.calls, next, o);
      } else {
        assert o.calls == s.calls;
        assert IsChunkCall(s.calls[|s.calls| - 1]);
      }
    } else {
      var hc := h + [Commit(session)];
      assert hc[..|h|] == h;
      AllDoneStable(cfg, remote, session, h, hc, parts, i);
    }
  }


  /** The loop reports `k/n` after the k-th stored chunk and nothing else. */
  lemma {:induction false} RunChunksProgress(cfg: Config, remote: Remote, notify: bool, session: UploadSession,
                                             parts: seq<seq<byte>>, i: nat, h: seq<Call>, reports: seq<Fraction>,
                                             o: Outcome)
    requires i <= |parts|
    requires ChunksStored(remote, h) == i
    requires reports == if notify then Reports(i, |parts|) else []
    requires o == RunChunks(cfg, remote, notify, session, parts, i, h, reports)
    ensures ChunksStored(remote, o.calls) <= |parts|
      && o.reports == (if notify then Reports(ChunksStored(remote, o.calls), |parts|) else [])
      && (o.result.Ok? ==> ChunksStored(remote, o.calls) == |parts|)
    decreases |parts| - i
  {
    if i >= |parts| {
      var hc := h + [Commit(session)];
      assert hc[..|hc| - 1] == h;
    } else {
      ChunkStepCounts(cfg, remote, session, i, parts[i], h);
      var s := ChunkStep(cfg, remote, session, i, parts[i], h);
      if s.Stored? {
        var next := NextReports(notify, reports, i, |parts|);
        RunChunksProgress(cfg, remote, notify, session, parts, i + 1, s.calls, next, o);
      }
    }
  }

  /** A loop that reaches the commit has sent the chunks from `i` on, in order. */
  lemma {:induction false} RunChunksBytes(cfg: Config, remote: Remote, notify: bool, session: UploadSession,
                                          parts: seq<seq<byte>>, i: nat, h: seq<Call>, reports: seq<Fraction>,
                                          o: Outcome)
    requires i <= |parts|
    requires UploadedBytes(h) == Concat(parts[..i])
    requires o == RunChunks(cfg, remote, notify, session, parts, i, h, reports)
    ensures 0 < |o.calls|
      && (o.calls[|o.calls| - 1] == Commit(session) ==> UploadedBytes(o.calls) == Concat(parts))
    decreases |parts| - i
  {
    if i >= |parts| {
      var hc := h + [Commit(session)];
      assert hc[..|hc| - 1] == h;
      assert parts[..i] == parts;
    } else {
      ChunkStepShape(cfg, remote, session, i, parts[i], h);
      ChunkStepBytes(cfg, remote, session, i, parts[i], h);
      var s := ChunkStep(cfg, remote, session, i, parts[i], h);
      if s.Stored? {
        assert parts[..i + 1][..i] == parts[..i];
        var next := NextReports(notify, reports, i, |parts|);
        RunChunksBytes(cfg, remote, notify, session, parts, i + 1, s.calls, next, o);
      } else {
        assert IsChunkCall(s.calls[|s.calls| - 1]);
      }
    }
  }

  /** Every put the loop issues directly follows the PUT_CHUNK approval of the
      bucket its token names, and goes to the bucket `cfg.target` selects. */
  lemma {:induction false} RunChunksApprovals(cfg: Config, remote: Remote, notify: bool, session: UploadSession,
                                              parts: seq<seq<byte>>, i: nat, h: seq<Call>, reports: seq<Fraction>,
                                              o: Outcome)
    requires PutsFollowApprovals(cfg, h)
    requires o == RunChunks(cfg, remote, notify, session, parts, i, h, reports)
    ensures PutsFollowApprovals(cfg, o.calls)
    decreases |parts| - i
  {
    if i < |parts| {
      ChunkStepApprovals(cfg, remote, session, i, parts[i], h);
      var s := ChunkStep(cfg, remote, session, i, parts[i], h);
      if s.Stored? {
        var next := NextReports(notify, reports, i, |parts|);
        RunChunksApprovals(cfg, remote, notify, session, parts, i + 1, s.calls, next, o);
      }
    } else {
      assert PutsFollowApprovals(cfg, h + [Commit(session)]);
    }
  }

  /** Every call of a trace along which uploadFile carried on went through. */
  lemma {:induction false} ProceededEverywhere(remote: Remote, h: seq<Call>)
    requires Proceeded(remote, h)
    ensures forall k :: 0 <= k < |h| ==> ProceedsAt(remote, h, k)
  {
    if |h| > 0 {
      var front := h[..|h| - 1];
      ProceededEverywhere(remote, front);
      forall k | 0 <= k < |h|
        ensures ProceedsAt(remote, h, k)
      {
        if k < |front| {
          assert ProceedsAt(remote, front, k);
          assert front[..k + 1] == h[..k + 1];
        } else {
          assert h[..k + 1] == h;
        }
      }
    }
  }

  // ---------------------------------------------------------------------------
  // The whole upload

  /** The upload opens with one approval of the directory for the START_UPLOAD
      price, then one startUpload carrying the file's name, type and size; no
      later call starts another session. */
  lemma RunOpens(cfg: Config, remote: Remote, file: LocalFile, notify: bool)
    ensures var o := Run(cfg, remote, file, notify);
      1 <= |o.calls| && o.calls[0] == DirectoryApproval(cfg)
      && o.calls[0] == Approve(LedgerId(cfg.ledger), cfg.directory, cfg.price(StartUploadAction, cfg.ledger))
      && (2 <= |o.calls| ==> o.calls[1] == StartUpload(file.name, file.mimeType, |file.content|, Payment(cfg)))
      && (forall k :: 2 <= k < |o.calls| ==> !o.calls[k].StartUpload?)
  {
    var h0 := [DirectoryApproval(cfg)];
    if remote.approve(h0).Ok? {
      var h1 := h0 + [Start(cfg, file)];
      if remote.startUpload(h1).Ok? {
        var session := remote.startUpload(h1).value;
        var parts := Chunks(file.content, session.expectedChunkCount);
        var o := RunChunks(cfg, remote, notify, session, parts, 0, h1, []);
        assert Run(cfg, remote, file, notify) == o;
        RunChunksExtends(cfg, remote, notify, session, parts, 0, h1, [], o);
        RunChunksKinds(cfg, remote, notify, session, parts, 0, h1, [], o);
        assert o.calls[0] == o.calls[..2][0] && o.calls[1] == o.calls[..2][1];
      }
    }
  }

  /** uploadFile carries on after every call but its last, and throws exactly
      what its last call threw, if anything. */
  lemma RunProceeds(cfg: Config, remote: Remote, file: LocalFile, notify: bool)
    ensures var o := Run(cfg, remote, file, notify);
      0 < |o.calls| && Proceeded(remote, o.calls[..|o.calls| - 1])
      && (o.result.Ok? <==> Thrown(remote, o.calls) == None)
      && (o.result.Err? ==> Thrown(remote, o.calls) == Some(o.result.error))
  {
    var h0 := [DirectoryApproval(cfg)];
    assert h0[..0] == [];
    if remote.approve(h0).Ok? {
      var h1 := h0 + [Start(cfg, file)];
      assert h1[..|h1| - 1] == h0;
      ProceededAfter(remote, h0, Start(cfg, file));
      if remote.startUpload(h1).Ok? {
        var session := remote.startUpload(h1).value;
        var parts := Chunks(file.content, session.expectedChunkCount);
        var o := RunChunks(cfg, remote, notify, session, parts, 0, h1, []);
        RunChunksProceeds(cfg, remote, notify, session, parts, 0, h1, [], o);
      }
    }
  }

  /** If any call throws, uploadFile issues nothing after it and throws the same
      error. */
  lemma RunStopsAtFirstFailure(cfg: Config, remote: Remote, file: LocalFile, notify: bool)
    ensures var o := Run(cfg, remote, file, notify);
      0 < |o.calls|
      && (forall k :: 0 <= k < |o.calls| - 1 ==> ProceedsAt(remote, o.calls, k))
      && (o.result.Ok? <==> Thrown(remote, o.calls) == None)
      && (o.result.Err? ==> Thrown(remote, o.calls) == Some(o.result.error))
  {
    var o := Run(cfg, remote, file, notify);
    RunProceeds(cfg, remote, file, notify);
    var front := o.calls[..|o.calls| - 1];
    ProceededEverywhere(remote, front);
    forall k | 0 <= k < |o.calls| - 1
      ensures ProceedsAt(remote, o.calls, k)
    {
      assert ProceedsAt(remote, front, k);
      assert front[..k + 1] == o.calls[..k + 1];
    }
  }

  /** uploadFile never aborts the session, and it commits at most once, as its
      last call. */
  lemma RunNeverAborts(cfg: Config, remote: Remote, file: LocalFile, notify: bool)
    ensures var o := Run(cfg, remote, file, notify);
      (forall k :: 0 <= k < |o.calls| - 1 ==> !o.calls[k].CommitUpload?)
      && (forall k :: 0 <= k < |o.calls| ==> !o.calls[k].AbortUpload?)
  {
    var h0 := [DirectoryApproval(cfg)];
    if remote.approve(h0).Ok? {
      var h1 := h0 + [Start(cfg, file)];
      if remote.startUpload(h1).Ok? {
        var session := remote.startUpload(h1).value;
        var parts := Chunks(file.content, session.expectedChunkCount);
        var o := RunChunks(cfg, remote, notify, session, parts, 0, h1, []);
        assert Run(cfg, remote, file, notify) == o;
        RunChunksExtends(cfg, remote, notify, session, parts, 0, h1, [], o);
        RunChunksKinds(cfg, remote, notify, session, parts, 0, h1, [], o);
        forall k | 0 <= k < |o.calls|
          ensures !o.calls[k].AbortUpload? && (k < |o.calls| - 1 ==> !o.calls[k].CommitUpload?)
        {
          if k < 2 {
            assert o.calls[k] == o.calls[..2][k];
          }
        }
      }
    }
  }

  /** A loop started right after the two opening calls `h` that ends with a
      commit holds `h`, three calls per chunk with every chunk done, and the commit
      of the session, and returns what the commit answered. */
  lemma CommittedLoop(cfg: Config, remote: Remote, notify: bool, session: UploadSession,
                      parts: seq<seq<byte>>, h: seq<Call>, o: Outcome)
    requires |h| == 2
    requires o == RunChunks(cfg, remote, notify, session, parts, 0, h, [])
    ensures 0 < |o.calls|
    ensures o.result.Ok? ==> o.calls[|o.calls| - 1].CommitUpload?
    ensures o.calls[|o.calls| - 1].CommitUpload? ==>
              |o.calls| == 3 + 3 * |parts|
              && o.calls[..2] == h
              && AllDone(cfg, remote, session, o.calls, parts, |parts|)
              && o.calls[|o.calls| - 1] == Commit(session)
              && o.result == remote.commitUpload(o.calls)
  {
    RunChunksExtends(cfg, remote, notify, session, parts, 0, h, [], o);
    RunChunksKinds(cfg, remote, notify, session, parts, 0, h, [], o);
    RunChunksOkCommits(cfg, remote, notify, session, parts, 0, h, [], o);
    RunChunksLength(cfg, remote, notify, session, parts, 0, h, [], o);
    RunChunksDone(cfg, remote, notify, session, parts, 0, h, [], o);
  }

  /** Done chunks of a file are done with the bytes uploadFile reads for them. */
  lemma DoneWithFileChunks(cfg: Config, remote: Remote, session: UploadSession,
                           calls: seq<Call>, content: seq<byte>, n: nat)
    requires AllDone(cfg, remote, session, calls, Chunks(content, n), n)
    ensures forall j :: 0 <= j < n ==> ChunkDone(cfg, remote, session, calls, j, Chunk(content, j))
  {
    forall j | 0 <= j < n
      ensures ChunkDone(cfg, remote, session, calls, j, Chunk(content, j))
    {
      assert Chunks(content, n)[j] == Chunk(content, j);
    }
  }

  /** uploadFile commits only after every chunk is done: a run whose last call is a
      commit holds exactly the two opening calls, then for each chunk in increasing
      order its token request, bucket approval and put of that chunk's bytes, then
      one commit of the session's upload_id; and what the commit answers is what
      uploadFile returns. */
  lemma RunCommitsAfterEveryPut(cfg: Config, remote: Remote, file: LocalFile, notify: bool)
    ensures var o := Run(cfg, remote, file, notify);
      0 < |o.calls|
      && (o.result.Ok? ==> o.calls[|o.calls| - 1].CommitUpload?)
      && (o.calls[|o.calls| - 1].CommitUpload? ==>
            SessionOf(remote, o.calls).Some?
            && var session := SessionOf(remote, o.calls).value;
               o.calls[..2] == [DirectoryApproval(cfg), Start(cfg, file)]
               && |o.calls| == 3 + 3 * session.expectedChunkCount
               && (forall j :: 0 <= j < session.expectedChunkCount ==>
                     ChunkDone(cfg, remote, session, o.calls, j, Chunk(file.content, j)))
               && o.calls[|o.calls| - 1] == CommitUpload(session.uploadId)
               && o.result == remote.commitUpload(o.calls))
  {
    var h0 := [DirectoryApproval(cfg)];
    if remote.approve(h0).Ok? {
      var h1 := h0 + [Start(cfg, file)];
      if remote.startUpload(h1).Ok? {
        var session := remote.startUpload(h1).value;
        var parts := Chunks(file.content, session.expectedChunkCount);
        var o := RunChunks(cfg, remote, notify, session, parts, 0, h1, []);
        assert Run(cfg, remote, file, notify) == o;
        CommittedFileLoop(cfg, remote, notify, file, session, h1, o);
      }
    }
  }

  /** The committed case of RunCommitsAfterEveryPut, for the loop over the file's
      chunks that follows the two opening calls `h`. */
  lemma CommittedFileLoop(cfg: Config, remote: Remote, notify: bool, file: LocalFile,
                          session: UploadSession, h: seq<Call>, o: Outcome)
    requires h == [DirectoryApproval(cfg), Start(cfg, file)]
    requires remote.startUpload(h) == Ok(session)
    requires o == RunChunks(cfg, remote, notify, session, Chunks(file.content, session.expectedChunkCount), 0, h, [])
    ensures 0 < |o.calls|
    ensures o.result.Ok? ==> o.calls[|o.calls| - 1].CommitUpload?
    ensures o.calls[|o.calls| - 1].CommitUpload? ==>
              SessionOf(remote, o.calls) == Some(session)
              && o.calls[..2] == h
              && |o.calls| == 3 + 3 * session.expectedChunkCount
              && (forall j :: 0 <= j < session.expectedChunkCount ==>
                    ChunkDone(cfg, remote, session, o.calls, j, Chunk(file.content, j)))
              && o.calls[|o.calls| - 1] == CommitUpload(session.uploadId)
              && o.result == remote.commitUpload(o.calls)
  {
    var parts := Chunks(file.content, session.expectedChunkCount);
    CommittedLoop(cfg, remote, notify, session, parts, h, o);
    if o.calls[|o.calls| - 1].CommitUpload? {
      assert SessionOf(remote, o.calls) == Some(session);
      DoneWithFileChunks(cfg, remote, session, o.calls, file.content, session.expectedChunkCount);
    }
  }

  /** With onProgress, uploadFile reports `1/n, 2/n, ...` once per chunk a bucket
      accepted, `n` being the session's expected_chunk_count, and reaches `n/n`
      when it returns; without onProgress it reports nothing. */
  lemma RunReportsProgress(cfg: Config, remote: Remote, file: LocalFile, notify: bool)
    ensures var o := Run(cfg, remote, file, notify);
      (!notify ==> o.reports == [])
      && match SessionOf(remote, o.calls)
         case None => o.reports == [] && o.result.Err?
         case Some(session) =>
           ChunksStored(remote, o.calls) <= session.expectedChunkCount
           && (notify ==> o.reports == Reports(ChunksStored(remote, o.calls), session.expectedChunkCount))
           && (o.result.Ok? ==> ChunksStored(remote, o.calls) == session.expectedChunkCount)
  {
    var h0 := [DirectoryApproval(cfg)];
    if remote.approve(h0).Ok? {
      var h1 := h0 + [Start(cfg, file)];
      assert h1[..2] == h1;
      if remote.startUpload(h1).Ok? {
        var session := remote.startUpload(h1).value;
        var parts := Chunks(file.content, session.expectedChunkCount);
        var o := RunChunks(cfg, remote, notify, session, parts, 0, h1, []);
        assert h1[..1] == h0;
        assert ChunksStored(remote, h0) == 0;
        assert ChunksStored(remote, h1) == 0;
        RunChunksProgress(cfg, remote, notify, session, parts, 0, h1, [], o);
        RunChunksExtends(cfg, remote, notify, session, parts, 0, h1, [], o);
        assert o.calls[..2] == h1;
      }
    }
  }

  /** When uploadFile commits, the puts have carried the file's first
      `min(n * CHUNK_SIZE, size)` bytes in order, `n` being the session's
      expected_chunk_count; so when `n == ceil(size / CHUNK_SIZE)` they carried
      the whole file. */
  lemma RunUploadsWholeFile(cfg: Config, remote: Remote, file: LocalFile, notify: bool)
    ensures var o := Run(cfg, remote, file, notify);
      0 < |o.calls|
      && (o.calls[|o.calls| - 1].CommitUpload? ==>
            SessionOf(remote, o.calls).Some?
            && var n := SessionOf(remote, o.calls).value.expectedChunkCount;
               UploadedBytes(o.calls) == file.content[..Min(ChunkStart(n), |file.content|)]
               && (n == ChunkCount(|file.content|) ==> UploadedBytes(o.calls) == file.content))
  {
    var h0 := [DirectoryApproval(cfg)];
    if remote.approve(h0).Ok? {
      var h1 := h0 + [Start(cfg, file)];
      if remote.startUpload(h1).Ok? {
        var session := remote.startUpload(h1).value;
        var n := session.expectedChunkCount;
        var parts := Chunks(file.content, n);
        var o := RunChunks(cfg, remote, notify, session, parts, 0, h1, []);
        assert h1[..1] == h0;
        assert UploadedBytes(h0) == [];
        assert UploadedBytes(h1) == [];
        assert parts[..0] == [];
        RunChunksExtends(cfg, remote, notify, session, parts, 0, h1, [], o);
        RunChunksKinds(cfg, remote, notify, session, parts, 0, h1, [], o);
        RunChunksBytes(cfg, remote, notify, session, parts, 0, h1, [], o);
        assert o.calls[..2] == h1;
        ChunksFormPrefix(file.content, n);
        ChunkCountMeetsSize(|file.content|);
      }
    }
  }

  /** ChunkCount(size) chunks reach to the end of a file of `size` bytes. */
  lemma ChunkCountMeetsSize(size: nat)
    ensures Min(ChunkStart(ChunkCount(size)), size) == size
  {
  }

  /** Each put comes right after the approval, for the PUT_CHUNK price, of the
      bucket its token names, and goes to the bucket `cfg.target` selects. */
  lemma RunPutsFollowApprovals(cfg: Config, remote: Remote, file: LocalFile, notify: bool)
    ensures PutsFollowApprovals(cfg, Run(cfg, remote, file, notify).calls)
  {
    var h0 := [DirectoryApproval(cfg)];
    if remote.approve(h0).Ok? {
      var h1 := h0 + [Start(cfg, file)];
      if remote.startUpload(h1).Ok? {
        var session := remote.startUpload(h1).value;
        var parts := Chunks(file.content, session.expectedChunkCount);
        var o := RunChunks(cfg, remote, notify, session, parts, 0, h1, []);
        RunChunksApprovals(cfg, remote, notify, session, parts, 0, h1, [], o);
      }
    }
  }

  /** With puts sent to the token's bucket, every chunk goes to the bucket the call
      just before it approved. */
  lemma RunPutsToApprovedBucket(cfg: Config, remote: Remote, file: LocalFile, notify: bool)
    requires cfg.target == TokenBucket
    ensures var calls := Run(cfg, remote, file, notify).calls;
            forall k :: 0 <= k < |calls| && calls[k].PutChunk? ==>
              1 <= k && calls[k - 1].Approve? && calls[k].bucket == calls[k - 1].spender
  {
    RunPutsFollowApprovals(cfg, remote, file, notify);
  }

  /** As written, every chunk goes to the default bucket, and a chunk whose token
      names another bucket is sent elsewhere than to the bucket just approved. */
  lemma RunPutsMissApprovedBucket(cfg: Config, remote: Remote, file: LocalFile, notify: bool)
    requires cfg.target == DefaultBucket
    ensures var calls := Run(cfg, remote, file, notify).calls;
            forall k :: 0 <= k < |calls| && calls[k].PutChunk? ==>
              1 <= k && calls[k - 1].Approve? && calls[k].bucket == cfg.defaultBucket
              && (calls[k].token.bucketId != cfg.defaultBucket ==> calls[k].bucket != calls[k - 1].spender)
  {
    RunPutsFollowApprovals(cfg, remote, file, notify);
  }
}
