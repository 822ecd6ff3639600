/** uploadFile: approve the directory and start a session, then for each chunk
    fetch a token, approve its bucket and put the chunk, reporting progress after
    each chunk, and finally commit the session. */
module Upload {
  import opened VaultTypes
  import opened Chunking

  /** Where the putChunk call of the loop goes. As written, uploadFile passes no
      bucketId, so the bucket API sends every chunk to its default bucket; the
      evidently intended target is the bucket the token names. */
  datatype PutTarget = DefaultBucket | TokenBucket

  /** What uploadFile reads besides its arguments: the directory canister
      (DIRECTORY_CANISTER_ID), the bucket the bucket API falls back to when it is
      given no bucket (BUCKET_CANISTER_ID), the chosen ledger and the price table,
      and where its puts go (`DefaultBucket` is the code as written). */
  datatype Config = Config(directory: Principal, defaultBucket: Principal, ledger: LedgerType,
                           price: Pricing, target: PutTarget)

  /** The browser `File` being uploaded. */
  datatype LocalFile = LocalFile(name: string, mimeType: string, content: seq<byte>)

  /** A progress value `num / den`, kept exact. */
  datatype Fraction = Fraction(num: nat, den: nat)

  /** Everything one uploadFile call does: the remote calls in the order it issues
      them, what it returns or throws, and the values it passes to onProgress. */
  datatype Outcome = Outcome(calls: seq<Call>, result: Result<FileMeta>, reports: seq<Fraction>)

  function Payment(cfg: Config): PaymentType
  {
    CallerPaysIcrc2Tokens(LedgerId(cfg.ledger))
  }

  /** The approval of the directory for the START_UPLOAD price. */
  function DirectoryApproval(cfg: Config): Call
  {
    Approve(LedgerId(cfg.ledger), cfg.directory, cfg.price(StartUploadAction, cfg.ledger))
  }

  function Start(cfg: Config, file: LocalFile): Call
  {
    StartUpload(file.name, file.mimeType, |file.content|, Payment(cfg))
  }

  function TokenRequest(session: UploadSession, i: nat): Call
  {
    GetUploadTokens(session.uploadId, [i])
  }

  /** The approval of a token's bucket for the PUT_CHUNK price. */
  function BucketApproval(cfg: Config, token: UploadToken): Call
  {
    Approve(LedgerId(cfg.ledger), token.bucketId, cfg.price(PutChunkAction, cfg.ledger))
  }

  /** The bucket a chunk carrying `token` is sent to: as written, the bucket API's
      default bucket, whatever bucket the token names; corrected, the token's bucket,
      which is the bucket just approved. */
  function PutBucket(cfg: Config, token: UploadToken): Principal
  {
    match cfg.target
    case DefaultBucket => cfg.defaultBucket
    case TokenBucket => token.bucketId
  }

  /** The putChunk call for chunk `i` with the bytes `data` and the token `token`. */
  function Put(cfg: Config, token: UploadToken, i: nat, data: seq<byte>): Call
  {
    PutChunk(PutBucket(cfg, token), token, i, data, Payment(cfg))
  }

  function Commit(session: UploadSession): Call
  {
    CommitUpload(session.uploadId)
  }

  /** What uploadFile makes of the answer to the last call of `h`: None when it
      carries on, Some(e) when that step throws `e`. */
  function Thrown(remote: Remote, h: seq<Call>): Option<Error>
    requires |h| > 0
  {
    match h[|h| - 1]
    case Approve(_, _, _) => ErrorOf(remote.approve(h))
    case StartUpload(_, _, _, _) => ErrorOf(remote.startUpload(h))
    case GetUploadTokens(_, _) =>
      (match remote.getUploadTokens(h)
       case Err(e) => Some(e)
       case Ok(tokens) => if |tokens| == 0 then Some(NoUploadToken) else None)
    case PutChunk(_, _, _, _, _) => ErrorOf(remote.putChunk(h))
    case CommitUpload(_) => ErrorOf(remote.commitUpload(h))
    // uploadFile issues no other kind of call
    case _ => None
  }

  /** The progress values `1/n, 2/n, ..., k/n` reported once `k` of `n` chunks are stored. */
  function Reports(k: nat, n: nat): (r: seq<Fraction>)
    requires k <= n
    ensures |r| == k
    ensures forall j :: 0 <= j < k ==> r[j] == Fraction(j + 1, n)
    ensures forall j :: 0 <= j < k ==> 0 < r[j].num <= r[j].den
    ensures forall j, j' :: 0 <= j < j' < k ==> r[j].num < r[j'].num
    ensures 0 < k == n ==> r[k - 1].num == r[k - 1].den
  {
    if k == 0 then [] else Reports(k - 1, n) + [Fraction(k, n)]
  }

  /** The reference run of uploadFile against `remote`: the calls it issues, each
      depending on the answers to the earlier ones, until one throws or the session
      is committed. `notify` says whether the caller passed onProgress. */
  function Run(cfg: Config, remote: Remote, file: LocalFile, notify: bool): Outcome
  {
    var h0 := [DirectoryApproval(cfg)];
    match remote.approve(h0)
    case Err(e) => Outcome(h0, Err(e), [])
    case Ok(_) =>
      var h1 := h0 + [Start(cfg, file)];
      match remote.startUpload(h1)
      case Err(e) => Outcome(h1, Err(e), [])
      case Ok(session) =>
        RunChunks(cfg, remote, notify, session, Chunks(file.content, session.expectedChunkCount), 0, h1, [])
  }

  /** What one pass of the loop body ends with: the chunk was stored, or a step threw. */
  datatype Step = Stored(calls: seq<Call>) | Threw(calls: seq<Call>, error: Error)

  /** One pass of the loop body for chunk `i`, whose bytes are `data`, after the
      calls `h`: fetch one token for `[i]`, approve the token's bucket, put the
      chunk; stop at the first step that throws. */
  function ChunkStep(cfg: Config, remote: Remote, session: UploadSession,
                     i: nat, data: seq<byte>, h: seq<Call>): Step
  {
    var ht := h + [TokenRequest(session, i)];
    match remote.getUploadTokens(ht)
    case Err(e) => Threw(ht, e)
    case Ok(tokens) =>
      if |tokens| == 0 then Threw(ht, NoUploadToken)
      else
        var ha := ht + [BucketApproval(cfg, tokens[0])];
        match remote.approve(ha)
        case Err(e) => Threw(ha, e)
        case Ok(_) =>
          var hp := ha + [Put(cfg, tokens[0], i, data)];
          match remote.putChunk(hp)
          case Err(e) => Threw(hp, e)
          case Ok(_) => Stored(hp)
  }

  /** The progress values once chunk `i` of `n` is stored: `(i + 1) / n` is
      added when onProgress was given. */
  function NextReports(notify: bool, reports: seq<Fraction>, i: nat, n: nat): seq<Fraction>
  {
    if notify then reports + [Fraction(i + 1, n)] else reports
  }

  /** The loop over the chunks `parts` from chunk `i` on, after the calls `h` and
      the progress `reports`, followed by the commit. */
  function RunChunks(cfg: Config, remote: Remote, notify: bool, session: UploadSession,
                     parts: seq<seq<byte>>, i: nat, h: seq<Call>, reports: seq<Fraction>): Outcome
    decreases |parts| - i
  {
    if |parts| <= i then
      var hc := h + [Commit(session)];
      Outcome(hc, remote.commitUpload(hc), reports)
    else
      match ChunkStep(cfg, remote, session, i, parts[i], h)
      case Threw(calls, e) => Outcome(calls, Err(e), reports)
      case Stored(calls) =>
        RunChunks(cfg, remote, notify, session, parts, i + 1, calls,
                  NextReports(notify, reports, i, |parts|))
  }

  /** The loop goes on from chunk `i + 1` after a stored chunk `i` and ends with
      the error of a step that threw. */
  lemma RunChunksAfter(cfg: Config, remote: Remote, notify: bool, session: UploadSession,
                       parts: seq<seq<byte>>, i: nat, h: seq<Call>, reports: seq<Fraction>)
    requires i < |parts|
    ensures var s := ChunkStep(cfg, remote, session, i, parts[i], h);
            RunChunks(cfg, remote, notify, session, parts, i, h, reports)
            == if s.Threw? then Outcome(s.calls, Err(s.error), reports)
               else RunChunks(cfg, remote, notify, session, parts, i + 1, s.calls,
                              NextReports(notify, reports, i, |parts|))
  {
  }

  /** uploadFile. Returns the committed file's metadata or the error thrown, the
      remote calls issued, and the values passed to onProgress. */
  method UploadFile(cfg: Config, remote: Remote, file: LocalFile, notify: bool)
    returns (result: Result<FileMeta>, calls: seq<Call>, reports: seq<Fraction>)
    ensures Outcome(calls, result, reports) == Run(cfg, remote, file, notify)
  {
    reports := [];
    calls := [DirectoryApproval(cfg)];
    var approval := remote.approve(calls);
    if approval.Err? {
      result := Err(approval.error);
      return;
    }
    calls := calls + [Start(cfg, file)];
    var started := remote.startUpload(calls);
    if started.Err? {
      result := Err(started.error);
      return;
    }
    var session := started.value;
    result, calls, reports := SendChunks(cfg, remote, file, notify, session, calls);
  }

  /** The loop of uploadFile over the chunks of `file` in `session`, after the
      calls `h`, followed by the commit. */
  method SendChunks(cfg: Config, remote: Remote, file: LocalFile, notify: bool, session: UploadSession, h: seq<Call>)
    returns (result: Result<FileMeta>, calls: seq<Call>, reports: seq<Fraction>)
    ensures Outcome(calls, result, reports)
            == RunChunks(cfg, remote, notify, session, Chunks(file.content, session.expectedChunkCount), 0, h, [])
  {
    calls, reports := h, [];
    var chunkCount := session.expectedChunkCount;
    ghost var parts := Chunks(file.content, chunkCount);
    ghost var run := RunChunks(cfg, remote, notify, session, parts, 0, h, []);
    var i := 0;
    while i < chunkCount
      invariant i <= chunkCount
      invariant run == RunChunks(cfg, remote, notify, session, parts, i, calls, reports)
    {
      var start := i * CHUNK_SIZE;
      var end := Min(start + CHUNK_SIZE, |file.content|);
      var data := BlobSlice(file.content, start, end);
      assert data == parts[i];
      var step := SendChunk(cfg, remote, session, i, data, calls);
      RunChunksAfter(cfg, remote, notify, session, parts, i, calls, reports);
      calls := step.calls;
      if step.Threw? {
        result := Err(step.error);
        return;
      }

      if notify {
        reports := reports + [Fraction(i + 1, chunkCount)];
      }
      i := i + 1;
    }
    assert |parts| == i;
    calls := calls + [Commit(session)];
    result := remote.commitUpload(calls);
  }

  /** One pass of uploadFile's loop body for chunk `i`, whose bytes are `data`,
      after the calls `h`: the step's calls and, if one threw, its error. */
  method SendChunk(cfg: Config, remote: Remote, session: UploadSession, i: nat, data: seq<byte>, h: seq<Call>)
    returns (step: Step)
    ensures step == ChunkStep(cfg, remote, session, i, data, h)
  {
    var calls := h + [TokenRequest(session, i)];
    var tokenResult := remote.getUploadTokens(calls);
    if tokenResult.Err? {
      return Threw(calls, tokenResult.error);
    }
    if |tokenResult.value| == 0 {
      return Threw(calls, NoUploadToken);
    }
    var token := tokenResult.value[0];

    calls := calls + [BucketApproval(cfg, token)];
    var approved := remote.approve(calls);
    if approved.Err? {
      return Threw(calls, approved.error);
    }

    calls := calls + [Put(cfg, token, i, data)];
    var written := remote.putChunk(calls);
    if written.Err? {
      return Threw(calls, written.error);
    }
    return Stored(calls);
  }
}
