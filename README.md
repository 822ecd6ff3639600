# Vault transfer core, modelled in Dafny

This project models the browser client's file transfer in `src/lib/services/file.services.ts`. The client works with the Vault directory canister, which handles sessions, tokens and download plans, and with the bucket canisters, which hold the chunk contents.

- `uploadFile` (module `Upload`):
  1. Approves the directory for the START_UPLOAD price and starts an upload session.
  2. For each chunk in turn, fetches one upload token, approves that token's bucket for the PUT_CHUNK price, and puts the chunk.
  3. After each stored chunk, reports progress to `onProgress` when one is given.
  4. Commits the session.
- `downloadFile` (module `Download`):
  1. Fetches the file's download plan.
  2. For each chunk location, looks up the auth entry of the location's bucket, then fetches the chunk concurrently with the other locations.
  3. Writes each fetched chunk into its slot of a chunk array allocated in advance.
  4. Returns the slots laid end to end.

## How the model works

**Remote collaborators.**
- The ledger, the directory and the buckets form one `Remote` value (`VaultTypes.Remote`): one total function per kind of call.
- Each function is given every call issued so far, with the call being answered last. An answer can therefore depend on any state the earlier calls left behind.
- An `Err` answer is what the canister wrappers turn into a thrown `Error`.
- The upload and the download each produce an `Outcome`: the calls issued, in order, and the result returned or the error thrown.

**Upload.**
- `Upload.UploadFile` issues the two opening calls; `Upload.SendChunks` is the loop and the commit; `Upload.SendChunk` is one pass of the loop body.
- Each is proved equal to its reference function: `Upload.Run`, `Upload.RunChunks` and `Upload.ChunkStep`.
- Where a put goes is `Config.target`. With `DefaultBucket` the model is the code as written: putChunk gets no bucketId, so the chunk goes to the default bucket. With `TokenBucket` the chunk goes to the bucket the token names (see Findings).
- The protocol properties are lemmas about `Run`, in `UploadProperties`. They hold for both targets, except the two lemmas about where puts go.

**Download.**
- `Download.DownloadFile` allocates the chunk array (`array<seq<byte>>`).
- `Download.IssueFetches` runs the synchronous part of every `map` callback in location order.
- `Download.SettleInPlace` applies the completed fetches to the array in place. It uses a completion order, which is a parameter of the model: any permutation of the locations.
- Both methods are proved against the reference function `Download.Run`.
- The properties, including that the completion order does not matter, are lemmas in `DownloadProperties`.

**Sequential upload, unbounded download.**
- The upload has no batching and no concurrency limit; its comment at `src/lib/services/file.services.ts:53-54` says so. It handles one chunk at a time:
  - one `getUploadTokens` call and one approval per chunk;
  - progress `(i + 1) / chunkCount`;
  - it never aborts the session.
- The download starts every fetch at once (`Promise.all` over all locations, lines 111-129) and does not check that every slot was filled.

## Model

| member | source | states |
|---|---|---|
| Chunking.BlobSlice | src/lib/services/file.services.ts:58 | `file.slice(start, end)` clamps both offsets to the size and yields the bytes between them, or nothing when `end <= start`; with `end` past the size, the bytes from `start` to the end of the file |
| Chunking.Chunk | src/lib/services/file.services.ts:56-60 | chunk `i` is at most CHUNK_SIZE bytes and is the byte range `[i*CHUNK_SIZE, min(i*CHUNK_SIZE+CHUNK_SIZE, size))`, or empty past the end of the file |
| Chunking.ChunkCount | src/lib/constants/app.constants.ts:9 | `ceil(size / CHUNK_SIZE)` chunks of CHUNK_SIZE = 1 048 576 bytes cover the file, the last one non-empty |
| Chunking.ChunksAreContiguous | src/lib/services/file.services.ts:56-58 | consecutive chunks meet exactly: each one before the last is full and ends where the next one starts |
| Chunking.ChunkExtendsPrefix | src/lib/services/file.services.ts:56-58 | chunk `i` continues the file exactly where chunks `0..i-1` stop |
| Chunking.ChunksFormPrefix | src/lib/services/file.services.ts:55-60 | the first `k` chunks laid end to end are the file's first `min(k*CHUNK_SIZE, size)` bytes |
| Chunking.ChunksCoverFile | src/lib/services/file.services.ts:55-60 | `ceil(size / CHUNK_SIZE)` chunks laid end to end are the whole file |
| Chunking.Concat | src/lib/services/file.services.ts:132 | defines `new Blob(parts)`: the parts laid end to end, in array order |
| Chunking.TwoAndAHalfChunks | src/lib/services/file.services.ts:55-60 | a file of two and a half chunks is cut into two full chunks and one half chunk |
| Upload.Reports | src/lib/services/file.services.ts:86-88 | after `k` of `n` chunks the progress values are `1/n .. k/n`, strictly increasing, in `(0, 1]`, ending at `1` when `k == n` |
| Upload.Thrown | src/lib/services/file.services.ts:63-84 | defines when an awaited call throws: an `Err` answer is thrown as that error, and a token request answered with no token throws `NoUploadToken` (line 68 then leaves `token` undefined, and line 74 throws reading its `bucket_id`) |
| Upload.Run | src/lib/services/file.services.ts:21-94 | defines the reference run: approve the directory, start the session, run the loop over `expected_chunk_count` chunks, stopping at the first call that throws |
| Upload.ChunkStep | src/lib/services/file.services.ts:62-84 | defines one pass of the loop body: token request for `[i]`, approval of the first token's bucket, put of the chunk, stopping at the first call that throws |
| Upload.RunChunks | src/lib/services/file.services.ts:55-93 | defines the loop from chunk `i` on: a stored chunk reports `(i+1)/n` when onProgress is given and goes on with `i+1`; a pass that throws ends the run with its error; after the last chunk comes the commit, whose answer is returned |
| Upload.UploadFile | src/lib/services/file.services.ts:21-50 | uploadFile issues exactly the calls of the reference run, stops at the first call that throws, and returns or throws what that run does, with the same progress values |
| Upload.SendChunks | src/lib/services/file.services.ts:51-93 | the loop and the commit issue exactly the calls of the reference loop and return or throw what it does, with the same progress values |
| Upload.SendChunk | src/lib/services/file.services.ts:62-84 | one pass of the loop body issues exactly the calls of the reference pass and ends as it does |
| UploadProperties.ChunkStepShape | src/lib/services/file.services.ts:63-84 | one pass of the loop issues one to three calls of chunk `i`, and three when it stores the chunk |
| UploadProperties.ChunkStepProceeds | src/lib/services/file.services.ts:63-84 | a pass carries on after each of its calls except the last, and stops exactly when that call throws |
| UploadProperties.ChunkStepDone | src/lib/services/file.services.ts:63-84 | a stored pass leaves, at positions `2+3i..4+3i`: a token request for `[i]` alone, an approval of the first token's bucket, and a put of that token and the chunk's bytes, each answered Ok |
| UploadProperties.ChunkDoneStable | src/lib/services/file.services.ts:55-89 | a chunk that is done stays done as later calls are issued |
| UploadProperties.AllDoneStable | src/lib/services/file.services.ts:55-89 | chunks that are done stay done as later calls are issued |
| UploadProperties.ChunkStepKeepsDone | src/lib/services/file.services.ts:55-89 | storing chunk `i` after chunks `0..i-1` are done leaves chunks `0..i` done |
| UploadProperties.ChunkStepCounts | src/lib/services/file.services.ts:78-84 | a pass raises the number of chunks the buckets accepted by one exactly when it stores its chunk |
| UploadProperties.ChunkStepBytes | src/lib/services/file.services.ts:78-84 | a stored pass has sent exactly its chunk's bytes |
| UploadProperties.ChunkStepApprovals | src/lib/services/file.services.ts:71-84 | the put of a pass directly follows the PUT_CHUNK approval of the bucket its token names, and goes to the bucket `cfg.target` selects (the default bucket as written) |
| UploadProperties.RunChunksExtends | src/lib/services/file.services.ts:55-91 | the loop and the commit only append calls |
| UploadProperties.RunChunksKinds | src/lib/services/file.services.ts:55-91 | everything the loop appends is a per-chunk call, except a final commit of the session |
| UploadProperties.RunChunksOkCommits | src/lib/services/file.services.ts:89-93 | the loop returns normally only through the commit, as its last call |
| UploadProperties.RunChunksProceeds | src/lib/services/file.services.ts:55-93 | the loop stops at the first call that throws and returns what that call threw or what the commit answered |
| UploadProperties.RunChunksLength | src/lib/services/file.services.ts:55-93 | a loop that reaches the commit has made three calls per chunk and returns the commit's answer |
| UploadProperties.RunChunksDone | src/lib/services/file.services.ts:55-91 | a loop that reaches the commit has done every chunk |
| UploadProperties.RunChunksProgress | src/lib/services/file.services.ts:86-88 | the loop reports `k/n` after the k-th stored chunk and nothing else |
| UploadProperties.RunChunksBytes | src/lib/services/file.services.ts:55-91 | a loop that reaches the commit has sent all the chunks, in index order |
| UploadProperties.RunChunksApprovals | src/lib/services/file.services.ts:71-84 | every put the loop issues directly follows the PUT_CHUNK approval of the bucket its token names, and goes to the bucket `cfg.target` selects (the default bucket as written) |
| UploadProperties.ProceededEverywhere | src/lib/services/file.services.ts:21-94 | every call in a trace that went through was answered Ok, or with at least one token |
| UploadProperties.RunOpens | src/lib/services/file.services.ts:32-49 | the upload opens with an approval of the directory for the START_UPLOAD price on the chosen ledger, then one startUpload with the file's name, type and size and payment by that ledger; no later call starts a session |
| UploadProperties.RunProceeds | src/lib/services/file.services.ts:21-94 | every call but the last went through, and uploadFile throws exactly what its last call threw, if anything |
| UploadProperties.RunStopsAtFirstFailure | src/lib/services/file.services.ts:21-94 | nothing is issued after a call that throws, and uploadFile throws that call's error |
| UploadProperties.RunNeverAborts | src/lib/services/file.services.ts:21-94 | uploadFile never aborts the session and commits at most once, as its last call |
| UploadProperties.CommittedLoop | src/lib/services/file.services.ts:51-93 | a loop ending in the commit holds the two opening calls, three calls per chunk with every chunk done, and the commit, and returns the commit's answer |
| UploadProperties.CommittedFileLoop | src/lib/services/file.services.ts:51-93 | after the two opening calls, a loop over the file's chunks that ends in the commit holds three calls per chunk, each chunk done with the bytes read from the file for it, then the commit of the session's upload_id, whose answer is returned |
| UploadProperties.DoneWithFileChunks | src/lib/services/file.services.ts:56-60 | the chunks that are done carry the bytes read from the file for them |
| UploadProperties.RunCommitsAfterEveryPut | src/lib/services/file.services.ts:51-93 | the commit comes only after, for every chunk in index order, a token request, an approval and a put of that chunk's bytes, each answered Ok; it names the session's upload_id, and its answer is returned |
| UploadProperties.RunReportsProgress | src/lib/services/file.services.ts:86-88 | with onProgress, uploadFile reports `1/n, 2/n, ..` once per accepted chunk and reaches `n/n` when it returns; without onProgress it reports nothing |
| UploadProperties.RunUploadsWholeFile | src/lib/services/file.services.ts:55-91 | at the commit, the puts have carried the file's first `min(n*CHUNK_SIZE, size)` bytes in order, and the whole file when `n == ceil(size/CHUNK_SIZE)` |
| UploadProperties.ChunkCountMeetsSize | src/lib/constants/app.constants.ts:9 | `ceil(size/CHUNK_SIZE)` chunks reach the end of the file |
| UploadProperties.RunPutsFollowApprovals | src/lib/services/file.services.ts:71-84 | for either target, every put comes right after the approval, for the PUT_CHUNK price, of the bucket its token names, and goes to the bucket the target selects |
| UploadProperties.RunPutsToApprovedBucket | src/lib/services/file.services.ts:71-84 | with puts sent to the token's bucket, every put goes to the bucket approved by the call just before it |
| UploadProperties.RunPutsMissApprovedBucket | src/lib/api/bucket.api.ts:113-126 | as written, every put goes to the default bucket, so a chunk whose token names another bucket is sent elsewhere than to the bucket just approved |
| Download.FindAuth | src/lib/services/file.services.ts:112-114 | a found auth entry is for the location's bucket, compared by textual form |
| Download.FindAuthFirst | src/lib/services/file.services.ts:112-114 | `find` finds nothing exactly when no entry is for the bucket, and otherwise finds the first entry for it |
| Download.FetchCalls | src/lib/services/file.services.ts:111-125 | at most one fetch per location, each a getChunk; defines them as the fetches of the authorised locations, in plan order, each to its bucket with the token of the bucket's first auth entry |
| Download.FirstUnauthorized | src/lib/services/file.services.ts:111-118 | the bucket named in the `No auth for bucket` error belongs to one of the plan's locations |
| Download.FirstUnauthorizedIsFirst | src/lib/services/file.services.ts:111-118 | no error exactly when every location has an auth entry; otherwise the bucket of the first location, in plan order, that has none |
| Download.LocationOf | src/lib/services/file.services.ts:127 | the location that holds chunk index `c` |
| Download.Replies | src/lib/services/file.services.ts:119-124 | one answer per fetch, each given the calls issued up to that fetch |
| Download.FirstFailure | src/lib/services/file.services.ts:110-128 | the error `Promise.all` rejects with is the error of a fetch that failed; defined as the first failure in completion order |
| Download.FirstFailureNone | src/lib/services/file.services.ts:110-128 | Promise.all rejects with a fetch error exactly when some fetch failed |
| Download.FirstFailureAt | src/lib/services/file.services.ts:110-128 | Promise.all rejects with the error of the first fetch, in completion order, that failed |
| Download.SettleAll | src/lib/services/file.services.ts:127 | the fetches that completed with Ok write their slots, a failed fetch writes nothing, and the array's length is unchanged |
| Download.FetchCallsAuthorized | src/lib/services/file.services.ts:111-125 | when every location has an auth entry there is one fetch per location, in plan order, to its bucket, for its chunk index, with the token of the bucket's first auth entry |
| Download.Run | src/lib/services/file.services.ts:99-134 | the reference run starts with the getDownloadPlan call and issues only getChunk calls after it; defined as: plan, fetches of the authorised locations, the first missing auth or fetch failure as the error, otherwise the slots laid end to end |
| Download.DownloadFile | src/lib/services/file.services.ts:99-134 | downloadFile issues exactly the calls of the reference run and returns or throws what that run does |
| Download.IssueFetches | src/lib/services/file.services.ts:111-125 | the synchronous part of the callbacks issues the fetches of the authorised locations in plan order and yields the first unauthorised bucket |
| Download.SettleInPlace | src/lib/services/file.services.ts:110-128 | applying the completed fetches in completion order turns the array into the reference array and yields the first failure in that order |
| DownloadProperties.FetchReplies | src/lib/services/file.services.ts:119-124 | one answer per location when every location has an auth entry |
| DownloadProperties.InIndexOrder | src/lib/services/file.services.ts:108 | the fetched chunks placed by chunk index, `chunk_count` slots |
| DownloadProperties.FetchCallsOnlyAuthorized | src/lib/services/file.services.ts:111-125 | every fetch issued is for a location whose bucket has an auth entry, with that bucket's first entry's token; a location without one gets no fetch |
| DownloadProperties.SettledSlot | src/lib/services/file.services.ts:127 | a slot holds its location's chunk when that fetch has completed successfully, and is untouched otherwise: no other fetch writes it |
| DownloadProperties.SettledInIndexOrder | src/lib/services/file.services.ts:108-128 | once every fetch of a well-formed plan succeeded, in any order, the array holds the chunks in chunk-index order |
| DownloadProperties.RunSucceeds | src/lib/services/file.services.ts:99-134 | downloadFile returns a file exactly when the plan arrives, every location is authorised and every fetch succeeds; the file is then the fetched chunks laid end to end in chunk-index order |
| DownloadProperties.RunIgnoresCompletionOrder | src/lib/services/file.services.ts:110-132 | the order in which fetches complete changes neither the calls issued, nor whether the download succeeds, nor the file returned |
| DownloadProperties.RunFailsWithoutAuth | src/lib/services/file.services.ts:111-118 | a plan with a location lacking auth makes downloadFile throw `No auth for bucket` for the first such location, after the fetches of the authorised locations |
| DownloadProperties.TwoBucketPlan | src/lib/services/file.services.ts:111-125 | a two-chunk plan over two buckets with one auth entry each is well formed and fetches each chunk from its bucket with that bucket's token |
| DownloadProperties.TwoBucketDownload | src/lib/services/file.services.ts:99-134 | that plan downloads as the first fetch's bytes followed by the second's, whichever completes first |
| DownloadProperties.ConcatPair | src/lib/services/file.services.ts:132 | two blob parts laid end to end |
| DownloadProperties.MissingAuthDownload | src/lib/services/file.services.ts:111-118 | with no auth entry for the second bucket, the first chunk is still fetched and the download throws `No auth for bucket` for the second bucket |

## Left out

- `refreshFiles` and the Svelte stores are not modelled. They only list files and publish them to the UI.
- Agents, identities, candid encoding and the canister classes are not modelled. The canister wrappers are reduced to their observable rule: an `Ok` answer is returned and an `Err` answer is thrown. `Error.Rejected` stands for every such error message.
- `approveIcrc2` is one `Approve` call; the ICRC ledger API it calls is not part of this model. The one-hour expiry and the clock are not modelled. A failed approval is modelled as throwing.
- The PRICING table is not part of this model; it is a parameter (`Config.price`).
- DIRECTORY_CANISTER_ID and BUCKET_CANISTER_ID are parameters (`Config.directory`, `Config.defaultBucket`). The ledger ids are the constants of `LEDGER_CANISTER_IDS`.
- `File.arrayBuffer()` is assumed not to fail, and an `onProgress` callback is assumed not to throw.
- Progress values are exact fractions (`Fraction`), not JavaScript floating-point numbers.
- Chunk indexes and sizes are unbounded naturals. JavaScript numbers and `BigInt` conversion are not modelled.
- `expected_chunk_count` is taken from the session as the code does. It is not checked against the file size. `RunUploadsWholeFile` states what is uploaded in either case.
- The concurrency of `downloadFile` is modelled as one completion order: a permutation of the locations, given as a parameter.
  - The fetches are issued in plan order, and the answer to each fetch depends on the calls issued up to it.
  - A fetch that completes after `Promise.all` has rejected still writes its slot, but nothing reads it.
- `Download.DownloadFile` requires the plan to be well formed when it arrives: chunk indexes below `chunk_count`, none twice, and every index present. It also requires the completion order to be a permutation.
  - The code does not check the plan.
  - With a malformed plan, JavaScript would write past the array or leave holes, and a hole would become the text `undefined` inside the blob. That behaviour is not modelled.

## Findings

| source | as written | input that shows it | evidently intended | confidence | as-written member | corrected member |
|---|---|---|---|---|---|---|
| src/lib/services/file.services.ts:78-84 | `putChunk` is called without `bucketId`, so `bucketCanister` (src/lib/api/bucket.api.ts:113-126) sends the chunk to BUCKET_CANISTER_ID; modelled by `Config.target = DefaultBucket` | a session whose upload token names a bucket `B` other than BUCKET_CANISTER_ID: the approval at line 71-76 goes to `B`, the put goes to the default bucket | the chunk is put to `token.bucket_id`, the bucket that was just approved and that the token was issued for | not executed | UploadProperties.RunPutsMissApprovedBucket | UploadProperties.RunPutsToApprovedBucket |
