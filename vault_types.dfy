/** Values exchanged between the browser client and the Vault canisters, and the
    client's view of those canisters as functions of the calls it has issued. */
module VaultTypes {

  newtype byte = b: int | 0 <= b < 256

  datatype Option<+T> = None | Some(value: T)

  /** A canister or ledger principal. The client compares principals by their
      textual form (`toText()`), so that form is all the model keeps. */
  datatype Principal = Principal(text: string)

  datatype LedgerType = ICP | CkUSDC

  /** LEDGER_CANISTER_IDS: the ledger canister of each accepted token. */
  function LedgerId(ledger: LedgerType): Principal
  {
    match ledger
    case ICP => Principal("ryjl3-tyaaa-aaaaa-aaaba-cai")
    case CkUSDC => Principal("g4tsh-pyaaa-aaaaq-aacdq-cai")
  }

  /** `{ CallerPaysIcrc2Tokens: { ledger } }`: the caller pays through an ICRC-2 approval. */
  datatype PaymentType = CallerPaysIcrc2Tokens(ledger: Principal)

  /** The keys of the PRICING table that the transfer uses. */
  datatype PricedAction = StartUploadAction | PutChunkAction

  /** The static PRICING table, indexed by action and ledger; its entries are not
      part of this model, so every operation takes the table as a parameter. */
  type Pricing = (PricedAction, LedgerType) -> nat

  type FileId = seq<byte>

  datatype UploadSession = UploadSession(uploadId: seq<byte>, expectedChunkCount: nat)

  /** A per-chunk upload credential; `grant` stands for its authorisation material. */
  datatype UploadToken = UploadToken(bucketId: Principal, grant: seq<byte>)

  datatype DownloadToken = DownloadToken(grant: seq<byte>)

  datatype BucketAuth = BucketAuth(bucketId: Principal, token: DownloadToken)

  datatype ChunkLocation = ChunkLocation(bucket: Principal, chunkIndex: nat)

  datatype DownloadPlan = DownloadPlan(chunkCount: nat, locations: seq<ChunkLocation>, auth: seq<BucketAuth>)

  datatype FileMeta = FileMeta(fileId: FileId, name: string, size: nat)

  /** What the transfer functions throw. */
  datatype Error =
      /** A collaborator answered `Err`; its wrapper throws. */
    | Rejected(reason: string)
      /** getUploadTokens answered an empty list: `const [token] = []` leaves
          `token` undefined and reading `token.bucket_id` throws. */
    | NoUploadToken
      /** `No auth for bucket ...`: the download plan names a bucket that has no auth entry. */
    | NoAuthForBucket(bucket: Principal)

  datatype Result<+T> = Ok(value: T) | Err(error: Error)

  function ErrorOf<T>(r: Result<T>): (e: Option<Error>)
    ensures e.None? <==> r.Ok?
    ensures r.Err? ==> e == Some(r.error)
  {
    match r
    case Ok(_) => None
    case Err(err) => Some(err)
  }

  /** One remote call issued by the client, with its arguments. */
  datatype Call =
    | Approve(ledger: Principal, spender: Principal, amount: nat)
    | StartUpload(fileName: string, mimeType: string, size: nat, payment: PaymentType)
    | GetUploadTokens(uploadId: seq<byte>, chunkIndexes: seq<nat>)
    | PutChunk(bucket: Principal, token: UploadToken, chunkIndex: nat, content: seq<byte>, payment: PaymentType)
    | CommitUpload(uploadId: seq<byte>)
    | AbortUpload(uploadId: seq<byte>)
    | GetDownloadPlan(fileId: FileId)
    | GetChunk(source: Principal, auth: DownloadToken, chunkIndex: nat)

  /** The ledger, the directory canister and the bucket canisters as the client
      sees them. Each field answers one kind of call; it is given every call the
      client has issued so far, the call being answered last, so an answer may
      depend on whatever state earlier calls left behind. */
  datatype Remote = Remote(
    approve: seq<Call> -> Result<nat>,
    startUpload: seq<Call> -> Result<UploadSession>,
    getUploadTokens: seq<Call> -> Result<seq<UploadToken>>,
    putChunk: seq<Call> -> Result<nat>,
    commitUpload: seq<Call> -> Result<FileMeta>,
    getDownloadPlan: seq<Call> -> Result<DownloadPlan>,
    getChunk: seq<Call> -> Result<seq<byte>>)
}
