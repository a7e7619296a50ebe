/**
 * The database tables and the storage buckets the routes read and write.
 * Each table is a field of `Database`; a route changes them by reassigning
 * the fields. Rows that a table returns "newest first" (`order('createdAt',
 * { ascending: false })`) are kept oldest first and read in reverse.
 */
module Persistence {
  import opened Wrappers
  import opened Seqs
  import opened Uri

  // ---------------------------------------------------------------
  // Rows
  // ---------------------------------------------------------------

  /**
   * A row of `batches`. Text columns the routes only copy are strings;
   * columns the routes test for `null` or truthiness are options.
   */
  datatype BatchRow = BatchRow(
    id: string,
    batchCode: string,
    name: string,
    cropType: string,
    category: string,
    area: Option<real>,
    sowingDate: string,
    harvestDate: string,
    farmerName: string,
    quantity: Option<int>,
    description: string,
    status: string,
    verified: bool,
    verificationStatus: string,
    verifiedAt: Option<string>,
    verifiedBy: Option<string>,
    farmerId: string,
    qrCode: Option<string>,
    verifyUrl: Option<string>,
    imageUrls: seq<string>,
    location: string,
    blockchainHash: Option<string>,
    blockchainTxHash: Option<string>,
    blockchainSyncedAt: Option<string>,
    blockchainStatus: Option<string>,
    blockchainNetwork: Option<string>,
    blockchainVerified: Option<bool>)

  /** A row of `stages`; `imageUrls` may be `null`. */
  datatype StageRow = StageRow(
    id: string,
    batchId: string,
    name: string,
    order: int,
    completedAt: Option<string>,
    imageUrls: Option<seq<string>>)

  /** A row of `image_verifications`. */
  datatype ImageVerification = ImageVerification(
    id: string,
    imageUrl: string,
    stageId: string,
    batchId: string,
    farmerId: string,
    verificationStatus: string,
    verifiedBy: string,
    verifiedAt: string,
    updatedAt: Option<string>,
    rejectionReason: Option<string>)

  /** A row of `blockchain_records`. */
  datatype BlockchainRecord = BlockchainRecord(
    id: string,
    batchId: string,
    transactionHash: string,
    blockNumber: nat,
    blockchainNetwork: string,
    dataHash: string,
    previousHash: Option<string>,
    merkleRoot: string,
    recordType: string,
    gasUsed: Option<string>,
    status: string,
    syncedAt: string)

  /** A row of `blockchain_verification_logs`. */
  datatype VerificationLog = VerificationLog(
    id: string,
    batchId: string,
    transactionHash: string,
    verifierAddress: string,
    verifierRole: string,
    verificationType: string,
    result: string,
    details: string,
    createdAt: string)

  datatype NotificationMetadata = NotificationMetadata(
    imageUrl: string,
    stageId: string,
    batchId: string,
    verificationId: string,
    rejectionReason: Option<string>)

  /** A row of `notifications`; type, title and message are unset for a status other than REAL or FAKE. */
  datatype Notification = Notification(
    userId: string,
    kind: Option<string>,
    title: Option<string>,
    message: Option<string>,
    metadata: NotificationMetadata)

  /** The contents of every table at one moment. */
  datatype Tables = Tables(
    batches: map<string, BatchRow>,
    stages: seq<StageRow>,
    verifications: seq<ImageVerification>,
    records: seq<BlockchainRecord>,
    logs: seq<VerificationLog>,
    notifications: seq<Notification>)

  // ---------------------------------------------------------------
  // Queries (`.eq(column, value)`)
  // ---------------------------------------------------------------

  function StageOfBatch(batchId: string): StageRow -> bool {
    (s: StageRow) => s.batchId == batchId
  }

  function VerificationOfBatch(batchId: string): ImageVerification -> bool {
    (v: ImageVerification) => v.batchId == batchId
  }

  function VerificationOfStage(stageId: string): ImageVerification -> bool {
    (v: ImageVerification) => v.stageId == stageId
  }

  function VerificationOfImage(imageUrl: string, stageId: string): ImageVerification -> bool {
    (v: ImageVerification) => v.imageUrl == imageUrl && v.stageId == stageId
  }

  function RecordOfBatch(batchId: string): BlockchainRecord -> bool {
    (r: BlockchainRecord) => r.batchId == batchId
  }

  function LogOfBatch(batchId: string): VerificationLog -> bool {
    (l: VerificationLog) => l.batchId == batchId
  }

  /** The stages of a batch, in stored order. */
  function StagesOf(stages: seq<StageRow>, batchId: string): (r: seq<StageRow>)
    ensures forall i :: 0 <= i < |r| ==> r[i] in stages && r[i].batchId == batchId
    ensures forall i :: 0 <= i < |stages| && stages[i].batchId == batchId ==> stages[i] in r
  {
    Filter(StageOfBatch(batchId), stages)
  }

  /** The records of a batch, oldest first. */
  function RecordsOf(records: seq<BlockchainRecord>, batchId: string): (r: seq<BlockchainRecord>)
    ensures forall i :: 0 <= i < |r| ==> r[i] in records && r[i].batchId == batchId
    ensures forall i :: 0 <= i < |records| && records[i].batchId == batchId ==> records[i] in r
  {
    Filter(RecordOfBatch(batchId), records)
  }

  /** The verification logs of a batch, oldest first. */
  function LogsOf(logs: seq<VerificationLog>, batchId: string): (r: seq<VerificationLog>)
    ensures forall i :: 0 <= i < |r| ==> r[i] in logs && r[i].batchId == batchId
    ensures forall i :: 0 <= i < |logs| && logs[i].batchId == batchId ==> logs[i] in r
  {
    Filter(LogOfBatch(batchId), logs)
  }

  /** The newest record of a batch: `order('createdAt', { ascending: false }).limit(1).single()`. */
  function LatestRecord(records: seq<BlockchainRecord>, batchId: string): (r: Option<BlockchainRecord>)
    ensures r.None? <==> forall i :: 0 <= i < |records| ==> records[i].batchId != batchId
    ensures r.Some? ==> r.value in records && r.value.batchId == batchId
  {
    var rs := RecordsOf(records, batchId);
    if rs == [] then None else Some(rs[|rs| - 1])
  }

  /** A record just appended is the newest of its batch; other batches keep theirs. */
  lemma LatestRecordAppend(records: seq<BlockchainRecord>, r: BlockchainRecord, batchId: string)
    ensures LatestRecord(records + [r], batchId)
      == if r.batchId == batchId then Some(r) else LatestRecord(records, batchId)
  {
    FilterConcat(RecordOfBatch(batchId), records, [r]);
    assert Filter(RecordOfBatch(batchId), [r]) == if r.batchId == batchId then [r] else [];
  }

  /** `.single()` on a filtered table: the one matching row, or an error for none or several. */
  function Single<T>(rows: seq<T>): (r: Option<T>)
    ensures r.Some? <==> |rows| == 1
    ensures r.Some? ==> r.value == rows[0]
  {
    if |rows| == 1 then Some(rows[0]) else None
  }

  /** No two verification rows are about the same image of the same stage. */
  predicate UniqueImagePairs(vs: seq<ImageVerification>) {
    forall i, j :: 0 <= i < j < |vs| ==> !(vs[i].imageUrl == vs[j].imageUrl && vs[i].stageId == vs[j].stageId)
  }

  /** Rewriting rows without changing their image or stage keeps them unique. */
  lemma UniquePairsSameKeys(vs: seq<ImageVerification>, us: seq<ImageVerification>)
    requires UniqueImagePairs(vs) && |us| == |vs|
    requires forall i :: 0 <= i < |vs| ==> us[i].imageUrl == vs[i].imageUrl && us[i].stageId == vs[i].stageId
    ensures UniqueImagePairs(us)
  {
  }

  /** Appending a row for an image of a stage no row has keeps them unique. */
  lemma UniquePairsAppend(vs: seq<ImageVerification>, v: ImageVerification)
    requires UniqueImagePairs(vs)
    requires forall i :: 0 <= i < |vs| ==> !(vs[i].imageUrl == v.imageUrl && vs[i].stageId == v.stageId)
    ensures UniqueImagePairs(vs + [v])
  {
    var us := vs + [v];
    forall i, j | 0 <= i < j < |us| ensures !(us[i].imageUrl == us[j].imageUrl && us[i].stageId == us[j].stageId) {
      if j == |vs| { assert us[i] == vs[i] && us[j] == v; } else { assert us[i] == vs[i] && us[j] == vs[j]; }
    }
  }

  // ---------------------------------------------------------------
  // The database
  // ---------------------------------------------------------------

  class Database {
    var batches: map<string, BatchRow>
    var stages: seq<StageRow>
    var verifications: seq<ImageVerification>
    var records: seq<BlockchainRecord>
    var logs: seq<VerificationLog>
    var notifications: seq<Notification>

    constructor(initial: Tables)
      ensures Snapshot() == initial
    {
      batches := initial.batches;
      stages := initial.stages;
      verifications := initial.verifications;
      records := initial.records;
      logs := initial.logs;
      notifications := initial.notifications;
    }

    /** Every table, as one value. */
    function Snapshot(): Tables
      reads this
    {
      Tables(batches, stages, verifications, records, logs, notifications)
    }
  }

  // ---------------------------------------------------------------
  // Storage
  // ---------------------------------------------------------------

  /** The bucket stage images live in. */
  const ImageBucket := "batch-images"

  /** The marker Supabase puts between the project URL and `bucket/path` in a public object URL. */
  const PublicMarker := "/storage/v1/object/public/"

  /**
   * `getPublicUrl(path)` on `bucket`: Supabase passes the whole URL
   * `projectUrl/storage/v1/object/public/bucket/path` through `encodeURI`.
   */
  function PublicUrl(projectUrl: string, bucket: string, path: string): string {
    EncodeUri(projectUrl + PublicMarker + bucket + "/" + path)
  }

  /**
   * A public URL is the encoded project URL, the marker (which `encodeURI`
   * leaves alone), the encoded bucket, `/` and the encoded path.
   */
  lemma PublicUrlShape(projectUrl: string, bucket: string, path: string)
    ensures PublicUrl(projectUrl, bucket, path)
      == EncodeUri(projectUrl) + PublicMarker + EncodeUri(bucket) + "/" + EncodeUri(path)
  {
    EncodeUriAppend(projectUrl + PublicMarker + bucket + "/", path);
    EncodeUriAppend(projectUrl + PublicMarker + bucket, "/");
    EncodeUriAppend(projectUrl + PublicMarker, bucket);
    EncodeUriAppend(projectUrl, PublicMarker);
    MarkerKept();
  }

  /** `decodeURI` of a public URL gives back the unencoded URL. */
  lemma PublicUrlDecodes(projectUrl: string, bucket: string, path: string)
    ensures DecodeUri(PublicUrl(projectUrl, bucket, path)) == Some(projectUrl + PublicMarker + bucket + "/" + path)
  {
    DecodeEncodeUri(projectUrl + PublicMarker + bucket + "/" + path);
  }

  /** Lower-case letters, digits, `-` and `/` are left alone by `encodeURI`. */
  lemma PlainKept(s: string)
    requires forall i :: 0 <= i < |s| ==> ('a' <= s[i] <= 'z') || ('0' <= s[i] <= '9') || s[i] in "-/"
    ensures EncodeUri(s) == s
  {
    EncodeUriUnchanged(s);
  }

  /** The marker, the separator `/` and the image bucket's name are left alone by `encodeURI`. */
  lemma MarkerKept()
    ensures EncodeUri(PublicMarker) == PublicMarker
    ensures EncodeUri("/") == "/"
    ensures EncodeUri(ImageBucket) == ImageBucket
  {
    PublicMarkerKept();
    SlashKept();
    ImageBucketKept();
  }

  lemma PublicMarkerKept()
    ensures EncodeUri(PublicMarker) == PublicMarker
  {
    PlainKept(PublicMarker);
  }

  lemma SlashKept()
    ensures EncodeUri("/") == "/"
  {
    PlainKept("/");
  }

  lemma ImageBucketKept()
    ensures EncodeUri(ImageBucket) == ImageBucket
  {
    PlainKept(ImageBucket);
  }

  datatype StoredFile = StoredFile(contentType: string, size: nat)

  /** Supabase storage: buckets of files keyed by path. */
  class Storage {
    var buckets: map<string, map<string, StoredFile>>

    constructor(initial: map<string, map<string, StoredFile>>)
      ensures buckets == initial
    {
      buckets := initial;
    }

    /** `upload(path, file, { upsert: false })`: refuses a missing bucket, a taken path or a failed request. */
    method Upload(bucket: string, path: string, file: StoredFile, fails: bool) returns (ok: bool)
      modifies this
      ensures ok <==> !fails && bucket in old(buckets) && path !in old(buckets)[bucket]
      ensures ok ==> buckets == old(buckets)[bucket := old(buckets)[bucket][path := file]]
      ensures !ok ==> buckets == old(buckets)
    {
      ok := !fails && bucket in buckets && path !in buckets[bucket];
      if ok {
        buckets := buckets[bucket := buckets[bucket][path := file]];
      }
    }

    /** `remove([path])`: removing a path that is not there is not an error. */
    method Remove(bucket: string, path: string, fails: bool) returns (ok: bool)
      modifies this
      ensures ok <==> !fails && bucket in old(buckets)
      ensures ok ==> buckets == old(buckets)[bucket := old(buckets)[bucket] - {path}]
      ensures !ok ==> buckets == old(buckets)
    {
      ok := !fails && bucket in buckets;
      if ok {
        buckets := buckets[bucket := buckets[bucket] - {path}];
      }
    }
  }
}
