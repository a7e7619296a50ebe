/**
 * `POST /api/blockchain/sync`: rebuilds the batch snapshot, passes the
 * readiness gate, anchors the snapshot on Polygon or on the simulated
 * ledger, and records the receipt.
 */
module SyncRoute {
  import opened Wrappers
  import opened Text
  import opened Seqs
  import opened Json
  import opened Config
  import opened BlockchainService
  import opened PolygonService
  import opened Persistence
  import opened Snapshot

  /**
   * Database requests that can come back with an error. The route answers 404
   * on a failed batch read and 500 on a failed stages read; a failed read of
   * the verifications or of the previous record counts as no rows; the three
   * writes are only logged (the QR code update not even that).
   */
  datatype SyncFaults = SyncFaults(
    batchReadFails: bool,
    stagesReadFails: bool,
    verificationsReadFails: bool,
    previousRecordReadFails: bool,
    recordInsertFails: bool,
    batchUpdateFails: bool,
    qrUpdateFails: bool)

  /**
   * What the route takes from outside the tables. `snapshotClock` is the
   * reading of the snapshot (its timestamp, the stage fallback dates and the
   * image hashes); `receiptClock` the one of the ledger call and the
   * certificate. `walletAccepts` says whether ethers.js accepts the private
   * key, `contractCall` what the contract does with the call, and `qrCode` is
   * the generated data URL, or "" when generation throws.
   */
  datatype SyncContext = SyncContext(
    p: Primitives,
    env: Env,
    snapshotClock: Clock,
    receiptClock: Clock,
    gas: nat,
    walletAccepts: bool,
    contractCall: SyncBatchCall -> ContractOutcome,
    qrCode: string,
    recordId: string,
    faults: SyncFaults)

  datatype SyncResponse =
    | MissingBatchId
    | BatchNotFound
    | AlreadySynced(blockchainTxHash: Option<string>, explorerUrl: string)
    | StagesFetchFailed
    | NotReady(reasons: seq<string>)
    | Synced(transaction: Transaction, certificate: string, qrData: string)

  function StatusCode(r: SyncResponse): nat {
    match r
    case MissingBatchId => 400
    case BatchNotFound => 404
    case AlreadySynced(_, _) => 200
    case StagesFetchFailed => 500
    case NotReady(_) => 400
    case Synced(_, _, _) => 200
  }

  datatype SyncOutcome = SyncOutcome(response: SyncResponse, tables: Tables)

  // ---------------------------------------------------------------
  // The pieces of the sync
  // ---------------------------------------------------------------

  /**
   * `previousRecord?.dataHash || null`: the data hash of the batch's newest
   * record; a failed read leaves `previousRecord` null.
   */
  function PreviousHash(records: seq<BlockchainRecord>, batchId: string, readFails: bool): (h: Option<string>)
    ensures h.Some? ==> (!readFails && LatestRecord(records, batchId).Some? && h.value != ""
      && h.value == LatestRecord(records, batchId).value.dataHash)
    ensures h.None? ==>
      readFails || LatestRecord(records, batchId).None? || LatestRecord(records, batchId).value.dataHash == ""
  {
    var previous := if readFails then None else LatestRecord(records, batchId);
    if previous.Some? && previous.value.dataHash != "" then Some(previous.value.dataHash) else None
  }

  /** The route tries Polygon when the real chain is on, both variables are set, and the wallet takes the key. */
  predicate PolygonReady(ctx: SyncContext) {
    UseRealBlockchain(ctx.env) && Truthy(ctx.env.polygonContractAddress) && Truthy(ctx.env.polygonPrivateKey)
    && ctx.walletAccepts
  }

  function SimulatedReceipt(ctx: SyncContext, d: BatchData, previousHash: Option<string>): Transaction {
    SyncToBlockchain(ctx.p, ctx.env, d, previousHash, ctx.receiptClock, ctx.gas)
  }

  /**
   * The receipt the route ends up with: the Polygon one when Polygon is
   * configured and the transaction is mined, otherwise the simulated one,
   * which alone carries the previous hash.
   */
  function SelectBackend(ctx: SyncContext, d: BatchData, previousHash: Option<string>): (tx: Transaction)
    ensures tx.dataHash == HashBatchData(ctx.p, d) && tx.merkleRoot == StagesMerkleRoot(ctx.p, d.stages)
    ensures tx.status == Confirmed && tx.timestamp == ctx.receiptClock.iso
    ensures !PolygonReady(ctx) ==> tx == SimulatedReceipt(ctx, d, previousHash)
    ensures PolygonReady(ctx) && ctx.contractCall(SyncCallOf(ctx.p, d)).Rejected? ==>
      tx == SimulatedReceipt(ctx, d, previousHash)
    ensures PolygonReady(ctx) && ctx.contractCall(SyncCallOf(ctx.p, d)).Mined? ==>
      tx.transactionHash == ctx.contractCall(SyncCallOf(ctx.p, d)).hash
      && tx.previousHash.None? && tx.network == PolygonNetwork
  {
    if PolygonReady(ctx) then
      match RealSyncResult(ctx.p, d, ctx.contractCall(SyncCallOf(ctx.p, d)), ctx.receiptClock)
      case Success(tx) => tx
      case Failure(_) => SimulatedReceipt(ctx, d, previousHash)
    else SimulatedReceipt(ctx, d, previousHash)
  }

  /** The row inserted into `blockchain_records`. */
  function RecordRow(id: string, batchId: string, tx: Transaction): (r: BlockchainRecord)
    ensures r.batchId == batchId && r.transactionHash == tx.transactionHash
    ensures r.dataHash == tx.dataHash && r.merkleRoot == tx.merkleRoot && r.previousHash == tx.previousHash
    ensures r.recordType == "BATCH_CREATED" && r.status == TxStatusName(tx.status) && r.syncedAt == tx.timestamp
  {
    BlockchainRecord(id, batchId, tx.transactionHash, tx.blockNumber, tx.network, tx.dataHash, tx.previousHash,
      tx.merkleRoot, "BATCH_CREATED", tx.gasUsed, TxStatusName(tx.status), tx.timestamp)
  }

  /** The batch update after the receipt: the batch is SYNCED to this transaction; nothing else changes. */
  function SyncedRow(row: BatchRow, tx: Transaction): (r: BatchRow)
    ensures r.blockchainStatus == Some("SYNCED") && r.status == "BLOCKCHAIN_SYNCED"
    ensures r.blockchainHash == Some(tx.dataHash) && r.blockchainTxHash == Some(tx.transactionHash)
    ensures r.blockchainSyncedAt == Some(tx.timestamp) && r.blockchainNetwork == Some(tx.network)
    ensures r.blockchainVerified == Some(true)
    ensures r.id == row.id && r.batchCode == row.batchCode && r.verified == row.verified
      && r.qrCode == row.qrCode && r.verifyUrl == row.verifyUrl
  {
    row.(blockchainHash := Some(tx.dataHash), blockchainTxHash := Some(tx.transactionHash),
      blockchainSyncedAt := Some(tx.timestamp), blockchainStatus := Some("SYNCED"),
      blockchainNetwork := Some(tx.network), blockchainVerified := Some(true), status := "BLOCKCHAIN_SYNCED")
  }

  function VerifyUrl(env: Env, batchId: string): string {
    BaseUrl(env) + "/verify/" + batchId
  }

  function WithQrCode(row: BatchRow, qrCode: string, verifyUrl: string): BatchRow {
    row.(qrCode := Some(qrCode), verifyUrl := Some(verifyUrl))
  }

  /**
   * The snapshot the sync hashes, read at `snapshotClock`. It is the tables'
   * snapshot unless the verifications read failed, and then none of its
   * stages is flagged.
   */
  function SyncSnapshot(t: Tables, batchId: string, ctx: SyncContext): (d: BatchData)
    requires batchId in t.batches
    ensures !ctx.faults.verificationsReadFails ==>
      d == TablesSnapshot(ctx.p, t, batchId, ctx.snapshotClock, ctx.snapshotClock.iso)
    ensures d.timestamp == ctx.snapshotClock.iso && |d.stages| == |StagesOf(t.stages, batchId)|
  {
    ReadSnapshot(ctx.p, t, batchId, false, ctx.faults.verificationsReadFails, ctx.snapshotClock, ctx.snapshotClock.iso)
  }

  /** The QR code reaches the batch row when one was generated and its update went through. */
  predicate QrStored(ctx: SyncContext) {
    ctx.qrCode != "" && !ctx.faults.qrUpdateFails
  }

  /** The writes after the receipt: one record, the SYNCED update, and the QR code when there is one. */
  function SyncWrites(t: Tables, batchId: string, tx: Transaction, ctx: SyncContext): (u: Tables)
    requires batchId in t.batches
    ensures u.records == t.records + (if ctx.faults.recordInsertFails then [] else [RecordRow(ctx.recordId, batchId, tx)])
    ensures u.batches.Keys == t.batches.Keys
    ensures forall k :: k in t.batches && k != batchId ==> u.batches[k] == t.batches[k]
    ensures !ctx.faults.batchUpdateFails ==> (var r := u.batches[batchId];
      r.blockchainStatus == Some("SYNCED") && r.blockchainHash == Some(tx.dataHash)
      && r.blockchainTxHash == Some(tx.transactionHash) && r.blockchainSyncedAt == Some(tx.timestamp))
    ensures QrStored(ctx) ==> (u.batches[batchId].qrCode == Some(ctx.qrCode)
      && u.batches[batchId].verifyUrl == Some(VerifyUrl(ctx.env, batchId)))
    ensures !QrStored(ctx) ==> (u.batches[batchId].qrCode == t.batches[batchId].qrCode
      && u.batches[batchId].verifyUrl == t.batches[batchId].verifyUrl)
    ensures var r, b := u.batches[batchId], t.batches[batchId];
      r.verified == b.verified && r.verificationStatus == b.verificationStatus && r.verifiedAt == b.verifiedAt
    ensures u.stages == t.stages && u.verifications == t.verifications && u.logs == t.logs
      && u.notifications == t.notifications
  {
    var records := if ctx.faults.recordInsertFails then t.records else t.records + [RecordRow(ctx.recordId, batchId, tx)];
    var row := if ctx.faults.batchUpdateFails then t.batches[batchId] else SyncedRow(t.batches[batchId], tx);
    var row' := if QrStored(ctx) then WithQrCode(row, ctx.qrCode, VerifyUrl(ctx.env, batchId)) else row;
    t.(records := records, batches := t.batches[batchId := row'])
  }

  function SyncCertificate(ctx: SyncContext, d: BatchData, tx: Transaction, batchId: string): string {
    GenerateCertificate(ctx.p, ctx.env, d, tx, Some(ctx.qrCode), Some(VerifyUrl(ctx.env, batchId)), ctx.receiptClock)
  }

  /** The specification of the route: its response and the tables it leaves. */
  function Sync(t: Tables, batchId: Option<string>, ctx: SyncContext): (o: SyncOutcome)
    ensures o.response.MissingBatchId? <==> !Truthy(batchId)
    ensures o.response.BatchNotFound? <==>
      Truthy(batchId) && (batchId.value !in t.batches || ctx.faults.batchReadFails)
    ensures o.response.AlreadySynced? <==>
      Truthy(batchId) && batchId.value in t.batches && !ctx.faults.batchReadFails
      && t.batches[batchId.value].blockchainStatus == Some("SYNCED")
    ensures !o.response.Synced? ==> o.tables == t
    ensures o.response.Synced? ==>
      Truthy(batchId) && batchId.value in t.batches && !ctx.faults.stagesReadFails
      && t.batches[batchId.value].blockchainStatus != Some("SYNCED")
      && ReadinessReport(SyncSnapshot(t, batchId.value, ctx)).ready
      && o.response.transaction.dataHash == HashBatchData(ctx.p, SyncSnapshot(t, batchId.value, ctx))
      && o.response.transaction.merkleRoot == StagesMerkleRoot(ctx.p, SyncSnapshot(t, batchId.value, ctx).stages)
      && o.tables == SyncWrites(t, batchId.value, o.response.transaction, ctx)
  {
    if !Truthy(batchId) then SyncOutcome(MissingBatchId, t)
    else if batchId.value !in t.batches || ctx.faults.batchReadFails then SyncOutcome(BatchNotFound, t)
    else
      var id := batchId.value;
      var batch := t.batches[id];
      if batch.blockchainStatus == Some("SYNCED") then
        SyncOutcome(AlreadySynced(batch.blockchainTxHash, GetExplorerUrl(ctx.env, ShowNullable(batch.blockchainTxHash))), t)
      else if ctx.faults.stagesReadFails then SyncOutcome(StagesFetchFailed, t)
      else
        var d := SyncSnapshot(t, id, ctx);
        var readiness := ReadinessReport(d);
        if !readiness.ready then SyncOutcome(NotReady(readiness.reasons), t)
        else
          var tx := SelectBackend(ctx, d, PreviousHash(t.records, id, ctx.faults.previousRecordReadFails));
          SyncOutcome(Synced(tx, SyncCertificate(ctx, d, tx, id), CreateVerificationQRData(ctx.p, ctx.env, tx)),
            SyncWrites(t, id, tx, ctx))
  }

  // ---------------------------------------------------------------
  // The route
  // ---------------------------------------------------------------

  /** Step 8 of the route: Polygon when configured, the simulated ledger otherwise or after any Polygon error. */
  method RunBackend(ctx: SyncContext, batchData: BatchData, previousHash: Option<string>) returns (transaction: Transaction)
    ensures transaction == SelectBackend(ctx, batchData, previousHash)
  {
    if UseRealBlockchain(ctx.env) {
      if !Truthy(ctx.env.polygonContractAddress) || !Truthy(ctx.env.polygonPrivateKey) {
        transaction := SyncToBlockchain(ctx.p, ctx.env, batchData, previousHash, ctx.receiptClock, ctx.gas);
      } else {
        var service := NewPolygonService(true, ctx.env.polygonContractAddress, ctx.env.polygonPrivateKey,
          Set(ctx.env.polygonRpcUrl), ctx.walletAccepts);
        if service.Failure? {
          transaction := SyncToBlockchain(ctx.p, ctx.env, batchData, previousHash, ctx.receiptClock, ctx.gas);
        } else {
          var synced := service.value.SyncToPolygon(ctx.p, ctx.env, batchData, ctx.contractCall, ctx.receiptClock,
            ctx.gas);
          if synced.Success? {
            transaction := synced.value;
          } else {
            transaction := SyncToBlockchain(ctx.p, ctx.env, batchData, previousHash, ctx.receiptClock, ctx.gas);
          }
        }
      }
    } else {
      transaction := SyncToBlockchain(ctx.p, ctx.env, batchData, previousHash, ctx.receiptClock, ctx.gas);
    }
  }

  /** Steps 9 to 12 of the route: the record insert, the batch update and the QR code update, each on its own. */
  method ApplySyncWrites(db: Database, batchId: string, transaction: Transaction, ctx: SyncContext)
    requires batchId in db.batches
    modifies db
    ensures db.Snapshot() == SyncWrites(old(db.Snapshot()), batchId, transaction, ctx)
  {
    if !ctx.faults.recordInsertFails {
      db.records := db.records + [RecordRow(ctx.recordId, batchId, transaction)];
    }
    if !ctx.faults.batchUpdateFails {
      db.batches := db.batches[batchId := SyncedRow(db.batches[batchId], transaction)];
    }
    var verifyUrl := VerifyUrl(ctx.env, batchId);
    if ctx.qrCode != "" && !ctx.faults.qrUpdateFails {
      db.batches := db.batches[batchId := WithQrCode(db.batches[batchId], ctx.qrCode, verifyUrl)];
    }
    assert db.batches == old(db.batches)[batchId := db.batches[batchId]];
  }

  method SyncPost(db: Database, batchId: Option<string>, ctx: SyncContext) returns (resp: SyncResponse)
    modifies db
    ensures resp == Sync(old(db.Snapshot()), batchId, ctx).response
    ensures db.Snapshot() == Sync(old(db.Snapshot()), batchId, ctx).tables
  {
    if !Truthy(batchId) {
      return MissingBatchId;
    }
    var id := batchId.value;
    if id !in db.batches || ctx.faults.batchReadFails {
      return BatchNotFound;
    }
    var batch := db.batches[id];
    if batch.blockchainStatus == Some("SYNCED") {
      return AlreadySynced(batch.blockchainTxHash, GetExplorerUrl(ctx.env, ShowNullable(batch.blockchainTxHash)));
    }
    if ctx.faults.stagesReadFails {
      return StagesFetchFailed;
    }
    var stages := StagesOf(db.stages, id);
    var verifications := if ctx.faults.verificationsReadFails then [] else Filter(VerificationOfBatch(id), db.verifications);
    var batchData := BuildBatchData(ctx.p, batch, stages, verifications, ctx.snapshotClock, ctx.snapshotClock.iso);
    assert batchData == SyncSnapshot(old(db.Snapshot()), id, ctx);
    var readiness := IsReadyForBlockchain(batchData);
    if !readiness.ready {
      return NotReady(readiness.reasons);
    }
    var previousHash := PreviousHash(db.records, id, ctx.faults.previousRecordReadFails);

    var transaction := RunBackend(ctx, batchData, previousHash);
    ApplySyncWrites(db, id, transaction, ctx);
    var verifyUrl := VerifyUrl(ctx.env, id);
    var certificate := GenerateCertificate(ctx.p, ctx.env, batchData, transaction, Some(ctx.qrCode), Some(verifyUrl),
      ctx.receiptClock);
    var qrData := CreateVerificationQRData(ctx.p, ctx.env, transaction);
    resp := Synced(transaction, certificate, qrData);
  }

  // ---------------------------------------------------------------
  // Properties of the sync
  // ---------------------------------------------------------------

  /**
   * Every answer but a completed sync leaves the tables as they were; a
   * completed sync is of a named, unsynced batch and makes exactly the
   * writes of steps 9 to 11 for the transaction it reports.
   */
  lemma SyncWritesOnlyWhenSynced(t: Tables, batchId: Option<string>, ctx: SyncContext)
    ensures !Sync(t, batchId, ctx).response.Synced? ==> Sync(t, batchId, ctx).tables == t
    ensures Sync(t, batchId, ctx).response.Synced? ==> (Truthy(batchId) && batchId.value in t.batches
      && !ctx.faults.batchReadFails && t.batches[batchId.value].blockchainStatus != Some("SYNCED")
      && Sync(t, batchId, ctx).tables
        == SyncWrites(t, batchId.value, Sync(t, batchId, ctx).response.transaction, ctx))
  {
  }

  /** A completed sync passed the gate on the snapshot, and its transaction is the backend's receipt for it. */
  lemma SyncedTransaction(t: Tables, batchId: string, ctx: SyncContext)
    requires batchId in t.batches && Sync(t, Some(batchId), ctx).response.Synced?
    ensures !ctx.faults.batchReadFails && !ctx.faults.stagesReadFails
      && t.batches[batchId].blockchainStatus != Some("SYNCED")
    ensures ReadinessReport(SyncSnapshot(t, batchId, ctx)).ready
    ensures Sync(t, Some(batchId), ctx).response.transaction
      == SelectBackend(ctx, SyncSnapshot(t, batchId, ctx),
        PreviousHash(t.records, batchId, ctx.faults.previousRecordReadFails))
  {
  }

  /**
   * A named batch that is not yet synced is answered 404 only when its read
   * fails, and is otherwise taken past the early answers, to the stages and
   * the gate.
   */
  lemma UnsyncedBatchReachesGate(t: Tables, batchId: string, ctx: SyncContext)
    requires batchId != "" && batchId in t.batches && t.batches[batchId].blockchainStatus != Some("SYNCED")
    ensures Sync(t, Some(batchId), ctx).response.BatchNotFound? <==> ctx.faults.batchReadFails
    ensures !ctx.faults.batchReadFails ==> (var r := Sync(t, Some(batchId), ctx).response;
      r.StagesFetchFailed? || r.NotReady? || r.Synced?)
    ensures Sync(t, Some(batchId), ctx).response.StagesFetchFailed? <==>
      !ctx.faults.batchReadFails && ctx.faults.stagesReadFails
  {
  }

  /**
   * An already synced batch is answered from its row alone: no stage is read,
   * no backend is asked, and the answer does not depend on any of them.
   */
  lemma AlreadySyncedIgnoresBackend(t: Tables, batchId: string, ctx: SyncContext, ctx': SyncContext)
    requires batchId != "" && batchId in t.batches && t.batches[batchId].blockchainStatus == Some("SYNCED")
    requires ctx'.env == ctx.env && ctx'.faults.batchReadFails == ctx.faults.batchReadFails
    ensures Sync(t, Some(batchId), ctx) == Sync(t, Some(batchId), ctx')
    ensures Sync(t, Some(batchId), ctx).tables == t
    ensures ctx.faults.batchReadFails ==> Sync(t, Some(batchId), ctx).response == BatchNotFound
    ensures !ctx.faults.batchReadFails ==> (Sync(t, Some(batchId), ctx).response
      == AlreadySynced(t.batches[batchId].blockchainTxHash,
        GetExplorerUrl(ctx.env, ShowNullable(t.batches[batchId].blockchainTxHash))))
  {
  }

  /** A batch that fails the gate gets back exactly the gate's reasons, whatever the backends would have done. */
  lemma NotReadyReportsReasons(t: Tables, batchId: string, ctx: SyncContext)
    requires batchId != "" && batchId in t.batches && t.batches[batchId].blockchainStatus != Some("SYNCED")
    requires !ctx.faults.batchReadFails && !ctx.faults.stagesReadFails
    requires !ReadinessReport(SyncSnapshot(t, batchId, ctx)).ready
    ensures Sync(t, Some(batchId), ctx) == SyncOutcome(NotReady(ReadinessReport(SyncSnapshot(t, batchId, ctx)).reasons), t)
    ensures |Sync(t, Some(batchId), ctx).response.reasons| >= 1
  {
  }

  /** A FAKE image of one of the batch's stages stops the sync at the gate, when the route sees the verifications. */
  lemma FakeImageStopsSync(t: Tables, batchId: string, ctx: SyncContext, i: nat, k: nat)
    requires batchId != "" && batchId in t.batches && t.batches[batchId].blockchainStatus != Some("SYNCED")
    requires !ctx.faults.batchReadFails && !ctx.faults.stagesReadFails && !ctx.faults.verificationsReadFails
    requires k < |t.stages| && t.stages[k].batchId == batchId
    requires i < |t.verifications| && t.verifications[i].verificationStatus == "FAKE"
    requires t.verifications[i].batchId == batchId && t.verifications[i].stageId == t.stages[k].id
    ensures Sync(t, Some(batchId), ctx).response.NotReady?
    ensures Sync(t, Some(batchId), ctx).tables == t
  {
    FakeImageBlocksReadiness(ctx.p, t, batchId, ctx.snapshotClock, ctx.snapshotClock.iso, i, k);
  }

  /**
   * As written, a failed verifications read opens the gate to a batch with a
   * FAKE image: the route reads no verdicts, so no stage is flagged, and a
   * batch whose stages all have images is synced.
   */
  lemma LostVerificationsSyncFakeImage(t: Tables, batchId: string, ctx: SyncContext, i: nat, k: nat)
    requires batchId != "" && batchId in t.batches && t.batches[batchId].blockchainStatus != Some("SYNCED")
    requires !ctx.faults.batchReadFails && !ctx.faults.stagesReadFails && ctx.faults.verificationsReadFails
    requires k < |t.stages| && t.stages[k].batchId == batchId
    requires forall j :: 0 <= j < |t.stages| && t.stages[j].batchId == batchId ==>
      t.stages[j].imageUrls.Some? && |t.stages[j].imageUrls.value| > 0
    requires i < |t.verifications| && t.verifications[i].verificationStatus == "FAKE"
    requires t.verifications[i].batchId == batchId && t.verifications[i].stageId == t.stages[k].id
    ensures Sync(t, Some(batchId), ctx).response.Synced?
  {
    assert StageOfBatch(batchId)(t.stages[k]);
    assert t.stages[k] in StagesOf(t.stages, batchId);
    LostVerificationsPassGate(ctx.p, t, batchId, ctx.snapshotClock, ctx.snapshotClock.iso);
  }

  /**
   * A completed sync anchors the hashes of the snapshot: the record it appends
   * and the batch row carry the receipt's data hash, and the receipt's hashes
   * are those of the snapshot.
   */
  lemma SyncAnchorsSnapshot(t: Tables, batchId: string, ctx: SyncContext)
    requires Truthy(Some(batchId)) && batchId in t.batches
    requires Sync(t, Some(batchId), ctx).response.Synced?
    ensures var o := Sync(t, Some(batchId), ctx);
      var tx := o.response.transaction;
      var d := SyncSnapshot(t, batchId, ctx);
      tx.dataHash == HashBatchData(ctx.p, d) && tx.merkleRoot == StagesMerkleRoot(ctx.p, d.stages)
      && ReadinessReport(d).ready
      && (!ctx.faults.recordInsertFails ==>
        o.tables.records == t.records + [RecordRow(ctx.recordId, batchId, tx)]
        && o.tables.records[|t.records|].dataHash == tx.dataHash)
      && (ctx.faults.recordInsertFails ==> o.tables.records == t.records)
      && (!ctx.faults.batchUpdateFails ==> (o.tables.batches[batchId].blockchainHash == Some(tx.dataHash)
        && o.tables.batches[batchId].blockchainTxHash == Some(tx.transactionHash)))
  {
    SyncedTransaction(t, batchId, ctx);
    SyncWritesOnlyWhenSynced(t, Some(batchId), ctx);
    var tx := Sync(t, Some(batchId), ctx).response.transaction;
    assert Sync(t, Some(batchId), ctx).tables == SyncWrites(t, batchId, tx, ctx);
  }

  /**
   * The simulated ledger links each receipt to the last one: it is handed the
   * data hash of the batch's newest record (or nothing), and the record the
   * sync appends becomes the newest one.
   */
  lemma SyncChainsRecords(t: Tables, batchId: string, ctx: SyncContext)
    requires Truthy(Some(batchId)) && batchId in t.batches
    requires Sync(t, Some(batchId), ctx).response.Synced?
    requires !PolygonReady(ctx)
    ensures var o := Sync(t, Some(batchId), ctx);
      o.response.transaction.previousHash == PreviousHash(t.records, batchId, ctx.faults.previousRecordReadFails)
      && (ctx.faults.previousRecordReadFails ==> o.response.transaction.previousHash.None?)
      && ((!ctx.faults.previousRecordReadFails && LatestRecord(t.records, batchId).Some?
        && LatestRecord(t.records, batchId).value.dataHash != "") ==>
        o.response.transaction.previousHash == Some(LatestRecord(t.records, batchId).value.dataHash))
      && (!ctx.faults.recordInsertFails ==>
        LatestRecord(o.tables.records, batchId) == Some(RecordRow(ctx.recordId, batchId, o.response.transaction)))
  {
    var o := Sync(t, Some(batchId), ctx);
    SyncedTransaction(t, batchId, ctx);
    SyncWritesOnlyWhenSynced(t, Some(batchId), ctx);
    assert o.tables == SyncWrites(t, batchId, o.response.transaction, ctx);
    if !ctx.faults.recordInsertFails {
      LatestRecordAppend(t.records, RecordRow(ctx.recordId, batchId, o.response.transaction), batchId);
    }
  }

  /** In real mode every reason not to use Polygon, and every Polygon error, ends in the simulated receipt. */
  lemma PolygonFallback(ctx: SyncContext, d: BatchData, previousHash: Option<string>)
    requires UseRealBlockchain(ctx.env)
    requires !Truthy(ctx.env.polygonContractAddress) || !Truthy(ctx.env.polygonPrivateKey) || !ctx.walletAccepts
      || ctx.contractCall(SyncCallOf(ctx.p, d)).Rejected?
    ensures SelectBackend(ctx, d, previousHash) == SyncToBlockchain(ctx.p, ctx.env, d, previousHash, ctx.receiptClock, ctx.gas)
    ensures SelectBackend(ctx, d, previousHash).previousHash == previousHash
  {
  }

  /** Once a sync has updated the batch row, a second sync is refused with the first sync's transaction. */
  lemma SyncTwice(t: Tables, batchId: string, ctx: SyncContext, ctx': SyncContext)
    requires Truthy(Some(batchId)) && batchId in t.batches
    requires Sync(t, Some(batchId), ctx).response.Synced? && !ctx.faults.batchUpdateFails
    ensures var o := Sync(t, Some(batchId), ctx);
      var hash := o.response.transaction.transactionHash;
      Sync(o.tables, Some(batchId), ctx') == SyncOutcome(
        if ctx'.faults.batchReadFails then BatchNotFound
        else AlreadySynced(Some(hash), GetExplorerUrl(ctx'.env, hash)), o.tables)
  {
    var o := Sync(t, Some(batchId), ctx);
    SyncWritesOnlyWhenSynced(t, Some(batchId), ctx);
    var u := SyncWrites(t, batchId, o.response.transaction, ctx);
    assert o.tables == u;
    assert u.batches[batchId].blockchainStatus == Some("SYNCED");
    assert u.batches[batchId].blockchainTxHash == Some(o.response.transaction.transactionHash);
  }
}
