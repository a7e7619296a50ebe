/**
 * `GET /api/blockchain/verify`: rebuilds the snapshot of a synced batch,
 * compares its hashes with the stored record of the batch's transaction, and
 * logs the check.
 */
module VerifyRoute {
  import opened Wrappers
  import opened Text
  import opened Seqs
  import opened Json
  import opened Config
  import opened BlockchainService
  import opened Persistence
  import opened Snapshot
  import opened SyncRoute

  /**
   * Database requests of the check that can come back with an error. A failed
   * batch or record read is answered 404; a failed stages or verifications
   * read counts as no rows; a failed log insert is ignored.
   */
  datatype VerifyFaults = VerifyFaults(
    batchReadFails: bool,
    recordReadFails: bool,
    stagesReadFails: bool,
    verificationsReadFails: bool,
    logFails: bool)

  /** `clock` is the reading of the request (the fallback timestamp, the image hashes, the check's date and the log's `createdAt`). */
  datatype VerifyContext = VerifyContext(p: Primitives, env: Env, clock: Clock, logId: string, faults: VerifyFaults)

  datatype ChainView = ChainView(transactionHash: string, blockNumber: nat, network: string, syncedAt: string,
    explorerUrl: string)

  datatype HashComparison = HashComparison(current: string, onChain: string, matches: bool)

  datatype VerifyResponse =
    | VerifyMissingBatchId
    | VerifyBatchNotFound
    | NotSynced(blockchainStatus: string)
    | RecordNotFound
    | Checked(verified: bool, isValid: bool, message: string, blockchain: ChainView, hashes: HashComparison,
        verificationDate: string, mismatchDetails: Option<seq<string>>)

  /** A check that reached the verdict `ok`, with the failure message when it did not pass. */
  predicate CheckedWith(r: VerifyResponse, ok: bool) {
    r.Checked? && r.verified == ok && (!ok ==> r.message == ModifiedMessage)
  }

  function StatusCode(r: VerifyResponse): nat {
    match r
    case VerifyMissingBatchId => 400
    case VerifyBatchNotFound => 404
    case NotSynced(_) => 200
    case RecordNotFound => 404
    case Checked(_, _, _, _, _, _, _) => 200
  }

  datatype VerifyOutcome = VerifyOutcome(response: VerifyResponse, tables: Tables)

  const VerifiedMessage := "Batch data verified successfully - integrity intact"
  const ModifiedMessage := "Verification failed - data has been modified"

  function RecordOfTransaction(batchId: string, transactionHash: string): BlockchainRecord -> bool {
    (r: BlockchainRecord) => r.batchId == batchId && r.transactionHash == transactionHash
  }

  /**
   * `.eq('batchId', batchId).eq('transactionHash', batch.blockchainTxHash).single()`:
   * the one record of the batch's transaction; none when the row has no transaction.
   */
  function TransactionRecord(records: seq<BlockchainRecord>, batchId: string, transactionHash: Option<string>)
    : (r: Option<BlockchainRecord>)
    ensures r.Some? ==> (transactionHash.Some? && r.value in records
      && r.value.batchId == batchId && r.value.transactionHash == transactionHash.value)
    ensures r.None? && transactionHash.Some? ==>
      |Filter(RecordOfTransaction(batchId, transactionHash.value), records)| != 1
  {
    if transactionHash.None? then None
    else
      var matching := Filter(RecordOfTransaction(batchId, transactionHash.value), records);
      Single(matching)
  }

  /** `JSON.stringify(verificationResult)`: `mismatchDetails` is dropped when undefined. */
  function VerificationResultJson(r: VerificationResult): (v: JValue)
    ensures v.JObject?
    ensures Keys(v.fields) == ["isValid", "dataHash", "onChainHash", "verified", "verificationDate"]
      + (if r.mismatchDetails.Some? then ["mismatchDetails"] else [])
  {
    JObject([
      ("isValid", JBool(r.isValid)),
      ("dataHash", JString(r.dataHash)),
      ("onChainHash", JString(r.onChainHash)),
      ("verified", JBool(r.verified)),
      ("verificationDate", JString(r.verificationDate))]
      + OptionalField("mismatchDetails", if r.mismatchDetails.Some? then Some(JStrings(r.mismatchDetails.value)) else None))
  }

  /** The log row of one check. */
  function LogRow(ctx: VerifyContext, batchId: string, record: BlockchainRecord, r: VerificationResult)
    : (l: VerificationLog)
    ensures l.batchId == batchId && l.transactionHash == record.transactionHash
    ensures l.result == (if r.verified then "PASSED" else "FAILED")
    ensures l.verifierAddress == "system" && l.verifierRole == "AUTOMATED" && l.verificationType == "AUTHENTICITY_CHECK"
  {
    VerificationLog(ctx.logId, batchId, record.transactionHash, "system", "AUTOMATED", "AUTHENTICITY_CHECK",
      if r.verified then "PASSED" else "FAILED", ctx.p.stringify(VerificationResultJson(r)), ctx.clock.iso)
  }

  /** The answer of a completed check. */
  function CheckedResponse(env: Env, record: BlockchainRecord, r: VerificationResult): (resp: VerifyResponse)
    ensures resp.Checked? && resp.verified == r.verified && resp.isValid == r.isValid
    ensures resp.message == VerifiedMessage <==> r.verified
    ensures !r.verified ==> resp.message == ModifiedMessage
    ensures resp.hashes.matches <==> resp.hashes.current == resp.hashes.onChain
    ensures resp.hashes.current == r.dataHash && resp.hashes.onChain == r.onChainHash
    ensures resp.blockchain.explorerUrl == GetExplorerUrl(env, record.transactionHash)
  {
    Checked(r.verified, r.isValid, if r.verified then VerifiedMessage else ModifiedMessage,
      ChainView(record.transactionHash, record.blockNumber, record.blockchainNetwork, record.syncedAt,
        GetExplorerUrl(env, record.transactionHash)),
      HashComparison(r.dataHash, r.onChainHash, r.dataHash == r.onChainHash),
      r.verificationDate, r.mismatchDetails)
  }

  /**
   * The snapshot the check rebuilds at its own clock: stamped with the sync
   * time when the row has one, and with no stages or no verdicts when those
   * reads fail.
   */
  function VerifySnapshot(t: Tables, batchId: string, ctx: VerifyContext): (d: BatchData)
    requires batchId in t.batches
    ensures d.timestamp == OrElse(t.batches[batchId].blockchainSyncedAt, ctx.clock.iso)
    ensures !ctx.faults.stagesReadFails && !ctx.faults.verificationsReadFails ==>
      d == TablesSnapshot(ctx.p, t, batchId, ctx.clock, d.timestamp)
    ensures ctx.faults.stagesReadFails ==> d.stages == []
  {
    ReadSnapshot(ctx.p, t, batchId, ctx.faults.stagesReadFails, ctx.faults.verificationsReadFails, ctx.clock,
      OrElse(t.batches[batchId].blockchainSyncedAt, ctx.clock.iso))
  }

  /** The verdict on the rebuilt snapshot: verified exactly when both rebuilt hashes equal the record's. */
  function CheckResult(t: Tables, batchId: string, record: BlockchainRecord, ctx: VerifyContext): (r: VerificationResult)
    requires batchId in t.batches
    ensures var d := VerifySnapshot(t, batchId, ctx);
      r.verified <==> HashBatchData(ctx.p, d) == record.dataHash && StagesMerkleRoot(ctx.p, d.stages) == record.merkleRoot
    ensures r.dataHash == HashBatchData(ctx.p, VerifySnapshot(t, batchId, ctx)) && r.onChainHash == record.dataHash
    ensures r.verificationDate == ctx.clock.iso
  {
    var d := VerifySnapshot(t, batchId, ctx);
    Verification(HashBatchData(ctx.p, d), StagesMerkleRoot(ctx.p, d.stages),
      RecordHashes(record.dataHash, record.merkleRoot, record.transactionHash), ctx.clock)
  }

  /** The tables after a completed check: the log row is appended unless its insert fails. */
  function LoggedTables(t: Tables, log: VerificationLog, ctx: VerifyContext): (u: Tables)
    ensures ctx.faults.logFails ==> u == t
    ensures !ctx.faults.logFails ==> u == t.(logs := t.logs + [log])
    ensures u.(logs := t.logs) == t && |t.logs| <= |u.logs| <= |t.logs| + 1 && u.logs[..|t.logs|] == t.logs
  {
    if ctx.faults.logFails then t else t.(logs := t.logs + [log])
  }

  /**
   * The specification of the route. Only a check of a found, synced batch
   * with a found record writes, and then at most one log row.
   */
  function Verify(t: Tables, batchId: Option<string>, ctx: VerifyContext): (o: VerifyOutcome)
    ensures !Truthy(batchId) <==> o.response == VerifyMissingBatchId
    ensures o.response == VerifyBatchNotFound
      <==> Truthy(batchId) && (batchId.value !in t.batches || ctx.faults.batchReadFails)
    ensures o.response.NotSynced? <==> (Truthy(batchId) && batchId.value in t.batches && !ctx.faults.batchReadFails
      && t.batches[batchId.value].blockchainStatus != Some("SYNCED"))
    ensures o.response.NotSynced? ==>
      o.response.blockchainStatus == OrElse(t.batches[batchId.value].blockchainStatus, "NOT_SYNCED")
    ensures (Truthy(batchId) && batchId.value in t.batches && !ctx.faults.batchReadFails
      && t.batches[batchId.value].blockchainStatus == Some("SYNCED")) ==>
      ((o.response == RecordNotFound <==> (ctx.faults.recordReadFails
          || TransactionRecord(t.records, batchId.value, t.batches[batchId.value].blockchainTxHash).None?))
        && (o.response.Checked? <==> o.response != RecordNotFound))
    ensures o.response.Checked? ==> (Truthy(batchId) && batchId.value in t.batches && !ctx.faults.batchReadFails
      && !ctx.faults.recordReadFails && t.batches[batchId.value].blockchainStatus == Some("SYNCED")
      && TransactionRecord(t.records, batchId.value, t.batches[batchId.value].blockchainTxHash).Some?
      && o.response == CheckedResponse(ctx.env,
        TransactionRecord(t.records, batchId.value, t.batches[batchId.value].blockchainTxHash).value,
        CheckResult(t, batchId.value,
          TransactionRecord(t.records, batchId.value, t.batches[batchId.value].blockchainTxHash).value, ctx)))
    ensures !o.response.Checked? ==> o.tables == t
    ensures o.response.Checked? ==> (o.tables.(logs := t.logs) == t
      && |t.logs| <= |o.tables.logs| <= |t.logs| + 1 && o.tables.logs[..|t.logs|] == t.logs)
  {
    if !Truthy(batchId) then VerifyOutcome(VerifyMissingBatchId, t)
    else if batchId.value !in t.batches || ctx.faults.batchReadFails then VerifyOutcome(VerifyBatchNotFound, t)
    else
      var id := batchId.value;
      var batch := t.batches[id];
      if batch.blockchainStatus != Some("SYNCED") then
        VerifyOutcome(NotSynced(OrElse(batch.blockchainStatus, "NOT_SYNCED")), t)
      else
        var record := if ctx.faults.recordReadFails then None else TransactionRecord(t.records, id, batch.blockchainTxHash);
        if record.None? then VerifyOutcome(RecordNotFound, t)
        else
          var r := CheckResult(t, id, record.value, ctx);
          VerifyOutcome(CheckedResponse(ctx.env, record.value, r), LoggedTables(t, LogRow(ctx, id, record.value, r), ctx))
  }

  method VerifyGet(db: Database, batchId: Option<string>, ctx: VerifyContext) returns (resp: VerifyResponse)
    modifies db
    ensures resp == Verify(old(db.Snapshot()), batchId, ctx).response
    ensures db.Snapshot() == Verify(old(db.Snapshot()), batchId, ctx).tables
  {
    if !Truthy(batchId) {
      return VerifyMissingBatchId;
    }
    var id := batchId.value;
    if id !in db.batches || ctx.faults.batchReadFails {
      return VerifyBatchNotFound;
    }
    var batch := db.batches[id];
    if batch.blockchainStatus != Some("SYNCED") {
      return NotSynced(OrElse(batch.blockchainStatus, "NOT_SYNCED"));
    }
    var record := if ctx.faults.recordReadFails then None else TransactionRecord(db.records, id, batch.blockchainTxHash);
    if record.None? {
      return RecordNotFound;
    }
    resp := CheckAndLog(db, id, record.value, ctx);
  }

  /** Steps 4 to 6 of the route, for a synced batch whose record was found: rebuild, compare, log. */
  method CheckAndLog(db: Database, id: string, record: BlockchainRecord, ctx: VerifyContext) returns (resp: VerifyResponse)
    requires id in db.batches
    modifies db
    ensures var r := CheckResult(old(db.Snapshot()), id, record, ctx);
      resp == CheckedResponse(ctx.env, record, r)
      && db.Snapshot() == (if ctx.faults.logFails then old(db.Snapshot())
        else old(db.Snapshot()).(logs := old(db.logs) + [LogRow(ctx, id, record, r)]))
  {
    var batch := db.batches[id];
    var stages := if ctx.faults.stagesReadFails then [] else StagesOf(db.stages, id);
    var verifications := if ctx.faults.verificationsReadFails then [] else Filter(VerificationOfBatch(id), db.verifications);
    var currentBatchData := BuildBatchData(ctx.p, batch, stages, verifications, ctx.clock,
      OrElse(batch.blockchainSyncedAt, ctx.clock.iso));
    var result := VerifyOnBlockchain(ctx.p, currentBatchData,
      RecordHashes(record.dataHash, record.merkleRoot, record.transactionHash), ctx.clock);
    if !ctx.faults.logFails {
      db.logs := db.logs + [LogRow(ctx, id, record, result)];
    }
    resp := CheckedResponse(ctx.env, record, result);
  }

  // ---------------------------------------------------------------
  // Properties of the check
  // ---------------------------------------------------------------

  /** A batch that is not synced is answered from its row: nothing is hashed and no log is written. */
  lemma NotSyncedWritesNothing(t: Tables, batchId: string, ctx: VerifyContext)
    requires batchId != "" && batchId in t.batches && t.batches[batchId].blockchainStatus != Some("SYNCED")
    ensures Verify(t, Some(batchId), ctx).tables == t
    ensures Verify(t, Some(batchId), ctx).response.NotSynced? <==> !ctx.faults.batchReadFails
    ensures !ctx.faults.batchReadFails && t.batches[batchId].blockchainStatus.None? ==>
      Verify(t, Some(batchId), ctx).response.blockchainStatus == "NOT_SYNCED"
  {
  }

  /**
   * A completed check appends exactly one log row (unless the insert fails),
   * whose result is PASSED exactly when the batch verified, and whose verdict
   * is the comparison of the rebuilt hashes with the stored ones.
   */
  lemma CheckLogsOnce(t: Tables, batchId: string, ctx: VerifyContext)
    requires batchId in t.batches
    requires Verify(t, Some(batchId), ctx).response.Checked?
    ensures var o := Verify(t, Some(batchId), ctx);
      var record := TransactionRecord(t.records, batchId, t.batches[batchId].blockchainTxHash).value;
      var d := VerifySnapshot(t, batchId, ctx);
      (o.response.verified <==> HashBatchData(ctx.p, d) == record.dataHash && StagesMerkleRoot(ctx.p, d.stages) == record.merkleRoot)
      && (ctx.faults.logFails ==> o.tables == t)
      && (!ctx.faults.logFails ==> (o.tables == t.(logs := t.logs + [o.tables.logs[|t.logs|]])
        && o.tables.logs[|t.logs|].batchId == batchId
        && (o.tables.logs[|t.logs|].result == "PASSED" <==> o.response.verified)))
  {
  }

  /** Only a check that ran writes; every other answer leaves the tables alone. */
  lemma VerifyWritesOnlyWhenChecked(t: Tables, batchId: Option<string>, ctx: VerifyContext)
    ensures !Verify(t, batchId, ctx).response.Checked? ==> Verify(t, batchId, ctx).tables == t
  {
  }

  // ---------------------------------------------------------------
  // A sync followed by a check
  // ---------------------------------------------------------------


  /** The writes of a sync leave every field the snapshot reads as it was. */
  lemma SyncWritesKeepSnapshot(t: Tables, batchId: string, tx: Transaction, ctx: SyncContext, p: Primitives,
    stagesLost: bool, verificationsLost: bool, clock: Clock, timestamp: string)
    requires batchId in t.batches
    ensures var u := SyncWrites(t, batchId, tx, ctx);
      batchId in u.batches && ReadSnapshot(p, u, batchId, stagesLost, verificationsLost, clock, timestamp)
        == ReadSnapshot(p, t, batchId, stagesLost, verificationsLost, clock, timestamp)
  {
    var u := SyncWrites(t, batchId, tx, ctx);
    var a := u.batches[batchId];
    var b := t.batches[batchId];
    assert a.id == b.id && a.batchCode == b.batchCode && a.farmerId == b.farmerId && a.farmerName == b.farmerName;
    assert a.cropType == b.cropType && a.quantity == b.quantity && a.location == b.location && a.harvestDate == b.harvestDate;
  }

  /** A record appended for a transaction the batch had no record of is the one a check finds. */
  lemma NewTransactionRecord(records: seq<BlockchainRecord>, batchId: string, row: BlockchainRecord)
    requires row.batchId == batchId
    requires forall i :: 0 <= i < |records| && records[i].batchId == batchId ==> records[i].transactionHash != row.transactionHash
    ensures TransactionRecord(records + [row], batchId, Some(row.transactionHash)) == Some(row)
  {
    var pick := RecordOfTransaction(batchId, row.transactionHash);
    FilterConcat(pick, records, [row]);
    assert Filter(pick, [row]) == [row];
    assert Count(pick, records) == 0;
  }

  /**
   * Once a sync has written both the record and the row of a receipt, a
   * check finds that record and rebuilds the batch at its own clock, stamped
   * with the receipt's time, which is the reading after the ledger call.
   */
  lemma SyncWritesAreFound(t: Tables, batchId: string, tx: Transaction, ctx: SyncContext, vctx: VerifyContext)
    requires batchId in t.batches && !ctx.faults.recordInsertFails && !ctx.faults.batchUpdateFails
    requires tx == SelectBackend(ctx, SyncSnapshot(t, batchId, ctx),
      PreviousHash(t.records, batchId, ctx.faults.previousRecordReadFails))
    requires forall i :: 0 <= i < |t.records| && t.records[i].batchId == batchId ==>
      t.records[i].transactionHash != tx.transactionHash
    ensures var u := SyncWrites(t, batchId, tx, ctx);
      batchId in u.batches && u.batches[batchId].blockchainStatus == Some("SYNCED")
      && TransactionRecord(u.records, batchId, u.batches[batchId].blockchainTxHash) == Some(RecordRow(ctx.recordId, batchId, tx))
      && tx.timestamp == ctx.receiptClock.iso
      && VerifySnapshot(u, batchId, vctx) == ReadSnapshot(vctx.p, t, batchId, vctx.faults.stagesReadFails,
        vctx.faults.verificationsReadFails, vctx.clock, OrElse(Some(ctx.receiptClock.iso), vctx.clock.iso))
  {
    NewTransactionRecord(t.records, batchId, RecordRow(ctx.recordId, batchId, tx));
    SyncWritesKeepSnapshot(t, batchId, tx, ctx, vctx.p, vctx.faults.stagesReadFails,
      vctx.faults.verificationsReadFails, vctx.clock, OrElse(Some(ctx.receiptClock.iso), vctx.clock.iso));
  }

  /**
   * A check right after a sync that wrote both its record and its row finds
   * the record, and passes exactly when the batch rebuilt at the check's
   * clock and stamped with the receipt's time hashes as the snapshot the sync
   * anchored.
   */
  lemma SyncThenVerify(t: Tables, batchId: string, ctx: SyncContext, vctx: VerifyContext)
    requires batchId != "" && batchId in t.batches
    requires Sync(t, Some(batchId), ctx).response.Synced?
    requires !ctx.faults.recordInsertFails && !ctx.faults.batchUpdateFails
    requires !vctx.faults.batchReadFails && !vctx.faults.recordReadFails
    requires forall i :: 0 <= i < |t.records| && t.records[i].batchId == batchId ==>
      t.records[i].transactionHash != Sync(t, Some(batchId), ctx).response.transaction.transactionHash
    ensures var v := Verify(Sync(t, Some(batchId), ctx).tables, Some(batchId), vctx).response;
      var d := SyncSnapshot(t, batchId, ctx);
      var e := ReadSnapshot(vctx.p, t, batchId, vctx.faults.stagesReadFails, vctx.faults.verificationsReadFails,
        vctx.clock, OrElse(Some(ctx.receiptClock.iso), vctx.clock.iso));
      CheckedWith(v, HashBatchData(vctx.p, e) == HashBatchData(ctx.p, d)
        && StagesMerkleRoot(vctx.p, e.stages) == StagesMerkleRoot(ctx.p, d.stages))
  {
    var o := Sync(t, Some(batchId), ctx);
    var tx := o.response.transaction;
    SyncWritesOnlyWhenSynced(t, Some(batchId), ctx);
    SyncedTransaction(t, batchId, ctx);
    var u := SyncWrites(t, batchId, tx, ctx);
    var row := RecordRow(ctx.recordId, batchId, tx);
    SyncWritesAreFound(t, batchId, tx, ctx, vctx);
    assert o.tables == u;
    var r := CheckResult(u, batchId, row, vctx);
    assert Verify(u, Some(batchId), vctx).response == CheckedResponse(vctx.env, row, r);
  }

  /**
   * As written, a check right after a sync reports the batch modified: the
   * sync hashed a snapshot stamped with its own reading of the clock, while
   * the row keeps the receipt's later time, which the check stamps its
   * rebuilt snapshot with.
   */
  lemma SyncThenVerifyFailsAsWritten(t: Tables, batchId: string, ctx: SyncContext, vctx: VerifyContext)
    requires batchId != "" && batchId in t.batches
    requires Sync(t, Some(batchId), ctx).response.Synced?
    requires !ctx.faults.recordInsertFails && !ctx.faults.batchUpdateFails
    requires !vctx.faults.batchReadFails && !vctx.faults.recordReadFails
    requires forall i :: 0 <= i < |t.records| && t.records[i].batchId == batchId ==>
      t.records[i].transactionHash != Sync(t, Some(batchId), ctx).response.transaction.transactionHash
    requires vctx.p == ctx.p && CollisionFree(ctx.p)
    requires ctx.receiptClock.iso != "" && ctx.receiptClock.iso != ctx.snapshotClock.iso
    ensures var v := Verify(Sync(t, Some(batchId), ctx).tables, Some(batchId), vctx).response;
      CheckedWith(v, false)
  {
    SyncThenVerify(t, batchId, ctx, vctx);
    ReceiptStampSeparates(t, batchId, ctx, vctx);
  }

  /**
   * As written, a check of an unchanged batch after a sync reports it
   * modified whenever the check's `Date.now()` differs from the sync's, even
   * if the two timestamps coincide: each request salts every image hash with
   * its own reading, and a synced batch has at least one image.
   */
  lemma ImageSaltsFailCheck(t: Tables, batchId: string, ctx: SyncContext, vctx: VerifyContext)
    requires batchId != "" && batchId in t.batches
    requires Sync(t, Some(batchId), ctx).response.Synced?
    requires !ctx.faults.recordInsertFails && !ctx.faults.batchUpdateFails
    requires !vctx.faults.batchReadFails && !vctx.faults.recordReadFails
    requires forall i :: 0 <= i < |t.records| && t.records[i].batchId == batchId ==>
      t.records[i].transactionHash != Sync(t, Some(batchId), ctx).response.transaction.transactionHash
    requires vctx.p == ctx.p && CollisionFree(ctx.p)
    requires vctx.clock.ms != ctx.snapshotClock.ms
    ensures var v := Verify(Sync(t, Some(batchId), ctx).tables, Some(batchId), vctx).response;
      CheckedWith(v, false)
  {
    SyncThenVerify(t, batchId, ctx, vctx);
    SyncedTransaction(t, batchId, ctx);
    ImageSaltsSeparate(t, batchId, ctx, vctx);
  }

  /** A ready snapshot and one rebuilt at another millisecond hash apart through their image salts. */
  lemma ImageSaltsSeparate(t: Tables, batchId: string, ctx: SyncContext, vctx: VerifyContext)
    requires batchId in t.batches
    requires ReadinessReport(SyncSnapshot(t, batchId, ctx)).ready
    requires vctx.p == ctx.p && CollisionFree(ctx.p)
    requires vctx.clock.ms != ctx.snapshotClock.ms
    ensures HashBatchData(vctx.p, ReadSnapshot(vctx.p, t, batchId, vctx.faults.stagesReadFails,
      vctx.faults.verificationsReadFails, vctx.clock, OrElse(Some(ctx.receiptClock.iso), vctx.clock.iso)))
      != HashBatchData(ctx.p, SyncSnapshot(t, batchId, ctx))
  {
    var d := SyncSnapshot(t, batchId, ctx);
    var e := ReadSnapshot(vctx.p, t, batchId, vctx.faults.stagesReadFails, vctx.faults.verificationsReadFails,
      vctx.clock, OrElse(Some(ctx.receiptClock.iso), vctx.clock.iso));
    ReadSnapshotSalted(ctx.p, t, batchId, false, ctx.faults.verificationsReadFails, ctx.snapshotClock,
      ctx.snapshotClock.iso);
    ReadSnapshotSalted(vctx.p, t, batchId, vctx.faults.stagesReadFails, vctx.faults.verificationsReadFails,
      vctx.clock, OrElse(Some(ctx.receiptClock.iso), vctx.clock.iso));
    assert |d.stages[0].imageUrls| > 0;
    SaltSeparatesHashes(ctx.p, d, e, ctx.snapshotClock.ms, vctx.clock.ms, 0);
  }

  /** The snapshot stamped with the receipt's time hashes apart from the one the sync anchored. */
  lemma ReceiptStampSeparates(t: Tables, batchId: string, ctx: SyncContext, vctx: VerifyContext)
    requires batchId in t.batches
    requires vctx.p == ctx.p && CollisionFree(ctx.p)
    requires ctx.receiptClock.iso != "" && ctx.receiptClock.iso != ctx.snapshotClock.iso
    ensures HashBatchData(vctx.p, ReadSnapshot(vctx.p, t, batchId, vctx.faults.stagesReadFails,
      vctx.faults.verificationsReadFails, vctx.clock, OrElse(Some(ctx.receiptClock.iso), vctx.clock.iso)))
      != HashBatchData(ctx.p, SyncSnapshot(t, batchId, ctx))
  {
    var d := SyncSnapshot(t, batchId, ctx);
    var e := ReadSnapshot(vctx.p, t, batchId, vctx.faults.stagesReadFails, vctx.faults.verificationsReadFails,
      vctx.clock, OrElse(Some(ctx.receiptClock.iso), vctx.clock.iso));
    assert d.timestamp == ctx.snapshotClock.iso && e.timestamp == ctx.receiptClock.iso;
    TimestampSeparatesHashes(ctx.p, e, d);
  }

  /**
   * The evidently intended check: the batch is rebuilt at `anchor`, the
   * reading the sync took its snapshot at and anchors with its receipt, so
   * the timestamp, the stage fallback dates and the image hashes are the
   * ones that were hashed; the check's own clock only dates the verdict.
   */
  function IntendedCheckResult(t: Tables, batchId: string, record: BlockchainRecord, anchor: Clock, ctx: VerifyContext)
    : (r: VerificationResult)
    requires batchId in t.batches
    ensures var d := ReadSnapshot(ctx.p, t, batchId, ctx.faults.stagesReadFails, ctx.faults.verificationsReadFails,
      anchor, anchor.iso);
      r.verified <==> HashBatchData(ctx.p, d) == record.dataHash && StagesMerkleRoot(ctx.p, d.stages) == record.merkleRoot
    ensures r.verificationDate == ctx.clock.iso
  {
    var d := ReadSnapshot(ctx.p, t, batchId, ctx.faults.stagesReadFails, ctx.faults.verificationsReadFails,
      anchor, anchor.iso);
    Verification(HashBatchData(ctx.p, d), StagesMerkleRoot(ctx.p, d.stages),
      RecordHashes(record.dataHash, record.merkleRoot, record.transactionHash), ctx.clock)
  }

  /**
   * Under the intended check, a check of unchanged data right after a sync
   * that wrote its record and its row passes, whatever the clocks of the
   * ledger call and of the check.
   */
  lemma IntendedSyncThenVerify(t: Tables, batchId: string, ctx: SyncContext, vctx: VerifyContext)
    requires batchId != "" && batchId in t.batches
    requires Sync(t, Some(batchId), ctx).response.Synced?
    requires !ctx.faults.recordInsertFails && !ctx.faults.batchUpdateFails
    requires forall i :: 0 <= i < |t.records| && t.records[i].batchId == batchId ==>
      t.records[i].transactionHash != Sync(t, Some(batchId), ctx).response.transaction.transactionHash
    requires vctx.p == ctx.p && !vctx.faults.stagesReadFails
    requires vctx.faults.verificationsReadFails == ctx.faults.verificationsReadFails
    ensures var o := Sync(t, Some(batchId), ctx);
      var u := o.tables;
      var row := RecordRow(ctx.recordId, batchId, o.response.transaction);
      batchId in u.batches
      && TransactionRecord(u.records, batchId, u.batches[batchId].blockchainTxHash) == Some(row)
      && IntendedCheckResult(u, batchId, row, ctx.snapshotClock, vctx).verified
  {
    var o := Sync(t, Some(batchId), ctx);
    var tx := o.response.transaction;
    SyncWritesOnlyWhenSynced(t, Some(batchId), ctx);
    SyncedTransaction(t, batchId, ctx);
    SyncWritesAreFound(t, batchId, tx, ctx, vctx);
    SyncWritesKeepSnapshot(t, batchId, tx, ctx, ctx.p, false, ctx.faults.verificationsReadFails,
      ctx.snapshotClock, ctx.snapshotClock.iso);
    assert o.tables == SyncWrites(t, batchId, tx, ctx);
  }
}
