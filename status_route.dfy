/**
 * `GET /api/blockchain/status`: the sync state of a batch, its records newest
 * first, its ten newest verification logs, and, while it is not synced, the
 * readiness report of its current snapshot. The route writes nothing.
 */
module StatusRoute {
  import opened Wrappers
  import opened Text
  import opened Seqs
  import opened Json
  import opened Config
  import opened BlockchainService
  import opened Persistence
  import opened Snapshot
  import opened SyncRoute

  /**
   * A failed read of the batch is answered 404; a failed read of any other
   * table is answered as if the table had no rows of the batch.
   */
  datatype StatusFaults = StatusFaults(batchReadFails: bool, recordsReadFails: bool, logsReadFails: bool,
    stagesReadFails: bool, verificationsReadFails: bool)

  /** `clock` is the one reading of the request: stage fallback dates, image hashes and the snapshot's timestamp. */
  datatype StatusContext = StatusContext(p: Primitives, env: Env, clock: Clock, faults: StatusFaults)

  datatype BatchView = BatchView(id: string, code: string, status: string)

  datatype ChainStatus = ChainStatus(status: string, synced: bool, hash: Option<string>, txHash: Option<string>,
    network: Option<string>, syncedAt: Option<string>, verified: bool, explorerUrl: Option<string>)

  datatype RecordView = RecordView(id: string, transactionHash: string, blockNumber: nat, network: string,
    dataHash: string, merkleRoot: string, recordType: string, status: string, gasUsed: Option<string>,
    syncedAt: string, explorerUrl: string)

  datatype LogView = LogView(id: string, kind: string, result: string, verifierRole: string, createdAt: string)

  datatype Stats = Stats(totalRecords: nat, totalVerifications: nat, lastVerified: Option<string>)

  datatype StatusResponse =
    | StatusMissingBatchId
    | StatusBatchNotFound
    | StatusReport(batch: BatchView, blockchain: ChainStatus, readiness: Option<Readiness>, records: seq<RecordView>,
        verificationHistory: seq<LogView>, stats: Stats)

  function StatusCode(r: StatusResponse): nat {
    match r
    case StatusMissingBatchId => 400
    case StatusBatchNotFound => 404
    case StatusReport(_, _, _, _, _, _) => 200
  }

  /** How many verification logs the route returns. */
  const HistoryLimit := 10

  function ToRecordView(env: Env, r: BlockchainRecord): (v: RecordView)
    ensures v.id == r.id && v.transactionHash == r.transactionHash && v.dataHash == r.dataHash
    ensures v.merkleRoot == r.merkleRoot && v.blockNumber == r.blockNumber && v.network == r.blockchainNetwork
    ensures v.status == r.status && v.syncedAt == r.syncedAt && v.recordType == r.recordType && v.gasUsed == r.gasUsed
    ensures v.explorerUrl == GetExplorerUrl(env, r.transactionHash)
  {
    RecordView(r.id, r.transactionHash, r.blockNumber, r.blockchainNetwork, r.dataHash, r.merkleRoot, r.recordType,
      r.status, r.gasUsed, r.syncedAt, GetExplorerUrl(env, r.transactionHash))
  }

  function RecordViewer(env: Env): BlockchainRecord -> RecordView {
    (r: BlockchainRecord) => ToRecordView(env, r)
  }

  function ToLogView(l: VerificationLog): LogView {
    LogView(l.id, l.verificationType, l.result, l.verifierRole, l.createdAt)
  }

  /** The blockchain part of the answer: read from the batch row alone. */
  function ChainStatusOf(env: Env, batch: BatchRow): (c: ChainStatus)
    ensures c.synced <==> batch.blockchainStatus == Some("SYNCED")
    ensures Truthy(batch.blockchainStatus) ==> c.status == batch.blockchainStatus.value
    ensures !Truthy(batch.blockchainStatus) ==> c.status == "NOT_SYNCED"
    ensures c.verified <==> batch.blockchainVerified == Some(true)
    ensures c.txHash == batch.blockchainTxHash && c.hash == batch.blockchainHash
    ensures c.explorerUrl.None? <==> !Truthy(batch.blockchainTxHash)
    ensures c.explorerUrl.Some? ==> c.explorerUrl.value == GetExplorerUrl(env, batch.blockchainTxHash.value)
  {
    ChainStatus(OrElse(batch.blockchainStatus, "NOT_SYNCED"), batch.blockchainStatus == Some("SYNCED"),
      batch.blockchainHash, batch.blockchainTxHash, batch.blockchainNetwork, batch.blockchainSyncedAt,
      batch.blockchainVerified.GetOr(false),
      if Truthy(batch.blockchainTxHash) then Some(GetExplorerUrl(env, batch.blockchainTxHash.value)) else None)
  }

  /** The records of the batch as read: newest first. */
  function RecordsRead(t: Tables, batchId: string, faults: StatusFaults): seq<BlockchainRecord> {
    if faults.recordsReadFails then [] else Reverse(RecordsOf(t.records, batchId))
  }

  /** The logs of the batch as read: the ten newest, newest first. */
  function LogsRead(t: Tables, batchId: string, faults: StatusFaults): (r: seq<VerificationLog>)
    ensures |r| <= HistoryLimit
    ensures faults.logsReadFails ==> r == []
    ensures !faults.logsReadFails ==> (var all := LogsOf(t.logs, batchId);
      |r| == (if |all| <= HistoryLimit then |all| else HistoryLimit)
      && forall i :: 0 <= i < |r| ==> r[i] == all[|all| - 1 - i])
  {
    if faults.logsReadFails then [] else Take(Reverse(LogsOf(t.logs, batchId)), HistoryLimit)
  }

  /** The snapshot the readiness report is computed on, from the stage and verification rows as read. */
  function StatusSnapshot(t: Tables, batchId: string, ctx: StatusContext): (d: BatchData)
    requires batchId in t.batches
    ensures !ctx.faults.stagesReadFails && !ctx.faults.verificationsReadFails ==>
      d == TablesSnapshot(ctx.p, t, batchId, ctx.clock, ctx.clock.iso)
    ensures ctx.faults.stagesReadFails ==> d.stages == []
  {
    ReadSnapshot(ctx.p, t, batchId, ctx.faults.stagesReadFails, ctx.faults.verificationsReadFails, ctx.clock, ctx.clock.iso)
  }

  /** `verificationLogs?.[0]?.createdAt || null`. */
  function LastVerified(logs: seq<VerificationLog>): (r: Option<string>)
    ensures r.Some? <==> |logs| > 0 && logs[0].createdAt != ""
    ensures r.Some? ==> r.value == logs[0].createdAt
  {
    if |logs| > 0 && logs[0].createdAt != "" then Some(logs[0].createdAt) else None
  }

  /** The specification of the route. */
  function Status(t: Tables, batchId: Option<string>, ctx: StatusContext): (r: StatusResponse)
    ensures r.StatusMissingBatchId? <==> !Truthy(batchId)
    ensures r.StatusBatchNotFound? <==> Truthy(batchId) && (batchId.value !in t.batches || ctx.faults.batchReadFails)
    ensures r.StatusReport? ==> batchId.value in t.batches && !ctx.faults.batchReadFails && (var batch := t.batches[batchId.value];
      r.batch == BatchView(batch.id, batch.batchCode, batch.status)
      && r.blockchain == ChainStatusOf(ctx.env, batch)
      && (r.readiness.Some? <==> batch.blockchainStatus != Some("SYNCED"))
      && (r.readiness.Some? ==> r.readiness.value == ReadinessReport(StatusSnapshot(t, batchId.value, ctx))))
    ensures r.StatusReport? ==>
      r.stats.totalRecords == |r.records|
      && |r.records| == (if ctx.faults.recordsReadFails then 0 else |RecordsOf(t.records, batchId.value)|)
      && r.stats.totalVerifications == |r.verificationHistory| <= HistoryLimit
    ensures r.StatusReport? && !ctx.faults.recordsReadFails ==> (var recs := RecordsOf(t.records, batchId.value);
      forall i :: 0 <= i < |r.records| ==> r.records[i] == ToRecordView(ctx.env, recs[|recs| - 1 - i]))
  {
    if !Truthy(batchId) then StatusMissingBatchId
    else if batchId.value !in t.batches || ctx.faults.batchReadFails then StatusBatchNotFound
    else
      var id := batchId.value;
      var batch := t.batches[id];
      var records := RecordsRead(t, id, ctx.faults);
      var logs := LogsRead(t, id, ctx.faults);
      var readiness := if batch.blockchainStatus != Some("SYNCED") then Some(ReadinessReport(StatusSnapshot(t, id, ctx))) else None;
      StatusReport(BatchView(batch.id, batch.batchCode, batch.status), ChainStatusOf(ctx.env, batch), readiness,
        MapSeq(RecordViewer(ctx.env), records), MapSeq(ToLogView, logs), Stats(|records|, |logs|, LastVerified(logs)))
  }

  /** The route; it reads the tables and changes nothing. */
  method StatusGet(db: Database, batchId: Option<string>, ctx: StatusContext) returns (resp: StatusResponse)
    ensures resp == Status(db.Snapshot(), batchId, ctx)
  {
    if !Truthy(batchId) {
      return StatusMissingBatchId;
    }
    var id := batchId.value;
    if id !in db.batches || ctx.faults.batchReadFails {
      return StatusBatchNotFound;
    }
    var batch := db.batches[id];
    var records := RecordsRead(db.Snapshot(), id, ctx.faults);
    var logs := LogsRead(db.Snapshot(), id, ctx.faults);
    var readiness: Option<Readiness> := None;
    if batch.blockchainStatus != Some("SYNCED") {
      var check := IsReadyForBlockchain(StatusSnapshot(db.Snapshot(), id, ctx));
      readiness := Some(check);
    }
    resp := StatusReport(BatchView(batch.id, batch.batchCode, batch.status), ChainStatusOf(ctx.env, batch), readiness,
      MapSeq(RecordViewer(ctx.env), records), MapSeq(ToLogView, logs), Stats(|records|, |logs|, LastVerified(logs)));
  }

  // ---------------------------------------------------------------
  // Properties of the report
  // ---------------------------------------------------------------

  /**
   * Every record of the batch is listed once, newest first, each with its own
   * explorer link, and the count is that of the list returned.
   */
  lemma StatusRecordsNewestFirst(t: Tables, batchId: string, ctx: StatusContext)
    requires batchId != "" && batchId in t.batches && !ctx.faults.batchReadFails && !ctx.faults.recordsReadFails
    ensures var r := Status(t, Some(batchId), ctx);
      var recs := RecordsOf(t.records, batchId);
      r.StatusReport? && r.stats.totalRecords == |recs| == |r.records|
      && (forall i :: 0 <= i < |recs| ==> r.records[i] == ToRecordView(ctx.env, recs[|recs| - 1 - i]))
      && (|recs| > 0 ==> r.records[0] == ToRecordView(ctx.env, LatestRecord(t.records, batchId).value))
  {
    var recs := RecordsOf(t.records, batchId);
    var rr := RecordsRead(t, batchId, ctx.faults);
    assert rr == Reverse(recs);
    if |recs| > 0 {
      assert rr[0] == recs[|recs| - 1];
    }
  }

  /**
   * The history holds at most the ten newest logs, newest first; the count
   * is that of the list returned, and the last verification is the newest
   * log's time.
   */
  lemma StatusHistoryNewestFirst(t: Tables, batchId: string, ctx: StatusContext)
    requires !ctx.faults.batchReadFails
    requires batchId != "" && batchId in t.batches && !ctx.faults.logsReadFails
    ensures var r := Status(t, Some(batchId), ctx);
      var logs := LogsOf(t.logs, batchId);
      r.StatusReport? && r.stats.totalVerifications == |r.verificationHistory| <= HistoryLimit
      && (|logs| <= HistoryLimit ==> |r.verificationHistory| == |logs|)
      && (forall i :: 0 <= i < |r.verificationHistory| ==> r.verificationHistory[i] == ToLogView(logs[|logs| - 1 - i]))
      && (|logs| > 0 && logs[|logs| - 1].createdAt != "" ==> r.stats.lastVerified == Some(logs[|logs| - 1].createdAt))
      && (|logs| == 0 ==> r.stats.lastVerified.None?)
  {
    var lr := LogsRead(t, batchId, ctx.faults);
    var r := Status(t, Some(batchId), ctx);
    assert r.verificationHistory == MapSeq(ToLogView, lr) && r.stats.totalVerifications == |lr|;
    assert r.stats.lastVerified == LastVerified(lr);
    HistoryViewNewestFirst(t, batchId, ctx.faults);
  }

  /** The history as the route renders it, without the rest of the report. */
  lemma HistoryViewNewestFirst(t: Tables, batchId: string, faults: StatusFaults)
    requires !faults.logsReadFails
    ensures var lr := LogsRead(t, batchId, faults);
      var h := MapSeq(ToLogView, lr);
      var logs := LogsOf(t.logs, batchId);
      |h| == |lr| <= HistoryLimit
      && (|logs| <= HistoryLimit ==> |h| == |logs|)
      && (forall i :: 0 <= i < |h| ==> h[i] == ToLogView(logs[|logs| - 1 - i]))
      && (|logs| > 0 && logs[|logs| - 1].createdAt != "" ==> LastVerified(lr) == Some(logs[|logs| - 1].createdAt))
      && (|logs| == 0 ==> LastVerified(lr).None?)
  {
  }

  /** A synced batch gets no readiness report; any other gets the report of its snapshot. */
  lemma ReadinessOnlyWhenUnsynced(t: Tables, batchId: string, ctx: StatusContext)
    requires !ctx.faults.batchReadFails
    requires batchId != "" && batchId in t.batches
    ensures var r := Status(t, Some(batchId), ctx);
      r.StatusReport? && (r.readiness.None? <==> t.batches[batchId].blockchainStatus == Some("SYNCED"))
      && (r.readiness.Some? ==> r.readiness.value == ReadinessReport(StatusSnapshot(t, batchId, ctx)))
  {
  }

  /**
   * The report predicts the sync, at any clock: when both routes read the
   * stages and see the verifications alike, the sync refuses a batch the
   * report calls not ready, with the same reasons, and goes on to the ledger
   * for one it calls ready.
   */
  lemma StatusPredictsSync(t: Tables, batchId: string, ctx: StatusContext, sctx: SyncContext)
    requires batchId != "" && batchId in t.batches && t.batches[batchId].blockchainStatus != Some("SYNCED")
    requires !ctx.faults.batchReadFails && !ctx.faults.stagesReadFails && !sctx.faults.batchReadFails && !sctx.faults.stagesReadFails
    requires ctx.faults.verificationsReadFails == sctx.faults.verificationsReadFails
    ensures var rep := Status(t, Some(batchId), ctx).readiness.value;
      var s := Sync(t, Some(batchId), sctx).response;
      (!rep.ready ==> s == NotReady(rep.reasons)) && (rep.ready ==> s.Synced?)
  {
    ReadinessIgnoresClock(ctx.p, sctx.p, t, batchId, false, ctx.faults.verificationsReadFails, ctx.clock, ctx.clock.iso,
      sctx.snapshotClock, sctx.snapshotClock.iso);
  }

  /** The report of a batch whose row says SYNCED and whose newest record is `row`. */
  lemma StatusOfAnchoredBatch(u: Tables, batchId: string, ctx: StatusContext, older: seq<BlockchainRecord>,
    row: BlockchainRecord)
    requires !ctx.faults.batchReadFails
    requires batchId != "" && batchId in u.batches && u.batches[batchId].blockchainStatus == Some("SYNCED")
    requires u.records == older + [row] && row.batchId == batchId && !ctx.faults.recordsReadFails
    ensures var r := Status(u, Some(batchId), ctx);
      r.StatusReport? && r.blockchain == ChainStatusOf(ctx.env, u.batches[batchId]) && r.readiness.None?
      && r.stats.totalRecords == |RecordsOf(older, batchId)| + 1
      && r.records[0] == ToRecordView(ctx.env, row)
  {
    FilterConcat(RecordOfBatch(batchId), older, [row]);
    assert Filter(RecordOfBatch(batchId), [row]) == [row];
    assert RecordsOf(u.records, batchId) == RecordsOf(older, batchId) + [row];
    assert RecordsRead(u, batchId, ctx.faults)[0] == row;
  }

  /**
   * After a sync that updated the batch row, the report shows the batch as
   * synced to the sync's transaction, without a readiness report, and lists
   * the new record first.
   */
  lemma StatusAfterSync(t: Tables, batchId: string, sctx: SyncContext, ctx: StatusContext)
    requires !ctx.faults.batchReadFails
    requires batchId != "" && batchId in t.batches
    requires Sync(t, Some(batchId), sctx).response.Synced?
    requires !sctx.faults.batchUpdateFails && !sctx.faults.recordInsertFails && !ctx.faults.recordsReadFails
    ensures var o := Sync(t, Some(batchId), sctx);
      var tx := o.response.transaction;
      var r := Status(o.tables, Some(batchId), ctx);
      r.StatusReport? && r.blockchain.synced && r.blockchain.status == "SYNCED" && r.blockchain.verified
      && r.blockchain.txHash == Some(tx.transactionHash) && r.readiness.None?
      && r.stats.totalRecords == |RecordsOf(t.records, batchId)| + 1
      && r.records[0] == ToRecordView(ctx.env, RecordRow(sctx.recordId, batchId, tx))
  {
    var o := Sync(t, Some(batchId), sctx);
    var tx := o.response.transaction;
    SyncWritesOnlyWhenSynced(t, Some(batchId), sctx);
    var u := SyncWrites(t, batchId, tx, sctx);
    assert o.tables == u;
    var synced := SyncedRow(t.batches[batchId], tx);
    assert u.batches[batchId] == (if QrStored(sctx) then WithQrCode(synced, sctx.qrCode, VerifyUrl(sctx.env, batchId))
      else synced);
    assert u.batches[batchId].blockchainVerified == Some(true);
    StatusOfAnchoredBatch(u, batchId, ctx, t.records, RecordRow(sctx.recordId, batchId, tx));
  }
}
