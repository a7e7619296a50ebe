/**
 * `GET /api/certificate/generate?batchId=...`: the certificate of a batch
 * that an admin has approved and that is anchored on the ledger, read
 * from its row and its stages.
 */
module CertificateRoute {
  import opened Wrappers
  import opened Json
  import opened Text
  import opened Seqs
  import opened Config
  import opened Persistence
  import opened BlockchainService
  import opened PolygonService
  import opened SyncRoute

  const AmoyTxExplorer := "https://amoy.polygonscan.com/tx/"
  const TestnetTxExplorer := "https://testnet.polygonscan.com/tx/"

  datatype CertifiedBatch = CertifiedBatch(id: string, batchCode: string, name: string, cropType: string,
    category: string, area: Option<real>, quantity: int, farmerName: string, location: string, sowingDate: string,
    harvestDate: string, description: string)

  datatype CertifiedVerification = CertifiedVerification(verified: bool, verifiedAt: Option<string>,
    verifiedBy: Option<string>, verificationStatus: string)

  datatype CertifiedChain = CertifiedChain(network: Option<string>, transactionHash: string, dataHash: Option<string>,
    syncedAt: Option<string>, verified: Option<bool>, explorerUrl: string)

  datatype CertifiedStage = CertifiedStage(name: string, order: int, completedAt: Option<string>, imageCount: nat,
    verified: bool)

  datatype Certificate = Certificate(certificateId: string, issuedDate: string, batch: CertifiedBatch,
    verification: CertifiedVerification, blockchain: CertifiedChain, stages: seq<CertifiedStage>,
    qrCode: Option<string>, verifyUrl: Option<string>)

  /**
   * `clock` is `Date.now()` and `new Date()`; `batchReadFails` a failed read
   * of the batch, answered 404; `stagesReadFails` a failed read of the
   * stages, which is only logged.
   */
  datatype CertificateContext = CertificateContext(clock: Clock, batchReadFails: bool, stagesReadFails: bool)

  datatype CertificateResponse =
    | CertificateMissingBatchId
    | CertificateBatchNotFound
    | CertificateNotAvailable
    | CertificateIssued(certificate: Certificate)

  function CertificateStatusCode(r: CertificateResponse): nat {
    match r
    case CertificateMissingBatchId => 400
    case CertificateBatchNotFound => 404
    case CertificateNotAvailable => 400
    case CertificateIssued(_) => 200
  }

  /** The Polygonscan link: Amoy for a batch synced to `polygon-amoy`, the old testnet for any other network. */
  function CertificateExplorerUrl(network: Option<string>, transactionHash: string): (url: string)
    ensures network == Some(PolygonNetwork) ==> url == PolygonExplorer + "/tx/" + transactionHash
    ensures network != Some(PolygonNetwork) ==> url == TestnetTxExplorer + transactionHash
  {
    if network == Some("polygon-amoy") then AmoyTxExplorer + transactionHash else TestnetTxExplorer + transactionHash
  }

  /** A stage as the certificate lists it: every stage of an approved batch counts as verified. */
  function CertifiedStageOf(stage: StageRow): (c: CertifiedStage)
    ensures c.name == stage.name && c.order == stage.order && c.completedAt == stage.completedAt
    ensures c.imageCount == |stage.imageUrls.GetOr([])| && c.verified
  {
    CertifiedStage(stage.name, stage.order, stage.completedAt, |stage.imageUrls.GetOr([])|, true)
  }

  /** The stages the certificate lists: none when they cannot be read. */
  function CertifiedStages(t: Tables, batchId: string, ctx: CertificateContext): (r: seq<CertifiedStage>)
    ensures ctx.stagesReadFails ==> r == []
    ensures !ctx.stagesReadFails ==> (|r| == |StagesOf(t.stages, batchId)|
      && forall i :: 0 <= i < |r| ==> r[i] == CertifiedStageOf(StagesOf(t.stages, batchId)[i]))
  {
    if ctx.stagesReadFails then [] else MapSeq(CertifiedStageOf, StagesOf(t.stages, batchId))
  }

  function CertificateId(batchCode: string, ms: nat): string {
    "CERT-" + batchCode + "-" + NatToString(ms)
  }

  function CertificateOf(t: Tables, batchId: string, batch: BatchRow, ctx: CertificateContext): Certificate
    requires Truthy(batch.blockchainTxHash)
  {
    var txHash := batch.blockchainTxHash.value;
    Certificate(
      CertificateId(batch.batchCode, ctx.clock.ms),
      ctx.clock.iso,
      CertifiedBatch(batch.id, batch.batchCode, batch.name, batch.cropType, batch.category, batch.area,
        batch.quantity.GetOr(0), batch.farmerName, batch.location, batch.sowingDate, batch.harvestDate,
        batch.description),
      CertifiedVerification(batch.verified, batch.verifiedAt, batch.verifiedBy, batch.verificationStatus),
      CertifiedChain(batch.blockchainNetwork, txHash, batch.blockchainHash, batch.blockchainSyncedAt,
        batch.blockchainVerified, CertificateExplorerUrl(batch.blockchainNetwork, txHash)),
      CertifiedStages(t, batchId, ctx),
      batch.qrCode,
      batch.verifyUrl)
  }

  /**
   * The specification of the route. A certificate is issued exactly for a
   * named batch that exists, is approved and has a transaction hash, and it
   * carries that batch's code, verdict and ledger anchor.
   */
  function IssueCertificate(t: Tables, batchId: Option<string>, ctx: CertificateContext): (r: CertificateResponse)
    ensures r.CertificateMissingBatchId? <==> !Truthy(batchId)
    ensures r.CertificateBatchNotFound?
      <==> Truthy(batchId) && (batchId.value !in t.batches || ctx.batchReadFails)
    ensures r.CertificateIssued? <==> (Truthy(batchId) && batchId.value in t.batches && !ctx.batchReadFails
      && t.batches[batchId.value].verified && Truthy(t.batches[batchId.value].blockchainTxHash))
    ensures r.CertificateIssued? ==> (var b := t.batches[batchId.value];
      var c := r.certificate;
      c.certificateId == CertificateId(b.batchCode, ctx.clock.ms) && c.issuedDate == ctx.clock.iso
      && c.batch.id == b.id && c.batch.batchCode == b.batchCode && c.batch.quantity == b.quantity.GetOr(0)
      && c.batch.farmerName == b.farmerName && c.batch.location == b.location
      && c.verification.verified && c.verification.verifiedAt == b.verifiedAt
      && c.verification.verifiedBy == b.verifiedBy && c.verification.verificationStatus == b.verificationStatus
      && Some(c.blockchain.transactionHash) == b.blockchainTxHash
      && c.blockchain.network == b.blockchainNetwork && c.blockchain.dataHash == b.blockchainHash
      && c.blockchain.syncedAt == b.blockchainSyncedAt
      && c.blockchain.explorerUrl == CertificateExplorerUrl(b.blockchainNetwork, c.blockchain.transactionHash)
      && c.stages == CertifiedStages(t, batchId.value, ctx)
      && c.qrCode == b.qrCode && c.verifyUrl == b.verifyUrl)
  {
    if !Truthy(batchId) then CertificateMissingBatchId
    else if batchId.value !in t.batches || ctx.batchReadFails then CertificateBatchNotFound
    else
      var batch := t.batches[batchId.value];
      if !batch.verified || !Truthy(batch.blockchainTxHash) then CertificateNotAvailable
      else CertificateIssued(CertificateOf(t, batchId.value, batch, ctx))
  }

  method CertificateGet(db: Database, batchId: Option<string>, ctx: CertificateContext) returns (resp: CertificateResponse)
    ensures resp == IssueCertificate(db.Snapshot(), batchId, ctx)
  {
    if !Truthy(batchId) {
      return CertificateMissingBatchId;
    }
    if batchId.value !in db.batches || ctx.batchReadFails {
      return CertificateBatchNotFound;
    }
    var batch := db.batches[batchId.value];
    if !batch.verified || !Truthy(batch.blockchainTxHash) {
      return CertificateNotAvailable;
    }
    var stages := if ctx.stagesReadFails then [] else MapSeq(CertifiedStageOf, StagesOf(db.stages, batchId.value));
    var txHash := batch.blockchainTxHash.value;
    resp := CertificateIssued(Certificate(
      CertificateId(batch.batchCode, ctx.clock.ms),
      ctx.clock.iso,
      CertifiedBatch(batch.id, batch.batchCode, batch.name, batch.cropType, batch.category, batch.area,
        batch.quantity.GetOr(0), batch.farmerName, batch.location, batch.sowingDate, batch.harvestDate,
        batch.description),
      CertifiedVerification(batch.verified, batch.verifiedAt, batch.verifiedBy, batch.verificationStatus),
      CertifiedChain(batch.blockchainNetwork, txHash, batch.blockchainHash, batch.blockchainSyncedAt,
        batch.blockchainVerified, CertificateExplorerUrl(batch.blockchainNetwork, txHash)),
      stages,
      batch.qrCode,
      batch.verifyUrl));
  }

  // ---------------------------------------------------------------
  // Properties
  // ---------------------------------------------------------------

  /** Two certificates of one batch issued at different milliseconds have different ids. */
  lemma CertificateIdsDiffer(batchCode: string, ms: nat, ms': nat)
    requires ms != ms'
    ensures CertificateId(batchCode, ms) != CertificateId(batchCode, ms')
  {
    var prefix := "CERT-" + batchCode + "-";
    assert CertificateId(batchCode, ms)[|prefix|..] == NatToString(ms);
    assert CertificateId(batchCode, ms')[|prefix|..] == NatToString(ms');
  }

  /** A failed read of the stages still issues the certificate, with no stages listed and all else the same. */
  lemma StagesFailureOnlyEmptiesStages(t: Tables, batchId: Option<string>, ctx: CertificateContext)
    requires IssueCertificate(t, batchId, ctx).CertificateIssued?
    ensures var failed := IssueCertificate(t, batchId, ctx.(stagesReadFails := true));
      failed.CertificateIssued? && failed.certificate.stages == []
      && failed.certificate == IssueCertificate(t, batchId, ctx).certificate.(stages := [])
  {
  }

  /**
   * A batch the admin approved and the sync route then anchored gets a
   * certificate naming the sync's transaction, data hash and time, linking
   * to Amoy's Polygonscan when the transaction went to Polygon Amoy (unless
   * the ledger handed back an empty hash, which no certificate is issued for).
   * It carries the sync's QR code only when the QR code update went through,
   * and the row's earlier one otherwise. This holds when the certificate
   * route's read of the batch succeeds; a failed read is answered 404.
   */
  lemma SyncedApprovedBatchIsCertified(t: Tables, batchId: string, ctx: SyncContext, cctx: CertificateContext)
    requires batchId != "" && batchId in t.batches && t.batches[batchId].verified
    requires Sync(t, Some(batchId), ctx).response.Synced? && !ctx.faults.batchUpdateFails
    requires !cctx.batchReadFails
    ensures var o := Sync(t, Some(batchId), ctx);
      var tx := o.response.transaction;
      var r := IssueCertificate(o.tables, Some(batchId), cctx);
      (r.CertificateIssued? <==> tx.transactionHash != "")
      && (r.CertificateIssued? ==> (r.certificate.blockchain.transactionHash == tx.transactionHash
        && r.certificate.blockchain.dataHash == Some(tx.dataHash)
        && r.certificate.blockchain.syncedAt == Some(tx.timestamp)
        && r.certificate.blockchain.network == Some(tx.network)
        && (QrStored(ctx) ==> r.certificate.qrCode == Some(ctx.qrCode))
        && (!QrStored(ctx) ==> r.certificate.qrCode == t.batches[batchId].qrCode)
        && (tx.network == PolygonNetwork ==> (r.certificate.blockchain.explorerUrl
          == PolygonExplorer + "/tx/" + tx.transactionHash))))
  {
    var o := Sync(t, Some(batchId), ctx);
    var tx := o.response.transaction;
    SyncWritesOnlyWhenSynced(t, Some(batchId), ctx);
    assert o.tables == SyncWrites(t, batchId, tx, ctx);
    var synced := SyncedRow(t.batches[batchId], tx);
    var row := o.tables.batches[batchId];
    assert row == (if QrStored(ctx) then WithQrCode(synced, ctx.qrCode, VerifyUrl(ctx.env, batchId)) else synced);
    assert row.verified && row.blockchainNetwork == Some(tx.network);
  }

  /** A transaction mined on Polygon Amoy gets the same explorer link on the certificate as in its receipt. */
  lemma AmoyLinkMatchesReceipt(p: Primitives, d: BatchData, outcome: ContractOutcome, clock: Clock)
    requires RealSyncResult(p, d, outcome, clock).Success?
    ensures var tx := RealSyncResult(p, d, outcome, clock).value;
      tx.explorerUrl == Some(CertificateExplorerUrl(Some(tx.network), tx.transactionHash))
  {
  }
}
