/**
 * The batch snapshot that the sync, verify and status routes each rebuild
 * from the tables: one `StageData` per stage row, its status derived from the
 * image verifications of that stage.
 */
module Snapshot {
  import opened Wrappers
  import opened Text
  import opened Seqs
  import opened Json
  import opened Config
  import opened BlockchainService
  import opened Persistence

  /**
   * The stage status rule: FLAGGED when any verification of the stage is
   * FAKE; otherwise VERIFIED when the stage has images, as many verifications
   * as images, and all of them REAL; otherwise PENDING.
   */
  function DeriveStageStatus(imageUrls: seq<string>, stageVerifications: seq<ImageVerification>)
    : (s: VerificationStatus)
    ensures s == Flagged <==> exists i :: 0 <= i < |stageVerifications| && stageVerifications[i].verificationStatus == "FAKE"
    ensures s == Verified <==> (|imageUrls| > 0 && |stageVerifications| == |imageUrls|
      && forall i :: 0 <= i < |stageVerifications| ==> stageVerifications[i].verificationStatus == "REAL")
  {
    var hasFlags := exists i :: 0 <= i < |stageVerifications| && stageVerifications[i].verificationStatus == "FAKE";
    var allVerified := |imageUrls| > 0 && |stageVerifications| == |imageUrls|
      && forall i :: 0 <= i < |stageVerifications| ==> stageVerifications[i].verificationStatus == "REAL";
    if hasFlags then Flagged else if allVerified then Verified else Pending
  }

  /** The rule looks at how many images a stage has, never at which ones were verified. */
  lemma DeriveStageStatusCountsOnly(a: seq<string>, b: seq<string>, stageVerifications: seq<ImageVerification>)
    requires |a| == |b|
    ensures DeriveStageStatus(a, stageVerifications) == DeriveStageStatus(b, stageVerifications)
  {
  }

  /** A stage whose one image was never verified still counts as VERIFIED when a verification for another URL of the stage was. */
  lemma DeriveStageStatusOtherImage(v: ImageVerification)
    requires v.imageUrl == "other.jpg" && v.verificationStatus == "REAL"
    ensures DeriveStageStatus(["photo.jpg"], [v]) == Verified
    ensures v.imageUrl !in ["photo.jpg"]
  {
  }

  function ImageHasher(p: Primitives, ms: nat): string -> string {
    (url: string) => HashImage(p, url, ms)
  }

  /** One stage of the snapshot, from its row and the verifications of its batch. */
  function BuildStage(p: Primitives, verifications: seq<ImageVerification>, clock: Clock, stage: StageRow)
    : (s: StageData)
    ensures s.stageId == stage.id && s.name == stage.name
    ensures Truthy(stage.completedAt) ==> s.completedAt == stage.completedAt.value
    ensures !Truthy(stage.completedAt) ==> s.completedAt == clock.iso
    ensures stage.imageUrls.Some? ==> s.imageUrls == stage.imageUrls.value
    ensures stage.imageUrls.None? ==> s.imageUrls == []
    ensures |s.imageHashes| == |s.imageUrls|
    ensures forall i :: 0 <= i < |s.imageUrls| ==> s.imageHashes[i] == HashImage(p, s.imageUrls[i], clock.ms)
    ensures s.verificationStatus == DeriveStageStatus(s.imageUrls, Filter(VerificationOfStage(stage.id), verifications))
  {
    var imageUrls := stage.imageUrls.GetOr([]);
    var stageVerifications := Filter(VerificationOfStage(stage.id), verifications);
    StageData(stage.id, stage.name, OrElse(stage.completedAt, clock.iso), imageUrls,
      MapSeq(ImageHasher(p, clock.ms), imageUrls), DeriveStageStatus(imageUrls, stageVerifications))
  }

  function StageBuilder(p: Primitives, verifications: seq<ImageVerification>, clock: Clock): StageRow -> StageData {
    (stage: StageRow) => BuildStage(p, verifications, clock, stage)
  }

  /** The snapshot of a batch: its row's fields, its stages in the order read, and the given timestamp. */
  function BuildBatchData(p: Primitives, batch: BatchRow, stages: seq<StageRow>, verifications: seq<ImageVerification>,
    clock: Clock, timestamp: string): (d: BatchData)
    ensures d.batchId == batch.id && d.batchCode == batch.batchCode && d.farmerId == batch.farmerId
    ensures d.farmerName == batch.farmerName && d.cropType == batch.cropType && d.quantity == batch.quantity
    ensures d.location == batch.location && d.harvestDate == batch.harvestDate && d.timestamp == timestamp
    ensures |d.stages| == |stages|
    ensures forall i :: 0 <= i < |stages| ==> d.stages[i] == BuildStage(p, verifications, clock, stages[i])
  {
    BatchData(batch.id, batch.batchCode, batch.farmerId, batch.farmerName, batch.cropType, batch.quantity,
      batch.location, batch.harvestDate, MapSeq(StageBuilder(p, verifications, clock), stages), timestamp)
  }

  /** The snapshot a route builds for `batchId` from the tables. */
  function TablesSnapshot(p: Primitives, t: Tables, batchId: string, clock: Clock, timestamp: string): (d: BatchData)
    requires batchId in t.batches
    ensures |d.stages| == |StagesOf(t.stages, batchId)|
  {
    BuildBatchData(p, t.batches[batchId], StagesOf(t.stages, batchId),
      Filter(VerificationOfBatch(batchId), t.verifications), clock, timestamp)
  }

  /**
   * The snapshot a route builds when a read of stages or of verifications may
   * come back with an error that the route does not stop on: the lost read
   * counts as no rows (`stages || []`, `verifications?.filter(…) || []`).
   */
  function ReadSnapshot(p: Primitives, t: Tables, batchId: string, stagesLost: bool, verificationsLost: bool,
    clock: Clock, timestamp: string): (d: BatchData)
    requires batchId in t.batches
    ensures !stagesLost && !verificationsLost ==> d == TablesSnapshot(p, t, batchId, clock, timestamp)
    ensures stagesLost ==> d.stages == []
    ensures !stagesLost ==> |d.stages| == |StagesOf(t.stages, batchId)|
    ensures d.batchId == t.batches[batchId].id && d.timestamp == timestamp
  {
    var stages := if stagesLost then [] else StagesOf(t.stages, batchId);
    var verifications := if verificationsLost then [] else Filter(VerificationOfBatch(batchId), t.verifications);
    BuildBatchData(p, t.batches[batchId], stages, verifications, clock, timestamp)
  }

  /** Every image hash of a rebuilt snapshot is its URL salted with the rebuilding clock's milliseconds. */
  lemma ReadSnapshotSalted(p: Primitives, t: Tables, batchId: string, stagesLost: bool, verificationsLost: bool,
    clock: Clock, timestamp: string)
    requires batchId in t.batches
    ensures var d := ReadSnapshot(p, t, batchId, stagesLost, verificationsLost, clock, timestamp);
      forall i :: 0 <= i < |d.stages| ==> SaltedAt(p, d.stages[i], clock.ms)
  {
    var d := ReadSnapshot(p, t, batchId, stagesLost, verificationsLost, clock, timestamp);
    var stages := if stagesLost then [] else StagesOf(t.stages, batchId);
    var verifications := if verificationsLost then [] else Filter(VerificationOfBatch(batchId), t.verifications);
    assert d == BuildBatchData(p, t.batches[batchId], stages, verifications, clock, timestamp);
    forall i | 0 <= i < |d.stages| ensures SaltedAt(p, d.stages[i], clock.ms) {
      assert d.stages[i] == BuildStage(p, verifications, clock, stages[i]);
    }
  }

  /** Without the verifications every stage is PENDING, whatever the table says. */
  lemma LostVerificationsFlagNothing(p: Primitives, t: Tables, batchId: string, stagesLost: bool, clock: Clock,
    timestamp: string)
    requires batchId in t.batches
    ensures var d := ReadSnapshot(p, t, batchId, stagesLost, true, clock, timestamp);
      forall i :: 0 <= i < |d.stages| ==> d.stages[i].verificationStatus == Pending
  {
    var d := ReadSnapshot(p, t, batchId, stagesLost, true, clock, timestamp);
    var stages := if stagesLost then [] else StagesOf(t.stages, batchId);
    forall i | 0 <= i < |d.stages| ensures d.stages[i].verificationStatus == Pending {
      assert d.stages[i] == BuildStage(p, [], clock, stages[i]);
      assert Filter(VerificationOfStage(stages[i].id), []) == [];
    }
  }

  /**
   * Readiness does not depend on the primitives, the clock or the timestamp:
   * the hashes and dates they feed never reach the gate.
   */
  lemma ReadinessIgnoresClock(p: Primitives, p': Primitives, t: Tables, batchId: string, stagesLost: bool,
    verificationsLost: bool, clock: Clock, timestamp: string, clock': Clock, timestamp': string)
    requires batchId in t.batches
    ensures ReadinessReport(ReadSnapshot(p, t, batchId, stagesLost, verificationsLost, clock, timestamp))
      == ReadinessReport(ReadSnapshot(p', t, batchId, stagesLost, verificationsLost, clock', timestamp'))
  {
    var d := ReadSnapshot(p, t, batchId, stagesLost, verificationsLost, clock, timestamp);
    var e := ReadSnapshot(p', t, batchId, stagesLost, verificationsLost, clock', timestamp');
    var stages := if stagesLost then [] else StagesOf(t.stages, batchId);
    var verifications := if verificationsLost then [] else Filter(VerificationOfBatch(batchId), t.verifications);
    forall i | 0 <= i < |d.stages|
      ensures |d.stages[i].imageUrls| == |e.stages[i].imageUrls|
        && d.stages[i].verificationStatus == e.stages[i].verificationStatus
    {
      assert d.stages[i] == BuildStage(p, verifications, clock, stages[i]);
      assert e.stages[i] == BuildStage(p', verifications, clock', stages[i]);
    }
    ReadinessOfSameShape(d, e);
  }

  /**
   * As written, a lost verifications read lets a batch through the gate
   * whatever its verdicts: a stage with an image marked FAKE is synced as long
   * as every stage has images.
   */
  lemma LostVerificationsPassGate(p: Primitives, t: Tables, batchId: string, clock: Clock, timestamp: string)
    requires batchId in t.batches
    requires |StagesOf(t.stages, batchId)| > 0
    requires forall k :: 0 <= k < |t.stages| && t.stages[k].batchId == batchId ==>
      t.stages[k].imageUrls.Some? && |t.stages[k].imageUrls.value| > 0
    ensures ReadinessReport(ReadSnapshot(p, t, batchId, false, true, clock, timestamp)).ready
  {
    var d := ReadSnapshot(p, t, batchId, false, true, clock, timestamp);
    var stages := StagesOf(t.stages, batchId);
    LostVerificationsFlagNothing(p, t, batchId, false, clock, timestamp);
    forall i | 0 <= i < |d.stages| ensures |d.stages[i].imageUrls| > 0 {
      assert d.stages[i] == BuildStage(p, [], clock, stages[i]);
      assert stages[i] in t.stages;
      var k :| 0 <= k < |t.stages| && t.stages[k] == stages[i];
    }
  }

  /** One image of a batch's stage marked FAKE keeps the whole batch off the ledger. */
  lemma FakeImageBlocksReadiness(p: Primitives, t: Tables, batchId: string, clock: Clock, timestamp: string, i: nat, k: nat)
    requires batchId in t.batches
    requires k < |t.stages| && t.stages[k].batchId == batchId
    requires i < |t.verifications| && t.verifications[i].verificationStatus == "FAKE"
    requires t.verifications[i].batchId == batchId && t.verifications[i].stageId == t.stages[k].id
    ensures !ReadinessReport(TablesSnapshot(p, t, batchId, clock, timestamp)).ready
  {
    var v := t.verifications[i];
    var stages := StagesOf(t.stages, batchId);
    var ofBatch := Filter(VerificationOfBatch(batchId), t.verifications);
    assert VerificationOfBatch(batchId)(t.verifications[i]);
    assert v in ofBatch;
    var j :| 0 <= j < |ofBatch| && ofBatch[j] == v;
    var stage := t.stages[k];
    assert StageOfBatch(batchId)(t.stages[k]);
    assert stage in stages;
    var m :| 0 <= m < |stages| && stages[m] == stage;
    var ofStage := Filter(VerificationOfStage(stage.id), ofBatch);
    assert VerificationOfStage(stage.id)(ofBatch[j]);
    assert v in ofStage;
    var n :| 0 <= n < |ofStage| && ofStage[n] == v;
    var d := TablesSnapshot(p, t, batchId, clock, timestamp);
    assert d.stages[m] == BuildStage(p, ofBatch, clock, stage);
    assert d.stages[m].verificationStatus == Flagged;
  }
}
