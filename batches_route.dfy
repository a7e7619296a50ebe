/**
 * `/api/batches`: a farmer creates a batch, which gets the next code
 * `FB001`, `FB002`, ... (POST), and an admin approves or rejects it (PATCH);
 * an approval goes on to call the sync route for the batch.
 */
module BatchesRoute {
  import opened Wrappers
  import opened Text
  import opened Persistence
  import opened SyncRoute

  // ---------------------------------------------------------------
  // Batch codes
  // ---------------------------------------------------------------

  /** `'FB' + String(count + 1).padStart(3, '0')`. */
  function BatchCode(count: nat): (code: string)
    ensures |code| >= 5 && StartsWith(code, "FB")
    ensures AllDigits(code[2..]) && DigitsValue(code[2..]) == count + 1
    ensures |code| == 2 + (if |NatToString(count + 1)| >= 3 then |NatToString(count + 1)| else 3)
  {
    var digits := NatToString(count + 1);
    var padded := PadStart(digits, 3, '0');
    var zeros := |padded| - |digits|;
    assert padded == Repeat('0', zeros) + digits;
    LeadingZerosValue(zeros, digits);
    var code := "FB" + padded;
    assert code[2..] == padded;
    code
  }

  /** Different counts give different codes. */
  lemma BatchCodeInjective(a: nat, b: nat)
    requires BatchCode(a) == BatchCode(b)
    ensures a == b
  {
  }

  /** Examples: the first batch is `FB001`; the thousandth outgrows the padding. */
  lemma BatchCodeExamples()
    ensures BatchCode(0) == "FB001"
    ensures BatchCode(999) == "FB1000"
  {
    assert NatToString(1) == "1";
    assert NatToString(1000) == "1000" by {
      assert NatToString(1) == "1";
      assert NatToString(10) == "10";
      assert NatToString(100) == "100";
    }
  }

  // ---------------------------------------------------------------
  // POST
  // ---------------------------------------------------------------

  datatype CreateRequest = CreateRequest(name: Option<string>, category: Option<string>, area: Option<string>,
    location: Option<string>, description: Option<string>, farmerId: Option<string>, sowingDate: Option<string>)

  /**
   * `parsedArea` is `parseFloat(area)` (`None` for NaN); `now` the time of
   * the request; `newId` the id the table gives the row. `countFails` is a
   * failed count (`count || 0`), `insertFails` a refused insert.
   */
  datatype CreateContext = CreateContext(parsedArea: Option<real>, now: string, newId: string, countFails: bool,
    insertFails: bool)

  datatype CreateResponse = CreateMissingFields | CreateFailed | Created(batch: BatchRow)

  function CreateStatusCode(r: CreateResponse): nat {
    match r
    case CreateMissingFields => 400
    case CreateFailed => 500
    case Created(_) => 201
  }

  datatype CreateOutcome = CreateOutcome(response: CreateResponse, tables: Tables)

  /** The row a new batch starts as: active, unverified, pending, not on the ledger. */
  function NewBatchRow(id: string, code: string, req: CreateRequest, ctx: CreateContext): (b: BatchRow)
    requires Truthy(req.name) && Truthy(req.category) && Truthy(req.farmerId)
    ensures b.id == id && b.batchCode == code && b.name == req.name.value && b.farmerId == req.farmerId.value
    ensures b.area == ctx.parsedArea && b.farmerName == "Farmer" && b.quantity == Some(0)
    ensures b.description == OrElse(req.description, "") && b.location == OrElse(req.location, "Farm Location, India")
    ensures b.imageUrls == []
    ensures b.cropType == req.category.value && b.category == req.category.value
    ensures b.sowingDate == OrElse(req.sowingDate, ctx.now) && b.harvestDate == b.sowingDate
    ensures b.status == "ACTIVE" && !b.verified && b.verificationStatus == "PENDING"
    ensures b.blockchainStatus.None? && b.blockchainTxHash.None? && b.qrCode.None? && b.verifyUrl.None?
  {
    var sowingDate := OrElse(req.sowingDate, ctx.now);
    BatchRow(id, code, req.name.value, req.category.value, req.category.value, ctx.parsedArea, sowingDate, sowingDate,
      "Farmer", Some(0), OrElse(req.description, ""), "ACTIVE", false, "PENDING", None, None, req.farmerId.value,
      None, None, [], OrElse(req.location, "Farm Location, India"), None, None, None, None, None, None)
  }

  /** The specification of POST. */
  function Create(t: Tables, req: CreateRequest, ctx: CreateContext): (o: CreateOutcome)
    ensures o.response == CreateMissingFields <==>
      !Truthy(req.name) || !Truthy(req.category) || !Truthy(req.area) || !Truthy(req.farmerId)
    ensures o.response == CreateFailed <==>
      Truthy(req.name) && Truthy(req.category) && Truthy(req.area) && Truthy(req.farmerId)
      && (ctx.insertFails || ctx.newId in t.batches)
    ensures !o.response.Created? ==> o.tables == t
    ensures o.response.Created? ==>
      ctx.newId !in t.batches && o.tables == t.(batches := t.batches[ctx.newId := o.response.batch])
      && o.response.batch.id == ctx.newId
      && o.response.batch.batchCode == BatchCode(if ctx.countFails then 0 else |t.batches|)
      && o.response.batch.verificationStatus == "PENDING" && o.response.batch.blockchainStatus.None?
  {
    if !Truthy(req.name) || !Truthy(req.category) || !Truthy(req.area) || !Truthy(req.farmerId) then
      CreateOutcome(CreateMissingFields, t)
    else
      var count := if ctx.countFails then 0 else |t.batches|;
      var row := NewBatchRow(ctx.newId, BatchCode(count), req, ctx);
      if ctx.insertFails || ctx.newId in t.batches then CreateOutcome(CreateFailed, t)
      else CreateOutcome(Created(row), t.(batches := t.batches[ctx.newId := row]))
  }

  method CreateBatch(db: Database, req: CreateRequest, ctx: CreateContext) returns (resp: CreateResponse)
    modifies db
    ensures resp == Create(old(db.Snapshot()), req, ctx).response
    ensures db.Snapshot() == Create(old(db.Snapshot()), req, ctx).tables
  {
    if !Truthy(req.name) || !Truthy(req.category) || !Truthy(req.area) || !Truthy(req.farmerId) {
      return CreateMissingFields;
    }
    var count := if ctx.countFails then 0 else |db.batches|;
    var batchCode := BatchCode(count);
    if ctx.insertFails || ctx.newId in db.batches {
      return CreateFailed;
    }
    var newBatch := NewBatchRow(ctx.newId, batchCode, req, ctx);
    db.batches := db.batches[ctx.newId := newBatch];
    resp := Created(newBatch);
  }

  /**
   * What a successful POST writes: a new, unsynced row under the fresh id,
   * whose code is the one after the number of batches there were, and
   * nothing else.
   */
  lemma CreateInserts(t: Tables, req: CreateRequest, ctx: CreateContext)
    requires Create(t, req, ctx).response.Created?
    ensures var o := Create(t, req, ctx);
      Truthy(req.name) && Truthy(req.category) && Truthy(req.area) && Truthy(req.farmerId)
      && ctx.newId !in t.batches
      && o.response.batch == NewBatchRow(ctx.newId, BatchCode(if ctx.countFails then 0 else |t.batches|), req, ctx)
      && o.tables == t.(batches := t.batches[ctx.newId := o.response.batch])
  {
  }

  /**
   * A created batch is not synced, so the sync route takes it past its early
   * answers to the stages and the readiness gate, unless its read fails.
   */
  lemma CreatedBatchReachesGate(t: Tables, req: CreateRequest, ctx: CreateContext, sctx: SyncContext)
    requires Create(t, req, ctx).response.Created? && ctx.newId != ""
    ensures var r := Sync(Create(t, req, ctx).tables, Some(ctx.newId), sctx).response;
      (r.BatchNotFound? <==> sctx.faults.batchReadFails)
      && (!sctx.faults.batchReadFails ==> r.StagesFetchFailed? || r.NotReady? || r.Synced?)
  {
    CreateInserts(t, req, ctx);
    UnsyncedBatchReachesGate(Create(t, req, ctx).tables, ctx.newId, sctx);
  }

  /** Batches created one after another, with no batch removed in between, get different codes. */
  lemma SuccessiveCodesDiffer(t: Tables, req: CreateRequest, ctx: CreateContext, req': CreateRequest,
    ctx': CreateContext)
    requires Create(t, req, ctx).response.Created? && !ctx.countFails && !ctx'.countFails
    requires Create(Create(t, req, ctx).tables, req', ctx').response.Created?
    ensures Create(Create(t, req, ctx).tables, req', ctx').response.batch.batchCode
      != Create(t, req, ctx).response.batch.batchCode
  {
    var o := Create(t, req, ctx);
    CreateInserts(t, req, ctx);
    CreateInserts(o.tables, req', ctx');
    var c1 := BatchCode(|t.batches|);
    var c2 := BatchCode(|t.batches| + 1);
    assert DigitsValue(c1[2..]) != DigitsValue(c2[2..]);
  }

  // ---------------------------------------------------------------
  // PATCH
  // ---------------------------------------------------------------

  /** `verified` is `None` when the body leaves it out; `adminId` is `None` when left out, and then not written. */
  datatype ReviewRequest = ReviewRequest(batchId: Option<string>, verified: Option<bool>, adminId: Option<string>)

  /**
   * `now` is the time of the update; `updateFails` a failed update;
   * `syncUnreachable` a sync call that does not answer with JSON; `sync` what
   * the sync route, once called, sees from outside the tables.
   */
  datatype ReviewContext = ReviewContext(now: string, updateFails: bool, syncUnreachable: bool, sync: SyncContext)

  datatype ReviewResponse =
    | ReviewMissingFields
    | ReviewFailed
    | Reviewed(batch: BatchRow)
    | ReviewedAndSynced(batch: BatchRow, blockchainTxHash: string)

  function ReviewStatusCode(r: ReviewResponse): nat {
    match r
    case ReviewMissingFields => 400
    case ReviewFailed => 500
    case Reviewed(_) => 200
    case ReviewedAndSynced(_, _) => 200
  }

  datatype ReviewOutcome = ReviewOutcome(response: ReviewResponse, tables: Tables)

  /** The admin's verdict on the row; the verifier is kept when the body names none. */
  function WithVerdict(row: BatchRow, verified: bool, adminId: Option<string>, now: string): (r: BatchRow)
    ensures r.verified == verified && r.verifiedAt == Some(now)
    ensures r.verificationStatus == (if verified then "VERIFIED" else "REJECTED")
    ensures r.verifiedBy == (if adminId.Some? then adminId else row.verifiedBy)
    ensures r.(verified := row.verified, verificationStatus := row.verificationStatus, verifiedAt := row.verifiedAt,
      verifiedBy := row.verifiedBy) == row
  {
    row.(verified := verified, verificationStatus := if verified then "VERIFIED" else "REJECTED", verifiedAt := Some(now),
      verifiedBy := if adminId.Some? then adminId else row.verifiedBy)
  }

  /** The specification of PATCH: the update, then, for an approval, the sync route on the updated tables. */
  function Review(t: Tables, req: ReviewRequest, ctx: ReviewContext): (o: ReviewOutcome)
    ensures o.response == ReviewMissingFields <==> !Truthy(req.batchId) || req.verified.None?
    ensures o.response == ReviewFailed <==>
      Truthy(req.batchId) && req.verified.Some? && (ctx.updateFails || req.batchId.value !in t.batches)
    ensures o.response == ReviewMissingFields || o.response == ReviewFailed ==> o.tables == t
    ensures o.response.Reviewed? || o.response.ReviewedAndSynced? ==>
      req.batchId.value in t.batches
      && o.response.batch == WithVerdict(t.batches[req.batchId.value], req.verified.value, req.adminId, ctx.now)
    ensures o.response.ReviewedAndSynced? ==> req.verified.value && !ctx.syncUnreachable
    ensures o.response.Reviewed? && (!req.verified.value || ctx.syncUnreachable) ==>
      o.tables == t.(batches := t.batches[req.batchId.value := o.response.batch])
  {
    if !Truthy(req.batchId) || req.verified.None? then ReviewOutcome(ReviewMissingFields, t)
    else
      var id := req.batchId.value;
      if ctx.updateFails || id !in t.batches then ReviewOutcome(ReviewFailed, t)
      else
        var row := WithVerdict(t.batches[id], req.verified.value, req.adminId, ctx.now);
        var t1 := t.(batches := t.batches[id := row]);
        if req.verified.value && !ctx.syncUnreachable then
          var s := Sync(t1, Some(id), ctx.sync);
          if s.response.Synced? then ReviewOutcome(ReviewedAndSynced(row, s.response.transaction.transactionHash), s.tables)
          else ReviewOutcome(Reviewed(row), s.tables)
        else ReviewOutcome(Reviewed(row), t1)
  }

  method ReviewBatch(db: Database, req: ReviewRequest, ctx: ReviewContext) returns (resp: ReviewResponse)
    modifies db
    ensures resp == Review(old(db.Snapshot()), req, ctx).response
    ensures db.Snapshot() == Review(old(db.Snapshot()), req, ctx).tables
  {
    if !Truthy(req.batchId) || req.verified.None? {
      return ReviewMissingFields;
    }
    var batchId := req.batchId.value;
    if ctx.updateFails || batchId !in db.batches {
      return ReviewFailed;
    }
    var updatedBatch := WithVerdict(db.batches[batchId], req.verified.value, req.adminId, ctx.now);
    db.batches := db.batches[batchId := updatedBatch];
    if req.verified.value && !ctx.syncUnreachable {
      var syncResult := SyncPost(db, Some(batchId), ctx.sync);
      if syncResult.Synced? {
        return ReviewedAndSynced(updatedBatch, syncResult.transaction.transactionHash);
      }
    }
    resp := Reviewed(updatedBatch);
  }

  /** A rejection, or an approval whose sync cannot be reached, changes the batch's verdict fields and nothing else. */
  lemma ReviewWithoutSync(t: Tables, req: ReviewRequest, ctx: ReviewContext)
    requires Truthy(req.batchId) && req.verified.Some? && req.batchId.value in t.batches && !ctx.updateFails
    requires !req.verified.value || ctx.syncUnreachable
    ensures var o := Review(t, req, ctx);
      var id := req.batchId.value;
      o.response.Reviewed? && o.response.batch == o.tables.batches[id]
      && o.tables == t.(batches := t.batches[id := o.response.batch])
      && o.tables.batches[id].verificationStatus == (if req.verified.value then "VERIFIED" else "REJECTED")
  {
  }

  /**
   * An approval whose sync completes reports the sync's transaction, and
   * leaves the batch approved and (unless the sync's own update failed)
   * synced to that transaction.
   */
  lemma ApprovalSyncs(t: Tables, req: ReviewRequest, ctx: ReviewContext)
    requires Truthy(req.batchId) && req.verified == Some(true) && req.batchId.value in t.batches
    requires Review(t, req, ctx).response.ReviewedAndSynced?
    requires !ctx.sync.faults.batchUpdateFails
    ensures var o := Review(t, req, ctx);
      var r := o.tables.batches[req.batchId.value];
      r.verified && r.verificationStatus == "VERIFIED" && r.verifiedAt == Some(ctx.now)
      && r.blockchainStatus == Some("SYNCED") && r.blockchainTxHash == Some(o.response.blockchainTxHash)
      && o.response.batch.verificationStatus == "VERIFIED"
  {
    var id := req.batchId.value;
    var row := WithVerdict(t.batches[id], true, req.adminId, ctx.now);
    var t1 := t.(batches := t.batches[id := row]);
    var s := Sync(t1, Some(id), ctx.sync);
    assert Review(t, req, ctx) == ReviewOutcome(ReviewedAndSynced(row, s.response.transaction.transactionHash), s.tables);
    assert s.tables == SyncWrites(t1, id, s.response.transaction, ctx.sync);
  }

  /** PATCH never touches another batch, unless through the sync's own writes to the approved one. */
  lemma ReviewKeepsOtherBatches(t: Tables, req: ReviewRequest, ctx: ReviewContext, other: string)
    requires other in t.batches && (req.batchId.None? || other != req.batchId.value)
    ensures other in Review(t, req, ctx).tables.batches
    ensures Review(t, req, ctx).tables.batches[other] == t.batches[other]
  {
    if Truthy(req.batchId) && req.verified.Some? && !ctx.updateFails && req.batchId.value in t.batches {
      var id := req.batchId.value;
      var row := WithVerdict(t.batches[id], req.verified.value, req.adminId, ctx.now);
      var t1 := t.(batches := t.batches[id := row]);
      if req.verified.value && !ctx.syncUnreachable {
        var s := Sync(t1, Some(id), ctx.sync);
        assert Review(t, req, ctx).tables == s.tables;
        if s.response.Synced? {
          assert s.tables == SyncWrites(t1, id, s.response.transaction, ctx.sync);
        }
      }
    }
  }
}
