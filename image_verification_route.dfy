/**
 * `/api/image-verification`: an admin marks an uploaded stage image REAL or
 * FAKE (POST), a client lists verifications of a stage or a batch (GET), and
 * a verification is reset (DELETE). A FAKE verdict also removes the image
 * from storage and the farmer is notified of every verdict.
 */
module ImageVerificationRoute {
  import opened Wrappers
  import opened Text
  import opened Seqs
  import opened Uri
  import opened BlockchainService
  import opened Persistence
  import opened Snapshot
  import opened SyncRoute

  /** The JSON body of a POST; an absent or non-string field is `None`. */
  datatype VerificationRequest = VerificationRequest(
    imageUrl: Option<string>,
    verificationStatus: Option<string>,
    rejectionReason: Option<string>,
    stageId: Option<string>,
    batchId: Option<string>,
    farmerId: Option<string>,
    verifiedBy: Option<string>)

  /**
   * `now` is the time of the write; `newId` the id the table gives an
   * inserted row. The faults say which storage or table request fails: a
   * failed removal or notification is ignored, a failed read of the existing
   * verification reads as none, and a failed update or insert is a 500.
   */
  datatype PostContext = PostContext(now: string, newId: string, removeFails: bool, existenceReadFails: bool,
    writeFails: bool, notificationFails: bool)

  datatype PostResponse =
    | MissingFields
    | ReasonRequired
    | InvalidStatus
    | PostFailed
    | Recorded(verification: ImageVerification, notificationCreated: bool)

  function PostStatusCode(r: PostResponse): nat {
    match r
    case MissingFields => 400
    case ReasonRequired => 400
    case InvalidStatus => 400
    case PostFailed => 500
    case Recorded(_, _) => 200
  }

  datatype PostOutcome = PostOutcome(response: PostResponse, tables: Tables,
    buckets: map<string, map<string, StoredFile>>)

  const VerifiedTitle := "✅ Image Verified"
  const VerifiedMessage := "Your uploaded image has been verified as authentic by admin."
  const FlaggedTitle := "❌ Image Flagged"
  const FlaggedReasonPrefix := "Your image was flagged as fake. Reason: "
  const FlaggedGenericMessage := "Your image was flagged as fake. Please review and reupload."

  // ---------------------------------------------------------------
  // Validation
  // ---------------------------------------------------------------

  predicate AllPresent(req: VerificationRequest) {
    Truthy(req.imageUrl) && Truthy(req.verificationStatus) && Truthy(req.stageId) && Truthy(req.batchId)
    && Truthy(req.farmerId) && Truthy(req.verifiedBy)
  }

  /** The refusals of a POST, in the order the route tests them. */
  function ValidationError(req: VerificationRequest): (e: Option<PostResponse>)
    ensures e == Some(MissingFields) <==> !AllPresent(req)
    ensures e == Some(ReasonRequired) <==> AllPresent(req) && req.verificationStatus == Some("FAKE") && !Truthy(req.rejectionReason)
    ensures e == Some(InvalidStatus) <==> AllPresent(req) && req.verificationStatus != Some("REAL") && req.verificationStatus != Some("FAKE")
    ensures e.None? <==> (AllPresent(req)
      && (req.verificationStatus == Some("REAL") || (req.verificationStatus == Some("FAKE") && Truthy(req.rejectionReason))))
  {
    if !AllPresent(req) then Some(MissingFields)
    else if req.verificationStatus == Some("FAKE") && !Truthy(req.rejectionReason) then Some(ReasonRequired)
    else if req.verificationStatus.value != "REAL" && req.verificationStatus.value != "FAKE" then Some(InvalidStatus)
    else None
  }

  // ---------------------------------------------------------------
  // Removing a FAKE image from storage
  // ---------------------------------------------------------------

  /**
   * The key the route removes as written: `imageUrl.split(marker)[1]`, the
   * whole `bucket/path` tail of the public URL.
   */
  function AsWrittenRemovalKey(imageUrl: string): (k: Option<string>)
    ensures k.None? <==> !Contains(imageUrl, PublicMarker)
  {
    SplitSecond(imageUrl, PublicMarker)
  }

  /**
   * The key of the image inside `batch-images`: the tail of the public URL
   * with the bucket's name taken off and `decodeURI` applied, undoing the
   * encoding `getPublicUrl` put on it; nothing to remove when the URL is not
   * one of that bucket or its tail does not decode.
   */
  function RemovalKey(imageUrl: string): (k: Option<string>)
    ensures k.Some? ==> (AsWrittenRemovalKey(imageUrl).Some?
      && StartsWith(AsWrittenRemovalKey(imageUrl).value, ImageBucket + "/")
      && DecodeUri(AsWrittenRemovalKey(imageUrl).value[|ImageBucket + "/"|..]) == k)
    ensures k.None? ==> (AsWrittenRemovalKey(imageUrl).None?
      || !StartsWith(AsWrittenRemovalKey(imageUrl).value, ImageBucket + "/")
      || DecodeUri(AsWrittenRemovalKey(imageUrl).value[|ImageBucket + "/"|..]).None?)
  {
    match AsWrittenRemovalKey(imageUrl)
    case None => None
    case Some(tail) =>
      if StartsWith(tail, ImageBucket + "/") then DecodeUri(tail[|ImageBucket + "/"|..])
      else None
  }

  /** `remove([key])` on `batch-images`, as `Storage.Remove` does it. */
  function RemoveImage(buckets: map<string, map<string, StoredFile>>, key: string, fails: bool)
    : map<string, map<string, StoredFile>>
  {
    if !fails && ImageBucket in buckets then buckets[ImageBucket := buckets[ImageBucket] - {key}] else buckets
  }

  /**
   * The storage after a verdict, as written: for FAKE, the key
   * `AsWrittenRemovalKey` gives is removed from `batch-images` when the URL
   * has the marker; a failure is ignored, and nothing else changes.
   */
  function BucketsAfterVerdict(buckets: map<string, map<string, StoredFile>>, req: VerificationRequest, ctx: PostContext)
    : (b: map<string, map<string, StoredFile>>)
    requires req.imageUrl.Some?
    ensures b.Keys == buckets.Keys
    ensures forall n :: n in buckets && n != ImageBucket ==> b[n] == buckets[n]
    ensures req.verificationStatus != Some("FAKE") || ctx.removeFails || AsWrittenRemovalKey(req.imageUrl.value).None?
      ==> b == buckets
    ensures (req.verificationStatus == Some("FAKE") && !ctx.removeFails && ImageBucket in buckets
      && AsWrittenRemovalKey(req.imageUrl.value).Some?) ==>
      b[ImageBucket] == buckets[ImageBucket] - {AsWrittenRemovalKey(req.imageUrl.value).value}
  {
    if req.verificationStatus == Some("FAKE") then
      match AsWrittenRemovalKey(req.imageUrl.value)
      case None => buckets
      case Some(key) => RemoveImage(buckets, key, ctx.removeFails)
    else buckets
  }

  /** The storage after a verdict with the corrected key `RemovalKey`. */
  function IntendedBucketsAfterVerdict(buckets: map<string, map<string, StoredFile>>, req: VerificationRequest,
    ctx: PostContext): (b: map<string, map<string, StoredFile>>)
    requires req.imageUrl.Some?
    ensures b.Keys == buckets.Keys
    ensures forall n :: n in buckets && n != ImageBucket ==> b[n] == buckets[n]
    ensures req.verificationStatus != Some("FAKE") || ctx.removeFails || RemovalKey(req.imageUrl.value).None?
      ==> b == buckets
    ensures (req.verificationStatus == Some("FAKE") && !ctx.removeFails && ImageBucket in buckets
      && RemovalKey(req.imageUrl.value).Some?) ==>
      b[ImageBucket] == buckets[ImageBucket] - {RemovalKey(req.imageUrl.value).value}
  {
    if req.verificationStatus == Some("FAKE") then
      match RemovalKey(req.imageUrl.value)
      case None => buckets
      case Some(key) => RemoveImage(buckets, key, ctx.removeFails)
    else buckets
  }

  // ---------------------------------------------------------------
  // The verification row
  // ---------------------------------------------------------------

  /** `rejectionReason` as written: the admin's reason for FAKE, cleared otherwise. */
  function ReasonFor(req: VerificationRequest): Option<string> {
    if req.verificationStatus == Some("FAKE") then req.rejectionReason else None
  }

  /** An existing row after the update with the verdict. */
  function Updated(v: ImageVerification, req: VerificationRequest, now: string): (u: ImageVerification)
    requires AllPresent(req)
    ensures u.id == v.id && u.imageUrl == v.imageUrl && u.stageId == v.stageId && u.batchId == v.batchId
    ensures u.farmerId == v.farmerId
    ensures u.verificationStatus == req.verificationStatus.value && u.verifiedBy == req.verifiedBy.value
    ensures u.verifiedAt == now && u.updatedAt == Some(now) && u.rejectionReason == ReasonFor(req)
  {
    v.(verificationStatus := req.verificationStatus.value, verifiedBy := req.verifiedBy.value, verifiedAt := now,
      updatedAt := Some(now), rejectionReason := ReasonFor(req))
  }

  /** A row inserted for an image that had no verification. */
  function Inserted(id: string, req: VerificationRequest, now: string): (v: ImageVerification)
    requires AllPresent(req)
    ensures v.id == id && v.imageUrl == req.imageUrl.value && v.stageId == req.stageId.value
    ensures v.batchId == req.batchId.value && v.farmerId == req.farmerId.value
    ensures v.verificationStatus == req.verificationStatus.value && v.verifiedBy == req.verifiedBy.value
    ensures v.verifiedAt == now && v.updatedAt.None? && v.rejectionReason == ReasonFor(req)
  {
    ImageVerification(id, req.imageUrl.value, req.stageId.value, req.batchId.value, req.farmerId.value,
      req.verificationStatus.value, req.verifiedBy.value, now, None, ReasonFor(req))
  }

  function Updater(req: VerificationRequest, now: string): ImageVerification -> ImageVerification
    requires AllPresent(req)
  {
    (v: ImageVerification) =>
      if VerificationOfImage(req.imageUrl.value, req.stageId.value)(v) then Updated(v, req, now) else v
  }

  /** `.update(...).eq('imageUrl', ..).eq('stageId', ..)`: every row of the image changes; the others stay. */
  function UpdateImageRows(vs: seq<ImageVerification>, req: VerificationRequest, now: string): (r: seq<ImageVerification>)
    requires AllPresent(req)
    ensures |r| == |vs|
    ensures forall i :: 0 <= i < |vs| ==>
      r[i] == if VerificationOfImage(req.imageUrl.value, req.stageId.value)(vs[i]) then Updated(vs[i], req, now) else vs[i]
  {
    MapSeq(Updater(req, now), vs)
  }

  /** The one existing verification of the image, as `.single()` finds it. */
  function ExistingVerification(vs: seq<ImageVerification>, req: VerificationRequest): Option<ImageVerification>
    requires AllPresent(req)
  {
    Single(Filter(VerificationOfImage(req.imageUrl.value, req.stageId.value), vs))
  }

  // ---------------------------------------------------------------
  // The notification
  // ---------------------------------------------------------------

  /** `createNotificationForFarmer`: type, title and message by status; the reason goes into the metadata of a FAKE one. */
  function NotificationFor(v: ImageVerification, farmerId: string, status: string, rejectionReason: Option<string>)
    : (n: Notification)
    ensures n.userId == farmerId && n.metadata.verificationId == v.id && n.metadata.imageUrl == v.imageUrl
    ensures status == "REAL" ==> (n.kind == Some("IMAGE_VERIFIED") && n.message == Some(VerifiedMessage)
      && n.metadata.rejectionReason.None?)
    ensures status == "FAKE" ==> n.kind == Some("IMAGE_FLAGGED") && n.metadata.rejectionReason == rejectionReason
    ensures status == "FAKE" && Truthy(rejectionReason) ==> n.message == Some(FlaggedReasonPrefix + rejectionReason.value)
    ensures status == "FAKE" && !Truthy(rejectionReason) ==> n.message == Some(FlaggedGenericMessage)
    ensures status != "REAL" && status != "FAKE" ==> n.kind.None? && n.title.None? && n.message.None?
  {
    var metadata := NotificationMetadata(v.imageUrl, v.stageId, v.batchId, v.id, None);
    if status == "REAL" then
      Notification(farmerId, Some("IMAGE_VERIFIED"), Some(VerifiedTitle), Some(VerifiedMessage), metadata)
    else if status == "FAKE" then
      Notification(farmerId, Some("IMAGE_FLAGGED"), Some(FlaggedTitle),
        Some(if Truthy(rejectionReason) then FlaggedReasonPrefix + rejectionReason.value else FlaggedGenericMessage),
        metadata.(rejectionReason := rejectionReason))
    else Notification(farmerId, None, None, None, metadata)
  }

  // ---------------------------------------------------------------
  // POST
  // ---------------------------------------------------------------

  /**
   * The writes after validation and the storage step: the row found for the
   * image is updated, or a row is inserted when none is found, and the
   * farmer is notified. Only the verification and notification tables change.
   */
  function RecordVerdict(t: Tables, req: VerificationRequest, ctx: PostContext): (r: (PostResponse, Tables))
    requires AllPresent(req)
    ensures ctx.writeFails <==> r.0 == PostFailed
    ensures ctx.writeFails ==> r.1 == t
    ensures !ctx.writeFails ==> (r.0.Recorded? && r.0.notificationCreated
      && r.0.verification.imageUrl == req.imageUrl.value && r.0.verification.stageId == req.stageId.value
      && r.0.verification.verificationStatus == req.verificationStatus.value
      && r.0.verification.verifiedBy == req.verifiedBy.value && r.0.verification.verifiedAt == ctx.now
      && r.0.verification.rejectionReason == ReasonFor(req))
    ensures r.1.(verifications := t.verifications, notifications := t.notifications) == t
    ensures |t.verifications| <= |r.1.verifications| <= |t.verifications| + 1
    ensures r.1.notifications == t.notifications || (!ctx.writeFails && !ctx.notificationFails
      && |r.1.notifications| == |t.notifications| + 1 && r.1.notifications[..|t.notifications|] == t.notifications)
  {
    if ctx.writeFails then (PostFailed, t)
    else
      var existing := if ctx.existenceReadFails then None else ExistingVerification(t.verifications, req);
      var v := if existing.Some? then Updated(existing.value, req, ctx.now) else Inserted(ctx.newId, req, ctx.now);
      var verifications := if existing.Some? then UpdateImageRows(t.verifications, req, ctx.now)
        else t.verifications + [v];
      var notifications := if ctx.notificationFails then t.notifications
        else t.notifications + [NotificationFor(v, req.farmerId.value, req.verificationStatus.value, req.rejectionReason)];
      (Recorded(v, true), t.(verifications := verifications, notifications := notifications))
  }

  /** The specification of POST. */
  function Post(t: Tables, buckets: map<string, map<string, StoredFile>>, req: VerificationRequest, ctx: PostContext)
    : (o: PostOutcome)
    ensures ValidationError(req).Some? ==> o == PostOutcome(ValidationError(req).value, t, buckets)
    ensures ValidationError(req).None? ==>
      o.buckets.Keys == buckets.Keys
      && (forall n :: n in buckets && n != ImageBucket ==> o.buckets[n] == buckets[n])
      && (req.verificationStatus != Some("FAKE") ==> o.buckets == buckets)
      && (o.response == PostFailed <==> ctx.writeFails)
      && (ctx.writeFails ==> o.tables == t)
      && o.tables.(verifications := t.verifications, notifications := t.notifications) == t
    ensures o.response.Recorded? ==>
      AllPresent(req) && o.response.verification.imageUrl == req.imageUrl.value
      && o.response.verification.stageId == req.stageId.value
      && o.response.verification.verificationStatus == req.verificationStatus.value
  {
    match ValidationError(req)
    case Some(e) => PostOutcome(e, t, buckets)
    case None =>
      var buckets' := BucketsAfterVerdict(buckets, req, ctx);
      var (resp, t') := RecordVerdict(t, req, ctx);
      PostOutcome(resp, t', buckets')
  }

  method VerificationPost(db: Database, storage: Storage, req: VerificationRequest, ctx: PostContext)
    returns (resp: PostResponse)
    modifies db, storage
    ensures resp == Post(old(db.Snapshot()), old(storage.buckets), req, ctx).response
    ensures db.Snapshot() == Post(old(db.Snapshot()), old(storage.buckets), req, ctx).tables
    ensures storage.buckets == Post(old(db.Snapshot()), old(storage.buckets), req, ctx).buckets
  {
    var error := ValidationError(req);
    if error.Some? {
      return error.value;
    }
    RemoveFlaggedImage(storage, req, ctx);
    resp := StoreVerdict(db, req, ctx);
  }

  /** Step 2 of POST: a FAKE image's object is removed from storage; the outcome of the removal is ignored. */
  method RemoveFlaggedImage(storage: Storage, req: VerificationRequest, ctx: PostContext)
    requires req.imageUrl.Some?
    modifies storage
    ensures storage.buckets == BucketsAfterVerdict(old(storage.buckets), req, ctx)
  {
    if req.verificationStatus == Some("FAKE") {
      var key := AsWrittenRemovalKey(req.imageUrl.value);
      if key.Some? {
        var _ := storage.Remove(ImageBucket, key.value, ctx.removeFails);
      }
    }
  }

  /** Steps 3 and 4 of POST: the verification row is updated or inserted, then the farmer is notified. */
  method StoreVerdict(db: Database, req: VerificationRequest, ctx: PostContext) returns (resp: PostResponse)
    requires AllPresent(req)
    modifies db
    ensures (resp, db.Snapshot()) == RecordVerdict(old(db.Snapshot()), req, ctx)
  {
    if ctx.writeFails {
      return PostFailed;
    }
    var existing := if ctx.existenceReadFails then None else ExistingVerification(db.verifications, req);
    var verification: ImageVerification;
    if existing.Some? {
      verification := Updated(existing.value, req, ctx.now);
      db.verifications := UpdateImageRows(db.verifications, req, ctx.now);
    } else {
      verification := Inserted(ctx.newId, req, ctx.now);
      db.verifications := db.verifications + [verification];
    }
    if !ctx.notificationFails {
      db.notifications := db.notifications
        + [NotificationFor(verification, req.farmerId.value, req.verificationStatus.value, req.rejectionReason)];
    }
    resp := Recorded(verification, true);
  }

  // ---------------------------------------------------------------
  // GET and DELETE
  // ---------------------------------------------------------------

  datatype GetResponse = NeedStageOrBatch | GetFailed | Verifications(rows: seq<ImageVerification>)

  /** GET: the verifications of the stage when one is named, otherwise those of the batch. */
  function VerificationsGet(t: Tables, stageId: Option<string>, batchId: Option<string>, readFails: bool)
    : (r: GetResponse)
    ensures r == NeedStageOrBatch <==> !Truthy(stageId) && !Truthy(batchId)
    ensures r == GetFailed <==> (Truthy(stageId) || Truthy(batchId)) && readFails
    ensures r.Verifications? && Truthy(stageId) ==>
      (forall i :: 0 <= i < |r.rows| ==> r.rows[i] in t.verifications && r.rows[i].stageId == stageId.value)
      && (forall i :: 0 <= i < |t.verifications| && t.verifications[i].stageId == stageId.value ==> t.verifications[i] in r.rows)
    ensures r.Verifications? && !Truthy(stageId) ==>
      (forall i :: 0 <= i < |r.rows| ==> r.rows[i] in t.verifications && r.rows[i].batchId == batchId.value)
      && (forall i :: 0 <= i < |t.verifications| && t.verifications[i].batchId == batchId.value ==> t.verifications[i] in r.rows)
  {
    if !Truthy(stageId) && !Truthy(batchId) then NeedStageOrBatch
    else if readFails then GetFailed
    else if Truthy(stageId) then Verifications(Filter(VerificationOfStage(stageId.value), t.verifications))
    else Verifications(Filter(VerificationOfBatch(batchId.value), t.verifications))
  }

  datatype DeleteResponse = DeleteNeedsImageAndStage | DeleteFailed | VerificationReset

  function NotOfImage(imageUrl: string, stageId: string): ImageVerification -> bool {
    (v: ImageVerification) => !(v.imageUrl == imageUrl && v.stageId == stageId)
  }

  datatype DeleteOutcome = DeleteOutcome(response: DeleteResponse, tables: Tables)

  /** DELETE: every verification of the image in the stage goes; nothing else changes. */
  function Delete(t: Tables, imageUrl: Option<string>, stageId: Option<string>, fails: bool): (o: DeleteOutcome)
    ensures o.response == DeleteNeedsImageAndStage <==> !Truthy(imageUrl) || !Truthy(stageId)
    ensures o.response == DeleteFailed <==> Truthy(imageUrl) && Truthy(stageId) && fails
    ensures o.response != VerificationReset ==> o.tables == t
    ensures o.tables.(verifications := t.verifications) == t
    ensures o.response == VerificationReset ==> forall i :: 0 <= i < |o.tables.verifications| ==>
      o.tables.verifications[i] in t.verifications
      && !(o.tables.verifications[i].imageUrl == imageUrl.value && o.tables.verifications[i].stageId == stageId.value)
    ensures o.response == VerificationReset ==> forall i :: 0 <= i < |t.verifications| ==>
      (t.verifications[i].imageUrl == imageUrl.value && t.verifications[i].stageId == stageId.value)
      || t.verifications[i] in o.tables.verifications
  {
    if !Truthy(imageUrl) || !Truthy(stageId) then DeleteOutcome(DeleteNeedsImageAndStage, t)
    else if fails then DeleteOutcome(DeleteFailed, t)
    else DeleteOutcome(VerificationReset,
      t.(verifications := Filter(NotOfImage(imageUrl.value, stageId.value), t.verifications)))
  }

  method VerificationDelete(db: Database, imageUrl: Option<string>, stageId: Option<string>, fails: bool)
    returns (resp: DeleteResponse)
    modifies db
    ensures resp == Delete(old(db.Snapshot()), imageUrl, stageId, fails).response
    ensures db.Snapshot() == Delete(old(db.Snapshot()), imageUrl, stageId, fails).tables
  {
    if !Truthy(imageUrl) || !Truthy(stageId) {
      return DeleteNeedsImageAndStage;
    }
    if fails {
      return DeleteFailed;
    }
    db.verifications := Filter(NotOfImage(imageUrl.value, stageId.value), db.verifications);
    resp := VerificationReset;
  }

  // ---------------------------------------------------------------
  // Properties
  // ---------------------------------------------------------------

  /** A refused POST touches neither the tables nor storage. */
  lemma RefusedPostChangesNothing(t: Tables, buckets: map<string, map<string, StoredFile>>, req: VerificationRequest,
    ctx: PostContext)
    requires ValidationError(req).Some?
    ensures Post(t, buckets, req, ctx) == PostOutcome(ValidationError(req).value, t, buckets)
  {
  }

  /**
   * A recorded verdict is in the table: the row returned has the image, the
   * stage, the verdict, the verifier, the time and the reason of the request,
   * and is the one `.single()` finds for the image afterwards.
   */
  lemma PostRecordsVerdict(t: Tables, buckets: map<string, map<string, StoredFile>>, req: VerificationRequest,
    ctx: PostContext)
    requires UniqueImagePairs(t.verifications)
    requires !ctx.existenceReadFails || !AllPresent(req) || ExistingVerification(t.verifications, req).None?
    requires Post(t, buckets, req, ctx).response.Recorded?
    ensures var o := Post(t, buckets, req, ctx);
      var v := o.response.verification;
      AllPresent(req) && v in o.tables.verifications
      && v.imageUrl == req.imageUrl.value && v.stageId == req.stageId.value
      && v.verificationStatus == req.verificationStatus.value && v.verifiedBy == req.verifiedBy.value
      && v.verifiedAt == ctx.now && v.rejectionReason == ReasonFor(req)
      && ExistingVerification(o.tables.verifications, req) == Some(v)
  {
    var o := Post(t, buckets, req, ctx);
    var v := o.response.verification;
    var pick := VerificationOfImage(req.imageUrl.value, req.stageId.value);
    var existing := ExistingVerification(t.verifications, req);
    if existing.Some? {
      var e := existing.value;
      assert e in t.verifications;
      var k :| 0 <= k < |t.verifications| && t.verifications[k] == e;
      assert pick(e);
      UpdateKeepsOnlyRow(t.verifications, req, ctx.now, k);
    } else {
      NoRowOfImage(t.verifications, req);
      FilterNone(pick, t.verifications);
      FilterConcat(pick, t.verifications, [v]);
      assert Filter(pick, [v]) == [v];
    }
  }

  /** With one row of the image, `.single()` finds it again after the update, updated. */
  lemma UpdateKeepsOnlyRow(vs: seq<ImageVerification>, req: VerificationRequest, now: string, k: nat)
    requires AllPresent(req) && k < |vs|
    requires UniqueImagePairs(vs) && VerificationOfImage(req.imageUrl.value, req.stageId.value)(vs[k])
    ensures ExistingVerification(UpdateImageRows(vs, req, now), req) == Some(Updated(vs[k], req, now))
  {
    var pick := VerificationOfImage(req.imageUrl.value, req.stageId.value);
    var u := UpdateImageRows(vs, req, now);
    assert forall i :: 0 <= i < |vs| && i != k ==> !pick(vs[i]) by {
      forall i | 0 <= i < |vs| && i != k ensures !pick(vs[i]) {
        if i < k { assert !(vs[i].imageUrl == vs[k].imageUrl && vs[i].stageId == vs[k].stageId); }
        else { assert !(vs[k].imageUrl == vs[i].imageUrl && vs[k].stageId == vs[i].stageId); }
      }
    }
    assert forall i :: 0 <= i < |vs| && i != k ==> u[i] == vs[i];
    FilterSingle(pick, u, k);
  }

  /** Under unique image pairs, `.single()` finding nothing means no row of the image exists. */
  lemma NoRowOfImage(vs: seq<ImageVerification>, req: VerificationRequest)
    requires AllPresent(req) && UniqueImagePairs(vs)
    requires ExistingVerification(vs, req).None?
    ensures forall i :: 0 <= i < |vs| ==> !VerificationOfImage(req.imageUrl.value, req.stageId.value)(vs[i])
  {
    var pick := VerificationOfImage(req.imageUrl.value, req.stageId.value);
    if exists i :: 0 <= i < |vs| && pick(vs[i]) {
      var k :| 0 <= k < |vs| && pick(vs[k]);
      FilterSingle(pick, vs, k);
      assert false;
    }
  }

  /** Recording a verdict keeps at most one verification per image of a stage, when the existing row is read. */
  lemma RecordVerdictKeepsUniquePairs(t: Tables, req: VerificationRequest, ctx: PostContext)
    requires AllPresent(req) && UniqueImagePairs(t.verifications)
    requires !ctx.existenceReadFails || ExistingVerification(t.verifications, req).None?
    ensures UniqueImagePairs(RecordVerdict(t, req, ctx).1.verifications)
  {
    var vs := t.verifications;
    if !ctx.writeFails {
      var existing := ExistingVerification(vs, req);
      if existing.Some? {
        UniquePairsSameKeys(vs, UpdateImageRows(vs, req, ctx.now));
      } else {
        NoRowOfImage(vs, req);
        UniquePairsAppend(vs, Inserted(ctx.newId, req, ctx.now));
      }
    }
  }

  /**
   * POST keeps at most one verification per image of a stage, unless the
   * read of the existing row fails while there is one.
   */
  lemma PostKeepsUniquePairs(t: Tables, buckets: map<string, map<string, StoredFile>>, req: VerificationRequest,
    ctx: PostContext)
    requires UniqueImagePairs(t.verifications)
    requires !ctx.existenceReadFails || !AllPresent(req) || ExistingVerification(t.verifications, req).None?
    ensures UniqueImagePairs(Post(t, buckets, req, ctx).tables.verifications)
  {
    if ValidationError(req).None? {
      RecordVerdictKeepsUniquePairs(t, req, ctx);
    }
  }

  /**
   * As written, a failed read of the existing verification inserts a second
   * row for an image that already has one.
   */
  lemma LostExistenceReadDuplicates(t: Tables, buckets: map<string, map<string, StoredFile>>, req: VerificationRequest,
    ctx: PostContext, k: nat)
    requires ValidationError(req).None? && !ctx.writeFails && ctx.existenceReadFails
    requires k < |t.verifications|
    requires t.verifications[k].imageUrl == req.imageUrl.value && t.verifications[k].stageId == req.stageId.value
    ensures !UniqueImagePairs(Post(t, buckets, req, ctx).tables.verifications)
  {
    var vs := Post(t, buckets, req, ctx).tables.verifications;
    var v := Inserted(ctx.newId, req, ctx.now);
    assert vs == t.verifications + [v];
    assert vs[k] == t.verifications[k] && vs[|t.verifications|] == v;
  }

  /**
   * The farmer's notification of a recorded verdict: IMAGE_VERIFIED for REAL;
   * IMAGE_FLAGGED for FAKE, quoting the admin's reason (the generic message is
   * never sent, since a FAKE verdict without a reason is refused).
   */
  lemma PostNotifiesFarmer(t: Tables, buckets: map<string, map<string, StoredFile>>, req: VerificationRequest,
    ctx: PostContext)
    requires Post(t, buckets, req, ctx).response.Recorded? && !ctx.notificationFails
    ensures var o := Post(t, buckets, req, ctx);
      var ns := o.tables.notifications;
      |ns| == |t.notifications| + 1 && ns[..|t.notifications|] == t.notifications
      && ns[|t.notifications|].userId == req.farmerId.value
      && ns[|t.notifications|].metadata.verificationId == o.response.verification.id
      && (ns[|t.notifications|].kind == Some("IMAGE_VERIFIED") <==> req.verificationStatus == Some("REAL"))
      && (req.verificationStatus == Some("FAKE") ==>
        ns[|t.notifications|].message == Some(FlaggedReasonPrefix + req.rejectionReason.value))
      && ns[|t.notifications|].message != Some(FlaggedGenericMessage)
  {
    var reason := req.rejectionReason.GetOr("");
    assert (FlaggedReasonPrefix + reason)[32] == 'R' != FlaggedGenericMessage[32];
  }

  /** A FAKE verdict on an image of a stage of an unsynced batch keeps that batch from syncing. */
  lemma FakeVerdictStopsSync(t: Tables, buckets: map<string, map<string, StoredFile>>, req: VerificationRequest,
    ctx: PostContext, k: nat, batchId: string, sctx: SyncContext)
    requires Post(t, buckets, req, ctx).response.Recorded? && req.verificationStatus == Some("FAKE")
    requires Post(t, buckets, req, ctx).response.verification.batchId == batchId
    requires k < |t.stages| && t.stages[k].batchId == batchId && t.stages[k].id == req.stageId.value
    requires batchId != "" && batchId in t.batches && t.batches[batchId].blockchainStatus != Some("SYNCED")
    requires !sctx.faults.batchReadFails && !sctx.faults.stagesReadFails && !sctx.faults.verificationsReadFails
    ensures Sync(Post(t, buckets, req, ctx).tables, Some(batchId), sctx).response.NotReady?
  {
    var o := Post(t, buckets, req, ctx);
    var v := o.response.verification;
    assert v in o.tables.verifications;
    var i :| 0 <= i < |o.tables.verifications| && o.tables.verifications[i] == v;
    FakeImageStopsSync(o.tables, batchId, sctx, i, k);
  }

  /** DELETE leaves no verification of the image in the stage and keeps every other row, in order. */
  lemma DeleteResetsImage(t: Tables, imageUrl: string, stageId: string)
    requires imageUrl != "" && stageId != ""
    ensures var o := Delete(t, Some(imageUrl), Some(stageId), false);
      o.response == VerificationReset
      && (forall i :: 0 <= i < |o.tables.verifications| ==>
        !(o.tables.verifications[i].imageUrl == imageUrl && o.tables.verifications[i].stageId == stageId))
      && (forall i :: (0 <= i < |t.verifications|
        && !(t.verifications[i].imageUrl == imageUrl && t.verifications[i].stageId == stageId)) ==>
        t.verifications[i] in o.tables.verifications)
      && o.tables.(verifications := t.verifications) == t
  {
    var o := Delete(t, Some(imageUrl), Some(stageId), false);
    forall i | 0 <= i < |o.tables.verifications|
      ensures !(o.tables.verifications[i].imageUrl == imageUrl && o.tables.verifications[i].stageId == stageId)
    {
      assert NotOfImage(imageUrl, stageId)(o.tables.verifications[i]);
    }
  }

  /** Resetting a verdict just inserted for an image that had none gives back the verification table as it was. */
  lemma DeleteUndoesInsert(t: Tables, buckets: map<string, map<string, StoredFile>>, req: VerificationRequest,
    ctx: PostContext)
    requires UniqueImagePairs(t.verifications)
    requires Post(t, buckets, req, ctx).response.Recorded?
    requires ExistingVerification(t.verifications, req).None?
    ensures Delete(Post(t, buckets, req, ctx).tables, req.imageUrl, req.stageId, false).tables.verifications
      == t.verifications
  {
    var o := Post(t, buckets, req, ctx);
    var v := o.response.verification;
    var keep := NotOfImage(req.imageUrl.value, req.stageId.value);
    NoRowOfImage(t.verifications, req);
    assert o.tables.verifications == t.verifications + [v];
    FilterConcat(keep, t.verifications, [v]);
    assert Filter(keep, [v]) == [];
    FilterAll(keep, t.verifications);
  }

  // ---------------------------------------------------------------
  // The removal key
  // ---------------------------------------------------------------

  /**
   * The public URL of an object of `batch-images` at `path` (when the marker
   * first occurs where the URL format puts it and not again after it) splits
   * into the tail `batch-images/<encoded path>`.
   */
  lemma PublicUrlTail(projectUrl: string, path: string)
    requires var url := PublicUrl(projectUrl, ImageBucket, path);
      forall j :: 0 <= j < |EncodeUri(projectUrl)| ==> !OccursAt(url, PublicMarker, j)
    requires !Contains(ImageBucket + "/" + EncodeUri(path), PublicMarker)
    ensures AsWrittenRemovalKey(PublicUrl(projectUrl, ImageBucket, path))
      == Some(ImageBucket + "/" + EncodeUri(path))
  {
    PublicUrlShape(projectUrl, ImageBucket, path);
    ImageBucketKept();
    TailOfEncoded(PublicUrl(projectUrl, ImageBucket, path), EncodeUri(projectUrl), EncodeUri(path));
  }

  /** The split of `p + marker + batch-images/ + e`, with the marker only where the format puts it. */
  lemma TailOfEncoded(url: string, p: string, e: string)
    requires url == p + PublicMarker + ImageBucket + "/" + e
    requires forall j :: 0 <= j < |p| ==> !OccursAt(url, PublicMarker, j)
    requires !Contains(ImageBucket + "/" + e, PublicMarker)
    ensures AsWrittenRemovalKey(url) == Some(ImageBucket + "/" + e)
  {
    var tail := ImageBucket + "/" + e;
    assert url == p + PublicMarker + tail;
    SplitSecondOfMarker(p, PublicMarker, tail);
  }

  /**
   * As written, flagging an uploaded image FAKE leaves its object in
   * `batch-images`: the key removed still carries the bucket's name.
   */
  lemma AsWrittenKeepsFakeImage(projectUrl: string, path: string, buckets: map<string, map<string, StoredFile>>,
    t: Tables, req: VerificationRequest, ctx: PostContext)
    requires req.imageUrl == Some(PublicUrl(projectUrl, ImageBucket, path))
    requires forall j :: 0 <= j < |EncodeUri(projectUrl)| ==> !OccursAt(req.imageUrl.value, PublicMarker, j)
    requires !Contains(ImageBucket + "/" + EncodeUri(path), PublicMarker)
    requires ValidationError(req).None? && req.verificationStatus == Some("FAKE") && !ctx.removeFails
    requires ImageBucket in buckets && path in buckets[ImageBucket]
    ensures AsWrittenRemovalKey(req.imageUrl.value) == Some(ImageBucket + "/" + EncodeUri(path))
    ensures path in BucketsAfterVerdict(buckets, req, ctx)[ImageBucket]
    ensures path in Post(t, buckets, req, ctx).buckets[ImageBucket]
  {
    PublicUrlTail(projectUrl, path);
    assert |ImageBucket + "/" + EncodeUri(path)| != |path|;
  }

  /**
   * With the bucket's name taken off the key and the key decoded, flagging
   * an uploaded image FAKE removes its object, whatever characters its path
   * holds.
   */
  lemma FakeVerdictRemovesImage(projectUrl: string, path: string, buckets: map<string, map<string, StoredFile>>,
    req: VerificationRequest, ctx: PostContext)
    requires req.imageUrl == Some(PublicUrl(projectUrl, ImageBucket, path))
    requires forall j :: 0 <= j < |EncodeUri(projectUrl)| ==> !OccursAt(req.imageUrl.value, PublicMarker, j)
    requires !Contains(ImageBucket + "/" + EncodeUri(path), PublicMarker)
    requires req.verificationStatus == Some("FAKE") && !ctx.removeFails
    requires ImageBucket in buckets
    ensures RemovalKey(req.imageUrl.value) == Some(path)
    ensures path !in IntendedBucketsAfterVerdict(buckets, req, ctx)[ImageBucket]
  {
    PublicUrlTail(projectUrl, path);
    var tail := ImageBucket + "/" + EncodeUri(path);
    assert StartsWith(tail, ImageBucket + "/");
    assert tail[|ImageBucket + "/"|..] == EncodeUri(path);
    DecodeEncodeUri(path);
  }
}
