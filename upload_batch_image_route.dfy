/**
 * `POST /api/upload-batch-image`: a stage image is stored in `batch-images`
 * under `user/stage/<time>-<file name>`, both folder names with every
 * character outside `[a-zA-Z0-9-_]` replaced by `_`.
 */
module UploadBatchImageRoute {
  import opened Wrappers
  import opened Text
  import opened Persistence
  import opened UploadRoute
  import opened ImageVerificationRoute
  import opened Uri

  datatype BatchImageRequest = BatchImageRequest(file: Option<UploadedFile>, userName: Option<string>,
    stageName: Option<string>)

  /** `timestampMs` stands for `Date.now()`; `projectUrl` is the Supabase project the public URL points to. */
  datatype BatchImageContext = BatchImageContext(projectUrl: string, timestampMs: nat, uploadFails: bool)

  datatype BatchImageResponse =
    | BatchImageNoFile
    | NamesRequired
    | BatchImageUploadFailed
    | BatchImageUploaded(url: string, path: string, folder: string)

  function BatchImageStatusCode(r: BatchImageResponse): nat {
    match r
    case BatchImageNoFile => 400
    case NamesRequired => 400
    case BatchImageUploadFailed => 500
    case BatchImageUploaded(_, _, _) => 200
  }

  datatype BatchImageOutcome = BatchImageOutcome(response: BatchImageResponse,
    buckets: map<string, map<string, StoredFile>>)

  /** `name.replace(/[^a-zA-Z0-9-_]/g, '_')`: case is kept. */
  function SanitizeName(name: string): (r: string)
    ensures |r| == |name|
    ensures forall i :: 0 <= i < |r| ==> IsNameChar(r[i])
    ensures forall i :: 0 <= i < |r| ==> (r[i] == name[i] <==> IsNameChar(name[i]))
  {
    ReplaceDisallowed(name, '_')
  }

  function Folder(userName: string, stageName: string): string {
    SanitizeName(userName) + "/" + SanitizeName(stageName)
  }

  function StoredPath(userName: string, stageName: string, timestampMs: nat, fileName: string): string {
    Folder(userName, stageName) + "/" + NatToString(timestampMs) + "-" + fileName
  }

  /** The specification of the route. */
  function BatchImageUpload(buckets: map<string, map<string, StoredFile>>, req: BatchImageRequest,
    ctx: BatchImageContext): (o: BatchImageOutcome)
    ensures o.response == BatchImageNoFile <==> req.file.None?
    ensures o.response == NamesRequired <==> req.file.Some? && (!Truthy(req.userName) || !Truthy(req.stageName))
    ensures !o.response.BatchImageUploaded? ==> o.buckets == buckets
    ensures o.response.BatchImageUploaded? ==>
      req.file.Some? && Truthy(req.userName) && Truthy(req.stageName) && !ctx.uploadFails
      && ImageBucket in buckets && o.response.path !in buckets[ImageBucket]
      && o.buckets == buckets[ImageBucket := buckets[ImageBucket][o.response.path :=
        StoredFile(req.file.value.contentType, req.file.value.size)]]
      && o.response.url == PublicUrl(ctx.projectUrl, ImageBucket, o.response.path)
      && o.response.path == StoredPath(req.userName.value, req.stageName.value, ctx.timestampMs, req.file.value.name)
  {
    if req.file.None? then BatchImageOutcome(BatchImageNoFile, buckets)
    else if !Truthy(req.userName) || !Truthy(req.stageName) then BatchImageOutcome(NamesRequired, buckets)
    else
      var file := req.file.value;
      var path := StoredPath(req.userName.value, req.stageName.value, ctx.timestampMs, file.name);
      if ctx.uploadFails || ImageBucket !in buckets || path in buckets[ImageBucket] then
        BatchImageOutcome(BatchImageUploadFailed, buckets)
      else
        BatchImageOutcome(
          BatchImageUploaded(PublicUrl(ctx.projectUrl, ImageBucket, path), path,
            Folder(req.userName.value, req.stageName.value)),
          buckets[ImageBucket := buckets[ImageBucket][path := StoredFile(file.contentType, file.size)]])
  }

  method BatchImagePost(storage: Storage, req: BatchImageRequest, ctx: BatchImageContext)
    returns (resp: BatchImageResponse)
    modifies storage
    ensures resp == BatchImageUpload(old(storage.buckets), req, ctx).response
    ensures storage.buckets == BatchImageUpload(old(storage.buckets), req, ctx).buckets
  {
    if req.file.None? {
      return BatchImageNoFile;
    }
    if !Truthy(req.userName) || !Truthy(req.stageName) {
      return NamesRequired;
    }
    var file := req.file.value;
    var sanitizedUserName := SanitizeName(req.userName.value);
    var sanitizedStageName := SanitizeName(req.stageName.value);
    var fileName := sanitizedUserName + "/" + sanitizedStageName + "/" + NatToString(ctx.timestampMs) + "-" + file.name;
    var ok := storage.Upload(ImageBucket, fileName, StoredFile(file.contentType, file.size), ctx.uploadFails);
    if !ok {
      return BatchImageUploadFailed;
    }
    resp := BatchImageUploaded(PublicUrl(ctx.projectUrl, ImageBucket, fileName), fileName,
      sanitizedUserName + "/" + sanitizedStageName);
  }

  // ---------------------------------------------------------------
  // Properties
  // ---------------------------------------------------------------

  /** A name made only of allowed characters is kept as it is. */
  lemma SanitizeNameKeepsSafeNames(name: string)
    requires forall i :: 0 <= i < |name| ==> IsNameChar(name[i])
    ensures SanitizeName(name) == name
  {
  }

  /** The folder is the two sanitised names joined by its only `/`, and the stored path lies inside it. */
  lemma FolderShape(userName: string, stageName: string, timestampMs: nat, fileName: string)
    ensures var folder := Folder(userName, stageName);
      CountChar(folder, '/') == 1
      && StartsWith(StoredPath(userName, stageName, timestampMs, fileName), folder + "/")
      && folder[..|userName|] == SanitizeName(userName) && folder[|userName|] == '/'
  {
    var u := SanitizeName(userName);
    var s := SanitizeName(stageName);
    assert '/' !in u by {
      forall i | 0 <= i < |u| ensures u[i] != '/' { assert IsNameChar(u[i]); }
    }
    assert '/' !in s by {
      forall i | 0 <= i < |s| ensures s[i] != '/' { assert IsNameChar(s[i]); }
    }
    CountCharConcat(u, "/", '/');
    CountCharConcat(u + "/", s, '/');
    var folder := Folder(userName, stageName);
    var path := StoredPath(userName, stageName, timestampMs, fileName);
    assert path == (folder + "/") + (NatToString(timestampMs) + "-" + fileName);
  }

  /** A successful upload stores the file under the path it reports, which was free, and touches no other object. */
  lemma BatchImageStoresFile(buckets: map<string, map<string, StoredFile>>, req: BatchImageRequest,
    ctx: BatchImageContext)
    requires BatchImageUpload(buckets, req, ctx).response.BatchImageUploaded?
    ensures var o := BatchImageUpload(buckets, req, ctx);
      var path := o.response.path;
      Truthy(req.userName) && Truthy(req.stageName)
      && ImageBucket in buckets && path !in buckets[ImageBucket]
      && o.buckets[ImageBucket][path] == StoredFile(req.file.value.contentType, req.file.value.size)
      && o.buckets[ImageBucket].Keys == buckets[ImageBucket].Keys + {path}
      && o.response.url == PublicUrl(ctx.projectUrl, ImageBucket, path)
      && StartsWith(path, o.response.folder + "/")
  {
    var o := BatchImageUpload(buckets, req, ctx);
    FolderShape(req.userName.value, req.stageName.value, ctx.timestampMs, req.file.value.name);
  }

  /**
   * As written, the URL an upload reports, flagged FAKE in the
   * image-verification route, leaves the object it names in storage (when
   * the marker of public URLs occurs in the URL only where the format puts it).
   */
  lemma FlaggedUploadStaysAsWritten(buckets: map<string, map<string, StoredFile>>, req: BatchImageRequest,
    ctx: BatchImageContext, verdict: VerificationRequest, pctx: PostContext)
    requires BatchImageUpload(buckets, req, ctx).response.BatchImageUploaded?
    requires verdict.imageUrl == Some(BatchImageUpload(buckets, req, ctx).response.url)
    requires forall j :: 0 <= j < |EncodeUri(ctx.projectUrl)| ==> !OccursAt(verdict.imageUrl.value, PublicMarker, j)
    requires !Contains(ImageBucket + "/" + EncodeUri(BatchImageUpload(buckets, req, ctx).response.path), PublicMarker)
    requires ValidationError(verdict).None? && verdict.verificationStatus == Some("FAKE") && !pctx.removeFails
    ensures var o := BatchImageUpload(buckets, req, ctx);
      o.response.path in BucketsAfterVerdict(o.buckets, verdict, pctx)[ImageBucket]
  {
    var o := BatchImageUpload(buckets, req, ctx);
    AsWrittenKeepsFakeImage(ctx.projectUrl, o.response.path, o.buckets, Tables(map[], [], [], [], [], []), verdict, pctx);
  }

  /**
   * With the corrected removal key, the URL an upload reports, flagged FAKE,
   * has the object it names removed again.
   */
  lemma FlaggedUploadIsRemoved(buckets: map<string, map<string, StoredFile>>, req: BatchImageRequest,
    ctx: BatchImageContext, verdict: VerificationRequest, pctx: PostContext)
    requires BatchImageUpload(buckets, req, ctx).response.BatchImageUploaded?
    requires verdict.imageUrl == Some(BatchImageUpload(buckets, req, ctx).response.url)
    requires forall j :: 0 <= j < |EncodeUri(ctx.projectUrl)| ==> !OccursAt(verdict.imageUrl.value, PublicMarker, j)
    requires !Contains(ImageBucket + "/" + EncodeUri(BatchImageUpload(buckets, req, ctx).response.path), PublicMarker)
    requires verdict.verificationStatus == Some("FAKE") && !pctx.removeFails
    ensures var o := BatchImageUpload(buckets, req, ctx);
      o.response.path in o.buckets[ImageBucket]
      && o.response.path !in IntendedBucketsAfterVerdict(o.buckets, verdict, pctx)[ImageBucket]
  {
    var o := BatchImageUpload(buckets, req, ctx);
    FakeVerdictRemovesImage(ctx.projectUrl, o.response.path, o.buckets, verdict, pctx);
  }
}
