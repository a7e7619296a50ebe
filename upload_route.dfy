/**
 * `/api/upload`: an image is checked against the upload configuration and
 * stored under `farmer/batch/stage/<time>-<random>.<extension>` (POST), and
 * a stored file is removed by name (DELETE).
 */
module UploadRoute {
  import opened Wrappers
  import opened Text
  import opened Persistence

  /** A file of the multipart form. */
  datatype UploadedFile = UploadedFile(name: string, contentType: string, size: nat)

  /**
   * `UPLOAD_CONFIG`: the accepted MIME types, the size limit in bytes, and
   * the text JavaScript prints for the limit divided by 1024 twice.
   */
  datatype UploadConfig = UploadConfig(allowedTypes: seq<string>, maxSize: nat, maxSizeMbText: string)

  datatype FileCheck = FileCheck(valid: bool, error: Option<string>)

  /** `validateFile`: the type is tested first, then the size; a file exactly at the limit passes. */
  function ValidateFile(file: UploadedFile, cfg: UploadConfig): (v: FileCheck)
    ensures v.valid <==> file.contentType in cfg.allowedTypes && file.size <= cfg.maxSize
    ensures v.valid <==> v.error.None?
    ensures file.contentType !in cfg.allowedTypes ==>
      v.error == Some("Invalid file type. Allowed types: " + Join(cfg.allowedTypes, ", "))
    ensures file.contentType in cfg.allowedTypes && file.size > cfg.maxSize ==>
      v.error == Some("File too large. Maximum size: " + cfg.maxSizeMbText + "MB")
  {
    if file.contentType !in cfg.allowedTypes then
      FileCheck(false, Some("Invalid file type. Allowed types: " + Join(cfg.allowedTypes, ", ")))
    else if file.size > cfg.maxSize then
      FileCheck(false, Some("File too large. Maximum size: " + cfg.maxSizeMbText + "MB"))
    else FileCheck(true, None)
  }

  /** The characters a folder name is left with: lower-case letters, digits, `-` and `_`. */
  predicate IsFolderChar(c: char) {
    'a' <= c <= 'z' || '0' <= c <= '9' || c == '-' || c == '_'
  }

  /**
   * `sanitizeFolderName`: every character outside `[a-zA-Z0-9-_]` becomes `-`,
   * then the name is lower-cased; a missing or empty name is `unknown`.
   */
  function SanitizeFolderName(name: Option<string>): (r: string)
    ensures !Truthy(name) ==> r == "unknown"
    ensures Truthy(name) ==> |r| == |name.value|
    ensures Truthy(name) ==> forall i :: 0 <= i < |r| ==>
      r[i] == if IsNameChar(name.value[i]) then LowerAscii(name.value[i]) else '-'
  {
    if !Truthy(name) then "unknown" else ToLowerAscii(ReplaceDisallowed(name.value, '-'))
  }

  /** `file.name.split('.').pop()`: the text after the last dot; a name without a dot is its own extension. */
  function Extension(fileName: string): (e: string)
    ensures '.' !in e
    ensures |e| <= |fileName| && e == fileName[|fileName| - |e|..]
  {
    AfterLast(fileName, '.')
  }

  /** The stored path: three sanitised folders and a leaf named by the time, the random text and the extension. */
  function OrganizedPath(farmerName: Option<string>, batchName: Option<string>, stageName: Option<string>,
    timestampMs: nat, randomString: string, fileName: string): string
  {
    SanitizeFolderName(farmerName) + "/" + SanitizeFolderName(batchName) + "/" + SanitizeFolderName(stageName) + "/"
      + NatToString(timestampMs) + "-" + randomString + "." + Extension(fileName)
  }

  datatype UploadRequest = UploadRequest(file: Option<UploadedFile>, farmerName: Option<string>,
    batchName: Option<string>, stageName: Option<string>)

  /**
   * `bucket` is `STORAGE_BUCKET`; `timestampMs` and `randomString` stand for
   * `Date.now()` and `Math.random().toString(36).substring(2, 8)`.
   */
  datatype UploadContext = UploadContext(bucket: string, projectUrl: string, timestampMs: nat, randomString: string,
    uploadFails: bool)

  datatype FolderStructure = FolderStructure(farmer: Option<string>, batch: Option<string>, stage: Option<string>,
    path: string)

  datatype UploadResponse =
    | NoFile
    | InvalidFile(error: string)
    | UploadFailed
    | Uploaded(url: string, fileName: string, size: nat, contentType: string, folderStructure: FolderStructure)

  function UploadStatusCode(r: UploadResponse): nat {
    match r
    case NoFile => 400
    case InvalidFile(_) => 400
    case UploadFailed => 500
    case Uploaded(_, _, _, _, _) => 200
  }

  datatype UploadOutcome = UploadOutcome(response: UploadResponse, buckets: map<string, map<string, StoredFile>>)

  /** The specification of POST. */
  function Upload(buckets: map<string, map<string, StoredFile>>, req: UploadRequest, cfg: UploadConfig,
    ctx: UploadContext): (o: UploadOutcome)
    ensures o.response == NoFile <==> req.file.None?
    ensures o.response.InvalidFile? <==> req.file.Some? && !ValidateFile(req.file.value, cfg).valid
    ensures o.response.InvalidFile? ==> Some(o.response.error) == ValidateFile(req.file.value, cfg).error
    ensures !o.response.Uploaded? ==> o.buckets == buckets
    ensures o.response.Uploaded? ==>
      req.file.Some? && ValidateFile(req.file.value, cfg).valid && !ctx.uploadFails && ctx.bucket in buckets
      && o.response.fileName !in buckets[ctx.bucket]
      && o.buckets == buckets[ctx.bucket := buckets[ctx.bucket][o.response.fileName :=
        StoredFile(req.file.value.contentType, req.file.value.size)]]
      && o.response.url == PublicUrl(ctx.projectUrl, ctx.bucket, o.response.fileName)
      && o.response.folderStructure.path == o.response.fileName
      && o.response.size == req.file.value.size && o.response.contentType == req.file.value.contentType
  {
    if req.file.None? then UploadOutcome(NoFile, buckets)
    else
      var file := req.file.value;
      var check := ValidateFile(file, cfg);
      if !check.valid then UploadOutcome(InvalidFile(check.error.value), buckets)
      else
        var path := OrganizedPath(req.farmerName, req.batchName, req.stageName, ctx.timestampMs, ctx.randomString,
          file.name);
        if ctx.uploadFails || ctx.bucket !in buckets || path in buckets[ctx.bucket] then UploadOutcome(UploadFailed, buckets)
        else
          UploadOutcome(
            Uploaded(PublicUrl(ctx.projectUrl, ctx.bucket, path), path, file.size, file.contentType,
              FolderStructure(req.farmerName, req.batchName, req.stageName, path)),
            buckets[ctx.bucket := buckets[ctx.bucket][path := StoredFile(file.contentType, file.size)]])
  }

  method UploadPost(storage: Storage, req: UploadRequest, cfg: UploadConfig, ctx: UploadContext)
    returns (resp: UploadResponse)
    modifies storage
    ensures resp == Upload(old(storage.buckets), req, cfg, ctx).response
    ensures storage.buckets == Upload(old(storage.buckets), req, cfg, ctx).buckets
  {
    if req.file.None? {
      return NoFile;
    }
    var file := req.file.value;
    var validation := ValidateFile(file, cfg);
    if !validation.valid {
      return InvalidFile(validation.error.value);
    }
    var organizedPath := OrganizedPath(req.farmerName, req.batchName, req.stageName, ctx.timestampMs,
      ctx.randomString, file.name);
    var ok := storage.Upload(ctx.bucket, organizedPath, StoredFile(file.contentType, file.size), ctx.uploadFails);
    if !ok {
      return UploadFailed;
    }
    resp := Uploaded(PublicUrl(ctx.projectUrl, ctx.bucket, organizedPath), organizedPath, file.size, file.contentType,
      FolderStructure(req.farmerName, req.batchName, req.stageName, organizedPath));
  }

  datatype FileDeleteResponse = FileNameRequired | FileDeleteFailed | FileDeleted

  datatype FileDeleteOutcome = FileDeleteOutcome(response: FileDeleteResponse,
    buckets: map<string, map<string, StoredFile>>)

  /** The specification of DELETE. */
  function DeleteFile(buckets: map<string, map<string, StoredFile>>, fileName: Option<string>, bucket: string,
    fails: bool): (o: FileDeleteOutcome)
    ensures o.response == FileNameRequired <==> !Truthy(fileName)
    ensures o.response == FileDeleteFailed <==> Truthy(fileName) && (fails || bucket !in buckets)
    ensures o.response != FileDeleted ==> o.buckets == buckets
    ensures o.buckets.Keys == buckets.Keys
    ensures forall n :: n in buckets && n != bucket ==> o.buckets[n] == buckets[n]
    ensures o.response == FileDeleted ==>
      bucket in buckets && fileName.value !in o.buckets[bucket]
      && forall k :: k in buckets[bucket] && k != fileName.value ==>
        k in o.buckets[bucket] && o.buckets[bucket][k] == buckets[bucket][k]
  {
    if !Truthy(fileName) then FileDeleteOutcome(FileNameRequired, buckets)
    else if fails || bucket !in buckets then FileDeleteOutcome(FileDeleteFailed, buckets)
    else FileDeleteOutcome(FileDeleted, buckets[bucket := buckets[bucket] - {fileName.value}])
  }

  method FileDelete(storage: Storage, fileName: Option<string>, bucket: string, fails: bool)
    returns (resp: FileDeleteResponse)
    modifies storage
    ensures resp == DeleteFile(old(storage.buckets), fileName, bucket, fails).response
    ensures storage.buckets == DeleteFile(old(storage.buckets), fileName, bucket, fails).buckets
  {
    if !Truthy(fileName) {
      return FileNameRequired;
    }
    var ok := storage.Remove(bucket, fileName.value, fails);
    if !ok {
      return FileDeleteFailed;
    }
    resp := FileDeleted;
  }

  // ---------------------------------------------------------------
  // Properties
  // ---------------------------------------------------------------

  /** A sanitised folder name holds only lower-case letters, digits, `-` and `_`, so never a `/`. */
  lemma FolderNameIsSafe(name: Option<string>)
    ensures forall i :: 0 <= i < |SanitizeFolderName(name)| ==> IsFolderChar(SanitizeFolderName(name)[i])
    ensures '/' !in SanitizeFolderName(name) && |SanitizeFolderName(name)| > 0
  {
    var r := SanitizeFolderName(name);
    if !Truthy(name) {
      assert r == "unknown";
      assert forall i :: 0 <= i < |r| ==> IsFolderChar(r[i]);
    }
  }

  /** Sanitising twice is sanitising once. */
  lemma SanitizeIdempotent(name: Option<string>)
    ensures SanitizeFolderName(Some(SanitizeFolderName(name))) == SanitizeFolderName(name)
  {
    var r := SanitizeFolderName(name);
    FolderNameIsSafe(name);
    var r' := SanitizeFolderName(Some(r));
    assert |r'| == |r|;
    forall i | 0 <= i < |r| ensures r'[i] == r[i] {
      assert IsFolderChar(r[i]);
    }
  }

  /** A name already made only of lower-case letters, digits, `-` and `_` is kept as it is. */
  lemma SafeNameKept(name: string)
    requires name != "" && forall i :: 0 <= i < |name| ==> IsFolderChar(name[i])
    ensures SanitizeFolderName(Some(name)) == name
  {
    var r := SanitizeFolderName(Some(name));
    forall i | 0 <= i < |name| ensures r[i] == name[i] {
      assert IsFolderChar(name[i]);
    }
  }

  /** A file name without a dot is taken whole as the extension. */
  lemma NoDotExtension(fileName: string)
    requires '.' !in fileName
    ensures Extension(fileName) == fileName
  {
  }

  /**
   * A successful upload stores the file, with its type and size, under a path
   * that was free, in three safe folders; the response names that path.
   */
  lemma UploadStoresFile(buckets: map<string, map<string, StoredFile>>, req: UploadRequest, cfg: UploadConfig,
    ctx: UploadContext)
    requires Upload(buckets, req, cfg, ctx).response.Uploaded?
    ensures var o := Upload(buckets, req, cfg, ctx);
      var path := o.response.fileName;
      var file := req.file.value;
      ValidateFile(file, cfg).valid
      && ctx.bucket in buckets && path !in buckets[ctx.bucket]
      && ctx.bucket in o.buckets && o.buckets[ctx.bucket][path] == StoredFile(file.contentType, file.size)
      && (forall b :: b in buckets && b != ctx.bucket ==> b in o.buckets && o.buckets[b] == buckets[b])
      && (forall q :: q in buckets[ctx.bucket] ==> q in o.buckets[ctx.bucket] && o.buckets[ctx.bucket][q] == buckets[ctx.bucket][q])
      && path == SanitizeFolderName(req.farmerName) + "/" + SanitizeFolderName(req.batchName) + "/"
        + SanitizeFolderName(req.stageName) + "/" + NatToString(ctx.timestampMs) + "-" + ctx.randomString
        + "." + Extension(file.name)
      && '/' !in SanitizeFolderName(req.farmerName) && '/' !in SanitizeFolderName(req.batchName)
      && '/' !in SanitizeFolderName(req.stageName)
  {
    FolderNameIsSafe(req.farmerName);
    FolderNameIsSafe(req.batchName);
    FolderNameIsSafe(req.stageName);
  }

  /** Deleting the file a successful upload reports gives storage back as it was. */
  lemma DeleteUndoesUpload(buckets: map<string, map<string, StoredFile>>, req: UploadRequest, cfg: UploadConfig,
    ctx: UploadContext)
    requires Upload(buckets, req, cfg, ctx).response.Uploaded?
    ensures var o := Upload(buckets, req, cfg, ctx);
      DeleteFile(o.buckets, Some(o.response.fileName), ctx.bucket, false) == FileDeleteOutcome(FileDeleted, buckets)
  {
    var o := Upload(buckets, req, cfg, ctx);
    var path := o.response.fileName;
    FolderNameIsSafe(req.farmerName);
    assert path != "";
    assert o.buckets[ctx.bucket] - {path} == buckets[ctx.bucket];
    assert o.buckets[ctx.bucket := o.buckets[ctx.bucket] - {path}] == buckets;
  }
}
