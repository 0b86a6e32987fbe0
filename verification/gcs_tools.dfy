/** The Cloud Storage listing tools of adk/gcs_tools.py. The storage client is
    a parameter: a function from the query the tool sends to what the client
    returns or raises. */
module GcsTools {
  import opened Wrappers
  import opened Json
  import Strings

  /** The listing limits and project read from the environment. */
  datatype GcsConfig = GcsConfig(projectId: string, bucketsLimit: int, blobsLimit: int)

  /** A raised client error: a `GoogleAPIError` or any other exception. */
  datatype ClientError = ApiError(message: string) | OtherError(message: string)

  /** `x if x is not None else default`: an explicit 0 is kept. */
  function EffectiveLimit(maxResults: Option<int>, default: int): (n: int)
    ensures maxResults.None? ==> n == default
    ensures maxResults.Some? ==> n == maxResults.value
  {
    if maxResults.None? then default else maxResults.value
  }

  /** Python truthiness of an optional string. */
  predicate Truthy(o: Option<string>) {
    o.Some? && o.value != ""
  }

  /** The " with prefix '<p>'" tail of the listing messages. */
  function PrefixSuffix(prefix: Option<string>): (s: string)
    ensures s == "" <==> !Truthy(prefix)
  {
    if Truthy(prefix) then " with prefix '" + prefix.value + "'" else ""
  }

  /** The error result of a listing tool; `apiPrefix` is the tool's own
      message for storage API errors. */
  function ClientErrorResult(e: ClientError, apiPrefix: string): (r: ToolResult)
    ensures IsError(r)
    ensures r["error_message"] == Str(e.message)
    ensures e.ApiError? ==> r["message"] == Str(apiPrefix + e.message)
    ensures e.OtherError? ==> r["message"] == Str("An unexpected error occurred: " + e.message)
  {
    match e
    case ApiError(m) => ErrorResult(m, apiPrefix)
    case OtherError(m) => ErrorResult(m, "An unexpected error occurred: ")
  }

  // ---------------------------------------------------------------------------
  // list_gcs_buckets

  /** A bucket as the client lists it; the timestamps are already ISO text
      when present. */
  datatype BucketInfo = BucketInfo(
    name: string,
    location: string,
    storageClass: string,
    created: Option<string>,
    updated: Option<string>)

  /** The arguments of `client.list_buckets`, with the project the client
      was built for. */
  datatype BucketQuery = BucketQuery(project: string, prefix: Option<string>, maxResults: int)

  /** One entry of the bucket list; it names the listed bucket. */
  function BucketEntry(b: BucketInfo): (v: Value)
    ensures v.Obj? && "name" in v.fields && v.fields["name"] == Str(b.name)
    ensures "created" in v.fields && (v.fields["created"] == Null <==> b.created.None?)
  {
    var rest := map[
      "location" := Str(b.location),
      "storage_class" := Str(b.storageClass),
      "updated" := OptStr(b.updated)];
    Obj(rest["created" := OptStr(b.created)]["name" := Str(b.name)])
  }

  /** `list_gcs_buckets`: lists with the given prefix and the given limit, or
      the configured one when none is given, and reports every bucket in order
      with their count; a raised client error becomes an error result. */
  function ListGcsBuckets(
    cfg: GcsConfig, prefix: Option<string>, maxResults: Option<int>,
    listBuckets: BucketQuery -> Result<seq<BucketInfo>, ClientError>): (r: ToolResult)
    ensures WellFormed(r)
    ensures var out := listBuckets(BucketQuery(cfg.projectId, prefix, EffectiveLimit(maxResults, cfg.bucketsLimit)));
            && (IsSuccess(r) <==> out.Success?)
            && (out.Success? ==>
                  && "buckets" in r && r["buckets"].Arr?
                  && |r["buckets"].items| == |out.value|
                  && (forall i :: 0 <= i < |out.value| ==> r["buckets"].items[i] == BucketEntry(out.value[i]))
                  && "count" in r && r["count"] == Int(|out.value|)
                  && "message" in r
                  && r["message"] == Str("Found " + Strings.NatToString(|out.value|) + " bucket(s)" + PrefixSuffix(prefix)))
            && (out.Failure? ==> r == ClientErrorResult(out.error, "Failed to list buckets: "))
  {
    var query := BucketQuery(cfg.projectId, prefix, EffectiveLimit(maxResults, cfg.bucketsLimit));
    match listBuckets(query)
    case Failure(e) => ClientErrorResult(e, "Failed to list buckets: ")
    case Success(buckets) =>
      var entries := seq(|buckets|, i requires 0 <= i < |buckets| => BucketEntry(buckets[i]));
      map[
        "status" := Str("success"),
        "buckets" := Arr(entries),
        "count" := Int(|entries|),
        "message" := Str("Found " + Strings.NatToString(|entries|) + " bucket(s)" + PrefixSuffix(prefix))]
  }

  /** The bucket message mentions a prefix exactly when a non-empty one was
      given: only then does it end in a quote rather than in "bucket(s)". */
  lemma BucketMessageNamesPrefix(
    cfg: GcsConfig, prefix: Option<string>, maxResults: Option<int>,
    listBuckets: BucketQuery -> Result<seq<BucketInfo>, ClientError>)
    requires IsSuccess(ListGcsBuckets(cfg, prefix, maxResults, listBuckets))
    ensures var m := ListGcsBuckets(cfg, prefix, maxResults, listBuckets)["message"].s;
            |m| > 0 && (m[|m| - 1] == '\'' <==> Truthy(prefix))
  {
  }

  // ---------------------------------------------------------------------------
  // list_blobs_in_bucket

  /** A blob as the client lists it. */
  datatype BlobInfo = BlobInfo(
    name: string,
    size: Option<int>,
    updated: Option<string>,
    contentType: Option<string>)

  /** The arguments of `client.list_blobs`, with the project the client
      was built for. */
  datatype BlobQuery = BlobQuery(
    project: string, bucket: string, prefix: Option<string>, delimiter: Option<string>, maxResults: int)

  /** What the listing iterator yields: the blobs, then the folder prefixes
      it collected on the way. The client keeps the prefixes as a set, so
      they are distinct and in no particular order; the tool reports them in
      whatever order the page gives. */
  datatype BlobPage = BlobPage(blobs: seq<BlobInfo>, prefixes: seq<string>)

  const PublicUrlBase := "https://storage.googleapis.com/"

  function BlobGcsUri(bucket: string, name: string): string {
    "gs://" + bucket + "/" + name
  }

  function BlobPublicUrl(bucket: string, name: string): string {
    PublicUrlBase + bucket + "/" + name
  }

  function BlobEntry(bucket: string, b: BlobInfo): (v: Value)
    ensures v.Obj?
    ensures "name" in v.fields && v.fields["name"] == Str(b.name)
    ensures "gcs_uri" in v.fields && v.fields["gcs_uri"] == Str(BlobGcsUri(bucket, b.name))
    ensures "public_url" in v.fields && v.fields["public_url"] == Str(BlobPublicUrl(bucket, b.name))
  {
    var rest := map[
      "size" := if b.size.Some? then Int(b.size.value) else Null,
      "updated" := OptStr(b.updated),
      "content_type" := OptStr(b.contentType)];
    Obj(rest["public_url" := Str(BlobPublicUrl(bucket, b.name))]
            ["gcs_uri" := Str(BlobGcsUri(bucket, b.name))]
            ["name" := Str(b.name)])
  }

  /** The success message of a blob listing. */
  function BlobMessage(bucket: string, files: nat, folders: nat, prefix: Option<string>): string {
    "Found " + Strings.NatToString(files) + " file(s) and " + Strings.NatToString(folders)
      + " folder(s) in bucket '" + bucket + "'" + PrefixSuffix(prefix)
  }

  /** The folder prefixes a listing reports: the page's, under a non-empty
      delimiter only. */
  function ReportedPrefixes(delimiter: Option<string>, page: BlobPage): seq<string> {
    if Truthy(delimiter) then page.prefixes else []
  }

  /** The success reply for one listed page. */
  function BlobListingReply(bucket: string, prefix: Option<string>, delimiter: Option<string>, page: BlobPage)
    : (r: ToolResult)
    ensures WellFormed(r) && IsSuccess(r)
    ensures var prefixes := ReportedPrefixes(delimiter, page);
            && "bucket_name" in r && r["bucket_name"] == Str(bucket)
            && "blobs" in r && r["blobs"].Arr?
            && |r["blobs"].items| == |page.blobs|
            && (forall i :: 0 <= i < |page.blobs| ==> r["blobs"].items[i] == BlobEntry(bucket, page.blobs[i]))
            && "prefixes" in r && r["prefixes"] == Arr(seq(|prefixes|, i requires 0 <= i < |prefixes| => Str(prefixes[i])))
            && "count" in r && r["count"] == Int(|page.blobs|)
            && "prefix_count" in r && r["prefix_count"] == Int(|prefixes|)
            && "message" in r && r["message"] == Str(BlobMessage(bucket, |page.blobs|, |prefixes|, prefix))
  {
    var blobs := seq(|page.blobs|, i requires 0 <= i < |page.blobs| => BlobEntry(bucket, page.blobs[i]));
    var prefixes := ReportedPrefixes(delimiter, page);
    map[
      "status" := Str("success"),
      "bucket_name" := Str(bucket),
      "blobs" := Arr(blobs),
      "prefixes" := Arr(seq(|prefixes|, i requires 0 <= i < |prefixes| => Str(prefixes[i]))),
      "count" := Int(|blobs|),
      "prefix_count" := Int(|prefixes|),
      "message" := Str(BlobMessage(bucket, |blobs|, |prefixes|, prefix))]
  }

  /** `list_blobs_in_bucket`: lists with the given prefix, delimiter and
      limit (the configured one when none is given); reports every blob in
      order with its two URLs, the folder prefixes only when a delimiter was
      given, and both counts; a raised client error becomes an error result. */
  function ListBlobsInBucket(
    cfg: GcsConfig, bucket: string, prefix: Option<string>, delimiter: Option<string>, maxResults: Option<int>,
    listBlobs: BlobQuery -> Result<BlobPage, ClientError>): (r: ToolResult)
    ensures WellFormed(r)
    ensures var out := listBlobs(BlobQuery(cfg.projectId, bucket, prefix, delimiter, EffectiveLimit(maxResults, cfg.blobsLimit)));
            && (IsSuccess(r) <==> out.Success?)
            && (out.Success? ==>
                  var prefixes := if Truthy(delimiter) then out.value.prefixes else [];
                  && "bucket_name" in r && r["bucket_name"] == Str(bucket)
                  && "blobs" in r && r["blobs"].Arr?
                  && |r["blobs"].items| == |out.value.blobs|
                  && (forall i :: 0 <= i < |out.value.blobs| ==>
                        r["blobs"].items[i] == BlobEntry(bucket, out.value.blobs[i]))
                  && "prefixes" in r && r["prefixes"] == Arr(seq(|prefixes|, i requires 0 <= i < |prefixes| => Str(prefixes[i])))
                  && "count" in r && r["count"] == Int(|out.value.blobs|)
                  && "prefix_count" in r && r["prefix_count"] == Int(|prefixes|)
                  && "message" in r
                  && r["message"] == Str(BlobMessage(bucket, |out.value.blobs|, |prefixes|, prefix)))
            && (out.Failure? ==> r == ClientErrorResult(out.error, "Failed to list files in bucket: "))
  {
    var query := BlobQuery(cfg.projectId, bucket, prefix, delimiter, EffectiveLimit(maxResults, cfg.blobsLimit));
    match listBlobs(query)
    case Failure(e) => ClientErrorResult(e, "Failed to list files in bucket: ")
    case Success(page) => BlobListingReply(bucket, prefix, delimiter, page)
  }

  /** The blob listing reports folders only under a delimiter, and its
      message gains a tail (naming the prefix) exactly when a non-empty prefix
      was given. */
  lemma BlobListingShape(
    cfg: GcsConfig, bucket: string, prefix: Option<string>, delimiter: Option<string>, maxResults: Option<int>,
    listBlobs: BlobQuery -> Result<BlobPage, ClientError>)
    requires IsSuccess(ListBlobsInBucket(cfg, bucket, prefix, delimiter, maxResults, listBlobs))
    ensures var r := ListBlobsInBucket(cfg, bucket, prefix, delimiter, maxResults, listBlobs);
            var files := |r["blobs"].items|;
            var folders := |r["prefixes"].items|;
            var base := BlobMessage(bucket, files, folders, None);
            var m := r["message"].s;
            && (!Truthy(delimiter) ==> folders == 0)
            && r["prefix_count"] == Int(folders)
            && base <= m
            && (m == base <==> !Truthy(prefix))
            && (Truthy(prefix) ==> m[|base|..] == " with prefix '" + prefix.value + "'")
  {
  }

  /** The public URL of a blob is its `gs://` URI with the scheme replaced by
      the public storage host. */
  lemma PublicUrlMirrorsGcsUri(bucket: string, name: string)
    ensures BlobPublicUrl(bucket, name) == PublicUrlBase + BlobGcsUri(bucket, name)[5..]
  {
    assert BlobGcsUri(bucket, name) == "gs://" + (bucket + "/" + name);
  }
}
