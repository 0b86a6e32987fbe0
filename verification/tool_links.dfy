/** How the storage listing feeds the corpus tools: the activity agent lists a
    bucket, then checks or imports a file by the `gs://` URI the listing gave
    it. These lemmas state that the URI carries the blob through intact. */
module ToolLinks {
  import opened Wrappers
  import opened Json
  import RagTools
  import GcsTools

  /** A blob's listed `gs://` URI is exactly the URI the import tool builds
      for the same bucket and file name, and the one path it imports. The two
      tools build the URI each on their own (adk/gcs_tools.py:115 and
      adk/rag_tools.py:146), so each module keeps its own definition; this
      lemma is where they are shown to agree. */
  lemma ListedUriIsImportUri(cfg: RagTools.CloudConfig, corpusId: string, bucket: string, name: string)
    ensures GcsTools.BlobGcsUri(bucket, name) == RagTools.GcsUri(bucket, name)
    ensures RagTools.ImportRequestFor(cfg, corpusId, bucket, name).paths
              == [GcsTools.BlobGcsUri(bucket, name)]
  {
  }

  /** `check_file_status` on the `gs://` URI of any listed blob looks up that
      very blob of that very bucket, provided the bucket name has no '/'
      (bucket names never do). */
  lemma ListedBlobChecksBack(
    cfg: GcsTools.GcsConfig, bucket: string, prefix: Option<string>, delimiter: Option<string>,
    maxResults: Option<int>, listBlobs: GcsTools.BlobQuery -> Result<GcsTools.BlobPage, GcsTools.ClientError>,
    i: int, lookup: (string, string) -> Result<RagTools.BlobStat, string>)
    requires '/' !in bucket
    requires IsSuccess(GcsTools.ListBlobsInBucket(cfg, bucket, prefix, delimiter, maxResults, listBlobs))
    requires 0 <= i < |GcsTools.ListBlobsInBucket(cfg, bucket, prefix, delimiter, maxResults, listBlobs)["blobs"].items|
    ensures var entry := GcsTools.ListBlobsInBucket(cfg, bucket, prefix, delimiter, maxResults, listBlobs)["blobs"].items[i];
            && entry.Obj? && "gcs_uri" in entry.fields && entry.fields["gcs_uri"].Str?
            && "name" in entry.fields && entry.fields["name"].Str?
            && var check := RagTools.CheckFileStatus(entry.fields["gcs_uri"].s, lookup);
               && !check.NotGcsUri? && !check.BlobNameMissing?
               && check.bucket == bucket
               && check.blob == entry.fields["name"].s
  {
    var query := GcsTools.BlobQuery(cfg.projectId, bucket, prefix, delimiter, GcsTools.EffectiveLimit(maxResults, cfg.blobsLimit));
    var blob := listBlobs(query).value.blobs[i];
    RagTools.GcsUriSplitsBack(bucket, blob.name, lookup);
  }

  /** A bucket name taken from the bucket list lists that very bucket: the
      blob listing queries it and echoes it, and `check_file_status` on any
      listed blob's URI looks the blob up in it. */
  lemma ListedBucketFeedsBlobListing(
    cfg: GcsTools.GcsConfig, prefix: Option<string>, maxResults: Option<int>,
    listBuckets: GcsTools.BucketQuery -> Result<seq<GcsTools.BucketInfo>, GcsTools.ClientError>, i: int,
    blobPrefix: Option<string>, delimiter: Option<string>, blobMax: Option<int>,
    listBlobs: GcsTools.BlobQuery -> Result<GcsTools.BlobPage, GcsTools.ClientError>, j: int,
    lookup: (string, string) -> Result<RagTools.BlobStat, string>)
    requires IsSuccess(GcsTools.ListGcsBuckets(cfg, prefix, maxResults, listBuckets))
    requires 0 <= i < |GcsTools.ListGcsBuckets(cfg, prefix, maxResults, listBuckets)["buckets"].items|
    ensures var entry := GcsTools.ListGcsBuckets(cfg, prefix, maxResults, listBuckets)["buckets"].items[i];
            && entry.Obj? && "name" in entry.fields && entry.fields["name"].Str?
            && var name := entry.fields["name"].s;
               var r := GcsTools.ListBlobsInBucket(cfg, name, blobPrefix, delimiter, blobMax, listBlobs);
               && (IsSuccess(r) <==>
                     listBlobs(GcsTools.BlobQuery(cfg.projectId, name, blobPrefix, delimiter, GcsTools.EffectiveLimit(blobMax, cfg.blobsLimit))).Success?)
               && (IsSuccess(r) ==> r["bucket_name"] == Str(name))
               && (IsSuccess(r) && '/' !in name && 0 <= j < |r["blobs"].items| ==>
                     var check := RagTools.CheckFileStatus(r["blobs"].items[j].fields["gcs_uri"].s, lookup);
                     !check.NotGcsUri? && !check.BlobNameMissing? && check.bucket == name)
  {
    var entry := GcsTools.ListGcsBuckets(cfg, prefix, maxResults, listBuckets)["buckets"].items[i];
    var name := entry.fields["name"].s;
    var r := GcsTools.ListBlobsInBucket(cfg, name, blobPrefix, delimiter, blobMax, listBlobs);
    if IsSuccess(r) && '/' !in name && 0 <= j < |r["blobs"].items| {
      ListedBlobChecksBack(cfg, name, blobPrefix, delimiter, blobMax, listBlobs, j, lookup);
    }
  }
}
