/** The retrieval-corpus tools of adk/rag_tools.py, with every Vertex AI and
    Cloud Storage call replaced by its outcome: a parameter of the tool. */
module RagTools {
  import opened Wrappers
  import opened Json
  import Strings

  /** The project and location the Vertex AI client is set up for, and the
      id of the default corpus read from the environment. */
  datatype CloudConfig = CloudConfig(projectId: string, location: string, defaultCorpusId: string)

  /** The full resource name of a corpus,
      `projects/<project>/locations/<location>/ragCorpora/<corpus_id>`. */
  function CorpusResourceName(cfg: CloudConfig, corpusId: string): string {
    "projects/" + cfg.projectId + "/locations/" + cfg.location + "/ragCorpora/" + corpusId
  }

  /** `RAG_CORPUS`: the resource name of the default corpus. */
  function DefaultCorpus(cfg: CloudConfig): string {
    CorpusResourceName(cfg, cfg.defaultCorpusId)
  }

  /** `gs://<bucket>/<file>`. */
  function GcsUri(bucket: string, file: string): string {
    "gs://" + bucket + "/" + file
  }

  // ---------------------------------------------------------------------------
  // retrieve_context

  /** The arguments of `rag.retrieval_query`: the one corpus searched and
      the query text. */
  datatype RetrievalQuery = RetrievalQuery(corpus: string, text: string)

  /** What the retrieval query produced: the passages' texts (`None` when the
      response has no context container), or the text of the raised error. */
  datatype RetrievalOutcome =
    | Retrieved(contexts: Option<seq<string>>)
    | RetrievalFailed(error: string)

  const NoContext := "No relevant context found."
  const RetrievalErrorPrefix := "Error retrieving context: "

  /** One formatted passage, numbered from 1. */
  function ContextBlock(i: nat, text: string): string {
    "Context " + Strings.NatToString(i + 1) + ":\n" + text + "\n\n"
  }

  /** The formatted passages, in order. */
  function ContextBlocks(texts: seq<string>): (blocks: seq<string>)
    ensures |blocks| == |texts|
    ensures forall i :: 0 <= i < |texts| ==> blocks[i] == ContextBlock(i, texts[i])
  {
    seq(|texts|, i requires 0 <= i < |texts| => ContextBlock(i, texts[i]))
  }

  /** The concatenation of a sequence of strings. */
  function Concat(parts: seq<string>): string {
    if parts == [] then "" else Concat(parts[..|parts| - 1]) + parts[|parts| - 1]
  }

  /** `retrieve_context`: searches the default corpus, whatever else is
      configured, for `query`; replies with the numbered passages one after
      the other, the fixed no-context text when there are none, or the error
      text; it never raises. */
  method RetrieveContext(cfg: CloudConfig, query: string, retrieve: RetrievalQuery -> RetrievalOutcome)
    returns (reply: string)
    ensures var outcome := retrieve(RetrievalQuery(DefaultCorpus(cfg), query));
            && (outcome.RetrievalFailed? ==> reply == RetrievalErrorPrefix + outcome.error)
            && (outcome.Retrieved? && (outcome.contexts.None? || outcome.contexts.value == []) ==> reply == NoContext)
            && (outcome.Retrieved? && outcome.contexts.Some? && outcome.contexts.value != [] ==>
                  reply == Concat(ContextBlocks(outcome.contexts.value)))
  {
    var outcome := retrieve(RetrievalQuery(DefaultCorpus(cfg), query));
    match outcome
    case RetrievalFailed(e) =>
      reply := RetrievalErrorPrefix + e;
    case Retrieved(contexts) =>
      if contexts.Some? && contexts.value != [] {
        var texts := contexts.value;
        var blocks := ContextBlocks(texts);
        reply := "";
        var i := 0;
        while i < |texts|
          invariant 0 <= i <= |texts|
          invariant reply == Concat(blocks[..i])
        {
          assert blocks[..i + 1][..i] == blocks[..i];
          reply := reply + ContextBlock(i, texts[i]);
          i := i + 1;
        }
        assert blocks[..|texts|] == blocks;
      } else {
        reply := NoContext;
      }
  }

  /** The concatenated passages start with the first passage's block. */
  lemma {:induction false} ConcatStartsWithFirst(parts: seq<string>)
    requires parts != []
    ensures parts[0] <= Concat(parts)
    decreases |parts|
  {
    if |parts| > 1 {
      var init := parts[..|parts| - 1];
      ConcatStartsWithFirst(init);
      assert init[0] == parts[0];
    }
  }

  /** The three kinds of reply `retrieve_context` gives. */
  datatype RetrievalKind = FoundContext | NoneFound | RetrievalError

  /** What the reply says happened, judged from its text alone. */
  function ReplyKind(reply: string): RetrievalKind {
    if RetrievalErrorPrefix <= reply then RetrievalError
    else if reply == NoContext then NoneFound
    else FoundContext
  }

  /** What actually happened. */
  function OutcomeKind(outcome: RetrievalOutcome): RetrievalKind {
    match outcome
    case RetrievalFailed(_) => RetrievalError
    case Retrieved(contexts) =>
      if contexts.Some? && contexts.value != [] then FoundContext else NoneFound
  }

  /** The agent can always tell from the reply text whether passages were
      found, none were, or the query failed. */
  lemma ReplyRevealsOutcome(outcome: RetrievalOutcome, reply: string)
    requires outcome.RetrievalFailed? ==> reply == RetrievalErrorPrefix + outcome.error
    requires outcome.Retrieved? && (outcome.contexts.None? || outcome.contexts.value == []) ==> reply == NoContext
    requires outcome.Retrieved? && outcome.contexts.Some? && outcome.contexts.value != [] ==>
               reply == Concat(ContextBlocks(outcome.contexts.value))
    ensures ReplyKind(reply) == OutcomeKind(outcome)
  {
    assert RetrievalErrorPrefix[0] == 'E' && NoContext[0] == 'N';
    if outcome.RetrievalFailed? {
      assert RetrievalErrorPrefix <= reply;
    } else if outcome.contexts.None? || outcome.contexts.value == [] {
      assert !(RetrievalErrorPrefix <= reply);
    } else {
      var blocks := ContextBlocks(outcome.contexts.value);
      ConcatStartsWithFirst(blocks);
      var first := blocks[0];
      assert first[0] == 'C';
      assert reply[0] == 'C';
    }
  }

  // ---------------------------------------------------------------------------
  // import_document_to_corpus

  /** The chunking and parsing settings of every import. */
  const ChunkSize := 1024
  const ChunkOverlap := 200
  const ParsingModel := "gemini-2.5-flash-lite"
  const MaxParsingRequestsPerMin := 100

  /** The arguments of the `rag.import_files` call. */
  datatype ImportRequest = ImportRequest(
    corpusName: string,
    paths: seq<string>,
    chunkSize: int,
    chunkOverlap: int,
    parsingModel: string,
    maxParsingRequestsPerMin: int)

  /** The result of `rag.import_files`: the three file counts, or the text of
      the raised error. */
  datatype ImportOutcome =
    | Imported(importedCount: nat, failedCount: nat, skippedCount: nat)
    | ImportFailed(error: string)

  /** The request the tool sends for one file of one bucket. */
  function ImportRequestFor(cfg: CloudConfig, corpusId: string, bucket: string, file: string): ImportRequest {
    ImportRequest(CorpusResourceName(cfg, corpusId), [GcsUri(bucket, file)],
                  ChunkSize, ChunkOverlap, ParsingModel, MaxParsingRequestsPerMin)
  }

  /** `import_document_to_corpus`: "success" whenever the import call
      returns, even if it reports failed files; "error" with the error text
      when it raises. Both echo the corpus id. */
  function ImportDocumentToCorpus(
    cfg: CloudConfig, corpusId: string, bucket: string, file: string,
    importFiles: ImportRequest -> ImportOutcome): (r: ToolResult)
    ensures WellFormed(r)
    ensures IsSuccess(r) <==> importFiles(ImportRequestFor(cfg, corpusId, bucket, file)).Imported?
    ensures "corpus_id" in r && r["corpus_id"] == Str(corpusId)
    ensures IsSuccess(r) ==>
              "message" in r && r["message"] == Str("Successfully imported document " + GcsUri(bucket, file) + " to corpus '" + corpusId + "'")
    ensures !IsSuccess(r) ==>
              var e := importFiles(ImportRequestFor(cfg, corpusId, bucket, file)).error;
              r["error_message"] == Str(e) && r["message"] == Str("Failed to import document: " + e)
  {
    var request := ImportRequestFor(cfg, corpusId, bucket, file);
    match importFiles(request)
    case Imported(_, _, _) =>
      map[
        "status" := Str("success"),
        "corpus_id" := Str(corpusId),
        "message" := Str("Successfully imported document " + request.paths[0] + " to corpus '" + corpusId + "'")]
    case ImportFailed(e) =>
      ErrorResult(e, "Failed to import document: ")["corpus_id" := Str(corpusId)]
  }

  // ---------------------------------------------------------------------------
  // list_rag_corpora

  /** A corpus as the listing returns it; the optional fields are those the
      SDK object may lack (`status` is `corpus_status.state` or
      `corpusStatus.state`, whichever exists). */
  datatype CorpusInfo = CorpusInfo(
    name: string,
    displayName: string,
    description: Option<string>,
    createTime: Option<string>,
    status: Option<string>)

  /** The result of `rag.list_files` for one corpus. */
  datatype FilesOutcome =
    | FilesListed(count: nat)
    | NoFileList
    | FilesFailed

  datatype CorporaOutcome =
    | Corpora(items: seq<CorpusInfo>)
    | CorporaFailed(error: string)

  /** The file count reported for a corpus: 0 whenever counting fails. */
  function FilesCount(files: FilesOutcome): nat {
    if files.FilesListed? then files.count else 0
  }

  /** One entry of the corpus list; its id is the last `/`-segment of the name. */
  function CorpusEntry(c: CorpusInfo, files: FilesOutcome): (v: Value)
    ensures v.Obj?
    ensures "id" in v.fields && v.fields["id"] == Str(Strings.LastSegment(c.name, '/'))
    ensures "name" in v.fields && v.fields["name"] == Str(c.name)
    ensures "files_count" in v.fields && v.fields["files_count"] == Int(FilesCount(files))
  {
    var rest := map[
      "display_name" := Str(c.displayName),
      "description" := OptStr(c.description),
      "create_time" := OptStr(c.createTime),
      "status" := OptStr(c.status)];
    Obj(rest["files_count" := Int(FilesCount(files))]["name" := Str(c.name)]["id" := Str(Strings.LastSegment(c.name, '/'))])
  }

  /** `list_rag_corpora`: one entry per listed corpus, in order, and their
      count; an error result when the listing raises. */
  function ListRagCorpora(listing: CorporaOutcome, listFiles: string -> FilesOutcome): (r: ToolResult)
    ensures WellFormed(r)
    ensures IsSuccess(r) <==> listing.Corpora?
    ensures listing.Corpora? ==>
              && "corpora" in r && r["corpora"].Arr?
              && |r["corpora"].items| == |listing.items|
              && "count" in r && r["count"] == Int(|listing.items|)
              && (forall i :: 0 <= i < |listing.items| ==>
                    r["corpora"].items[i] == CorpusEntry(listing.items[i], listFiles(listing.items[i].name)))
              && "message" in r && r["message"] == Str("Found " + Strings.NatToString(|listing.items|) + " RAG corpora")
    ensures listing.CorporaFailed? ==> r == ErrorResult(listing.error, "Failed to list RAG corpora: ")
  {
    match listing
    case CorporaFailed(e) => ErrorResult(e, "Failed to list RAG corpora: ")
    case Corpora(items) =>
      var entries := seq(|items|, i requires 0 <= i < |items| => CorpusEntry(items[i], listFiles(items[i].name)));
      map[
        "status" := Str("success"),
        "corpora" := Arr(entries),
        "count" := Int(|entries|),
        "message" := Str("Found " + Strings.NatToString(|entries|) + " RAG corpora")]
  }

  /** A corpus named by the import tool's resource-name scheme is listed
      under the very id the name was built from. */
  lemma ListedIdOfBuiltName(cfg: CloudConfig, corpusId: string, c: CorpusInfo, files: FilesOutcome)
    requires '/' !in corpusId
    requires c.name == CorpusResourceName(cfg, corpusId)
    ensures CorpusEntry(c, files).fields["id"] == Str(corpusId)
  {
    var p := "projects/" + cfg.projectId + "/locations/" + cfg.location + "/ragCorpora";
    assert c.name == p + ['/'] + corpusId;
    Strings.LastSegmentOfJoin(p, '/', corpusId);
  }

  // ---------------------------------------------------------------------------
  // check_file_status

  /** What the storage lookup of one blob reports. */
  datatype BlobStat = BlobStat(size: nat, contentType: Option<string>)

  /** How `check_file_status` ends. `BlobNameMissing` is the `IndexError`
      the split raises, outside the `try`, for a URI with no `/` after the
      bucket; the other outcomes are what it prints. */
  datatype FileCheck =
    | NotGcsUri
    | BlobNameMissing
    | LookupFailed(bucket: string, blob: string, error: string)
    | EmptyFile(bucket: string, blob: string)
    | FileLooksValid(bucket: string, blob: string, size: nat)

  /** `check_file_status`: splits `gs://<bucket>/<blob>` at the first `/`
      after the scheme (the blob name keeps any later `/`) and classifies the
      blob the storage lookup finds. */
  function CheckFileStatus(uri: string, lookup: (string, string) -> Result<BlobStat, string>): (r: FileCheck)
    ensures r.NotGcsUri? <==> !("gs://" <= uri)
    ensures r.BlobNameMissing? <==> "gs://" <= uri && '/' !in uri[5..]
    ensures !r.NotGcsUri? && !r.BlobNameMissing? ==>
              && uri == GcsUri(r.bucket, r.blob)
              && '/' !in r.bucket
              && (r.LookupFailed? <==> lookup(r.bucket, r.blob).Failure?)
              && (r.EmptyFile? <==> lookup(r.bucket, r.blob).Success? && lookup(r.bucket, r.blob).value.size == 0)
  {
    if !("gs://" <= uri) then NotGcsUri
    else
      var parts := Strings.SplitOnce(uri[5..], '/');
      if |parts| < 2 then BlobNameMissing
      else
        var bucket := parts[0];
        var blob := parts[1];
        assert uri == "gs://" + uri[5..];
        match lookup(bucket, blob)
        case Failure(e) => LookupFailed(bucket, blob, e)
        case Success(stat) =>
          if stat.size == 0 then EmptyFile(bucket, blob) else FileLooksValid(bucket, blob, stat.size)
  }

  /** The URI the import tool builds splits back into its bucket and file
      (the file name may itself contain `/`). */
  lemma GcsUriSplitsBack(bucket: string, file: string, lookup: (string, string) -> Result<BlobStat, string>)
    requires '/' !in bucket
    ensures var r := CheckFileStatus(GcsUri(bucket, file), lookup);
            !r.NotGcsUri? && !r.BlobNameMissing? && r.bucket == bucket && r.blob == file
  {
    var uri := GcsUri(bucket, file);
    assert uri[5..] == bucket + ['/'] + file;
    Strings.SplitOnceAt(bucket, '/', file);
  }
}
