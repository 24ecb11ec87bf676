/** `retriever_tooltwo`: the first-year notes retriever. Importing its module loads the FAISS
    index from `finalfirstret` next to the module, and fails at once when that directory is
    missing; the tool answers with the formatted documents the retriever returns (at most 15). */
module Similar {
  import opened Text
  import opened Formatting

  const IndexDirName := "finalfirstret"

  /** `search_kwargs={"k": 15}`: the retriever never returns more documents. */
  const RetrieverK := 15

  function IndexDir(baseDir: string): string {
    JoinPath(baseDir, IndexDirName)
  }

  /** The tool's answer for the documents the retriever returned: the sentinel when there are
      none, the blank-line-joined source/page blocks otherwise. */
  function RetrieverToolTwo(docs: seq<Document>): (r: string)
    requires |docs| <= RetrieverK
    ensures r == NoRelevantInformation <==> docs == []
    ensures docs != [] ==> r == Join(BlockSeparator, Blocks(docs))
  {
    SentinelIffNoDocuments(docs);
    FormatDocuments(docs)
  }

  /** Serving a query: when the index directory is missing the module fails to load with
      `FileNotFoundError` and no query is answered; otherwise the tool answers. */
  function Serve(baseDir: string, dirExists: bool, docs: seq<Document>): (r: Served)
    requires |docs| <= RetrieverK
    ensures r.StartupFailed? <==> !dirExists
    ensures !dirExists ==> r.error == IndexDirMissing(IndexDir(baseDir))
    ensures dirExists ==> r.text == RetrieverToolTwo(docs)
  {
    if !dirExists then StartupFailed(IndexDirMissing(IndexDir(baseDir)))
    else Answered(RetrieverToolTwo(docs))
  }
}
