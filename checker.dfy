/** `query` of the merged first-year index: two FAISS indices are loaded and the second merged
    into the first (a library operation), and a query answers with the formatted documents the
    merged index's retriever returns (at most 15). */
module Checker {
  import opened Text
  import opened Formatting

  /** `search_kwargs={"k": 15}`. */
  const RetrieverK := 15

  /** `query(q)` for the documents the retriever returned for `q`: the sentinel when there are
      none, the blank-line-joined source/page blocks otherwise. */
  function Query(docs: seq<Document>): (r: string)
    requires |docs| <= RetrieverK
    ensures r == NoRelevantInformation <==> docs == []
    ensures docs != [] ==> r == Join(BlockSeparator, Blocks(docs))
  {
    SentinelIffNoDocuments(docs);
    FormatDocuments(docs)
  }
}
