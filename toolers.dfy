/** `retriever_tool1` (the function `callers`): a retriever over one text file, chunked and
    indexed in memory on every call. The chunks' texts are joined with blank lines, with no
    source/page header. */
module Toolers {
  import opened Text
  import opened Formatting

  const TextFileName := "output1 (2).txt"

  /** `search_kwargs={"k": 6}`: at most six chunks come back. */
  const RetrieverK := 6

  const NoRelevantChunks := "No relevant information found in the documents."

  function TextFile(baseDir: string): string {
    JoinPath(baseDir, TextFileName)
  }

  function Contents(docs: seq<Document>): (r: seq<string>)
    ensures |r| == |docs|
    ensures forall i :: 0 <= i < |docs| ==> r[i] == docs[i].pageContent
  {
    seq(|docs|, i requires 0 <= i < |docs| => docs[i].pageContent)
  }

  /** `callers(query)`. `fileExists` says whether the text file is there; `docs` are the chunks
      the retriever returned (only looked at when it is, since nothing is loaded otherwise). */
  function Callers(baseDir: string, fileExists: bool, docs: seq<Document>): (r: string)
    requires |docs| <= RetrieverK
    ensures !fileExists ==> r == "File not found: " + TextFile(baseDir)
    ensures fileExists && docs == [] ==> r == NoRelevantChunks
    ensures fileExists && docs != [] ==> r == Join(BlockSeparator, Contents(docs))
  {
    if !fileExists then "File not found: " + TextFile(baseDir)
    else if docs == [] then NoRelevantChunks
    else Join(BlockSeparator, Contents(docs))
  }

  /** One chunk per document, in retriever order: chunk `i`'s text sits at its offset, a blank
      line follows every chunk but the last, and the last chunk ends the answer. */
  lemma ChunkAt(baseDir: string, docs: seq<Document>, i: nat)
    requires |docs| <= RetrieverK && i < |docs|
    ensures Offset(BlockSeparator, Contents(docs), i) + |docs[i].pageContent| <= |Callers(baseDir, true, docs)|
    ensures Callers(baseDir, true, docs)[Offset(BlockSeparator, Contents(docs), i)..
      Offset(BlockSeparator, Contents(docs), i) + |docs[i].pageContent|] == docs[i].pageContent
    ensures i + 1 < |docs| ==>
      Offset(BlockSeparator, Contents(docs), i) + |docs[i].pageContent| + 2 <= |Callers(baseDir, true, docs)| &&
      Callers(baseDir, true, docs)[Offset(BlockSeparator, Contents(docs), i) + |docs[i].pageContent|..
        Offset(BlockSeparator, Contents(docs), i) + |docs[i].pageContent| + 2] == BlockSeparator
    ensures i + 1 == |docs| ==>
      Offset(BlockSeparator, Contents(docs), i) + |docs[i].pageContent| == |Callers(baseDir, true, docs)|
  {
    JoinAt(BlockSeparator, Contents(docs), i);
  }
}
