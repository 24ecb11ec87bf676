/** How the FAISS-backed retriever tools turn the documents the retriever returned into one
    answer string: a fixed sentinel when nothing came back, and otherwise one block per
    document, `[Source: s | Page: p]` on the first line and the document's text below it, the
    blocks separated by a blank line and kept in retriever order. */
module Formatting {
  import opened Values
  import opened Text

  /** A document the retriever returns: its metadata and its text (`page_content`). */
  datatype Document = Document(metadata: map<string, Value>, pageContent: string)

  const NoRelevantInformation := "No relevant information found."
  const BlockSeparator := "\n\n"
  const MissingSource := "unknown"
  const MissingPage := "NA"

  /** `os.path.join(a, b)` for a directory `a` that does not end in a separator. */
  function JoinPath(a: string, b: string): string {
    a + "/" + b
  }

  /** The message of the `FileNotFoundError` raised when an index directory is missing. */
  function IndexDirMissing(dir: string): string {
    "FAISS directory not found: " + dir
  }

  /** A tool module either starts and answers, or fails while it is being imported. */
  datatype Served = Answered(text: string) | StartupFailed(error: string)

  /** `d.metadata.get(key, default)` as an f-string renders it. */
  function Label(d: Document, key: string, default: string): string {
    if key in d.metadata then ToStr(d.metadata[key]) else default
  }

  function Header(d: Document): string {
    "[Source: " + Label(d, "source", MissingSource) + " | Page: " + Label(d, "page", MissingPage) + "]\n"
  }

  function Block(d: Document): string {
    Header(d) + d.pageContent
  }

  function Blocks(docs: seq<Document>): (r: seq<string>)
    ensures |r| == |docs|
    ensures forall i :: 0 <= i < |docs| ==> r[i] == Block(docs[i])
  {
    seq(|docs|, i requires 0 <= i < |docs| => Block(docs[i]))
  }

  /** The answer of `retriever_tooltwo`, `retriever_toolfour` and `query`. */
  function FormatDocuments(docs: seq<Document>): string {
    if docs == [] then NoRelevantInformation else Join(BlockSeparator, Blocks(docs))
  }

  /** Where the block of document `i` starts in the answer. */
  function BlockOffset(docs: seq<Document>, i: nat): nat
    requires i <= |docs|
  {
    Offset(BlockSeparator, Blocks(docs), i)
  }

  /** A missing `source` renders as `unknown` and a missing `page` as `NA`; a present value
      renders as Python's `str` of it. */
  lemma HeaderDefaults(d: Document)
    ensures "source" !in d.metadata && "page" !in d.metadata ==>
      Header(d) == "[Source: unknown | Page: NA]\n"
    ensures "source" !in d.metadata && "page" in d.metadata ==>
      Header(d) == "[Source: unknown | Page: " + ToStr(d.metadata["page"]) + "]\n"
    ensures "source" in d.metadata && "page" !in d.metadata ==>
      Header(d) == "[Source: " + ToStr(d.metadata["source"]) + " | Page: NA]\n"
    ensures "source" in d.metadata && "page" in d.metadata ==>
      Header(d) == "[Source: " + ToStr(d.metadata["source"]) + " | Page: " + ToStr(d.metadata["page"]) + "]\n"
  {
    if "source" !in d.metadata {
      assert "[Source: " + MissingSource == "[Source: unknown";
      if "page" !in d.metadata {
        assert "[Source: unknown" + " | Page: " + MissingPage + "]\n" == "[Source: unknown | Page: NA]\n";
      }
    } else if "page" !in d.metadata {
      assert " | Page: " + MissingPage + "]\n" == " | Page: NA]\n";
    }
  }

  /** The answer is the sentinel exactly when the retriever returned no document: every block
      starts with `[`, the sentinel does not. */
  lemma {:induction false} SentinelIffNoDocuments(docs: seq<Document>)
    ensures FormatDocuments(docs) == NoRelevantInformation <==> docs == []
  {
    if docs != [] {
      var r := FormatDocuments(docs);
      JoinAt(BlockSeparator, Blocks(docs), 0);
      assert r[0..|Block(docs[0])|] == Block(docs[0]);
      assert Block(docs[0])[0] == '[';
      assert r[0] == '[';
      assert NoRelevantInformation[0] == 'N';
    }
  }

  /** One block per document, in retriever order: the block of document `i` (its header, then
      its text) sits at `BlockOffset(docs, i)`, a blank line follows every block but the last,
      and the last block ends the answer. */
  lemma {:induction false} BlockAt(docs: seq<Document>, i: nat)
    requires i < |docs|
    ensures BlockOffset(docs, i) + |Block(docs[i])| <= |FormatDocuments(docs)|
    ensures FormatDocuments(docs)[BlockOffset(docs, i)..BlockOffset(docs, i) + |Header(docs[i])|]
      == Header(docs[i])
    ensures FormatDocuments(docs)[BlockOffset(docs, i) + |Header(docs[i])|..BlockOffset(docs, i) + |Block(docs[i])|]
      == docs[i].pageContent
    ensures i + 1 < |docs| ==>
      BlockOffset(docs, i) + |Block(docs[i])| + 2 <= |FormatDocuments(docs)| &&
      FormatDocuments(docs)[BlockOffset(docs, i) + |Block(docs[i])|..BlockOffset(docs, i) + |Block(docs[i])| + 2]
        == BlockSeparator
    ensures i + 1 == |docs| ==> BlockOffset(docs, i) + |Block(docs[i])| == |FormatDocuments(docs)|
  {
    var bs := Blocks(docs);
    JoinAt(BlockSeparator, bs, i);
    var r := FormatDocuments(docs);
    assert r == Join(BlockSeparator, bs);
    var o := BlockOffset(docs, i);
    var h := Header(docs[i]);
    SplitSlice(r, o, o + |h|, o + |bs[i]|, h, docs[i].pageContent);
  }

  /** The answer grows block by block: one more document adds a blank line and its block. */
  lemma {:induction false} FormatSnoc(docs: seq<Document>, d: Document)
    requires docs != []
    ensures FormatDocuments(docs + [d]) == FormatDocuments(docs) + BlockSeparator + Block(d)
  {
    assert Blocks(docs + [d]) == Blocks(docs) + [Block(d)];
    JoinSnoc(BlockSeparator, Blocks(docs), Block(d));
  }
}
