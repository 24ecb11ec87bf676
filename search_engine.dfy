/** The search engine of the page-image search: an encoder (text and image towers of one
    embedding model) in front of a vector store. The encoder is a pair of functions fixed when
    the engine is made. */
module SearchEngine {
  import opened Values
  import opened VectorStore

  /** A rendered page image, as rows of pixel values. */
  type Image = seq<seq<int>>

  /** One formatted hit: `{"doc_id": ..., "score": ..., "metadata": ...}`. */
  datatype SearchResult = SearchResult(docId: nat, score: real, metadata: Metadata)

  class Engine {
    const encodeImage: Image -> Tensor
    const encodeText: string -> Tensor
    const store: Store

    ghost predicate Valid()
      reads this, store
    {
      store.Valid()
    }

    constructor (encodeImage: Image -> Tensor, encodeText: string -> Tensor, cosine: Cosine)
      ensures Valid() && fresh(store)
      ensures store.embeddings == [] && store.metadata == [] && store.cosine == cosine
      ensures this.encodeImage == encodeImage && this.encodeText == encodeText
    {
      this.encodeImage := encodeImage;
      this.encodeText := encodeText;
      store := new Store(cosine);
    }

    /** `index_image`: adds the image's embedding and the metadata to the store and returns the
        ID the store assigned, which is the store's size before the call. */
    method IndexImage(image: Image, meta: Metadata) returns (docId: nat)
      requires Valid()
      modifies store
      ensures Valid()
      ensures store.embeddings == old(store.embeddings) + [Flatten(encodeImage(image))]
      ensures store.metadata == old(store.metadata) + [meta]
      ensures docId == old(|store.embeddings|)
    {
      var embedding := encodeImage(image);
      docId := store.Add(embedding, meta);
    }

    /** `search`: one result per store hit, in the store's order, each carrying the hit's ID and
        score and the metadata stored under that ID; at most `top_k` of them. The store is not
        changed. */
    method Search(queryText: string, topK: int := 5) returns (results: seq<SearchResult>)
      requires Valid()
      ensures |results| == |store.Hits(encodeText(queryText), topK)|
      ensures forall i :: 0 <= i < |results| ==>
        var h := store.Hits(encodeText(queryText), topK)[i];
        h.id < |store.metadata| && results[i] == SearchResult(h.id, h.score, store.metadata[h.id])
      ensures topK >= 0 ==> |results| <= topK
      ensures forall i, j :: 0 <= i < j < |results| ==>
        results[i].score >= results[j].score && results[i].docId != results[j].docId
    {
      var queryEmbedding := encodeText(queryText);
      var hits := store.Search(queryEmbedding, topK);
      var formatted: seq<SearchResult> := [];
      var i := 0;
      while i < |hits|
        invariant 0 <= i <= |hits|
        invariant |formatted| == i
        invariant forall k :: 0 <= k < i ==>
          formatted[k] == SearchResult(hits[k].id, hits[k].score, store.metadata[hits[k].id])
      {
        var hit := hits[i];
        var result := SearchResult(hit.id, hit.score, store.metadata[hit.id]);
        formatted := formatted + [result];
        i := i + 1;
      }
      results := formatted;
    }
  }
}
