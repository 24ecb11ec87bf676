/** The in-memory vector store of the page-image search: two parallel lists, one of flattened
    embeddings and one of metadata, where a record's ID is its position. Search scores every
    record by cosine similarity, sorts the scores highest first (stably) and keeps the first
    `top_k`. */
module VectorStore {
  import opened Values

  type Embedding = seq<real>

  /** An embedding as an encoder hands it over, possibly with a leading batch axis: the rows of a
      row-major tensor. A one-dimensional vector is a tensor with one row. */
  type Tensor = seq<seq<real>>

  type Metadata = map<string, Value>

  /** The cosine quotient `dot(q, e) / (norm(q) * norm(e))` for two vectors of non-zero norm.
      It is a parameter of the model: only the zero-norm rule and the ranking are modelled. */
  type Cosine = (Embedding, Embedding) -> real

  /** `numpy.ndarray.flatten()`: the elements in row-major order. */
  function Flatten(t: Tensor): Embedding
    decreases |t|
  {
    if t == [] then [] else t[0] + Flatten(t[1..])
  }

  /** Index in the flattened vector where row `r` starts. */
  function RowStart(t: Tensor, r: nat): nat
    requires r <= |t|
    decreases r
  {
    if r == 0 then 0 else |t[0]| + RowStart(t[1..], r - 1)
  }

  /** Flattening is row-major: element `c` of row `r` lands at `RowStart(t, r) + c`. */
  lemma {:induction false} FlattenAt(t: Tensor, r: nat, c: nat)
    requires r < |t| && c < |t[r]|
    ensures RowStart(t, r) + c < |Flatten(t)|
    ensures Flatten(t)[RowStart(t, r) + c] == t[r][c]
    decreases r
  {
    if r > 0 {
      FlattenAt(t[1..], r - 1, c);
    }
  }

  /** A tensor with a single row flattens to that row. */
  lemma FlattenRow(v: Embedding)
    ensures Flatten([v]) == v
  {
    assert [v][1..] == [];
  }

  /** `norm(v) > 0`: the Euclidean norm of a vector is positive exactly when one of its
      components is non-zero. */
  predicate NonZero(v: Embedding) {
    exists k :: 0 <= k < |v| && v[k] != 0.0
  }

  /** The similarity the loop of `search` computes for one record: the cosine when both
      vectors have a positive norm, and exactly 0 otherwise. */
  function Score(cosine: Cosine, q: Embedding, e: Embedding): real {
    if NonZero(q) && NonZero(e) then cosine(q, e) else 0.0
  }

  /** A search hit: the record's ID and its score. */
  datatype Hit = Hit(id: nat, score: real)

  /** The order of the result list: higher score first; equal scores in insertion order, which
      is what Python's stable `sort(reverse=True)` keeps. */
  predicate Precedes(a: Hit, b: Hit) {
    a.score > b.score || (a.score == b.score && a.id < b.id)
  }

  predicate Ranked(s: seq<Hit>) {
    forall i, j :: 0 <= i < j < |s| ==> Precedes(s[i], s[j])
  }

  predicate IdsIncreasing(s: seq<Hit>) {
    forall i, j :: 0 <= i < j < |s| ==> s[i].id < s[j].id
  }

  /** The list `similarities` as the loop of `search` builds it: record `i` with its score. */
  function Scored(cosine: Cosine, q: Embedding, es: seq<Embedding>): seq<Hit> {
    seq(|es|, i requires 0 <= i < |es| => Hit(i, Score(cosine, q, es[i])))
  }

  /** Inserts `h` in front of the first element that does not score higher. */
  function Insert(h: Hit, s: seq<Hit>): seq<Hit>
    decreases |s|
  {
    if s == [] || h.score >= s[0].score then [h] + s else [s[0]] + Insert(h, s[1..])
  }

  /** Stable sort by score, highest first (insertion sort). */
  function SortDescending(s: seq<Hit>): seq<Hit>
    decreases |s|
  {
    if s == [] then [] else Insert(s[0], SortDescending(s[1..]))
  }

  lemma {:induction false} InsertPermutes(h: Hit, s: seq<Hit>)
    ensures multiset(Insert(h, s)) == multiset{h} + multiset(s)
    decreases |s|
  {
    if s != [] && h.score < s[0].score {
      InsertPermutes(h, s[1..]);
      assert s == [s[0]] + s[1..];
    }
  }

  /** Sorting only reorders: the result is a permutation of its input. */
  lemma {:induction false} SortPermutes(s: seq<Hit>)
    ensures multiset(SortDescending(s)) == multiset(s)
    decreases |s|
  {
    if s != [] {
      SortPermutes(s[1..]);
      InsertPermutes(s[0], SortDescending(s[1..]));
      assert s == [s[0]] + s[1..];
    }
  }

  lemma {:induction false} InsertRanked(h: Hit, s: seq<Hit>)
    requires Ranked(s)
    requires forall k :: 0 <= k < |s| ==> h.id < s[k].id
    ensures Ranked(Insert(h, s))
    decreases |s|
  {
    if s == [] {
    } else if h.score >= s[0].score {
      var r := [h] + s;
      forall i, j | 0 <= i < j < |r| ensures Precedes(r[i], r[j]) {
        if i == 0 {
          if j > 1 { assert Precedes(s[0], s[j - 1]); }
        } else {
          assert Precedes(s[i - 1], s[j - 1]);
        }
      }
    } else {
      assert Ranked(s[1..]) by {
        forall i, j | 0 <= i < j < |s[1..]| ensures Precedes(s[1..][i], s[1..][j]) {
          assert Precedes(s[i + 1], s[j + 1]);
        }
      }
      InsertRanked(h, s[1..]);
      var t := Insert(h, s[1..]);
      InsertPermutes(h, s[1..]);
      var r := [s[0]] + t;
      forall i, j | 0 <= i < j < |r| ensures Precedes(r[i], r[j]) {
        if i == 0 {
          var x := t[j - 1];
          assert x in multiset(t);
          if x != h {
            assert x in multiset(s[1..]);
            var p :| 0 <= p < |s[1..]| && s[1..][p] == x;
            assert Precedes(s[0], s[p + 1]);
          }
        } else {
          assert Precedes(t[i - 1], t[j - 1]);
        }
      }
    }
  }

  /** A stable sort of a list whose IDs increase puts it in ranked order. */
  lemma {:induction false} SortRanked(s: seq<Hit>)
    requires IdsIncreasing(s)
    ensures Ranked(SortDescending(s))
    decreases |s|
  {
    if s != [] {
      SortRanked(s[1..]);
      var t := SortDescending(s[1..]);
      SortPermutes(s[1..]);
      forall k | 0 <= k < |t| ensures s[0].id < t[k].id {
        assert t[k] in multiset(s[1..]);
        var p :| 0 <= p < |s[1..]| && s[1..][p] == t[k];
        assert s[p + 1] == t[k];
      }
      InsertRanked(s[0], t);
    }
  }

  /** Ranking and permutation determine the order completely: any two ranked arrangements of
      the same hits are equal, so every stable descending sort agrees with this one. */
  lemma {:induction false} RankingIsUnique(a: seq<Hit>, b: seq<Hit>)
    requires Ranked(a) && Ranked(b)
    requires multiset(a) == multiset(b)
    ensures a == b
    decreases |a|
  {
    if a == [] {
      assert |b| == |multiset(b)| == 0;
    } else {
      assert |b| == |multiset(b)| == |a|;
      assert a[0] in multiset(b);
      var p :| 0 <= p < |b| && b[p] == a[0];
      assert b[0] in multiset(a);
      var q :| 0 <= q < |a| && a[q] == b[0];
      assert p == 0 || q == 0;
      assert a[0] == b[0];
      assert a == [a[0]] + a[1..];
      assert b == [b[0]] + b[1..];
      assert multiset(a) == multiset{a[0]} + multiset(a[1..]);
      assert multiset(b) == multiset{b[0]} + multiset(b[1..]);
      assert multiset(a[1..]) == multiset(a) - multiset{a[0]};
      assert multiset(b[1..]) == multiset(b) - multiset{b[0]};
      assert Ranked(a[1..]) by {
        forall i, j | 0 <= i < j < |a[1..]| ensures Precedes(a[1..][i], a[1..][j]) {
          assert Precedes(a[i + 1], a[j + 1]);
        }
      }
      assert Ranked(b[1..]) by {
        forall i, j | 0 <= i < j < |b[1..]| ensures Precedes(b[1..][i], b[1..][j]) {
          assert Precedes(b[i + 1], b[j + 1]);
        }
      }
      RankingIsUnique(a[1..], b[1..]);
    }
  }

  /** What the sorted list of `search` holds: every record exactly once, with its own score,
      in ranked order. */
  lemma RankingFacts(cosine: Cosine, q: Embedding, es: seq<Embedding>)
    ensures |SortDescending(Scored(cosine, q, es))| == |es|
    ensures Ranked(SortDescending(Scored(cosine, q, es)))
    ensures forall i :: 0 <= i < |SortDescending(Scored(cosine, q, es))| ==>
      var h := SortDescending(Scored(cosine, q, es))[i];
      h.id < |es| && h.score == Score(cosine, q, es[h.id])
    ensures forall id :: 0 <= id < |es| ==> id in HitIds(SortDescending(Scored(cosine, q, es)))
  {
    var s := Scored(cosine, q, es);
    var r := SortDescending(s);
    SortRanked(s);
    SortPermutes(s);
    assert |r| == |multiset(r)| == |multiset(s)| == |s|;
    forall i | 0 <= i < |r| ensures r[i].id < |es| && r[i].score == Score(cosine, q, es[r[i].id]) {
      assert r[i] in multiset(s);
      var p :| 0 <= p < |s| && s[p] == r[i];
    }
    forall id | 0 <= id < |es| ensures id in HitIds(r) {
      assert s[id] in multiset(r);
    }
  }

  function Min(a: int, b: int): int {
    if a <= b then a else b
  }

  /** Python's slice `s[:k]`, where a negative `k` drops that many elements from the end. */
  function TakePrefix<T>(s: seq<T>, k: int): (r: seq<T>)
    ensures k >= 0 ==> |r| == Min(k, |s|)
    ensures k < 0 ==> |r| == if |s| + k >= 0 then |s| + k else 0
    ensures r == s[..|r|]
  {
    if k >= 0 then (if k <= |s| then s[..k] else s)
    else if |s| + k >= 0 then s[..|s| + k] else []
  }

  function HitIds(hits: seq<Hit>): set<nat> {
    set h | h in hits :: h.id
  }

  /** The store. `embeddings` and `metadata` are the two Python lists; the metric is fixed when
      the store is made. */
  class Store {
    var embeddings: seq<Embedding>
    var metadata: seq<Metadata>
    const cosine: Cosine

    /** The two lists always have equal length, so record `id` has metadata `metadata[id]`. */
    ghost predicate Valid()
      reads this
    {
      |embeddings| == |metadata|
    }

    constructor (cosine: Cosine)
      ensures Valid()
      ensures embeddings == [] && metadata == [] && this.cosine == cosine
    {
      embeddings := [];
      metadata := [];
      this.cosine := cosine;
    }

    /** Every record, scored against `query`, highest score first, ties in insertion order. */
    function Ranking(query: Embedding): seq<Hit>
      reads this
    {
      SortDescending(Scored(cosine, query, embeddings))
    }

    /** The result `search(query, top_k)` returns. */
    function Hits(query: Tensor, topK: int): seq<Hit>
      reads this
    {
      TakePrefix(Ranking(Flatten(query)), topK)
    }

    /** `add`: stores the flattened embedding and the metadata at the end of the two lists, and
        returns the new record's ID, the number of records before the call. */
    method Add(embedding: Tensor, meta: Metadata) returns (id: nat)
      requires Valid()
      modifies this
      ensures Valid()
      ensures embeddings == old(embeddings) + [Flatten(embedding)]
      ensures metadata == old(metadata) + [meta]
      ensures id == old(|embeddings|)
    {
      var flat := Flatten(embedding);
      embeddings := embeddings + [flat];
      metadata := metadata + [meta];
      id := |embeddings| - 1;
    }

    /** `add_document`: an alias of `add`, with the same effect and result. */
    method AddDocument(embedding: Tensor, meta: Metadata) returns (id: nat)
      requires Valid()
      modifies this
      ensures Valid()
      ensures embeddings == old(embeddings) + [Flatten(embedding)]
      ensures metadata == old(metadata) + [meta]
      ensures id == old(|embeddings|)
    {
      id := Add(embedding, meta);
    }

    /** `search`: the `top_k` best records for `query`. The result is in ranked order (scores
        never increase, equal scores keep ascending IDs), holds each record at most once with
        its own score, has `min(top_k, n)` entries for a non-negative `top_k`, and no record left
        out ranks before one that was kept. The store is not changed. */
    method Search(query: Tensor, topK: int := 5) returns (hits: seq<Hit>)
      ensures hits == Hits(query, topK)
      ensures embeddings == [] ==> hits == []
      ensures topK >= 0 ==> |hits| == Min(topK, |embeddings|)
      ensures Ranked(hits)
      ensures forall i :: 0 <= i < |hits| ==>
        hits[i].id < |embeddings| && hits[i].score == Score(cosine, Flatten(query), embeddings[hits[i].id])
      ensures forall i, j :: 0 <= i < j < |hits| ==> hits[i].id != hits[j].id
      ensures forall i :: 0 <= i < |hits| && (!NonZero(Flatten(query)) || !NonZero(embeddings[hits[i].id])) ==>
        hits[i].score == 0.0
      ensures forall i, id :: 0 <= i < |hits| && 0 <= id < |embeddings| && id !in HitIds(hits) ==>
        Precedes(hits[i], Hit(id, Score(cosine, Flatten(query), embeddings[id])))
    {
      RankingFacts(cosine, Flatten(query), embeddings);
      if |embeddings| == 0 {
        return [];
      }
      var queryFlat := Flatten(query);
      var similarities: seq<Hit> := [];
      var i := 0;
      while i < |embeddings|
        invariant 0 <= i <= |embeddings|
        invariant |similarities| == i
        invariant forall k :: 0 <= k < i ==> similarities[k] == Hit(k, Score(cosine, queryFlat, embeddings[k]))
      {
        var emb := embeddings[i];
        var queryHasNorm := NonZero(queryFlat);
        var embHasNorm := NonZero(emb);
        var sim := if queryHasNorm && embHasNorm then cosine(queryFlat, emb) else 0.0;
        similarities := similarities + [Hit(i, sim)];
        i := i + 1;
      }
      assert similarities == Scored(cosine, queryFlat, embeddings);
      similarities := SortDescending(similarities);
      hits := TakePrefix(similarities, topK);
      var r := similarities;
      assert hits == r[..|hits|];
      forall i, id | 0 <= i < |hits| && 0 <= id < |embeddings| && id !in HitIds(hits)
        ensures Precedes(hits[i], Hit(id, Score(cosine, queryFlat, embeddings[id])))
      {
        assert id in HitIds(r);
        var h :| h in r && h.id == id;
        var p :| 0 <= p < |r| && r[p] == h;
        assert p >= |hits|;
        assert Precedes(r[i], r[p]);
      }
    }
  }
}
