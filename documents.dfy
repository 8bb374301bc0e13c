/**
 * The values that flow between the vector index, the retriever and the
 * chains: LangChain documents and scored similarity-search hits.
 */
module Documents {

  /** A value in a document's metadata record (title, slug, tags, score, ...). */
  datatype MetaValue = Str(s: string) | Num(n: real) | Strs(items: seq<string>)

  /** A LangChain document: a chunk of text and its metadata record. */
  datatype Document = Document(pageContent: string, metadata: map<string, MetaValue>)

  /** One hit of a similarity search: a document and its relevance score. */
  datatype Scored = Scored(doc: Document, score: real)

  /** The embedding service: text to vector. */
  type Embedder = string -> seq<real>

  /**
   * The vector index's `similaritySearchVectorWithScore(vector, k)`: the
   * nearest hits to `vector`, best first, at most `k` of them when the
   * index honours its contract.
   */
  type SimilaritySearch = (seq<real>, nat) -> seq<Scored>

  /** Number of nearest neighbours both search paths request from the index. */
  const SearchK: nat := 3

  /** Each hit's document, its score dropped: `.map((result) => result[0])`. */
  function StripScores(hits: seq<Scored>): seq<Document>
  {
    seq(|hits|, i requires 0 <= i < |hits| => hits[i].doc)
  }

  /** The index never returns more hits than were asked for. */
  ghost predicate HonoursK(search: SimilaritySearch) {
    forall v, k :: |search(v, k)| <= k
  }
}
