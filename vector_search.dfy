/**
 * `vector_search`: embeds the query and hands MongoDB Atlas an aggregation
 * pipeline of three stages. The pipeline is data here; running it against
 * the collection is the opaque `aggregate` function of the collection.
 */
module Retrieval {
  import opened Wrappers
  import opened Python
  import opened Embedder

  /** The value given to a field in a `$project` stage. */
  datatype Projection =
    | Exclude      // 0
    | Include      // 1
    | SearchScore  // {"$meta": "vectorSearchScore"}

  datatype Stage =
    | VectorSearchStage(index: string, queryVector: seq<real>, path: string, numCandidates: int, limit: int)
    | Unset(field: string)
    | Project(fields: seq<(string, Projection)>)

  type Pipeline = seq<Stage>

  /** A document as the pipeline returns it: the projected display fields and the score. */
  datatype SearchHit = SearchHit(url: Value, content: Value, price: Value, title: Value, score: real)

  /** The collection of embedded product documents; Atlas's ranking is inside `aggregate`. */
  datatype Collection = Collection(aggregate: Pipeline -> seq<SearchHit>)

  const IndexName := "vector_index"
  /** The document field holding a product's embedding; the ingestion job writes it. */
  const EmbeddingField := "embedded_all_text"
  const NumCandidates := 320

  /** The pipeline literal built for a query vector and a result limit. */
  function BuildPipeline(queryEmbedding: seq<real>, limit: int): Pipeline {
    [
      VectorSearchStage(IndexName, queryEmbedding, EmbeddingField, NumCandidates, limit),
      Unset(EmbeddingField),
      Project(DisplayProjection)
    ]
  }

  /** The `$project` stage's fields, in the source's order. */
  const DisplayProjection: seq<(string, Projection)> :=
    [("_id", Exclude), ("url", Include), ("content", Include),
     ("price", Include), ("title", Include), ("score", SearchScore)]

  /** The names a projection keeps, by inclusion or as a computed value. */
  function Kept(fields: seq<(string, Projection)>): set<string> {
    set k | 0 <= k < |fields| && fields[k].1 != Exclude :: fields[k].0
  }

  /** The names a projection drops explicitly. */
  function Dropped(fields: seq<(string, Projection)>): set<string> {
    set k | 0 <= k < |fields| && fields[k].1 == Exclude :: fields[k].0
  }

  /** The display projection keeps the four display fields and the score, and drops `_id`. */
  lemma DisplayProjectionFields()
    ensures Kept(DisplayProjection) == {"url", "content", "price", "title", "score"}
    ensures Dropped(DisplayProjection) == {"_id"}
  {
    var f := DisplayProjection;
    assert f[1].0 in Kept(f) && f[2].0 in Kept(f) && f[3].0 in Kept(f);
    assert f[4].0 in Kept(f) && f[5].0 in Kept(f) && f[0].0 in Dropped(f);
  }

  /**
   * The pipeline asks the index for `limit` nearest documents out of 320
   * candidates by the query vector, over the same field that it then unsets,
   * and returns only the four display fields and the score, without `_id`.
   */
  lemma PipelineShape(queryEmbedding: seq<real>, limit: int)
    ensures var p := BuildPipeline(queryEmbedding, limit);
      && |p| == 3
      && p[0].VectorSearchStage? && p[0].index == "vector_index"
      && p[0].queryVector == queryEmbedding
      && p[0].numCandidates == 320 && p[0].limit == limit
      && p[1].Unset? && p[1].field == p[0].path == "embedded_all_text"
      && p[2].Project?
      && Kept(p[2].fields) == {"url", "content", "price", "title", "score"}
      && Dropped(p[2].fields) == {"_id"}
      && p[0].path !in Kept(p[2].fields)
  {
    DisplayProjectionFields();
  }

  /**
   * `vector_search(user_query, collection, limit)`. The source's early return
   * tests the embedding for `None`, which `get_embedding` never returns (a
   * blank query gives the empty list), so the wrapped value is always `Some`.
   */
  function VectorSearch(userQuery: string, model: EmbeddingModel, collection: Collection, limit: int): seq<SearchHit> {
    var queryEmbedding := Some(GetEmbedding(model, userQuery).vector);
    if queryEmbedding == None then
      []
    else
      collection.aggregate(BuildPipeline(queryEmbedding.value, limit))
  }

  /**
   * Every query, blank ones included, issues the pipeline: the early return
   * never fires, and a blank query searches with an empty query vector.
   */
  lemma SearchAlwaysQueries(userQuery: string, model: EmbeddingModel, collection: Collection, limit: int)
    ensures VectorSearch(userQuery, model, collection, limit)
         == collection.aggregate(BuildPipeline(GetEmbedding(model, userQuery).vector, limit))
    ensures IsBlank(userQuery) ==>
            VectorSearch(userQuery, model, collection, limit) == collection.aggregate(BuildPipeline([], limit))
  {
  }
}
