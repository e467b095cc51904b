/**
 * The blank-input guard in front of the sentence-embedding model
 * (`get_embedding`, written identically in the chatbot and in the
 * ingestion job). The model itself is opaque: it is a parameter, a total
 * function from text to a vector.
 */
module Embedder {
  import opened Python

  /** The SentenceTransformer model; `encode(...).tolist()` is `encode` here. */
  datatype EmbeddingModel = EmbeddingModel(encode: string -> seq<real>)

  /**
   * What a call of `get_embedding` returns, together with the texts it handed
   * to the model (none or one), so that "the model is not called" can be stated.
   */
  datatype Embedding = Embedding(vector: seq<real>, encoderInputs: seq<string>)

  /**
   * Blank text (empty or whitespace only) gives the empty list without calling
   * the model; any other text is encoded as it is, unstripped.
   */
  function GetEmbedding(model: EmbeddingModel, text: string): (e: Embedding)
    ensures IsBlank(text) ==> e.vector == [] && e.encoderInputs == []
    ensures !IsBlank(text) ==> e.vector == model.encode(text) && e.encoderInputs == [text]
  {
    StripEmptyIffBlank(text);
    if Strip(text) == [] then Embedding([], []) else Embedding(model.encode(text), [text])
  }

  /**
   * With a model that never produces an empty vector, the empty vector comes
   * back exactly for blank text.
   */
  lemma EmptyExactlyWhenBlank(model: EmbeddingModel, text: string)
    requires forall t :: model.encode(t) != []
    ensures GetEmbedding(model, text).vector == [] <==> IsBlank(text)
  {
  }

  /** Text holding any non-whitespace character always reaches the model. */
  lemma NonBlankIsEncoded(model: EmbeddingModel, text: string, k: nat)
    requires k < |text| && !IsSpace(text[k])
    ensures GetEmbedding(model, text).encoderInputs == [text]
    ensures GetEmbedding(model, text).vector == model.encode(text)
  {
  }
}
