/** The simulated embedding call (src/services/embeddingService.ts). The
    random draws of `Math.random()` are supplied by the caller. */
module EmbeddingService {

  /** Length of every embedding vector. */
  const EmbeddingDimension: nat := 1536

  /** One vector of `EmbeddingDimension` values, each a draw in [0, 1)
      shifted down by one half. */
  method QueryToEmbedding(query: string, draws: seq<real>) returns (embedding: seq<real>)
    requires |draws| == EmbeddingDimension
    requires forall i :: 0 <= i < |draws| ==> 0.0 <= draws[i] < 1.0
    ensures |embedding| == EmbeddingDimension
    ensures forall i :: 0 <= i < |embedding| ==> -0.5 <= embedding[i] < 0.5
  {
    embedding := seq(EmbeddingDimension, i requires 0 <= i < EmbeddingDimension => draws[i] - 0.5);
  }
}
