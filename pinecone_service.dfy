/** The simulated vector search (src/services/pineconeService.ts): five
    candidate matches with decreasing similarity, those below the threshold
    dropped, the rest cut to `topK`. */
module PineconeService {
  import opened Wrappers
  import opened Types
  import opened Text
  import opened Numbers
  import opened Sequences
  import opened EmbeddingService

  /** The loop always generates this many candidates. */
  const CandidateCount: nat := 5

  const DefaultTopK: int := 3
  const DefaultSimilarityThreshold: real := 0.7

  /** What every failure inside the search is turned into. */
  const SearchError: ApiError := ApiError("Failed to search vector database.", Some(500), None)

  /** Score of candidate `i`: 0.95, 0.90, 0.85, 0.80, 0.75. */
  function CandidateSimilarity(i: nat): (s: real)
    ensures s <= 0.95
  {
    0.95 - 0.05 * i as real
  }

  /** Candidate `i` of the loop body. */
  function Candidate(query: string, i: nat): Source {
    Source(
      "result-" + NatToString(i),
      "Result " + NatToString(i + 1) + " for \"" + query + "\"",
      "This is simulated content for the query \"" + query
        + "\". "
        + "In a real implementation, "
        + "this would be the actual content from your vector database.",
      CandidateSimilarity(i),
      Some("https://example.com/result-" + NatToString(i)),
      None)
  }

  /** All the candidates, in loop order. */
  function Candidates(query: string): (c: seq<Source>)
    ensures |c| == CandidateCount
  {
    seq(CandidateCount, i requires 0 <= i < CandidateCount => Candidate(query, i))
  }

  /** The mock results after the first `n` loop iterations over `cands`:
      the candidates among the first `n` whose similarity reaches the
      threshold, in order. */
  function Kept(cands: seq<Source>, threshold: real, n: nat): seq<Source>
    requires n <= |cands|
  {
    if n == 0 then []
    else Kept(cands, threshold, n - 1) + (if cands[n - 1].similarity >= threshold then [cands[n - 1]] else [])
  }

  /** How many of the first `n` candidates reach the threshold. */
  function KeptCount(cands: seq<Source>, threshold: real, n: nat): (k: nat)
    requires n <= |cands|
    ensures k <= n
  {
    if n == 0 then 0
    else KeptCount(cands, threshold, n - 1) + (if cands[n - 1].similarity >= threshold then 1 else 0)
  }

  /** Similarities strictly decrease along `cands`. */
  predicate Decreasing(cands: seq<Source>) {
    forall i, j :: 0 <= i < j < |cands| ==> cands[i].similarity > cands[j].similarity
  }

  /** `s.slice(0, end)`: a negative `end` counts from the back, an `end`
      past the length is clipped. */
  function SliceTo<T>(s: seq<T>, end: int): (r: seq<T>)
    ensures |r| <= |s| && r == s[..|r|]
    ensures end >= 0 ==> |r| == (if end < |s| then end else |s|)
    ensures end < 0 ==> |r| == (if |s| + end > 0 then |s| + end else 0)
  {
    if end >= 0 then (if end < |s| then s[..end] else s)
    else (if |s| + end > 0 then s[..|s| + end] else [])
  }

  /** The list a successful search returns. */
  function SearchResults(query: string, topK: int, threshold: real): seq<Source> {
    SliceTo(Kept(Candidates(query), threshold, CandidateCount), topK)
  }

  /** `searchPinecone(query, topK, similarityThreshold)`. `embedding` is how
      the awaited `queryToEmbedding` settled (a vector of the length
      `QueryToEmbedding` promises when it succeeds) and `latency` how the simulated
      search delay settled; a rejection of either is rethrown as
      `SearchError`. */
  method SearchPinecone(query: string, topK: int, similarityThreshold: real,
                        embedding: Result<seq<real>, string>, latency: Settled)
    returns (r: Result<seq<Source>, ApiError>)
    requires embedding.Success? ==> |embedding.value| == EmbeddingDimension
    ensures embedding.Failure? || latency.Rejected? <==> r == Failure(SearchError)
    ensures r.Success? ==> r.value == SearchResults(query, topK, similarityThreshold)
    ensures r.Success? ==> |r.value| <= CandidateCount && (topK >= 0 ==> |r.value| <= topK)
    ensures r.Success? ==> forall k :: 0 <= k < |r.value| ==> r.value[k].similarity >= similarityThreshold
  {
    if embedding.Failure? || latency.Rejected? {
      return Failure(SearchError);
    }
    var mockResults: seq<Source> := [];
    for i := 0 to CandidateCount
      invariant mockResults == Kept(Candidates(query), similarityThreshold, i)
    {
      var similarity := CandidateSimilarity(i);
      if similarity >= similarityThreshold {
        mockResults := mockResults + [Candidate(query, i)];
      }
    }
    SearchBounds(query, topK, similarityThreshold);
    SearchAboveThreshold(query, topK, similarityThreshold);
    r := Success(SliceTo(mockResults, topK));
  }

  /** The candidates come out with strictly decreasing similarity. */
  lemma CandidatesDecreasing(query: string)
    ensures Decreasing(Candidates(query))
  {
  }

  /** Because the scores decrease, the kept candidates are a prefix of the
      candidates: exactly the first `KeptCount` of them, and the next one
      falls short of the threshold. */
  lemma {:induction false} KeptIsPrefix(cands: seq<Source>, threshold: real, n: nat)
    requires n <= |cands| && Decreasing(cands)
    ensures |Kept(cands, threshold, n)| == KeptCount(cands, threshold, n)
    ensures Kept(cands, threshold, n) == cands[..KeptCount(cands, threshold, n)]
    ensures KeptCount(cands, threshold, n) < n ==> cands[KeptCount(cands, threshold, n)].similarity < threshold
  {
    if n > 0 {
      KeptIsPrefix(cands, threshold, n - 1);
      var k := KeptCount(cands, threshold, n - 1);
      if cands[n - 1].similarity >= threshold {
        assert k == n - 1;
        PrefixSnoc(cands, k);
      }
    }
  }

  /** Everything kept reaches the threshold. */
  lemma {:induction false} KeptAboveThreshold(cands: seq<Source>, threshold: real, n: nat)
    requires n <= |cands|
    ensures forall k :: 0 <= k < |Kept(cands, threshold, n)| ==> Kept(cands, threshold, n)[k].similarity >= threshold
  {
    if n > 0 {
      KeptAboveThreshold(cands, threshold, n - 1);
    }
  }

  /** A successful search returns at most five results and, for a
      non-negative `topK`, at most `topK`. */
  lemma SearchBounds(query: string, topK: int, threshold: real)
    ensures |SearchResults(query, topK, threshold)| <= CandidateCount
    ensures topK >= 0 ==> |SearchResults(query, topK, threshold)| <= topK
  {
    CandidatesDecreasing(query);
    KeptIsPrefix(Candidates(query), threshold, CandidateCount);
  }

  /** Every returned result reaches the threshold. */
  lemma SearchAboveThreshold(query: string, topK: int, threshold: real)
    ensures forall k :: 0 <= k < |SearchResults(query, topK, threshold)| ==>
      SearchResults(query, topK, threshold)[k].similarity >= threshold
  {
    KeptAboveThreshold(Candidates(query), threshold, CandidateCount);
  }

  /** The results are the first candidates, in candidate order: result `k`
      is candidate `k`, and for a non-negative `topK` there are as many as
      `topK` and the number of candidates that reach the threshold allow. */
  lemma SearchIsCandidatePrefix(query: string, topK: int, threshold: real)
    ensures var r := SearchResults(query, topK, threshold);
      && |r| <= CandidateCount
      && r == Candidates(query)[..|r|]
      && (topK >= 0 ==> |r| == (if topK < KeptCount(Candidates(query), threshold, CandidateCount) then topK else KeptCount(Candidates(query), threshold, CandidateCount)))
  {
    CandidatesDecreasing(query);
    KeptIsPrefix(Candidates(query), threshold, CandidateCount);
  }

  /** Result `k` carries the id, url, title, score and content of candidate
      `k`, and its content quotes the query. */
  lemma SearchResultFields(query: string, topK: int, threshold: real, k: nat)
    requires k < |SearchResults(query, topK, threshold)|
    ensures var s := SearchResults(query, topK, threshold)[k];
      && s.id == "result-" + NatToString(k)
      && s.url == Some("https://example.com/result-" + NatToString(k))
      && s.title == "Result " + NatToString(k + 1) + " for \"" + query + "\""
      && s.similarity == 0.95 - 0.05 * k as real
      && Includes(s.content, query)
  {
    SearchIsCandidatePrefix(query, topK, threshold);
    var r := SearchResults(query, topK, threshold);
    var s := r[k];
    assert s == Candidates(query)[k] == Candidate(query, k);
    var before := "This is simulated content for the query \"";
    var after := "\". " + "In a real implementation, " + "this would be the actual content from your vector database.";
    assert s.content == before + query + after;
    IncludesInfix(before, query, after);
  }

  /** Results come out with strictly decreasing similarity and distinct ids. */
  lemma SearchOrderedAndDistinct(query: string, topK: int, threshold: real, j: nat, k: nat)
    requires j < k < |SearchResults(query, topK, threshold)|
    ensures SearchResults(query, topK, threshold)[j].similarity > SearchResults(query, topK, threshold)[k].similarity
    ensures SearchResults(query, topK, threshold)[j].id != SearchResults(query, topK, threshold)[k].id
  {
    SearchResultFields(query, topK, threshold, j);
    SearchResultFields(query, topK, threshold, k);
    NatToStringInjective(j, k);
    PrefixCancel("result-", NatToString(j), NatToString(k));
  }

  /** A threshold above every score keeps nothing. */
  lemma {:induction false} NoneKeptAboveAll(cands: seq<Source>, threshold: real, n: nat)
    requires n <= |cands|
    requires forall i :: 0 <= i < |cands| ==> cands[i].similarity < threshold
    ensures Kept(cands, threshold, n) == []
  {
    if n > 0 {
      NoneKeptAboveAll(cands, threshold, n - 1);
    }
  }

  /** A threshold above the best score leaves nothing. */
  lemma SearchThresholdTooHigh(query: string, topK: int, threshold: real)
    requires threshold > 0.95
    ensures SearchResults(query, topK, threshold) == []
  {
    NoneKeptAboveAll(Candidates(query), threshold, CandidateCount);
  }

  /** With the defaults (`topK = 3`, threshold 0.7) the three best candidates
      come back. */
  lemma SearchDefaults(query: string)
    ensures SearchResults(query, DefaultTopK, DefaultSimilarityThreshold) == Candidates(query)[..3]
  {
    CandidatesDecreasing(query);
    KeptIsPrefix(Candidates(query), DefaultSimilarityThreshold, CandidateCount);
  }
}
