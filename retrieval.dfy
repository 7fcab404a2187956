/**
 * Retrieval over the policy corpus (embeddings.py): the confidence test of a
 * result, the ranking behind `PolicyIndex.search`, the index build that keeps
 * chunks and matrix rows aligned, the confidence gate of
 * `search_with_threshold`, the lazily built global index and the dictionary
 * form `search_policies` hands to the tool server.
 *
 * Embedding vectors are opaque: the embedding client is a parameter mapping
 * texts to vectors, and the similarity of a query to a matrix row is a
 * parameter mapping a row to a real score.
 */
module Retrieval {
  import opened Wrappers
  import Config

  type Vector = seq<real>

  /** One entry of the policies file. */
  datatype Policy = Policy(id: string, category: string, title: string, content: string)

  /** `PolicyChunk`: the policy's metadata plus its embedding once the index is built. */
  datatype PolicyChunk = PolicyChunk(
    id: string,
    category: string,
    title: string,
    content: string,
    embedding: Option<Vector>)

  datatype RetrievalResult = RetrievalResult(chunk: PolicyChunk, score: real)

  /** `RetrievalResult.is_confident`. */
  predicate IsConfident(r: RetrievalResult) {
    r.score >= Config.RetrievalConfidenceThreshold
  }

  /** The chunk `_load_policies` creates for a policy, before any embedding is attached. */
  function ChunkOf(p: Policy): PolicyChunk {
    PolicyChunk(p.id, p.category, p.title, p.content, None)
  }

  /** The chunks `_load_policies` appends, one per policy in file order. */
  function Loaded(policies: seq<Policy>): (chunks: seq<PolicyChunk>)
    ensures |chunks| == |policies|
    ensures forall i :: 0 <= i < |policies| ==> chunks[i] == ChunkOf(policies[i])
  {
    seq(|policies|, i requires 0 <= i < |policies| => ChunkOf(policies[i]))
  }

  /** `[chunk.content for chunk in chunks]`. */
  function Contents(chunks: seq<PolicyChunk>): (texts: seq<string>)
    ensures |texts| == |chunks|
    ensures forall i :: 0 <= i < |chunks| ==> texts[i] == chunks[i].content
  {
    seq(|chunks|, i requires 0 <= i < |chunks| => chunks[i].content)
  }

  /** The promise of the embedding client: one vector per input text. */
  ghost predicate OneVectorPerText(embedDocuments: seq<string> -> seq<Vector>) {
    forall texts :: |embedDocuments(texts)| == |texts|
  }

  /** `np.dot(matrix, query_embedding)`, with the per-row similarity left abstract. */
  function Scores(matrix: seq<Vector>, similarity: Vector -> real): (scores: seq<real>)
    ensures |scores| == |matrix|
    ensures forall i :: 0 <= i < |matrix| ==> scores[i] == similarity(matrix[i])
  {
    seq(|matrix|, i requires 0 <= i < |matrix| => similarity(matrix[i]))
  }

  // ---------------------------------------------------------------------------
  // Ranking: np.argsort(scores)[::-1][:top_k]
  // ---------------------------------------------------------------------------

  predicate InRange(idx: seq<nat>, n: nat) {
    forall i :: 0 <= i < |idx| ==> idx[i] < n
  }

  predicate Distinct(idx: seq<nat>) {
    forall i, j :: 0 <= i < j < |idx| ==> idx[i] != idx[j]
  }

  /** Positions listed from the highest score to the lowest. */
  predicate NonIncreasing(scores: seq<real>, idx: seq<nat>)
    requires InRange(idx, |scores|)
  {
    forall i, j :: 0 <= i < j < |idx| ==> scores[idx[i]] >= scores[idx[j]]
  }

  /** Places position `k` before the first listed position whose score is not above its own. */
  function InsertRanked(scores: seq<real>, k: nat, r: seq<nat>): (out: seq<nat>)
    requires k < |scores| && InRange(r, |scores|) && NonIncreasing(scores, r)
    ensures |out| == |r| + 1 && InRange(out, |scores|) && NonIncreasing(scores, out)
    ensures forall x :: x in out <==> x == k || x in r
    ensures out[0] == k || (r != [] && out[0] == r[0])
    ensures Distinct(r) && k !in r ==> Distinct(out)
  {
    if r == [] || scores[k] >= scores[r[0]] then
      [k] + r
    else
      var rest := InsertRanked(scores, k, r[1..]);
      assert r == [r[0]] + r[1..];
      assert scores[r[0]] >= scores[rest[0]];
      assert Distinct(r) && k !in r ==> r[0] !in rest by {
        if Distinct(r) && k !in r {
          assert forall i :: 0 <= i < |r[1..]| ==> r[1..][i] != r[0];
        }
      }
      [r[0]] + rest
  }

  /** The positions below `n`, ranked by score (the later position first on a tie). */
  function RankedPrefix(scores: seq<real>, n: nat): (r: seq<nat>)
    requires n <= |scores|
    ensures |r| == n && InRange(r, |scores|) && NonIncreasing(scores, r) && Distinct(r)
    ensures forall x: nat :: x in r <==> x < n
  {
    if n == 0 then []
    else
      var prev := RankedPrefix(scores, n - 1);
      var r := InsertRanked(scores, n - 1, prev);
      assert forall x: nat :: x in r <==> x == n - 1 || x < n - 1;
      r
  }

  /** `np.argsort(scores)[::-1]`: every position once, highest score first. */
  function RankedIndices(scores: seq<real>): (r: seq<nat>)
    ensures |r| == |scores| && InRange(r, |scores|) && NonIncreasing(scores, r) && Distinct(r)
    ensures forall x: nat :: x in r <==> x < |scores|
  {
    RankedPrefix(scores, |scores|)
  }

  /** `len(xs[:k])` for a list of length `n`; a negative `k` counts from the end. */
  function SliceLen(n: nat, k: int): (m: nat)
    ensures m <= n
    ensures 0 <= k ==> m == if k < n then k else n
  {
    if 0 <= k then (if k < n then k else n)
    else if n + k < 0 then 0 else n + k
  }

  /**
   * The positions `search` reports: `min(top_k, n)` positions for a
   * non-negative `top_k`, each a real position, none twice, highest score first.
   */
  function TopIndices(scores: seq<real>, topK: int): (top: seq<nat>)
    ensures |top| == SliceLen(|scores|, topK)
    ensures 0 <= topK ==> |top| == if topK < |scores| then topK else |scores|
    ensures InRange(top, |scores|) && Distinct(top) && NonIncreasing(scores, top)
  {
    var r := RankedIndices(scores);
    var top := r[..SliceLen(|scores|, topK)];
    assert forall i :: 0 <= i < |top| ==> top[i] == r[i];
    top
  }

  /** Every position left out scores no higher than every position reported. */
  lemma LeftOutScoresNoHigher(scores: seq<real>, topK: int, x: nat, j: nat)
    requires x < |scores| && x !in TopIndices(scores, topK)
    requires j < |TopIndices(scores, topK)|
    ensures scores[x] <= scores[TopIndices(scores, topK)[j]]
  {
    var r := RankedIndices(scores);
    var m := SliceLen(|scores|, topK);
    assert x in r;
    var p :| 0 <= p < |r| && r[p] == x;
    assert forall q :: 0 <= q < m ==> TopIndices(scores, topK)[q] == r[q];
    assert m <= p;
    assert TopIndices(scores, topK)[j] == r[j];
  }

  /** What `search` returns: the chunk and score at each reported position, in ranked order. */
  function SearchResults(chunks: seq<PolicyChunk>, scores: seq<real>, topK: int): (rs: seq<RetrievalResult>)
    requires |scores| == |chunks|
    ensures |rs| == SliceLen(|chunks|, topK)
    ensures forall j :: 0 <= j < |rs| ==> rs[j].chunk in chunks
    ensures forall i, j :: 0 <= i < j < |rs| ==> rs[i].score >= rs[j].score
  {
    var top := TopIndices(scores, topK);
    seq(|top|, j requires 0 <= j < |top| => RetrievalResult(chunks[top[j]], scores[top[j]]))
  }

  /** `any(r.is_confident for r in results)`. */
  predicate AnyConfident(rs: seq<RetrievalResult>) {
    exists j :: 0 <= j < |rs| && IsConfident(rs[j])
  }

  /**
   * The results come highest score first, so the gate is open exactly when the
   * first result is confident, and it is closed when nothing is returned.
   */
  lemma GateIsFirstResult(chunks: seq<PolicyChunk>, scores: seq<real>, topK: int)
    requires |scores| == |chunks|
    ensures var rs := SearchResults(chunks, scores, topK);
      AnyConfident(rs) <==> (rs != [] && IsConfident(rs[0]))
  {
    var rs := SearchResults(chunks, scores, topK);
    if AnyConfident(rs) {
      var j :| 0 <= j < |rs| && IsConfident(rs[j]);
      assert rs[0].score >= rs[j].score;
    }
  }

  /** Every returned result is a chunk at a real position with that position's score, and no chunk is returned twice. */
  lemma SearchResultsAreIndexed(chunks: seq<PolicyChunk>, scores: seq<real>, topK: int, j: nat)
    requires |scores| == |chunks|
    requires j < |SearchResults(chunks, scores, topK)|
    ensures var top := TopIndices(scores, topK);
      && top[j] < |chunks|
      && SearchResults(chunks, scores, topK)[j] == RetrievalResult(chunks[top[j]], scores[top[j]])
      && forall i :: 0 <= i < |top| && i != j ==> top[i] != top[j]
  {
  }

  // ---------------------------------------------------------------------------
  // search_policies output
  // ---------------------------------------------------------------------------

  /** One dictionary of `search_policies`' result list. */
  datatype PolicyHit = PolicyHit(
    id: string,
    category: string,
    title: string,
    content: string,
    score: real,
    isConfident: bool)

  function HitOf(r: RetrievalResult): PolicyHit {
    PolicyHit(r.chunk.id, r.chunk.category, r.chunk.title, r.chunk.content, r.score, IsConfident(r))
  }

  /** `search_policies` on a built index: the top three results as dictionaries, and the gate. */
  function PolicyHits(chunks: seq<PolicyChunk>, scores: seq<real>): (out: (seq<PolicyHit>, bool))
    requires |scores| == |chunks|
    ensures |out.0| <= Config.TopKChunks
    ensures out.1 <==> exists j :: 0 <= j < |out.0| && out.0[j].isConfident
  {
    var rs := SearchResults(chunks, scores, Config.TopKChunks);
    var hits := seq(|rs|, j requires 0 <= j < |rs| => HitOf(rs[j]));
    assert forall j :: 0 <= j < |rs| ==> (hits[j].isConfident <==> IsConfident(rs[j]));
    (hits, AnyConfident(rs))
  }

  /** When the gate is open, the first hit is itself confident. */
  lemma GateOpenMeansFirstHitConfident(chunks: seq<PolicyChunk>, scores: seq<real>)
    requires |scores| == |chunks|
    ensures var out := PolicyHits(chunks, scores);
      out.1 ==> out.0 != [] && out.0[0].isConfident
  {
    var rs := SearchResults(chunks, scores, Config.TopKChunks);
    GateIsFirstResult(chunks, scores, Config.TopKChunks);
    var out := PolicyHits(chunks, scores);
    if out.1 {
      assert out.0[0] == HitOf(rs[0]);
    }
  }

  // ---------------------------------------------------------------------------
  // The index
  // ---------------------------------------------------------------------------

  /** `EmbeddingClient`: the choice between the provider and the hashed mock vectors. */
  class EmbeddingClient {
    const useMock: bool

    /** Mock vectors are used when no API key is configured or the provider package cannot be imported. */
    constructor (hasApiKey: bool, providerImports: bool)
      ensures useMock <==> !hasApiKey || !providerImports
    {
      if !hasApiKey {
        useMock := true;
      } else if !providerImports {
        useMock := true;
      } else {
        useMock := false;
      }
    }
  }

  /** `PolicyIndex`: the chunks in file order and the stacked embedding matrix. */
  class PolicyIndex {
    var chunks: seq<PolicyChunk>
    var matrix: seq<Vector>

    /** Chunk i carries row i of the matrix as its embedding. */
    ghost predicate Aligned()
      reads this
    {
      |matrix| == |chunks| && forall i :: 0 <= i < |chunks| ==> chunks[i].embedding == Some(matrix[i])
    }

    /** `PolicyIndex.__init__`: load the policies, then build the index. */
    constructor (policies: seq<Policy>, embedDocuments: seq<string> -> seq<Vector>)
      requires OneVectorPerText(embedDocuments)
      ensures Aligned()
      ensures |chunks| == |policies|
      ensures forall i :: 0 <= i < |policies| ==> chunks[i] == ChunkOf(policies[i]).(embedding := Some(matrix[i]))
      ensures matrix == embedDocuments(Contents(Loaded(policies)))
    {
      chunks := [];
      matrix := [];
      new;
      LoadPolicies(policies);
      assert chunks == Loaded(policies);
      BuildIndex(embedDocuments);
      assert |matrix| == |chunks|;
    }

    /** `_load_policies`: one chunk per policy, appended in file order. */
    method LoadPolicies(policies: seq<Policy>)
      modifies this
      ensures matrix == old(matrix)
      ensures chunks == old(chunks) + Loaded(policies)
    {
      var i := 0;
      while i < |policies|
        invariant 0 <= i <= |policies| && matrix == old(matrix)
        invariant chunks == old(chunks) + Loaded(policies[..i])
      {
        assert policies[..i + 1] == policies[..i] + [policies[i]];
        assert Loaded(policies[..i + 1]) == Loaded(policies[..i]) + [ChunkOf(policies[i])];
        chunks := chunks + [ChunkOf(policies[i])];
        i := i + 1;
      }
      assert policies[..i] == policies;
    }

    /**
     * `_build_index`: embed every chunk's content, attach vector i to chunk i
     * (as far as `zip` reaches) and keep the vectors as the matrix.
     */
    method BuildIndex(embedDocuments: seq<string> -> seq<Vector>)
      modifies this
      ensures matrix == embedDocuments(Contents(old(chunks)))
      ensures |chunks| == |old(chunks)|
      ensures forall i :: 0 <= i < |chunks| ==>
        chunks[i] == old(chunks)[i].(embedding := if i < |matrix| then Some(matrix[i]) else old(chunks)[i].embedding)
      ensures |matrix| == |chunks| ==> Aligned()
    {
      var texts := Contents(chunks);
      var embeddings := embedDocuments(texts);
      var i := 0;
      while i < |chunks| && i < |embeddings|
        invariant 0 <= i <= |chunks| && i <= |embeddings| && |chunks| == |old(chunks)|
        invariant forall k :: 0 <= k < |chunks| ==>
          chunks[k] == old(chunks)[k].(embedding := if k < i then Some(embeddings[k]) else old(chunks)[k].embedding)
      {
        chunks := chunks[i := chunks[i].(embedding := Some(embeddings[i]))];
        i := i + 1;
      }
      matrix := embeddings;
    }

    /**
     * `search`: score every row against the query, rank, keep the first
     * `top_k` positions and append one result per kept position.
     */
    method Search(similarity: Vector -> real, topK: int) returns (results: seq<RetrievalResult>)
      requires Aligned()
      ensures results == SearchResults(chunks, Scores(matrix, similarity), topK)
    {
      var scores := Scores(matrix, similarity);
      var topIndices := TopIndices(scores, topK);
      results := [];
      var j := 0;
      while j < |topIndices|
        invariant 0 <= j <= |topIndices|
        invariant results == SearchResults(chunks, scores, topK)[..j]
      {
        var idx := topIndices[j];
        results := results + [RetrievalResult(chunks[idx], scores[idx])];
        j := j + 1;
      }
    }

    /** `search_with_threshold`: the results and whether any of them is confident. */
    method SearchWithThreshold(similarity: Vector -> real, topK: int)
      returns (results: seq<RetrievalResult>, isConfident: bool)
      requires Aligned()
      ensures results == SearchResults(chunks, Scores(matrix, similarity), topK)
      ensures isConfident <==> results != [] && IsConfident(results[0])
    {
      results := Search(similarity, topK);
      GateIsFirstResult(chunks, Scores(matrix, similarity), topK);
      isConfident := exists j :: 0 <= j < |results| && IsConfident(results[j]);
    }
  }

  /** The module-global `_policy_index`, built on first use. */
  class IndexHolder {
    var index: PolicyIndex?
    ghost var builds: nat

    ghost predicate Valid()
      reads this, index
    {
      && builds <= 1
      && (index == null <==> builds == 0)
      && (index != null ==> index.Aligned())
    }

    constructor ()
      ensures Valid() && index == null && builds == 0
    {
      index := null;
      builds := 0;
    }

    /** `get_policy_index`: build the index once, then hand out the same instance. */
    method GetPolicyIndex(policies: seq<Policy>, embedDocuments: seq<string> -> seq<Vector>)
      returns (ix: PolicyIndex)
      requires Valid() && OneVectorPerText(embedDocuments)
      modifies this
      ensures Valid() && index == ix
      ensures old(index) != null ==> ix == old(index) && builds == old(builds)
      ensures old(index) == null ==> fresh(ix) && builds == 1
    {
      if index == null {
        index := new PolicyIndex(policies, embedDocuments);
        builds := builds + 1;
      }
      ix := index;
    }

    /** `search_policies`: the global index's top three results as dictionaries, with the gate. */
    method SearchPolicies(policies: seq<Policy>, embedDocuments: seq<string> -> seq<Vector>, similarity: Vector -> real)
      returns (hits: seq<PolicyHit>, isConfident: bool)
      requires Valid() && OneVectorPerText(embedDocuments)
      modifies this
      ensures Valid() && index != null
      ensures (hits, isConfident) == PolicyHits(index.chunks, Scores(index.matrix, similarity))
    {
      var ix := GetPolicyIndex(policies, embedDocuments);
      var results, confident := ix.SearchWithThreshold(similarity, Config.TopKChunks);
      GateIsFirstResult(ix.chunks, Scores(ix.matrix, similarity), Config.TopKChunks);
      hits := seq(|results|, k requires 0 <= k < |results| => HitOf(results[k]));
      isConfident := confident;
    }
  }
}
