/** The request hash of a QA request: which fields it covers (src/creditlens/application/qa_service.py:554-616). */
module QAHash {
  import opened Common
  import opened Contracts

  // ---------------------------------------------------------------- what a request brings

  /** A decision cutoff as the client wrote it; a time without an offset counts as UTC. */
  datatype Cutoff = Naive(local: int) | Aware(local: int, offset: int)

  function Instant(c: Cutoff): int {
    match c
    case Naive(local) => local
    case Aware(local, offset) => local - offset
  }

  datatype Query = Query(caseId: Id, question: string, topK: nat, asOf: Option<Date>, cutoff: Option<Cutoff>)

  /** The service's settings. `runtime` and `retrieval` are the two nested objects of the retrieval stack, as JSON. */
  datatype Settings = Settings(
    promptVersion: string, promptHash: string, provider: string, model: Option<string>,
    embeddingProvider: string, embeddingVersion: string, rerankProvider: string, rerankModel: Option<string>,
    chunks: string, summaries: string, maxClaims: int, maxTokens: int, maxRepairs: int, extractiveFallback: bool,
    auditVersion: string, contractVersion: string, sparseEncoder: Option<string>, runtime: string, retrieval: string)

  /** settings.x or None */
  function OrNone(text: Option<string>): Option<string> {
    if Truthy(text) then text else None
  }

  // ---------------------------------------------------------------- the hash

  /** The hashed object, entry by entry; a hash stands for it. */
  datatype Hash = Hash(
    caseId: Id, question: string, topK: nat, asOfDate: Option<Date>, cutoff: Option<int>,
    promptVersion: string, promptHash: string, provider: string, model: Option<string>,
    embeddingProvider: string, embeddingVersion: string, rerankProvider: string, rerankModel: Option<string>,
    chunks: string, summaries: string, maxClaims: int, maxTokens: int, maxRepairs: int, extractiveFallback: bool,
    auditVersion: string, contractVersion: string, sparseEncoder: Option<string>, runtime: string, retrieval: string,
    hashVersion: Option<string>)

  const HASH_VERSION := "grounded_qa_request_v2"

  /** _request_hash; `version` is absent for the hash of the contract before the current one. */
  function RequestHash(s: Settings, q: Query, version: Option<string>): Hash {
    Hash(
      q.caseId, q.question, q.topK, q.asOf, if q.cutoff.Some? then Some(Instant(q.cutoff.value)) else None,
      s.promptVersion, s.promptHash, s.provider, OrNone(s.model),
      s.embeddingProvider, s.embeddingVersion, s.rerankProvider, OrNone(s.rerankModel),
      s.chunks, s.summaries, s.maxClaims, s.maxTokens, s.maxRepairs, s.extractiveFallback,
      s.auditVersion, s.contractVersion, s.sparseEncoder, s.runtime, s.retrieval,
      version)
  }

  function CurrentHash(s: Settings, q: Query): Hash {
    RequestHash(s, q, Some(HASH_VERSION))
  }

  function LegacyHash(s: Settings, q: Query): Hash {
    RequestHash(s, q, None)
  }

  // ---------------------------------------------------------------- what it tells apart

  /** The settings a replay compares. */
  predicate SameContract(s: Settings, t: Settings) {
    && s.promptVersion == t.promptVersion && s.provider == t.provider && OrNone(s.model) == OrNone(t.model)
    && s.auditVersion == t.auditVersion && s.contractVersion == t.contractVersion
  }

  /** A model name that is empty counts as absent. */
  function Plain(s: Settings): Settings {
    s.(model := OrNone(s.model), rerankModel := OrNone(s.rerankModel))
  }

  /** The same question about the same case, as of the same day and known up to the same instant. */
  predicate SameQuery(q: Query, r: Query) {
    && q.caseId == r.caseId && q.question == r.question && q.topK == r.topK && q.asOf == r.asOf
    && q.cutoff.Some? == r.cutoff.Some?
    && (q.cutoff.Some? ==> Instant(q.cutoff.value) == Instant(r.cutoff.value))
  }

  /** Two requests have the same hash exactly if they ask the same under the same settings and hash contract; then in
      particular everything a replay compares is the same. */
  lemma {:induction false} HashTellsApart(
      s: Settings, q: Query, v: Option<string>, t: Settings, r: Query, w: Option<string>)
    ensures RequestHash(s, q, v) == RequestHash(t, r, w) <==> Plain(s) == Plain(t) && SameQuery(q, r) && v == w
    ensures Plain(s) == Plain(t) ==> SameContract(s, t)
  {
    var h, g := RequestHash(s, q, v), RequestHash(t, r, w);
    if h == g {
      assert h.cutoff == g.cutoff && h.cutoff.Some? == q.cutoff.Some? && g.cutoff.Some? == r.cutoff.Some?;
    }
  }
}
