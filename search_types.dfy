/** The records the components exchange (the shared type declarations of
    the repository): a search hit as the client and the agents see it, a
    source facet, the answer generator's result and an aggregation bucket. */
module SearchTypes {
  import opened Wrappers

  /** One search hit; `relevanceScore` and `isStored` are optional fields. */
  datatype SearchResult = SearchResult(
    id: string,
    title: string,
    url: string,
    content: string,
    highlight: string,
    score: real,
    source: string,
    relevanceScore: Option<real>,
    isStored: Option<bool>)

  /** A distinct source offered for filtering: `{ id, text, checked }`. */
  datatype LabSource = LabSource(id: int, text: string, checked: bool)

  /** The answer generator's result, without its wall-clock processing time. */
  datatype LLMResponse = LLMResponse(response: string, sources: seq<string>, usedKnowledge: bool)

  /** A terms-aggregation bucket: `{ key, doc_count }`. */
  datatype AggregationBucket = AggregationBucket(key: string, docCount: int)
}
