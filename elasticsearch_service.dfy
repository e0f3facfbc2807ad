/** The document-index service: builds the hybrid (lexical and vector)
    query with an optional source filter, and turns the index's reply into
    search results, filling every missing field with a default. */
module ElasticsearchService {
  import opened Wrappers
  import opened JsStrings
  import opened SearchTypes

  // ---------------------------------------------------------------------
  // The reply of the index

  /** One hit. A string field is "" when it is absent, null or empty (all
      three are falsy); `contentHighlights` is empty when the hit carries no
      content highlight. */
  datatype Hit = Hit(
    id: string,
    title: string,
    url: string,
    content: string,
    source: string,
    score: Option<real>,
    contentHighlights: seq<string>)

  /** `response.hits`: the hit list and `total.value`, each possibly absent. */
  datatype HitsSection = HitsSection(hits: Option<seq<Hit>>, totalValue: Option<int>)

  /** The parts of the reply that are read: `hits` and
      `aggregations.sources.buckets`. */
  datatype EsResponse = EsResponse(hits: Option<HitsSection>, sourceBuckets: Option<seq<AggregationBucket>>)

  /** What `hybridSearch` resolves to: `{ results, total, aggregations: { sources } }`. */
  datatype SearchOutput = SearchOutput(results: seq<SearchResult>, total: int, sourceAggregation: seq<AggregationBucket>)

  const HighlightLength: nat := 200

  /** The first content highlight fragment if it is non-empty, else the
      first 200 characters of the content if there is content, else a fixed
      text; so a highlight is never empty. */
  function HitHighlight(h: Hit): (r: string)
    ensures r != ""
    ensures |h.contentHighlights| > 0 && h.contentHighlights[0] != "" ==> r == h.contentHighlights[0]
    ensures (|h.contentHighlights| == 0 || h.contentHighlights[0] == "") && h.content != "" ==>
              r == Take(h.content, HighlightLength) && r == h.content[..|r|]
    ensures (|h.contentHighlights| == 0 || h.contentHighlights[0] == "") && h.content == "" ==>
              r == "No content available"
  {
    if |h.contentHighlights| > 0 && h.contentHighlights[0] != "" then h.contentHighlights[0]
    else if h.content != "" then Take(h.content, HighlightLength)
    else "No content available"
  }

  /** One hit as a search result: every falsy field takes its default. */
  function TransformHit(h: Hit): (r: SearchResult)
    ensures r.id == h.id
    ensures r.title == (if h.title != "" then h.title else "Untitled") && r.title != ""
    ensures r.url == (if h.url != "" then h.url else "#") && r.url != ""
    ensures r.content == h.content
    ensures r.source == (if h.source != "" then h.source else "unknown") && r.source != ""
    ensures r.score == (if h.score.Some? then h.score.value else 0.0)
    ensures r.highlight == HitHighlight(h) && r.highlight != ""
    ensures r.relevanceScore.None? && r.isStored.None?
  {
    SearchResult(
      id := h.id,
      title := if h.title != "" then h.title else "Untitled",
      url := if h.url != "" then h.url else "#",
      content := h.content,
      highlight := HitHighlight(h),
      score := h.score.GetOr(0.0),
      source := if h.source != "" then h.source else "unknown",
      relevanceScore := None,
      isStored := None)
  }

  /** `response.hits?.hits || []`. */
  function HitList(response: EsResponse): (r: seq<Hit>)
    ensures response.hits.None? ==> r == []
    ensures response.hits.Some? && response.hits.value.hits.None? ==> r == []
    ensures response.hits.Some? && response.hits.value.hits.Some? ==> r == response.hits.value.hits.value
  {
    if response.hits.Some? && response.hits.value.hits.Some? then response.hits.value.hits.value else []
  }

  function TransformHits(hits: seq<Hit>): (r: seq<SearchResult>)
    ensures |r| == |hits|
    ensures forall i | 0 <= i < |hits| :: r[i] == TransformHit(hits[i])
  {
    seq(|hits|, i requires 0 <= i < |hits| => TransformHit(hits[i]))
  }

  /** `transformSearchResponse`: one result per hit, in hit order; the total
      and the source buckets default to 0 and to the empty list. */
  function TransformSearchResponse(response: EsResponse): (r: SearchOutput)
    ensures |r.results| == |HitList(response)|
    ensures forall i | 0 <= i < |r.results| :: r.results[i] == TransformHit(HitList(response)[i])
    ensures response.hits.None? ==> r.results == [] && r.total == 0
    ensures r.total == (if response.hits.Some? && response.hits.value.totalValue.Some?
                        then response.hits.value.totalValue.value else 0)
    ensures r.sourceAggregation == (if response.sourceBuckets.Some? then response.sourceBuckets.value else [])
  {
    var hits := HitList(response);
    SearchOutput(
      results := TransformHits(hits),
      total := if response.hits.Some? then response.hits.value.totalValue.GetOr(0) else 0,
      sourceAggregation := response.sourceBuckets.GetOr([]))
  }

  // ---------------------------------------------------------------------
  // The hybrid query

  datatype LexicalClause = MultiMatch(query: string, fields: seq<string>, fuzziness: string)
  datatype VectorClause = Neural(field: string, queryText: string, modelId: string, k: int)
  datatype SourceFilter = Terms(field: string, values: seq<string>)
  datatype HighlightField = HighlightField(name: string, fragmentSize: Option<int>, numberOfFragments: Option<int>)
  datatype SourcesAggregation = TermsAggregation(name: string, field: string, size: int)

  /** The search body: `size`, the two `should` clauses of `query.bool`,
      the optional `query.bool.filter`, the highlight request and the
      source aggregation. */
  datatype EsQuery = EsQuery(
    size: int,
    lexical: LexicalClause,
    vector: VectorClause,
    filter: Option<SourceFilter>,
    highlight: seq<HighlightField>,
    aggregation: SourcesAggregation)

  /** The options `{ sources = [], numResults = 10 }`. */
  datatype SearchOptions = SearchOptions(sources: Option<seq<string>>, numResults: Option<int>)

  const DefaultNumResults: int := 10
  const SourceKeywordField: string := "source.keyword"

  /** The query before the source filter is considered. */
  function BaseQuery(query: string, numResults: int): (q: EsQuery)
    ensures q.size == numResults && q.vector.k == numResults
    ensures q.lexical.query == query && q.vector.queryText == query
    ensures q.filter.None?
    ensures q.aggregation.field == SourceKeywordField
  {
    EsQuery(
      size := numResults,
      lexical := MultiMatch(query, ["title^3", "content^2", "description", "tags^2"], "AUTO"),
      vector := Neural("embedding", query, ".multilingual-e5-small", numResults),
      filter := None,
      highlight := [HighlightField("content", Some(150), Some(3)), HighlightField("title", None, None)],
      aggregation := TermsAggregation("sources", SourceKeywordField, 20))
  }

  /** Builds the query and then, when there are sources to keep, sets its
      `bool.filter` to a terms clause on `source.keyword`. */
  method BuildHybridQuery(query: string, sources: seq<string>, numResults: int) returns (q: EsQuery)
    ensures q.size == numResults && q.vector.k == numResults
    ensures q.lexical.query == query && q.vector.queryText == query
    ensures q.filter.Some? <==> |sources| > 0
    ensures q.filter.Some? ==> q.filter.value == Terms(SourceKeywordField, sources)
    ensures q.aggregation.field == SourceKeywordField
  {
    q := BaseQuery(query, numResults);
    if |sources| > 0 {
      q := q.(filter := Some(Terms(SourceKeywordField, sources)));
    }
  }

  /** `hybridSearch(query, options)`, given the outcome of the index
      request: the issued query, and the transformed reply or the rethrown
      failure. */
  method HybridSearch(query: string, options: SearchOptions, reply: Outcome<EsResponse>)
    returns (issued: EsQuery, r: Outcome<SearchOutput>)
    ensures issued.size == issued.vector.k == options.numResults.GetOr(DefaultNumResults)
    ensures issued.filter.Some? <==> options.sources.Some? && |options.sources.value| > 0
    ensures issued.filter.Some? ==> issued.filter.value.values == options.sources.value
    ensures issued.lexical.query == query
    ensures reply.Failure? ==> r == Failure(reply.message)
    ensures reply.Success? ==> r == Success(TransformSearchResponse(reply.value))
  {
    var sources := options.sources.GetOr([]);
    var numResults := options.numResults.GetOr(DefaultNumResults);
    issued := BuildHybridQuery(query, sources, numResults);
    match reply {
      case Failure(m) => r := Failure(m);
      case Success(response) => r := Success(TransformSearchResponse(response));
    }
  }
}
