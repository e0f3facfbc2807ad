/** The search endpoint: validates the request, enhances the query, gathers
    web results through the generation service, optionally stores them in
    the document index and reads stored results back, fuses and ranks both
    lists, asks for an answer over the top results and for three follow-up
    questions, and assembles the response envelope. Every external call is
    an input outcome; the order and the arguments of the calls made are
    returned as a trace. */
module SearchRoute {
  import opened Wrappers
  import opened JsStrings
  import opened SearchTypes
  import QueryEnhancer
  import RelatedQuestions

  // ---------------------------------------------------------------------
  // Data

  /** The request body fields the endpoint uses; "" stands for a missing
      string. `selectedSources` and `useSemantic` are read but never used. */
  datatype RequestBody = RequestBody(query: string, apiKey: string, apiUrl: string, numSources: Option<int>)

  /** One structured web result: `{ title, url, snippet, source, relevance_score }`. */
  datatype WebResult = WebResult(title: string, url: string, snippet: string, source: string, relevanceScore: real)

  /** One hit of the stored-results search, with the fields the endpoint reads. */
  datatype StoredHit = StoredHit(id: string, title: string, content: string, url: string, source: string,
                                 score: real, relevanceScore: real)

  /** One candidate of the combined list. */
  datatype ResultItem = ResultItem(id: string, title: string, content: string, url: string, source: string,
                                   score: real, relevanceScore: real, isStored: bool)

  /** One entry of the bulk request body: an index action or a document. */
  datatype BulkEntry =
    | IndexAction(index: string)
    | Document(title: string, content: string, url: string, source: string, query: string, relevanceScore: real)

  /** The external calls the endpoint makes, with the arguments that matter. */
  datatype ExternalCall =
    | EnhanceCall(query: string)
    | WebSearchCall(query: string)
    | StructureCall(query: string, rawResults: string)
    | IndexExistsCall(index: string)
    | CreateIndexCall(index: string)
    | BulkCall(body: seq<BulkEntry>)
    | StoredSearchCall(index: string, size: int, query: string, originalQuery: string)
    | AnswerCall(query: string, contextText: string)
    | RelatedCall(query: string)

  /** The outcome of each external call, should it be made. */
  datatype Stages = Stages(
    enhance: Outcome<string>,
    webSearch: Outcome<string>,
    structure: Outcome<seq<WebResult>>,
    client: Outcome<()>,
    indexExists: Outcome<bool>,
    createIndex: Outcome<()>,
    bulk: Outcome<()>,
    storedSearch: Outcome<seq<StoredHit>>,
    answer: Outcome<seq<string>>,
    related: Outcome<RelatedQuestions.RelatedObject>)

  datatype SourceCounts = SourceCounts(web: nat, stored: nat, total: nat)

  /** The JSON reply: the success envelope, or an error with its HTTP status. */
  datatype Response =
    | Ok(results: seq<SearchResult>, labSources: seq<LabSource>, relatedQuestions: seq<string>,
         llmResponse: string, enhancedQuery: string, total: nat, sources: SourceCounts)
    | Failed(status: nat, error: string, details: Option<string>, suggestion: Option<string>)

  const IndexName: string := "ai-search-results"
  const MaxWebResults: nat := 15
  const DefaultNumSources: int := 10
  const HighlightLength: nat := 200
  const ContextSeparator: string := "\n\n"

  const MissingQuery: Response := Failed(400, "Missing search query", None, None)

  function ServerError(message: string): Response
  {
    Failed(500, "Search failed", Some(message), Some("Please check your API keys and try again."))
  }

  const FallbackQuestions: seq<string> := [
    "What are the key trends in this area?",
    "How is this technology being applied in practice?",
    "What are the main challenges and opportunities?"
  ]

  function NumSourcesOf(req: RequestBody): int
  {
    req.numSources.GetOr(DefaultNumSources)
  }

  // ---------------------------------------------------------------------
  // Step 1: the web stage

  /** The web-results schema: every relevance score lies in [0, 10]. */
  predicate MatchesWebSchema(results: seq<WebResult>)
  {
    forall i | 0 <= i < |results| :: 0.0 <= results[i].relevanceScore <= 10.0
  }

  /** What the `structure` request yields when the web stage reaches it:
      the first fifteen results, or nothing when the request fails or its
      object does not match the schema. */
  function StructuredWebResults(structure: Outcome<seq<WebResult>>): (r: seq<WebResult>)
    ensures |r| <= MaxWebResults
    ensures structure.Success? && MatchesWebSchema(structure.value) ==> r == Take15(structure.value)
    ensures !(structure.Success? && MatchesWebSchema(structure.value)) ==> r == []
    ensures MatchesWebSchema(r)
  {
    if structure.Success? && MatchesWebSchema(structure.value) then Take15(structure.value) else []
  }

  /** `results.slice(0, 15)`. */
  function Take15(results: seq<WebResult>): (r: seq<WebResult>)
    ensures |r| == if |results| < MaxWebResults then |results| else MaxWebResults
    ensures r == results[..|r|]
  {
    SliceTo(results, MaxWebResults)
  }

  /** The web results the endpoint ends up with: a failure at any of the
      three calls of the web stage leaves the list empty. */
  function WebResultsOf(st: Stages): (r: seq<WebResult>)
    ensures |r| <= MaxWebResults && MatchesWebSchema(r)
    ensures st.enhance.Failure? || st.webSearch.Failure? || st.structure.Failure? ==> r == []
    ensures st.enhance.Success? && st.webSearch.Success? ==> r == StructuredWebResults(st.structure)
    ensures r != [] ==> st.structure.Success? && |r| <= |st.structure.value| && r == st.structure.value[..|r|]
  {
    if st.enhance.Success? && st.webSearch.Success? then StructuredWebResults(st.structure) else []
  }

  // ---------------------------------------------------------------------
  // Step 2: storing the web results and reading stored results back

  /** The store step runs only with web results and both credentials. */
  predicate StoreStepRuns(req: RequestBody, web: seq<WebResult>)
  {
    |web| > 0 && req.apiKey != "" && req.apiUrl != ""
  }

  /** The store step runs and its index client is built: the client
      constructor, which parses `apiUrl`, may throw before any index call. */
  predicate StoreStepConnects(req: RequestBody, web: seq<WebResult>, st: Stages)
  {
    StoreStepRuns(req, web) && st.client.Success?
  }

  /** The index exists, or it did not and was created. */
  predicate IndexReady(st: Stages)
  {
    st.indexExists.Success? && (st.indexExists.value || st.createIndex.Success?)
  }

  /** The document stored for one web result. */
  function DocumentOf(w: WebResult, enhancedQuery: string): BulkEntry
  {
    Document(w.title, w.snippet, w.url, w.source, enhancedQuery, w.relevanceScore)
  }

  /** The bulk request body: for each web result in order, an index action
      followed by a document carrying the result and the enhanced query. */
  function BulkOperations(web: seq<WebResult>, enhancedQuery: string): (ops: seq<BulkEntry>)
    ensures |ops| == 2 * |web|
    ensures forall i | 0 <= i < |web| ::
              ops[2 * i] == IndexAction(IndexName) && ops[2 * i + 1] == DocumentOf(web[i], enhancedQuery)
  {
    if web == [] then []
    else
      var init := BulkOperations(web[..|web| - 1], enhancedQuery);
      init + [IndexAction(IndexName), DocumentOf(web[|web| - 1], enhancedQuery)]
  }

  function StoredItem(h: StoredHit): ResultItem
  {
    ResultItem(h.id, h.title, h.content, h.url, h.source, h.score, h.relevanceScore, true)
  }

  /** The stored hits as candidates, in hit order, all marked stored. */
  function StoredItems(hits: seq<StoredHit>): (r: seq<ResultItem>)
    ensures |r| == |hits|
    ensures forall i | 0 <= i < |hits| :: r[i] == StoredItem(hits[i]) && r[i].isStored
  {
    seq(|hits|, i requires 0 <= i < |hits| => StoredItem(hits[i]))
  }

  /** The stored results the endpoint ends up with: empty unless the store
      step runs and each of its calls succeeds. */
  function StoredResultsOf(req: RequestBody, web: seq<WebResult>, st: Stages): (r: seq<ResultItem>)
    ensures !StoreStepConnects(req, web, st) ==> r == []
    ensures StoreStepConnects(req, web, st) && IndexReady(st) && st.bulk.Success? && st.storedSearch.Success? ==>
              r == StoredItems(st.storedSearch.value)
    ensures |r| > 0 ==> st.storedSearch.Success? && r == StoredItems(st.storedSearch.value)
  {
    if StoreStepConnects(req, web, st) && IndexReady(st) && st.bulk.Success? && st.storedSearch.Success?
    then StoredItems(st.storedSearch.value)
    else []
  }

  // ---------------------------------------------------------------------
  // Step 3: fusion

  /** Web result `i` as a candidate: id `web-i`, its relevance score divided
      by ten as score, not stored. */
  function WebItem(i: nat, w: WebResult): ResultItem
  {
    ResultItem("web-" + NatToString(i), w.title, w.snippet, w.url, w.source, w.relevanceScore / 10.0, w.relevanceScore, false)
  }

  function WebItems(web: seq<WebResult>): (r: seq<ResultItem>)
    ensures |r| == |web|
    ensures forall i | 0 <= i < |web| :: r[i] == WebItem(i, web[i])
  {
    seq(|web|, i requires 0 <= i < |web| => WebItem(i, web[i]))
  }

  /** Web candidates have distinct ids `web-0`, `web-1`, ..., carry the
      snippet as content, and their scores (a tenth of the relevance score)
      lie in [0, 1] when the web results match the schema. */
  lemma WebItemsProperties(web: seq<WebResult>)
    ensures forall i | 0 <= i < |web| :: WebItems(web)[i].score * 10.0 == web[i].relevanceScore
    ensures MatchesWebSchema(web) ==> forall i | 0 <= i < |web| :: 0.0 <= WebItems(web)[i].score <= 1.0
    ensures forall i, j | 0 <= i < j < |web| :: WebItems(web)[i].id != WebItems(web)[j].id
  {
    var items := WebItems(web);
    forall i, j | 0 <= i < j < |web| ensures items[i].id != items[j].id {
      if items[i].id == items[j].id {
        assert ("web-" + NatToString(i))[4..] == NatToString(i);
        assert ("web-" + NatToString(j))[4..] == NatToString(j);
        NatToStringInjective(i, j);
      }
    }
  }

  /** The sort key `relevance_score || score`: the relevance score unless it
      is zero. */
  function SortKey(r: ResultItem): real
  {
    if r.relevanceScore != 0.0 then r.relevanceScore else r.score
  }

  /** A web candidate ranks by its own relevance score: when that is zero,
      the fallback score, a tenth of it, is zero too. */
  lemma WebItemKey(i: nat, w: WebResult)
    ensures SortKey(WebItem(i, w)) == w.relevanceScore
  {
  }

  predicate SortedByKey(s: seq<ResultItem>)
  {
    forall i, j | 0 <= i < j < |s| :: SortKey(s[i]) >= SortKey(s[j])
  }

  /** Inserts `x` before the first element whose key is not larger than
      its own. */
  function Insert(x: ResultItem, s: seq<ResultItem>): (r: seq<ResultItem>)
    ensures |r| == |s| + 1
    ensures multiset(r) == multiset(s) + multiset{x}
  {
    if s == [] || SortKey(x) >= SortKey(s[0]) then [x] + s
    else
      assert s == [s[0]] + s[1..];
      [s[0]] + Insert(x, s[1..])
  }

  /** The stable sort in descending key order the comparator
      `(a, b) => key(b) - key(a)` gives. */
  function SortByKey(s: seq<ResultItem>): (r: seq<ResultItem>)
    ensures |r| == |s|
    ensures multiset(r) == multiset(s)
  {
    if s == [] then []
    else
      assert s == [s[0]] + s[1..];
      Insert(s[0], SortByKey(s[1..]))
  }

  lemma {:induction false} InsertSorted(x: ResultItem, s: seq<ResultItem>)
    requires SortedByKey(s)
    ensures SortedByKey(Insert(x, s))
  {
    if s != [] && SortKey(x) < SortKey(s[0]) {
      var tail := Insert(x, s[1..]);
      var r := [s[0]] + tail;
      InsertSorted(x, s[1..]);
      InsertBelow(x, s[1..], SortKey(s[0]));
      assert forall j | 1 <= j < |r| :: r[j] == tail[j - 1];
    }
  }

  /** Inserting below a bound keeps every key below it. */
  lemma {:induction false} InsertBelow(x: ResultItem, s: seq<ResultItem>, b: real)
    requires SortKey(x) <= b
    requires forall i | 0 <= i < |s| :: SortKey(s[i]) <= b
    ensures forall i | 0 <= i < |Insert(x, s)| :: SortKey(Insert(x, s)[i]) <= b
  {
    if s != [] && SortKey(x) < SortKey(s[0]) {
      InsertBelow(x, s[1..], b);
      var tail := Insert(x, s[1..]);
      assert forall j | 1 <= j < |s| + 1 :: Insert(x, s)[j] == tail[j - 1];
    }
  }

  /** The sorted list is in non-increasing key order. */
  lemma {:induction false} SortIsSorted(s: seq<ResultItem>)
    ensures SortedByKey(SortByKey(s))
  {
    if s != [] {
      SortIsSorted(s[1..]);
      InsertSorted(s[0], SortByKey(s[1..]));
    }
  }

  /** The elements of a list whose key is `k`, in order. */
  function WithKey(s: seq<ResultItem>, k: real): seq<ResultItem>
  {
    if s == [] then []
    else if SortKey(s[0]) == k then [s[0]] + WithKey(s[1..], k)
    else WithKey(s[1..], k)
  }

  lemma {:induction false} InsertWithKey(x: ResultItem, s: seq<ResultItem>, k: real)
    requires SortedByKey(s)
    ensures WithKey(Insert(x, s), k) == (if SortKey(x) == k then [x] else []) + WithKey(s, k)
  {
    if s == [] || SortKey(x) >= SortKey(s[0]) {
      assert ([x] + s)[1..] == s;
    } else {
      assert SortedByKey(s[1..]);
      InsertWithKey(x, s[1..], k);
      assert ([s[0]] + Insert(x, s[1..]))[1..] == Insert(x, s[1..]);
    }
  }

  /** Stability: for every key, the elements with that key keep their
      relative order. */
  lemma {:induction false} SortIsStable(s: seq<ResultItem>, k: real)
    ensures WithKey(SortByKey(s), k) == WithKey(s, k)
  {
    if s != [] {
      SortIsStable(s[1..], k);
      SortIsSorted(s[1..]);
      InsertWithKey(s[0], SortByKey(s[1..]), k);
    }
  }

  /** `allResults.sort(...)` followed by `slice(0, numSources)`. */
  function TopResults(all: seq<ResultItem>, numSources: int): (r: seq<ResultItem>)
    ensures |r| == SliceEnd(|all|, numSources)
    ensures r == SortByKey(all)[..|r|]
  {
    SliceTo(SortByKey(all), numSources)
  }

  /** The top results are a prefix of a stable, non-increasing permutation
      of the combined list, as long as `numSources` asks for (counting back
      from the end for a negative value), and themselves non-increasing. */
  lemma TopResultsProperties(all: seq<ResultItem>, numSources: int)
    ensures var top := TopResults(all, numSources);
            && |top| == SliceEnd(|all|, numSources)
            && (0 <= numSources ==> |top| == if numSources < |all| then numSources else |all|)
            && top == SortByKey(all)[..|top|]
            && multiset(SortByKey(all)) == multiset(all)
            && SortedByKey(SortByKey(all))
            && SortedByKey(top)
            && (forall k: real :: WithKey(SortByKey(all), k) == WithKey(all, k))
  {
    SortIsSorted(all);
    forall k: real ensures WithKey(SortByKey(all), k) == WithKey(all, k) {
      SortIsStable(all, k);
    }
  }

  // ---------------------------------------------------------------------
  // Step 4: the answer request

  /** The context entry of the result at 1-based position `k`. */
  function SourceEntry(k: nat, r: ResultItem): string
  {
    "[Source " + NatToString(k) + "] " + r.title + "\nURL: " + r.url + "\nContent: " + r.content
  }

  function ContextEntries(top: seq<ResultItem>): (r: seq<string>)
    ensures |r| == |top|
    ensures forall i | 0 <= i < |top| :: r[i] == SourceEntry(i + 1, top[i])
  {
    seq(|top|, i requires 0 <= i < |top| => SourceEntry(i + 1, top[i]))
  }

  /** The context block: one entry per top result, joined by blank lines. */
  function ContextText(top: seq<ResultItem>): (r: string)
    ensures r == "" <==> top == []
    ensures top != [] ==> StartsWith(r, SourceEntry(1, top[0]))
  {
    Join(ContextEntries(top), ContextSeparator)
  }

  /** One more top result adds a blank line and its numbered entry. */
  lemma ContextTextSnoc(top: seq<ResultItem>, r: ResultItem)
    requires |top| > 0
    ensures ContextText(top + [r]) == ContextText(top) + ContextSeparator + SourceEntry(|top| + 1, r)
  {
    assert ContextEntries(top + [r]) == ContextEntries(top) + [SourceEntry(|top| + 1, r)];
    JoinSnoc(ContextEntries(top), SourceEntry(|top| + 1, r), ContextSeparator);
  }

  /** `for await (const chunk of textStream) llmResponse += chunk`. */
  function Concat(chunks: seq<string>): string
  {
    if chunks == [] then "" else Concat(chunks[..|chunks| - 1]) + chunks[|chunks| - 1]
  }

  /** Collecting two runs of chunks one after the other gives the two
      collected texts one after the other. */
  lemma {:induction false} ConcatAppend(a: seq<string>, b: seq<string>)
    ensures Concat(a + b) == Concat(a) + Concat(b)
    decreases |b|
  {
    if b == [] {
      assert a + b == a;
    } else {
      var b' := b[..|b| - 1];
      assert (a + b)[..|a + b| - 1] == a + b';
      ConcatAppend(a, b');
    }
  }

  // ---------------------------------------------------------------------
  // Step 5: related questions

  /** The generated questions, or the endpoint's three fixed ones. */
  function RelatedQuestionsOf(related: Outcome<RelatedQuestions.RelatedObject>): (r: seq<string>)
    ensures |r| == 3
    ensures related.Success? && RelatedQuestions.MatchesSchema(related.value) ==> r == related.value.questions
    ensures !(related.Success? && RelatedQuestions.MatchesSchema(related.value)) ==> r == FallbackQuestions
  {
    match RelatedQuestions.GenerateObject(related)
    case Success(o) => o.questions
    case Failure(_) => FallbackQuestions
  }

  // ---------------------------------------------------------------------
  // Step 6: the final envelope

  /** `content.substring(0, 200) + "..."`. */
  function Highlight(content: string): (h: string)
    ensures 3 <= |h| <= HighlightLength + 3 && |h| <= |content| + 3
    ensures h == content[..|h| - 3] + "..."
    ensures |content| <= HighlightLength ==> h == content + "..."
  {
    Take(content, HighlightLength) + "..."
  }

  function FinalResult(r: ResultItem): SearchResult
  {
    SearchResult(r.id, r.title, r.url, r.content, Highlight(r.content), r.score, r.source,
                 Some(r.relevanceScore), Some(r.isStored))
  }

  function FinalResults(top: seq<ResultItem>): (r: seq<SearchResult>)
    ensures |r| == |top|
    ensures forall i | 0 <= i < |top| :: r[i] == FinalResult(top[i])
  {
    seq(|top|, i requires 0 <= i < |top| => FinalResult(top[i]))
  }

  /** The index of the first occurrence of `x`. */
  function FirstIndex(xs: seq<string>, x: string): (i: nat)
    requires x in xs
    ensures i < |xs| && xs[i] == x && x !in xs[..i]
  {
    if xs[0] == x then 0
    else
      var i := 1 + FirstIndex(xs[1..], x);
      assert xs[..i] == [xs[0]] + xs[1..][..i - 1];
      i
  }

  lemma FirstIndexUnique(xs: seq<string>, x: string, i: nat)
    requires i < |xs| && xs[i] == x && x !in xs[..i]
    ensures FirstIndex(xs, x) == i
  {
  }

  /** `Array.from(new Set(xs))`: each element once, in order of first
      appearance. */
  function Distinct(xs: seq<string>): (r: seq<string>)
    ensures forall i, j | 0 <= i < j < |r| :: r[i] != r[j]
    ensures forall x :: x in r <==> x in xs
    ensures forall i, j | 0 <= i < j < |r| :: FirstIndex(xs, r[i]) < FirstIndex(xs, r[j])
    decreases |xs|
  {
    if xs == [] then []
    else
      var init := xs[..|xs| - 1];
      var last := xs[|xs| - 1];
      var d := Distinct(init);
      assert xs == init + [last];
      forall i | 0 <= i < |d| ensures FirstIndex(xs, d[i]) == FirstIndex(init, d[i]) {
        var k := FirstIndex(init, d[i]);
        assert xs[..k] == init[..k];
        FirstIndexUnique(xs, d[i], k);
      }
      if last in d then d
      else
        assert last !in xs[..|xs| - 1];
        FirstIndexUnique(xs, last, |xs| - 1);
        d + [last]
  }

  function SourcesOf(top: seq<ResultItem>): (r: seq<string>)
    ensures |r| == |top|
    ensures forall i | 0 <= i < |top| :: r[i] == top[i].source
  {
    seq(|top|, i requires 0 <= i < |top| => top[i].source)
  }

  /** The source facets: each distinct source of the top results once, in
      order of first appearance, numbered from 1 and checked. */
  function LabSources(top: seq<ResultItem>): (r: seq<LabSource>)
    ensures |r| == |Distinct(SourcesOf(top))|
    ensures forall i | 0 <= i < |r| :: r[i] == LabSource(i + 1, Distinct(SourcesOf(top))[i], true)
  {
    var d := Distinct(SourcesOf(top));
    seq(|d|, i requires 0 <= i < |d| => LabSource(i + 1, d[i], true))
  }

  /** Every source of the top results has a facet, every facet names a
      source of the top results, no source has two facets, and there are
      no more facets than top results. */
  lemma LabSourcesProperties(top: seq<ResultItem>)
    ensures |LabSources(top)| <= |top|
    ensures forall i | 0 <= i < |top| ::
              exists j | 0 <= j < |LabSources(top)| :: LabSources(top)[j] == LabSource(j + 1, top[i].source, true)
    ensures forall j | 0 <= j < |LabSources(top)| :: LabSources(top)[j].text in SourcesOf(top)
    ensures forall j, k | 0 <= j < k < |LabSources(top)| :: LabSources(top)[j].text != LabSources(top)[k].text
  {
    var srcs := SourcesOf(top);
    var d := Distinct(srcs);
    var facets := LabSources(top);
    forall i | 0 <= i < |top|
      ensures exists j | 0 <= j < |facets| :: facets[j] == LabSource(j + 1, top[i].source, true)
    {
      assert srcs[i] in srcs;
      var j :| 0 <= j < |d| && d[j] == srcs[i];
      assert facets[j] == LabSource(j + 1, top[i].source, true);
    }
    forall j | 0 <= j < |facets| ensures facets[j].text in srcs {
      assert d[j] in d;
    }
    DistinctNoLonger(srcs);
  }

  lemma {:induction false} DistinctNoLonger(xs: seq<string>)
    ensures |Distinct(xs)| <= |xs|
    decreases |xs|
  {
    if xs != [] {
      DistinctNoLonger(xs[..|xs| - 1]);
    }
  }

  // ---------------------------------------------------------------------
  // The calls a request makes, and its response

  /** The enhanced query of a request. */
  function EnhancedQueryOf(req: RequestBody, st: Stages): string
  {
    QueryEnhancer.EnhanceQuery(req.query, st.enhance)
  }

  /** The top results of a request: the stored results followed by the web
      results, sorted and cut to `numSources`. */
  function TopOf(req: RequestBody, st: Stages): seq<ResultItem>
  {
    var web := WebResultsOf(st);
    TopResults(StoredResultsOf(req, web, st) + WebItems(web), NumSourcesOf(req))
  }

  /** The calls of step 1, in order: each is made only when the one before
      it succeeded. */
  function WebCalls(query: string, st: Stages): (r: seq<ExternalCall>)
    ensures |r| > 0 && r[0] == EnhanceCall(query)
  {
    var enhancedQuery := QueryEnhancer.EnhanceQuery(query, st.enhance);
    var c1 := [EnhanceCall(query)];
    if st.enhance.Failure? then c1
    else
      var c2 := c1 + [WebSearchCall(enhancedQuery)];
      if st.webSearch.Failure? then c2
      else c2 + [StructureCall(enhancedQuery, st.webSearch.value)]
  }

  /** The calls of step 2, in order: none unless the store step runs and
      its client is built; the index is created only when it does not exist, and the first failure
      ends the step. */
  function StoreCalls(req: RequestBody, enhancedQuery: string, web: seq<WebResult>, st: Stages): seq<ExternalCall>
  {
    if !StoreStepConnects(req, web, st) then []
    else
      var c1 := [IndexExistsCall(IndexName)];
      var c2 := if st.indexExists.Success? && !st.indexExists.value then c1 + [CreateIndexCall(IndexName)] else c1;
      if !IndexReady(st) then c2
      else
        var c3 := c2 + [BulkCall(BulkOperations(web, enhancedQuery))];
        if st.bulk.Failure? then c3
        else c3 + [StoredSearchCall(IndexName, NumSourcesOf(req), enhancedQuery, req.query)]
  }

  /** Every call of a request with a query, in order. */
  function RouteTrace(req: RequestBody, st: Stages): (r: seq<ExternalCall>)
    ensures |r| > 0 && r[0] == EnhanceCall(req.query)
  {
    var enhancedQuery := EnhancedQueryOf(req, st);
    var w := WebCalls(req.query, st);
    TraceStart(w, StoreCalls(req, enhancedQuery, WebResultsOf(st), st),
               AnswerCall(enhancedQuery, ContextText(TopOf(req, st))),
               if st.answer.Success? then [RelatedCall(enhancedQuery)] else []);
    WebCalls(req.query, st) + StoreCalls(req, enhancedQuery, WebResultsOf(st), st)
    + [AnswerCall(enhancedQuery, ContextText(TopOf(req, st)))]
    + (if st.answer.Success? then [RelatedCall(enhancedQuery)] else [])
  }

  /** The response to a request with a query. */
  function RouteResponse(req: RequestBody, st: Stages): (r: Response)
    ensures r.Ok? <==> st.answer.Success?
    ensures st.answer.Failure? ==> r == ServerError(st.answer.message)
    ensures r.Ok? ==> r.llmResponse == Concat(st.answer.value) && r.enhancedQuery == EnhancedQueryOf(req, st)
  {
    if st.answer.Failure? then ServerError(st.answer.message)
    else
      var web := WebResultsOf(st);
      var stored := StoredResultsOf(req, web, st);
      var top := TopOf(req, st);
      Ok(FinalResults(top), LabSources(top), RelatedQuestionsOf(st.related), Concat(st.answer.value),
         EnhancedQueryOf(req, st), |top|, SourceCounts(|web|, |stored|, |top|))
  }

  /** Step 1 starts with the enhancement call; the web search is made
      exactly when the enhancement succeeds, and the structuring call
      exactly when the web search succeeds too. */
  lemma WebCallsProperties(query: string, st: Stages)
    ensures var calls := WebCalls(query, st);
            var enhancedQuery := QueryEnhancer.EnhanceQuery(query, st.enhance);
            && |calls| > 0 && calls[0] == EnhanceCall(query)
            && (WebSearchCall(enhancedQuery) in calls <==> st.enhance.Success?)
            && ((exists c | c in calls :: c.StructureCall?) <==> st.enhance.Success? && st.webSearch.Success?)
  {
    var calls := WebCalls(query, st);
    if st.enhance.Success? && st.webSearch.Success? {
      assert calls[2].StructureCall?;
    }
  }

  /** Step 1 makes only its own three kinds of call. */
  lemma WebCallKind(query: string, st: Stages, c: ExternalCall)
    requires c in WebCalls(query, st)
    ensures c.EnhanceCall? || c.WebSearchCall? || c.StructureCall?
  {
  }

  /** The store step checks the index exactly when it runs and its client
      is built, creates it
      exactly when it does not exist, sends the bulk body exactly when the
      index is ready too, and searches the stored results exactly when the
      bulk request succeeds too. */
  lemma StoreCallsProperties(req: RequestBody, enhancedQuery: string, web: seq<WebResult>, st: Stages)
    ensures var calls := StoreCalls(req, enhancedQuery, web, st);
            && (IndexExistsCall(IndexName) in calls <==> StoreStepConnects(req, web, st))
            && (CreateIndexCall(IndexName) in calls <==>
                  StoreStepConnects(req, web, st) && st.indexExists.Success? && !st.indexExists.value)
            && (BulkCall(BulkOperations(web, enhancedQuery)) in calls <==> StoreStepConnects(req, web, st) && IndexReady(st))
            && (StoredSearchCall(IndexName, NumSourcesOf(req), enhancedQuery, req.query) in calls <==>
                  StoreStepConnects(req, web, st) && IndexReady(st) && st.bulk.Success?)
  {
  }

  /** A client that cannot be built ends the store step before any index
      call, and leaves no stored results. */
  lemma ClientFailureStoresNothing(req: RequestBody, enhancedQuery: string, web: seq<WebResult>, st: Stages)
    requires st.client.Failure?
    ensures StoreCalls(req, enhancedQuery, web, st) == []
    ensures StoredResultsOf(req, web, st) == []
  {
  }

  /** Step 2 makes only calls to the index. */
  lemma StoreCallKind(req: RequestBody, enhancedQuery: string, web: seq<WebResult>, st: Stages, c: ExternalCall)
    requires c in StoreCalls(req, enhancedQuery, web, st)
    ensures c.IndexExistsCall? || c.CreateIndexCall? || c.BulkCall? || c.StoredSearchCall?
  {
  }

  /** A request with a query starts with the enhancement call, stores the
      web results exactly under the store-step conditions, always asks for
      an answer over its top results, and asks for related questions
      exactly when the answer arrives. */
  lemma RouteTraceProperties(req: RequestBody, st: Stages)
    ensures var trace := RouteTrace(req, st);
            var enhancedQuery := EnhancedQueryOf(req, st);
            var web := WebResultsOf(st);
            && |trace| > 0 && trace[0] == EnhanceCall(req.query)
            && (IndexExistsCall(IndexName) in trace <==> StoreStepConnects(req, web, st))
            && (BulkCall(BulkOperations(web, enhancedQuery)) in trace <==> StoreStepConnects(req, web, st) && IndexReady(st))
            && AnswerCall(enhancedQuery, ContextText(TopOf(req, st))) in trace
            && (RelatedCall(enhancedQuery) in trace <==> st.answer.Success?)
  {
    var enhancedQuery := EnhancedQueryOf(req, st);
    var web := WebResultsOf(st);
    var w := WebCalls(req.query, st);
    var c := StoreCalls(req, enhancedQuery, web, st);
    var a := AnswerCall(enhancedQuery, ContextText(TopOf(req, st)));
    var extra := if st.answer.Success? then [RelatedCall(enhancedQuery)] else [];
    assert RouteTrace(req, st) == (w + c) + [a] + extra;
    WebCallsProperties(req.query, st);
    StoreCallsProperties(req, enhancedQuery, web, st);
    TraceStart(w, c, a, extra);
    var index := IndexExistsCall(IndexName);
    TraceMember(w, c, a, extra, index);
    if index in w { WebCallKind(req.query, st, index); }
    var bulk := BulkCall(BulkOperations(web, enhancedQuery));
    TraceMember(w, c, a, extra, bulk);
    if bulk in w { WebCallKind(req.query, st, bulk); }
    TraceMember(w, c, a, extra, a);
    var related := RelatedCall(enhancedQuery);
    TraceMember(w, c, a, extra, related);
    if related in w { WebCallKind(req.query, st, related); }
    if related in c { StoreCallKind(req, enhancedQuery, web, st, related); }
  }

  lemma TraceStart(w: seq<ExternalCall>, c: seq<ExternalCall>, a: ExternalCall, extra: seq<ExternalCall>)
    requires |w| > 0
    ensures ((w + c) + [a] + extra)[0] == w[0]
  {
  }

  lemma TraceMember(w: seq<ExternalCall>, c: seq<ExternalCall>, a: ExternalCall, extra: seq<ExternalCall>, x: ExternalCall)
    ensures x in (w + c) + [a] + extra <==> x in w || x in c || x == a || x in extra
  {
  }

  /** A request with a query answers with the envelope exactly when the
      answer arrives, and with the server error of the answer request
      otherwise. The envelope holds three questions, as many results as
      top results, a total that counts them, at most fifteen web results,
      and every result carries its highlight. */
  lemma RouteResponseProperties(req: RequestBody, st: Stages)
    ensures var resp := RouteResponse(req, st);
            var top := TopOf(req, st);
            && (resp.Ok? <==> st.answer.Success?)
            && (st.answer.Failure? ==> resp == ServerError(st.answer.message))
            && (resp.Ok? ==>
                  && resp.enhancedQuery == EnhancedQueryOf(req, st)
                  && |resp.relatedQuestions| == 3
                  && |resp.results| == |top|
                  && resp.total == resp.sources.total == |resp.results|
                  && resp.sources.web == |WebResultsOf(st)| <= MaxWebResults
                  && resp.sources.stored == |StoredResultsOf(req, WebResultsOf(st), st)|
                  && (forall i | 0 <= i < |top| :: resp.results[i] == FinalResult(top[i]))
                  && resp.labSources == LabSources(top)
                  && resp.llmResponse == Concat(st.answer.value))
  {
  }

  // ---------------------------------------------------------------------
  // POST

  /** Step 1: enhance the query, search the web with it and structure the
      reply. Any failure leaves the original query or no web results. */
  method WebStage(query: string, st: Stages) returns (enhancedQuery: string, web: seq<WebResult>, calls: seq<ExternalCall>)
    ensures enhancedQuery == QueryEnhancer.EnhanceQuery(query, st.enhance)
    ensures web == WebResultsOf(st)
    ensures calls == WebCalls(query, st)
  {
    web := [];
    enhancedQuery := query;
    calls := [EnhanceCall(query)];
    if st.enhance.Success? {
      var text := st.enhance.value;
      enhancedQuery := if Trim(text) != "" then Trim(text) else query;
      calls := calls + [WebSearchCall(enhancedQuery)];
      if st.webSearch.Success? {
        calls := calls + [StructureCall(enhancedQuery, st.webSearch.value)];
        if st.structure.Success? && MatchesWebSchema(st.structure.value) {
          web := Take15(st.structure.value);
        }
      }
    }
  }

  /** Step 2: when there are web results and both credentials, build the
      client; if that succeeds, make sure the index exists, store the web results in bulk, and search the
      stored results with the enhanced query. Any failure leaves no stored
      results. */
  method StoreStage(req: RequestBody, enhancedQuery: string, web: seq<WebResult>, st: Stages)
    returns (stored: seq<ResultItem>, calls: seq<ExternalCall>)
    ensures stored == StoredResultsOf(req, web, st)
    ensures calls == StoreCalls(req, enhancedQuery, web, st)
  {
    stored := [];
    calls := [];
    if |web| > 0 && req.apiKey != "" && req.apiUrl != "" && st.client.Success? {
      calls := calls + [IndexExistsCall(IndexName)];
      var ready := false;
      if st.indexExists.Success? {
        if st.indexExists.value {
          ready := true;
        } else {
          calls := calls + [CreateIndexCall(IndexName)];
          ready := st.createIndex.Success?;
        }
      }
      if ready {
        var operations := BulkOperations(web, enhancedQuery);
        calls := calls + [BulkCall(operations)];
        if st.bulk.Success? {
          calls := calls + [StoredSearchCall(IndexName, NumSourcesOf(req), enhancedQuery, req.query)];
          if st.storedSearch.Success? {
            stored := StoredItems(st.storedSearch.value);
          }
        }
      }
    }
  }

  /** Step 4's stream loop: appends every chunk, in order. */
  method CollectStream(chunks: seq<string>) returns (text: string)
    ensures text == Concat(chunks)
  {
    text := "";
    var i := 0;
    while i < |chunks|
      invariant 0 <= i <= |chunks|
      invariant text == Concat(chunks[..i])
    {
      assert chunks[..i + 1][..i] == chunks[..i];
      text := text + chunks[i];
      i := i + 1;
    }
    assert chunks[..|chunks|] == chunks;
  }

  /** Steps 1 to 3: the enhanced query, the web results, the stored
      results, the top results and the calls made so far. */
  method Retrieve(req: RequestBody, st: Stages)
    returns (enhancedQuery: string, web: seq<WebResult>, stored: seq<ResultItem>,
             top: seq<ResultItem>, calls: seq<ExternalCall>)
    ensures enhancedQuery == EnhancedQueryOf(req, st)
    ensures web == WebResultsOf(st)
    ensures stored == StoredResultsOf(req, web, st)
    ensures top == TopOf(req, st)
    ensures calls == WebCalls(req.query, st) + StoreCalls(req, enhancedQuery, web, st)
  {
    var webCalls, storeCalls;
    enhancedQuery, web, webCalls := WebStage(req.query, st);
    stored, storeCalls := StoreStage(req, enhancedQuery, web, st);
    calls := webCalls + storeCalls;

    // Step 3: combine, sort, keep the top results.
    var numSources := req.numSources.GetOr(DefaultNumSources);
    var allResults := stored + WebItems(web);
    allResults := SortByKey(allResults);
    top := SliceTo(allResults, numSources);
  }

  /** Steps 4 to 6: the answer request, the streamed text, the related
      questions and the envelope. */
  method Answer(enhancedQuery: string, web: seq<WebResult>, stored: seq<ResultItem>,
                top: seq<ResultItem>, calls: seq<ExternalCall>, st: Stages)
    returns (resp: Response, trace: seq<ExternalCall>)
    ensures trace == calls + [AnswerCall(enhancedQuery, ContextText(top))]
                     + (if st.answer.Success? then [RelatedCall(enhancedQuery)] else [])
    ensures st.answer.Failure? ==> resp == ServerError(st.answer.message)
    ensures st.answer.Success? ==>
              resp == Ok(FinalResults(top), LabSources(top), RelatedQuestionsOf(st.related),
                         Concat(st.answer.value), enhancedQuery, |top|,
                         SourceCounts(|web|, |stored|, |top|))
  {
    // Step 4: ask for the answer and collect the streamed text.
    var contextText := ContextText(top);
    trace := calls + [AnswerCall(enhancedQuery, contextText)];
    if st.answer.Failure? {
      resp := ServerError(st.answer.message);
      assert trace == trace + [];
      return;
    }
    var llmResponse := CollectStream(st.answer.value);

    // Step 5: related questions.
    trace := trace + [RelatedCall(enhancedQuery)];
    var relatedQuestions := RelatedQuestionsOf(st.related);

    // Step 6: the envelope.
    var finalResults := FinalResults(top);
    var uniqueSources := LabSources(top);
    resp := Ok(
      results := finalResults,
      labSources := uniqueSources,
      relatedQuestions := relatedQuestions,
      llmResponse := llmResponse,
      enhancedQuery := enhancedQuery,
      total := |finalResults|,
      sources := SourceCounts(|web|, |stored|, |finalResults|));
  }

  /** `POST /api/search`: the response and the external calls in the order
      they are made. An unreadable body is a server error, a missing query
      a client error, and neither makes a call. */
  method Post(body: Outcome<RequestBody>, st: Stages) returns (resp: Response, trace: seq<ExternalCall>)
    ensures body.Failure? ==> resp == ServerError(body.message) && trace == []
    ensures body.Success? && body.value.query == "" ==> resp == MissingQuery && trace == []
    ensures body.Success? && body.value.query != "" ==>
              resp == RouteResponse(body.value, st) && trace == RouteTrace(body.value, st)
  {
    trace := [];
    if body.Failure? {
      resp := ServerError(body.message);
      return;
    }
    var req := body.value;
    if req.query == "" {
      resp := MissingQuery;
      return;
    }
    var enhancedQuery, web, stored, top, calls := Retrieve(req, st);
    resp, trace := Answer(enhancedQuery, web, stored, top, calls, st);
  }

  /** When the web stage yields nothing, whichever of its calls failed or
      however invalid the structured list was, an answered request still
      carries an envelope: no results, no facets, three questions. */
  method NoRetrieval(req: RequestBody, st: Stages) returns (resp: Response)
    requires req.query != ""
    requires WebResultsOf(st) == [] && st.answer.Success?
    ensures resp.Ok? && resp.results == [] && resp.labSources == [] && |resp.relatedQuestions| == 3
    ensures resp.sources == SourceCounts(0, 0, 0)
  {
    var trace;
    resp, trace := Post(Success(req), st);
    assert SortByKey([]) == [];
    assert Distinct([]) == [];
  }
}
