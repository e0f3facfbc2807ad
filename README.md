# ai-search-engine: a verified model of the deterministic core

The repository is a Next.js search application. Its logic mostly calls a
generation service (Gemini, through the AI SDK) and document indexes
(Elasticsearch). Around those calls sit deterministic pieces, and this
project models and proves properties of them:

- **The search endpoint** (`POST /api/search`):
  - validates the query and enhances it;
  - gathers up to fifteen structured web results;
  - stores them in an index when it has credentials, and reads stored results back;
  - puts stored and web candidates in one list, ranks it, and keeps the top `numSources`;
  - asks for an answer over a numbered context block, then for three follow-up questions;
  - builds the response envelope: results with highlights, distinct-source facets and counts.
- **The answer-generator agent**: its context block, its instruction choice and its
  word-overlap groundedness heuristic.
- **The Elasticsearch service**: its hybrid query builder and its response transform.
- **The client search hook**: a state record and an error cell with their transitions.
- **The answer panel's text formatter**.
- **The control panel's source toggle**.
- **The query enhancer and related-questions agents**, with their fallbacks.
- **The lazy provider registry**.

Every external call is an input. `Outcome<T>` is either `Success(value)` or
`Failure(message)`, and `Success` carries what the call resolved to. The
endpoint's `Stages` record holds one such outcome per call it may make. Building the index
client in the store step is one of them, because the client constructor parses `apiUrl` and
may throw before any index call.

`Post` returns the response together with the trace of calls actually made,
their arguments included. That trace is how the model states call gating:
what is called, in which order, and only when.

JavaScript's falsy strings (missing, `null`, `""`) are all modelled as `""`.
The `\s` class and `trim()` use the ECMAScript WhiteSpace and LineTerminator
characters.

Modules follow the repository's files:

| module | file | form |
|---|---|---|
| `Wrappers` | `wrappers.dfy` | `Option`, `Outcome` |
| `JsStrings` | `js_strings.dfy` | the string and array primitives the core uses (`trim`, `split`, `join`, `slice`, `substring`, `toLowerCase`, `${n}`) |
| `SearchTypes` | `search_types.dfy` | the shared records of `src/types/search.ts` |
| `SearchRoute` | `search_route.dfy` | functions for the fusion pieces; methods for the imperative `POST` |
| `ResponseGenerator` | `response_generator.dfy` | pure functions and lemmas |
| `ElasticsearchService` | `elasticsearch_service.dfy` | a pure transform; a method that adds the filter to a built query |
| `UseSearch` | `use_search.dfy` | class `SearchHook` with `state` and `error` fields |
| `ResponsePanel` | `response_panel.dfy` | pure functions and lemmas |
| `ControlPanel` | `control_panel.dfy` | pure functions and lemmas |
| `QueryEnhancer`, `RelatedQuestions` | `query_enhancer.dfy`, `related_questions.dfy` | pure functions |
| `Registry` | `registry.dfy` | class `ProviderRegistry` with the module-level `googleInstance` as a field |

Some of the code's behaviour is easy to misread. On these points the model follows the code as written:

- Stored results keep their own `score`. The "normalised by ten" rule applies only to web results (src/app/api/search/route.ts:192, 211).
- Nothing removes duplicate URLs.
- The facets come from the top results, not from every candidate (src/app/api/search/route.ts:290).
- In the answer panel, a bullet that is indented keeps its `•` marker, because `/^•\s*/` only matches at the start of the line (src/components/ResponsePanel.tsx:49, 53). See `ResponsePanel.IndentedBulletKeepsMarker`.
- The slider offers 1 to 10 (src/components/ControlPanel.tsx:113-116), but the hook clamps to 5..20, so 1 to 4 all become 5. See `ControlPanel.SliderValueClamped`.
- The groundedness heuristic counts a blank response as grounded whenever the context has a keyword. A blank response splits into one empty word (`""`) or two (any other blank text), and every keyword contains the empty word. See `ResponseGenerator.BlankResponseGrounded`.

## Model

| member | source | states |
|---|---|---|
| Wrappers.Option.GetOr | src/services/elasticsearch.service.ts:30-33 | the destructuring default `= d`: the value when present, the default when it is absent |
| JsStrings.TrimProperties | src/agents/query-enhancer.ts:16 | `trim()` yields the empty string exactly for blank input; otherwise the result neither starts nor ends with whitespace |
| JsStrings.Trim | src/agents/query-enhancer.ts:16 | `trim()` never lengthens the text |
| JsStrings.TrimStart | src/agents/query-enhancer.ts:16 | the leading strip keeps a suffix of the text, strictly shorter when the text starts with whitespace |
| JsStrings.TrimEnd | src/agents/query-enhancer.ts:16 | the trailing strip keeps a prefix of the text |
| JsStrings.TrimStartSpec | src/components/ResponsePanel.tsx:53 | what the leading-whitespace strip drops is all whitespace; what it keeps does not start with whitespace; it is empty exactly for blank input |
| JsStrings.TrimStartStep | src/components/ResponsePanel.tsx:41 | a leading whitespace character is dropped and stripping continues on the rest |
| JsStrings.TrimStartStop | src/components/ResponsePanel.tsx:41 | a string that does not start with whitespace is left as it is |
| JsStrings.TrimEndSpec | src/components/ResponsePanel.tsx:49 | what the trailing strip drops is all whitespace, and what it keeps does not end with whitespace |
| JsStrings.TrimOccurs | src/components/ResponsePanel.tsx:49 | the trimmed line is the piece of the line that starts right after its leading whitespace |
| JsStrings.Take | src/services/elasticsearch.service.ts:121 | `substring(0, n)` is the prefix of length min(n, length) |
| JsStrings.SliceEnd | src/app/api/search/route.ts:218 | the length `slice(0, end)` keeps: min(end, length) for a non-negative end; for a negative end, it counts back from the length and never goes below 0 |
| JsStrings.SliceTo | src/app/api/search/route.ts:218 | `slice(0, end)` is the prefix of the length `SliceEnd` gives |
| JsStrings.JoinSnoc | src/app/api/search/route.ts:223-225 | joining one more element appends the separator and then the element |
| JsStrings.Join | src/app/api/search/route.ts:223-225 | `join(sep)` of no elements is the empty string; otherwise the joined text starts with the first element |
| JsStrings.NatToString | src/app/api/search/route.ts:206 | `${n}` of a non-negative integer is a non-empty digit string, with a leading zero only for 0 |
| JsStrings.DecimalRoundTrip | src/app/api/search/route.ts:206 | reading `${n}` back as a decimal number gives n |
| JsStrings.NatToStringInjective | src/app/api/search/route.ts:206 | distinct numbers render as distinct texts |
| JsStrings.ToLower | src/agents/response-generator.ts:66 | `toLowerCase()` keeps the length and lower-cases each character |
| JsStrings.SplitWhitespace | src/agents/response-generator.ts:66-67 | `split(/\s+/)` yields at least one piece, and no piece holds whitespace |
| JsStrings.SplitJoinedWords | src/agents/response-generator.ts:67 | splitting words joined by single spaces gives the words back |
| JsStrings.FirstWhitespace | src/agents/response-generator.ts:66 | the first whitespace position: no whitespace before it, and whitespace at it unless it is the end |
| JsStrings.IndexOf | src/components/ResponsePanel.tsx:64 | the position of the first occurrence of a character: the character is absent before it, and present at it unless it is the end |
| JsStrings.SplitOn | src/components/ResponsePanel.tsx:45 | `split('\n')` yields at least one piece, and no piece holds the separator |
| JsStrings.SplitOnJoin | src/components/ResponsePanel.tsx:45 | joining the pieces of `split(c)` with `c` gives the string back |
| QueryEnhancer.EnhanceQuery | src/agents/query-enhancer.ts:16-19 | the trimmed generated text when it is non-empty; the original query when the text is blank or the request failed |
| QueryEnhancer.EnhanceQueryNonEmpty | src/agents/query-enhancer.ts:16-19 | a non-empty query never enhances to the empty string; the result is the original query or has no surrounding whitespace |
| RelatedQuestions.GenerateObject | src/agents/related-questions.ts:12-21 | the structured request succeeds exactly when the generated object matches the three-question schema (src/lib/schema/related.ts:5), and then returns it unchanged |
| RelatedQuestions.GenerateRelatedQuestions | src/agents/related-questions.ts:11-36 | always three questions: a valid generated object as it is, otherwise the three fixed fallback questions |
| RelatedQuestions.FallbackIndependent | src/agents/related-questions.ts:27-35 | the fallback does not depend on the query, the context or the error |
| Registry.ConfiguredKey | src/utils/registry.ts:9 | `NEXT_PUBLIC_GEMINI_API_KEY` when set, else `GEMINI_API_KEY` |
| Registry.ProviderKey | src/utils/registry.ts:11-19 | the key the client is created with is never empty: the configured key, or the dummy key when none is configured |
| Registry.ProviderRegistry.constructor | src/utils/registry.ts:5 | the registry starts with no client |
| Registry.ProviderRegistry.GetGoogleAI | src/utils/registry.ts:7-22 | the first call creates the client once, with the environment's key; later calls return that same client without creating another |
| Registry.ProviderRegistry.GetModel | src/utils/registry.ts:24-27 | the model handle is the registry's client applied to the model name (by default `gemini-2.5-flash`), with the same create-once behaviour |
| Registry.TwoCalls | src/utils/registry.ts:7-22 | two calls in a row return the same client, which carries the key from the first call's environment |
| ElasticsearchService.HitHighlight | src/services/elasticsearch.service.ts:121 | never empty: the first content fragment if it is non-empty; else the first 200 characters of the content if there is content; else "No content available" |
| ElasticsearchService.TransformHit | src/services/elasticsearch.service.ts:116-129 | every falsy field takes its default (`Untitled`, `#`, `''`, score 0, `unknown`), and the id and content carry over |
| ElasticsearchService.TransformHits | src/services/elasticsearch.service.ts:116 | one result per hit, in hit order |
| ElasticsearchService.HitList | src/services/elasticsearch.service.ts:114 | `response.hits?.hits`, or the empty list: the hit list when both levels are present, and empty when either is missing |
| ElasticsearchService.TransformSearchResponse | src/services/elasticsearch.service.ts:107-140 | results follow the hit list (empty when `hits` is missing); `total` is `hits.total.value` or 0; the source buckets default to an empty list |
| ElasticsearchService.BaseQuery | src/services/elasticsearch.service.ts:35-83 | `size` and the vector `k` both equal `numResults`; both clauses carry the query; there is no filter yet; the aggregation is on `source.keyword` |
| ElasticsearchService.BuildHybridQuery | src/services/elasticsearch.service.ts:35-92 | `size` and the vector `k` both equal `numResults`; both clauses carry the query; the filter on `source.keyword` is present exactly when there are sources, and then holds them |
| ElasticsearchService.HybridSearch | src/services/elasticsearch.service.ts:17-105 | issues the query built from the options' defaults (no sources, ten results); a failed search raises its error; a successful one returns the transformed reply |
| ResponseGenerator.ContextEntries | src/agents/response-generator.ts:21 | entry i is `[Source i+1] title\nContent: highlight` of result i |
| ResponseGenerator.ContextText | src/agents/response-generator.ts:19-22 | the context block is empty exactly when no result is used; otherwise it starts with the `[Source 1]` entry of the first result |
| ResponseGenerator.BuildPrompt | src/agents/response-generator.ts:14-46 | the prompt carries the query; its instruction is the supplement text exactly when `useKnowledge` is given as true; the context block uses five results when `maxSources` is omitted, and the given count otherwise |
| ResponseGenerator.UsedResults | src/agents/response-generator.ts:20 | keeps the first `maxSources` results, in order |
| ResponseGenerator.SourceTitles | src/agents/response-generator.ts:24 | `sources` are the titles of exactly the used results, in order |
| ResponseGenerator.KnowledgeInstruction | src/agents/response-generator.ts:26-28 | the supplement text exactly when knowledge is allowed; the strict text exactly when it is not |
| ResponseGenerator.DefaultContextUsesFive | src/agents/response-generator.ts:14-22 | omitting `maxSources` numbers at most the first five results |
| ResponseGenerator.LongWords | src/agents/response-generator.ts:66 | the kept words are exactly the words longer than four characters |
| ResponseGenerator.ContextKeywords | src/agents/response-generator.ts:66 | the keywords are exactly the words of the lower-cased context that are longer than four characters |
| ResponseGenerator.CountMatching | src/agents/response-generator.ts:69-71 | the number of grounded words is at most the number of words |
| ResponseGenerator.CountMatchingNone | src/agents/response-generator.ts:69-71 | when no word matches a keyword, the count is 0 |
| ResponseGenerator.CountMatchingAll | src/agents/response-generator.ts:69-71 | when every word matches a keyword, the count is the number of words |
| ResponseGenerator.GroundedRatio | src/agents/response-generator.ts:65-74 | the response always has at least one word, so the division is defined, and the integer test `10·m > 3·n` holds exactly when `m / n > 0.3` does |
| ResponseGenerator.NoLongWords | src/agents/response-generator.ts:66 | with no word longer than four characters, there are no keywords |
| ResponseGenerator.NoKeywordsNotGrounded | src/agents/response-generator.ts:65-74 | a context without a word longer than four characters grounds no response |
| ResponseGenerator.SplitKeepsLowercase | src/agents/response-generator.ts:66 | the pieces of a lower-case string are lower case |
| ResponseGenerator.JoinKeepsLowercase | src/agents/response-generator.ts:67 | joining lower-case words with spaces gives a lower-case string |
| ResponseGenerator.KeywordsAreWords | src/agents/response-generator.ts:66 | every keyword is a non-empty, lower-case word without whitespace |
| ResponseGenerator.VerbatimKeywordsGrounded | src/agents/response-generator.ts:65-74 | a response made only of context keywords separated by single spaces matches on every word, so it is grounded |
| ResponseGenerator.BlankResponseGrounded | src/agents/response-generator.ts:67-73 | every blank response, the empty one included, is grounded whenever the context has a keyword |
| ResponseGenerator.GenerateResponse | src/agents/response-generator.ts:6-63 | a failed request raises "Failed to generate AI response"; otherwise the response is the generated text; `sources` are the used titles; `used_knowledge` is false without knowledge, and with knowledge it holds exactly when the text is not grounded in the context block |
| UseSearch.Clamp | src/hooks/useSearch.ts:91 | `max(5, min(20, n))`: always in [5, 20], n itself inside the range, the nearer bound outside it |
| UseSearch.HttpFailureMessage | src/hooks/useSearch.ts:57 | never empty: `data.error`, else `data.details`, else "Search failed with status N" |
| UseSearch.ReplyOutcome | src/hooks/useSearch.ts:39-62 | the reply data exactly when the fetch succeeded, the status is ok and there is no `data.error`; otherwise the error message of the failure path, which is never empty |
| UseSearch.Started | src/hooks/useSearch.ts:27-33 | searching, with the new query, no related questions and no answer; every other field is unchanged |
| UseSearch.Succeeded | src/hooks/useSearch.ts:64-71 | not searching; the reply's lists (empty when missing) and answer; every other field is unchanged |
| UseSearch.FailedWith | src/hooks/useSearch.ts:75-82 | not searching, no results, and the answer is "Search error: <msg>. Please try again."; the related questions, the facets and every other field are unchanged |
| UseSearch.ErrorText | src/hooks/useSearch.ts:81 | the answer text after a failure starts with `Search error: `, holds the message right after it, and ends with `. Please try again.` |
| UseSearch.Finished | src/hooks/useSearch.ts:56-83 | whatever the outcome, the search is over |
| UseSearch.ErrorAfter | src/hooks/useSearch.ts:73-76 | the error cell holds the failure's message and is kept after a success |
| UseSearch.FailedSearchHasNoQuestions | src/hooks/useSearch.ts:27-82 | a failed search leaves no related questions and keeps the facets |
| UseSearch.SearchIdempotent | src/hooks/useSearch.ts:23-84 | repeating a search with the same query and the same reply gives the same state |
| UseSearch.InitialStateValid | src/hooks/useSearch.ts:6-19 | the initial state keeps the hook's invariant (a source count in [5, 20]) |
| UseSearch.SearchHook.constructor | src/hooks/useSearch.ts:6-21 | ten sources, knowledge and chunking on, empty lists and strings, no error |
| UseSearch.SearchHook.BeginSearch | src/hooks/useSearch.ts:23-52 | a blank query changes nothing and posts nothing; otherwise the error is cleared, the start update is applied, and the posted body carries the query, the selected sources, the count and the chunk flag |
| UseSearch.SearchHook.FinishSearch | src/hooks/useSearch.ts:54-83 | the state becomes the update that the reply's outcome selects, and the error cell follows the outcome |
| UseSearch.SearchHook.Search | src/hooks/useSearch.ts:23-84 | `search(query)` whole: nothing for a blank query, otherwise the start update followed by the finish update |
| UseSearch.SearchHook.SearchRelatedQuestion | src/hooks/useSearch.ts:106-108 | a search for the question |
| UseSearch.SearchHook.UpdateSources | src/hooks/useSearch.ts:86-88 | replaces the selected sources and nothing else |
| UseSearch.SearchHook.UpdateNumSources | src/hooks/useSearch.ts:90-92 | sets the clamped count and nothing else, so the count stays in [5, 20] |
| UseSearch.SearchHook.ToggleLLMKnowledge | src/hooks/useSearch.ts:94-96 | negates `useLLMKnowledge` and nothing else |
| UseSearch.SearchHook.TogglePanel | src/hooks/useSearch.ts:98-100 | negates `expandedPanel` and nothing else |
| UseSearch.SearchHook.ToggleChunk | src/hooks/useSearch.ts:102-104 | negates `useChunk` and nothing else |
| UseSearch.SearchHook.ClearError | src/hooks/useSearch.ts:110-112 | clears the error and leaves the state as it is |
| UseSearch.ToggleTwice | src/hooks/useSearch.ts:94-104 | each toggle is an involution: toggling twice restores the hook |
| UseSearch.ClampFromFresh | src/hooks/useSearch.ts:90-92 | a fresh hook given any count above 20 holds twenty sources, and every other field keeps its initial value |
| ControlPanel.Remove | src/components/ControlPanel.tsx:29 | `filter(s => s !== x)`: x is gone, and exactly the other elements remain |
| ControlPanel.ToggleSource | src/components/ControlPanel.tsx:27-32 | a selected source has every occurrence removed; any other source is appended at the end |
| ControlPanel.Checkboxes | src/components/ControlPanel.tsx:48-53 | a box is checked exactly when the selected list contains its text |
| ControlPanel.ToggleFlips | src/components/ControlPanel.tsx:28-30 | a toggle flips the membership of the toggled source and of no other text |
| ControlPanel.ToggleKeepsOrder | src/components/ControlPanel.tsx:29-30 | the other selected sources keep their relative order |
| ControlPanel.ToggleTwice | src/components/ControlPanel.tsx:28-30 | toggling an absent source twice restores the list; toggling a present one twice drops its duplicates and moves it to the end |
| ControlPanel.ToggleFlipsBox | src/components/ControlPanel.tsx:52-53 | clicking a box flips it and every box with the same text, and leaves the others unchanged |
| ControlPanel.RemoveConcat | src/components/ControlPanel.tsx:29 | filtering distributes over concatenation |
| ControlPanel.RemoveAbsent | src/components/ControlPanel.tsx:29 | filtering out an absent element changes nothing |
| ControlPanel.SliderValueClamped | src/components/ControlPanel.tsx:111-116 | of the slider's values 1 to 10, the hook turns 1 to 4 into 5 and keeps the rest |
| ResponsePanel.Keep | src/components/ResponsePanel.tsx:41-43 | the characters of a given class, in order (the measure the rewrites are stated with) |
| ResponsePanel.KeepConcat | src/components/ResponsePanel.tsx:41-43 | character selection distributes over concatenation |
| ResponsePanel.StripHeaderMarks | src/components/ResponsePanel.tsx:41 | removing `###` with its whitespace run never lengthens the text |
| ResponsePanel.StripHeaderMarksNoMark | src/components/ResponsePanel.tsx:41 | a text without a `###` followed by whitespace is left unchanged |
| ResponsePanel.StripHeaderMarksKeepsVisible | src/components/ResponsePanel.tsx:41 | only `#` and whitespace characters are removed: every other character stays, in order |
| ResponsePanel.MarkInvisible | src/components/ResponsePanel.tsx:41 | a header mark and its whitespace run (line breaks included) hold no visible character |
| ResponsePanel.CloseBold | src/components/ResponsePanel.tsx:42 | the lazy `(.*?)` stops at the first `**` on the same line: no earlier pair and no line break before it |
| ResponsePanel.CloseBoldComplete | src/components/ResponsePanel.tsx:42 | when no closing `**` is found, every `**` in the text has a line break before it, so none could close the span |
| ResponsePanel.CloseBoldOf | src/components/ResponsePanel.tsx:42 | a span without asterisks or line breaks is closed by the `**` right after it |
| ResponsePanel.UnboldSpan | src/components/ResponsePanel.tsx:42 | `**x**` becomes x, and rewriting continues after it |
| ResponsePanel.Unbold | src/components/ResponsePanel.tsx:42 | removing bold marks never lengthens the text |
| ResponsePanel.UnboldKeepsNonStars | src/components/ResponsePanel.tsx:42 | only asterisks are removed: every other character stays, in order |
| ResponsePanel.StarBullets | src/components/ResponsePanel.tsx:43 | a same-length rewrite where exactly the asterisks followed by a space become `•` |
| ResponsePanel.StarBulletsIdempotent | src/components/ResponsePanel.tsx:43 | no `* ` is left behind, so a second rewrite changes nothing |
| ResponsePanel.DigitRun | src/components/ResponsePanel.tsx:44 | the greedy `\d+`: the longest run of leading digits |
| ResponsePanel.SourceTagRewritten | src/components/ResponsePanel.tsx:44 | `[Source n]` becomes `Source n:`, and rewriting continues after it |
| ResponsePanel.SourceTagsNoBracket | src/components/ResponsePanel.tsx:44 | a text without `[` contains no tag and is left unchanged |
| ResponsePanel.SourceTags | src/components/ResponsePanel.tsx:44 | rewriting source tags never lengthens the text |
| ResponsePanel.CleanText | src/components/ResponsePanel.tsx:40-44 | the four rewrites together never lengthen the text |
| ResponsePanel.NonBlankLines | src/components/ResponsePanel.tsx:46 | the filter never yields more lines than it is given |
| ResponsePanel.NonBlankLinesMembers | src/components/ResponsePanel.tsx:46 | the kept lines are exactly the input lines that are not blank |
| ResponsePanel.NonBlankLinesConcat | src/components/ResponsePanel.tsx:46 | dropping blank lines commutes with concatenation, so line order is preserved |
| ResponsePanel.FormatLines | src/components/ResponsePanel.tsx:40-46 | no rendered line is blank or holds a line feed |
| ResponsePanel.FormatLinesMembers | src/components/ResponsePanel.tsx:40-46 | the rendered lines are exactly the non-blank lines of the rewritten text |
| ResponsePanel.BulletText | src/components/ResponsePanel.tsx:53 | `/^•\s*/` drops a leading `•` and the whole whitespace run after it; a line that does not start with `•` is unchanged |
| ResponsePanel.RemoveFirstColon | src/components/ResponsePanel.tsx:64 | `replace(':', '')`: only the first colon goes, and everything else stays in place |
| ResponsePanel.HeaderColonDropped | src/components/ResponsePanel.tsx:59-64 | a header whose only colon ends it is shown without that colon |
| ResponsePanel.Classify | src/components/ResponsePanel.tsx:48-73 | a bullet exactly when the trimmed line starts with `•`; else a header exactly when the line is shorter than 60 and ends with `:` or is capitals and whitespace only; else a paragraph with the line unchanged |
| ResponsePanel.FormatResponse | src/components/ResponsePanel.tsx:38-75 | one block per rendered line, in line order, each classified |
| ResponsePanel.IndentedBulletKeepsMarker | src/components/ResponsePanel.tsx:49-53 | an indented bullet is shown as a bullet whose text still holds the marker |
| SearchRoute.StructuredWebResults | src/app/api/search/route.ts:78-89 | a schema-valid structured list cut to fifteen; anything else is no results; the result is always schema-valid |
| SearchRoute.Take15 | src/app/api/search/route.ts:89 | the prefix of length min(15, length) |
| SearchRoute.WebResultsOf | src/app/api/search/route.ts:41-95 | at most fifteen schema-valid results; none when any call in the web stage fails; once the enhancement and the web search succeed, exactly the structured list cut to fifteen (nothing when it is not schema-valid) |
| SearchRoute.BulkOperations | src/app/api/search/route.ts:136-149 | two entries per web result, in order: an index action on `ai-search-results`, then the document carrying the snippet as content and the enhanced query |
| SearchRoute.StoredItems | src/app/api/search/route.ts:186-195 | one candidate per stored hit, in hit order, each marked stored |
| SearchRoute.StoredResultsOf | src/app/api/search/route.ts:98-202 | empty unless the store step runs (web results and both credentials) and its client is built; exactly the mapped stored hits once the index is ready and the bulk request and the stored search succeed; non-empty only from a successful stored search |
| SearchRoute.WebItems | src/app/api/search/route.ts:205-214 | one candidate per web result, in order |
| SearchRoute.WebItemsProperties | src/app/api/search/route.ts:205-214 | web candidates have distinct ids `web-i`; their score is a tenth of the relevance score, so it lies in [0, 1] for schema-valid results |
| SearchRoute.Insert | src/app/api/search/route.ts:217 | insertion adds exactly the element: one more in length and in the multiset |
| SearchRoute.SortByKey | src/app/api/search/route.ts:217 | the sort is a permutation |
| SearchRoute.InsertSorted | src/app/api/search/route.ts:217 | inserting into a non-increasing list keeps it non-increasing |
| SearchRoute.SortIsSorted | src/app/api/search/route.ts:217 | the sorted list is non-increasing in the key `relevance_score`, or `score` when the relevance score is 0 |
| SearchRoute.InsertWithKey | src/app/api/search/route.ts:217 | insertion puts the element before the elements with an equal key; the sort inserts the earlier element in front of the sorted rest, which is what keeps equal keys in their original order |
| SearchRoute.SortIsStable | src/app/api/search/route.ts:217 | stability: for every key, the elements with that key stay in their original order |
| SearchRoute.WebItemKey | src/app/api/search/route.ts:205-217 | a web candidate ranks by its relevance score: when that is 0, its fallback score, a tenth of it, is 0 too |
| SearchRoute.TopResults | src/app/api/search/route.ts:217-218 | as many results as `slice(0, numSources)` keeps, taken from the front of the sorted list |
| SearchRoute.TopResultsProperties | src/app/api/search/route.ts:217-218 | the top results are a prefix, as long as `slice(0, numSources)` says, of a stable non-increasing permutation of the combined list, and are non-increasing themselves |
| SearchRoute.ContextEntries | src/app/api/search/route.ts:223-224 | entry k is `[Source k] title\nURL: url\nContent: content` of the k-th top result, one entry per top result |
| SearchRoute.ContextTextSnoc | src/app/api/search/route.ts:223-225 | each further top result adds a blank line and its numbered entry |
| SearchRoute.ContextText | src/app/api/search/route.ts:223-225 | the context block is empty exactly when there are no top results; otherwise it starts with the `[Source 1]` entry of the first one |
| SearchRoute.RelatedQuestionsOf | src/app/api/search/route.ts:260-274 | always three questions: the generated ones when they match the schema, otherwise the endpoint's three fixed ones |
| SearchRoute.Highlight | src/app/api/search/route.ts:282 | the first at most 200 characters of the content followed by "..." |
| SearchRoute.FinalResults | src/app/api/search/route.ts:277-287 | one final result per top result, in order |
| SearchRoute.FirstIndex | src/app/api/search/route.ts:290 | the position of the first occurrence |
| SearchRoute.Distinct | src/app/api/search/route.ts:290 | `Array.from(new Set(xs))`: no repeats, the same elements, in order of first appearance |
| SearchRoute.SourcesOf | src/app/api/search/route.ts:290 | the sources of the top results, in order |
| SearchRoute.LabSources | src/app/api/search/route.ts:290-294 | facet i is `{ id: i+1, text: the i-th distinct source, checked: true }` |
| SearchRoute.LabSourcesProperties | src/app/api/search/route.ts:290-294 | at most one facet per top result; every top result's source has a facet; every facet names a top result's source; no source appears twice |
| SearchRoute.DistinctNoLonger | src/app/api/search/route.ts:290 | removing repeats never lengthens the list |
| SearchRoute.WebCallsProperties | src/app/api/search/route.ts:44-95 | the web stage starts with the enhancement call; it searches the web exactly when the enhancement succeeded, and structures the results exactly when the search succeeded too |
| SearchRoute.WebCallKind | src/app/api/search/route.ts:44-95 | the web stage calls only the enhancer, the web search and the structurer |
| SearchRoute.StoreCallsProperties | src/app/api/search/route.ts:98-202 | the store stage checks the index exactly when it runs and its client is built; creates the index exactly when it is missing; sends the bulk body exactly when the index is ready; searches stored results exactly when the bulk request succeeded too |
| SearchRoute.ClientFailureStoresNothing | src/app/api/search/route.ts:100-201 | when the index client cannot be built, the store step makes no index call and yields no stored results |
| SearchRoute.StoreCallKind | src/app/api/search/route.ts:98-202 | the store stage calls only the index |
| SearchRoute.RouteTrace | src/app/api/search/route.ts:27-311 | the call trace of a request with a query is never empty and starts with the enhancement call |
| SearchRoute.RouteResponse | src/app/api/search/route.ts:298-323 | the envelope comes exactly when the answer arrives, and the 500 error of the answer request otherwise; the envelope holds the concatenated answer and the enhanced query |
| SearchRoute.RouteTraceProperties | src/app/api/search/route.ts:27-311 | a request with a query starts with the enhancement call; checks the index exactly when the store step runs and its client is built; sends the bulk body exactly when the index is ready too; always asks for an answer over its top results' context; asks for related questions exactly when the answer arrives |
| SearchRoute.RouteResponseProperties | src/app/api/search/route.ts:298-323 | the envelope comes exactly when the answer arrives, and the 500 error of the answer request otherwise; the envelope has the enhanced query, three questions, one result per top result with its highlight, the facets, the streamed text, `total` and `sources.total` both equal to the number of results, and `sources.web` at most fifteen |
| SearchRoute.WebStage | src/app/api/search/route.ts:41-95 | step 1: the enhanced query, the web results and the calls made, each as its specification function says |
| SearchRoute.StoreStage | src/app/api/search/route.ts:97-202 | step 2: the stored results and the index calls, each as its specification function says |
| SearchRoute.CollectStream | src/app/api/search/route.ts:249-252 | the streamed answer is the concatenation of its chunks, in order |
| SearchRoute.ConcatAppend | src/app/api/search/route.ts:249-252 | collecting two runs of chunks one after the other gives the two texts one after the other |
| SearchRoute.Retrieve | src/app/api/search/route.ts:41-218 | steps 1 to 3: the enhanced query, web, stored and top results, and the calls so far, each equal to its specification function |
| SearchRoute.Answer | src/app/api/search/route.ts:220-311 | steps 4 to 6: an answer failure is a 500 error after the answer call; otherwise one related call more, and the envelope built from the top results |
| SearchRoute.Post | src/app/api/search/route.ts:27-324 | an unreadable body is a 500 and a missing query a 400 "Missing search query", neither making a call; any other request gets `RouteResponse` with the trace `RouteTrace` |
| SearchRoute.NoRetrieval | src/app/api/search/route.ts:92-311 | when the web stage yields no results, whichever call failed or however invalid the structured list was, and the answer arrives, the request still succeeds, with no results, no facets, three questions and zero counts |

## Left out

- External calls: the generation service (`generateText`, `generateObject`, `streamText`), the Elasticsearch client, `fetch` and `response.json()` are outcome inputs. Their prompts are opaque, and index mappings and scoring are not claimed.
- Randomness and clocks: the random placeholder embeddings, the timestamps and `processing_time` are not modelled.
- Console logging is not modelled.
- The endpoint's own generation client and its `GEMINI_API_KEY` are not modelled. The endpoint does not go through the registry, the agents or the service, and the model does not connect them either.
- The endpoint's enhancement is its own request, but it follows the same `trim() || query` rule as the query enhancer. The model therefore reuses `QueryEnhancer.EnhanceQuery` for it, and the prompt differences are not represented.
- `selectedSources` and `useSemantic` in the request body are read but never used, so the request model leaves them out.
- A request field of the wrong type is not modelled. The query is a string, missing counts as `""`, and `numSources` is an optional integer.
- SearchRoute.SortByKey: `Array.prototype.sort` sorts `allResults` in place. The model sorts a sequence with a stable insertion sort and reassigns it. Any stable sort with this comparator yields the same order. Neither in-place array mutation nor a `NaN` from the comparator is modelled.
- Scores and relevance scores are `real`. A missing or `null` score from a stored hit is modelled as `0`. `NaN` and floating-point rounding are not modelled. In the final results, a missing stored `relevance_score` appears as `0` rather than being absent.
- A stored hit without `content` that reaches the top results makes `substring` throw at src/app/api/search/route.ts:282, and the outer handler then answers 500 (src/app/api/search/route.ts:313-322). Its context entry would also read `Content: undefined`. The model reads missing content as `""`, so it gives the highlight `"..."` and an empty context line instead. The other fields of a stored document are read the same way. A missing `title` or `url` would read `undefined` in the context entry (src/app/api/search/route.ts:224), and the model has an empty string there. A missing `source` would become an `undefined` facet (src/app/api/search/route.ts:290), and the model has an empty facet text. Only documents written by something other than this endpoint can lack these fields.
- `toLowerCase()` lower-cases ASCII letters only. Other Unicode case mappings are not modelled.
- String lengths count characters rather than UTF-16 code units, both in the 60-character header test and in the 200-character highlight.
- ResponsePanel.UnboldSpan: stated only for spans without an asterisk or a line break inside. `Unbold` itself models the lazy match in general, including spans that hold single asterisks.
- ResponsePanel.SourceTagRewritten: stated for canonical numbers, that is `NatToString(n)`. `SourceTags` itself rewrites any run of digits, leading zeros included.
- React rendering is not modelled: JSX, styling, keys, the clipboard and timers of the answer panel. `SearchResults.tsx`, `SearchInterface.tsx`, `SearchBox.tsx` and `RelatedQuestionPanel.tsx` are not part of this model.
- React's timing is not modelled. The hook's callbacks are applied one after another: `setState` updaters run at once, and `async` interleaving is not represented. The `selectedSources`, `numSources` and `useChunk` that the posted body captures are those of the state when the search starts.
- The metadata fields of an Elasticsearch hit (`last_updated`, `author`, `content_type`) are not modelled. The `highlight` and `aggs` settings of the hybrid query are carried as constants, and no property is claimed about them.
