/** The client search hook: a state record and an error cell that persist
    across calls, a search that posts the query to the search endpoint and
    folds the reply into the state, a clamp on the number of sources, three
    boolean toggles and an error reset. `setState(prev => ...)` updaters are
    the pure functions below; the hook's fields are a class's fields. */
module UseSearch {
  import opened Wrappers
  import opened JsStrings
  import opened SearchTypes

  datatype SearchState = SearchState(
    query: string,
    results: seq<SearchResult>,
    llmResponse: string,
    relatedQuestions: seq<string>,
    isSearching: bool,
    isGenerating: bool,
    selectedSources: seq<string>,
    useLLMKnowledge: bool,
    numSources: int,
    expandedPanel: bool,
    labSources: seq<LabSource>,
    useChunk: bool)

  /** The initial state: ten sources, knowledge and chunking on, all lists
      and strings empty, all other flags off. */
  const InitialState: SearchState := SearchState(
    query := "",
    results := [],
    llmResponse := "",
    relatedQuestions := [],
    isSearching := false,
    isGenerating := false,
    selectedSources := [],
    useLLMKnowledge := true,
    numSources := 10,
    expandedPanel := false,
    labSources := [],
    useChunk := true)

  const MinSources: int := 5
  const MaxSources: int := 20

  /** The parsed JSON reply; "" stands for a missing or empty string, `None`
      for a missing list. */
  datatype ReplyData = ReplyData(
    error: string,
    details: string,
    results: Option<seq<SearchResult>>,
    labSources: Option<seq<LabSource>>,
    relatedQuestions: Option<seq<string>>,
    llmResponse: string)

  /** The HTTP reply: `response.ok`, `response.status` and its body. */
  datatype HttpReply = HttpReply(ok: bool, status: nat, data: ReplyData)

  /** The fields of the posted body that come from the hook's state; the
      two credentials come from the environment and are not part of this
      model. */
  datatype PostedBody = PostedBody(query: string, selectedSources: seq<string>, numSources: int, useSemantic: bool)

  // ---------------------------------------------------------------------
  // Pure transitions

  /** `Math.max(5, Math.min(20, n))`. */
  function Clamp(n: int): (r: int)
    ensures MinSources <= r <= MaxSources
    ensures MinSources <= n <= MaxSources ==> r == n
    ensures n < MinSources ==> r == MinSources
    ensures MaxSources < n ==> r == MaxSources
  {
    var upper := if MaxSources < n then MaxSources else n;
    if MinSources < upper then upper else MinSources
  }

  /** `data.error || data.details || "Search failed with status N"`: never
      empty, and the server's own words when it sent any. */
  function HttpFailureMessage(reply: HttpReply): (m: string)
    ensures m != ""
    ensures reply.data.error != "" ==> m == reply.data.error
    ensures reply.data.error == "" && reply.data.details != "" ==> m == reply.data.details
    ensures reply.data.error == "" && reply.data.details == "" ==>
              m == "Search failed with status " + NatToString(reply.status)
  {
    if reply.data.error != "" then reply.data.error
    else if reply.data.details != "" then reply.data.details
    else "Search failed with status " + NatToString(reply.status)
  }

  /** What the `try` block ends with: the reply data, or the message of the
      error thrown on the way (a failed fetch or parse, a status that is not
      ok, or an `error` field in an ok reply). */
  function ReplyOutcome(reply: Outcome<HttpReply>): (r: Outcome<ReplyData>)
    ensures r.Success? <==> reply.Success? && reply.value.ok && reply.value.data.error == ""
    ensures r.Success? ==> r.value == reply.value.data
    ensures reply.Failure? ==> r == Failure(reply.message)
    ensures reply.Success? && !reply.value.ok ==> r == Failure(HttpFailureMessage(reply.value))
    ensures reply.Success? && reply.value.ok && reply.value.data.error != "" ==> r == Failure(reply.value.data.error)
    ensures reply.Success? && r.Failure? ==> r.message != ""
  {
    match reply
    case Failure(m) => Failure(m)
    case Success(http) =>
      if !http.ok then Failure(HttpFailureMessage(http))
      else if http.data.error != "" then Failure(http.data.error)
      else Success(http.data)
  }

  /** The first update of a search: searching, with the new query and an
      empty answer and no related questions; everything else, the previous
      results included, is kept. */
  function Started(s: SearchState, query: string): (r: SearchState)
    ensures r.isSearching && r.query == query && r.relatedQuestions == [] && r.llmResponse == ""
    ensures r.results == s.results && r.labSources == s.labSources
    ensures r.(isSearching := s.isSearching, query := s.query, relatedQuestions := s.relatedQuestions,
               llmResponse := s.llmResponse) == s
  {
    s.(isSearching := true, query := query, relatedQuestions := [], llmResponse := "")
  }

  /** The update after a successful reply: the reply's lists (empty when
      missing) and answer, and no longer searching. */
  function Succeeded(s: SearchState, data: ReplyData): (r: SearchState)
    ensures !r.isSearching
    ensures r.results == data.results.GetOr([]) && r.labSources == data.labSources.GetOr([])
    ensures r.relatedQuestions == data.relatedQuestions.GetOr([]) && r.llmResponse == data.llmResponse
    ensures r.(results := s.results, labSources := s.labSources, relatedQuestions := s.relatedQuestions,
               llmResponse := s.llmResponse, isSearching := s.isSearching) == s
  {
    s.(results := data.results.GetOr([]),
       labSources := data.labSources.GetOr([]),
       relatedQuestions := data.relatedQuestions.GetOr([]),
       llmResponse := data.llmResponse,
       isSearching := false)
  }

  /** The answer shown after a failure: the message, framed by a fixed
      prefix and suffix. */
  function ErrorText(message: string): (r: string)
    ensures StartsWith(r, "Search error: ") && EndsWith(r, ". Please try again.")
    ensures OccursAt(r, message, 14)
  {
    "Search error: " + message + ". Please try again."
  }

  /** The update after a failure: no results, the error text as the answer,
      no longer searching; the related questions and the facets are kept. */
  function FailedWith(s: SearchState, message: string): (r: SearchState)
    ensures !r.isSearching && r.results == [] && r.llmResponse == ErrorText(message)
    ensures r.relatedQuestions == s.relatedQuestions && r.labSources == s.labSources
    ensures r.(isSearching := s.isSearching, results := s.results, llmResponse := s.llmResponse) == s
  {
    s.(isSearching := false, results := [], llmResponse := ErrorText(message))
  }

  /** The update the outcome of the reply selects. */
  function Finished(s: SearchState, outcome: Outcome<ReplyData>): (r: SearchState)
    ensures !r.isSearching
  {
    match outcome
    case Success(data) => Succeeded(s, data)
    case Failure(m) => FailedWith(s, m)
  }

  /** The error cell after the reply: the message of a failure, else as it
      was (cleared when the search started). */
  function ErrorAfter(error: Option<string>, outcome: Outcome<ReplyData>): (r: Option<string>)
    ensures outcome.Failure? ==> r == Some(outcome.message)
    ensures outcome.Success? ==> r == error
  {
    match outcome
    case Success(_) => error
    case Failure(m) => Some(m)
  }

  /** A search that fails leaves no related questions: the start emptied
      them and the failure keeps them. */
  lemma FailedSearchHasNoQuestions(s: SearchState, query: string, message: string)
    ensures FailedWith(Started(s, query), message).relatedQuestions == []
    ensures FailedWith(Started(s, query), message).labSources == s.labSources
  {
  }

  /** Repeating a search with the same reply gives the same state. */
  lemma SearchIdempotent(s: SearchState, query: string, outcome: Outcome<ReplyData>)
    ensures var once := Finished(Started(s, query), outcome);
            Finished(Started(once, query), outcome) == once
  {
  }

  /** The invariant the hook keeps: the number of sources lies in [5, 20],
      and while searching the answer and the related questions are empty. */
  predicate ValidState(s: SearchState)
  {
    && MinSources <= s.numSources <= MaxSources
    && (s.isSearching ==> s.llmResponse == "" && s.relatedQuestions == [])
  }

  lemma InitialStateValid()
    ensures ValidState(InitialState)
  {
  }

  // ---------------------------------------------------------------------
  // The hook

  class SearchHook {
    var state: SearchState
    var error: Option<string>

    /** The hook's invariant: the state is valid and an error is shown only
        once no search is running. */
    predicate Valid()
      reads this
    {
      ValidState(state) && (state.isSearching ==> error.None?)
    }

    constructor()
      ensures state == InitialState && error == None
      ensures Valid()
    {
      state := InitialState;
      error := None;
    }

    /** The synchronous part of `search`: a blank query changes nothing;
        otherwise the error is cleared, the state is marked as searching and
        the body to post is built from the current state. */
    method BeginSearch(query: string) returns (body: Option<PostedBody>)
      requires Valid()
      modifies this
      ensures Valid()
      ensures IsBlank(query) ==> body.None? && state == old(state) && error == old(error)
      ensures !IsBlank(query) ==>
                && body == Some(PostedBody(query, old(state).selectedSources, old(state).numSources, old(state).useChunk))
                && state == Started(old(state), query)
                && error.None?
    {
      TrimProperties(query);
      if Trim(query) == "" {
        return None;
      }
      error := None;
      body := Some(PostedBody(query, state.selectedSources, state.numSources, state.useChunk));
      state := Started(state, query);
    }

    /** The part of `search` after the reply: the reply's data on success,
        the error message and the error text on failure. */
    method FinishSearch(reply: Outcome<HttpReply>)
      requires Valid()
      modifies this
      ensures Valid()
      ensures state == Finished(old(state), ReplyOutcome(reply))
      ensures error == ErrorAfter(old(error), ReplyOutcome(reply))
      ensures !state.isSearching
    {
      var outcome := ReplyOutcome(reply);
      match outcome {
        case Success(data) =>
          state := Succeeded(state, data);
        case Failure(m) =>
          error := Some(m);
          state := FailedWith(state, m);
      }
    }

    /** `search(query)` with the reply the endpoint gives. */
    method Search(query: string, reply: Outcome<HttpReply>) returns (body: Option<PostedBody>)
      requires Valid()
      modifies this
      ensures Valid()
      ensures IsBlank(query) ==> body.None? && state == old(state) && error == old(error)
      ensures !IsBlank(query) ==>
                && body == Some(PostedBody(query, old(state).selectedSources, old(state).numSources, old(state).useChunk))
                && state == Finished(Started(old(state), query), ReplyOutcome(reply))
                && error == ErrorAfter(None, ReplyOutcome(reply))
                && !state.isSearching
    {
      body := BeginSearch(query);
      if body.Some? {
        FinishSearch(reply);
      }
    }

    /** `searchRelatedQuestion(question)`: a search for the question. */
    method SearchRelatedQuestion(question: string, reply: Outcome<HttpReply>) returns (body: Option<PostedBody>)
      requires Valid()
      modifies this
      ensures Valid()
      ensures IsBlank(question) ==> body.None? && state == old(state) && error == old(error)
      ensures !IsBlank(question) ==>
                && body.Some? && body.value.query == question
                && state == Finished(Started(old(state), question), ReplyOutcome(reply))
    {
      body := Search(question, reply);
    }

    method UpdateSources(sources: seq<string>)
      requires Valid()
      modifies this
      ensures Valid()
      ensures state == old(state).(selectedSources := sources) && error == old(error)
    {
      state := state.(selectedSources := sources);
    }

    method UpdateNumSources(num: int)
      requires Valid()
      modifies this
      ensures Valid()
      ensures state == old(state).(numSources := Clamp(num)) && error == old(error)
      ensures MinSources <= state.numSources <= MaxSources
    {
      state := state.(numSources := Clamp(num));
    }

    method ToggleLLMKnowledge()
      requires Valid()
      modifies this
      ensures Valid()
      ensures state == old(state).(useLLMKnowledge := !old(state).useLLMKnowledge) && error == old(error)
    {
      state := state.(useLLMKnowledge := !state.useLLMKnowledge);
    }

    method TogglePanel()
      requires Valid()
      modifies this
      ensures Valid()
      ensures state == old(state).(expandedPanel := !old(state).expandedPanel) && error == old(error)
    {
      state := state.(expandedPanel := !state.expandedPanel);
    }

    method ToggleChunk()
      requires Valid()
      modifies this
      ensures Valid()
      ensures state == old(state).(useChunk := !old(state).useChunk) && error == old(error)
    {
      state := state.(useChunk := !state.useChunk);
    }

    method ClearError()
      requires Valid()
      modifies this
      ensures Valid()
      ensures state == old(state) && error == None
    {
      error := None;
    }
  }

  /** Toggling twice restores the hook: each toggle is an involution that
      touches one flag only. */
  method ToggleTwice(hook: SearchHook)
    requires hook.Valid()
    modifies hook
    ensures hook.Valid()
    ensures hook.state == old(hook.state) && hook.error == old(hook.error)
  {
    hook.ToggleLLMKnowledge();
    hook.ToggleLLMKnowledge();
    hook.TogglePanel();
    hook.TogglePanel();
    hook.ToggleChunk();
    hook.ToggleChunk();
  }

  /** A fresh hook, widened to any count past the top of the range, holds
      twenty sources. */
  method ClampFromFresh(n: int) returns (hook: SearchHook)
    requires n > MaxSources
    ensures fresh(hook) && hook.Valid()
    ensures hook.state == InitialState.(numSources := MaxSources)
  {
    hook := new SearchHook();
    hook.UpdateNumSources(n);
  }
}
