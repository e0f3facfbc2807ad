/** The answer generator agent: builds a numbered context block from the
    first few search results, picks the instruction about outside
    knowledge, and after the generation request judges by a word-overlap
    heuristic whether the answer went beyond the context. */
module ResponseGenerator {
  import opened Wrappers
  import opened JsStrings
  import opened SearchTypes

  /** The options `{ useKnowledge = false, maxSources = 5 }`. */
  datatype GenerateOptions = GenerateOptions(useKnowledge: Option<bool>, maxSources: Option<int>)

  const DefaultMaxSources: int := 5
  const ContextSeparator: string := "\n\n"

  const SupplementInstruction: string :=
    "If the search results are insufficient, you may carefully supplement with general knowledge, but clearly indicate this."
  const StrictInstruction: string :=
    "Strictly use only the provided search results. Do not use any external knowledge."

  const GenerationError: string := "Failed to generate AI response"

  // ---------------------------------------------------------------------
  // The prompt

  /** The context entry of the result at 1-based position `k`. */
  function SourceEntry(k: nat, doc: SearchResult): string
  {
    "[Source " + NatToString(k) + "] " + doc.title + "\nContent: " + doc.highlight
  }

  /** The entries of a list of results, numbered from 1. */
  function ContextEntries(docs: seq<SearchResult>): (r: seq<string>)
    ensures |r| == |docs|
    ensures forall i | 0 <= i < |docs| :: r[i] == SourceEntry(i + 1, docs[i])
  {
    seq(|docs|, i requires 0 <= i < |docs| => SourceEntry(i + 1, docs[i]))
  }

  /** The results the answer is built from: `context.slice(0, maxSources)`. */
  function UsedResults(context: seq<SearchResult>, maxSources: int): (r: seq<SearchResult>)
    ensures |r| == SliceEnd(|context|, maxSources)
    ensures 0 <= maxSources ==> |r| == if maxSources < |context| then maxSources else |context|
    ensures r == context[..|r|]
  {
    SliceTo(context, maxSources)
  }

  /** The context block: the entries of the used results, separated by a
      blank line. */
  function ContextText(context: seq<SearchResult>, maxSources: int): (r: string)
    ensures r == "" <==> SliceEnd(|context|, maxSources) == 0
    ensures SliceEnd(|context|, maxSources) > 0 ==> StartsWith(r, SourceEntry(1, context[0]))
  {
    Join(ContextEntries(UsedResults(context, maxSources)), ContextSeparator)
  }

  /** The titles of the used results, in order. */
  function SourceTitles(context: seq<SearchResult>, maxSources: int): (r: seq<string>)
    ensures |r| == SliceEnd(|context|, maxSources)
    ensures forall i | 0 <= i < |r| :: r[i] == context[i].title
  {
    var used := UsedResults(context, maxSources);
    seq(|used|, i requires 0 <= i < |used| => used[i].title)
  }

  /** The instruction about outside knowledge: the permissive text exactly
      when outside knowledge is allowed. */
  function KnowledgeInstruction(useKnowledge: bool): (r: string)
    ensures r == SupplementInstruction <==> useKnowledge
    ensures r == StrictInstruction <==> !useKnowledge
  {
    if useKnowledge then SupplementInstruction else StrictInstruction
  }

  /** The structure of the prompt sent to the generation service; its fixed
      wording is not modelled. */
  datatype AnswerPrompt = AnswerPrompt(query: string, contextText: string, instruction: string)

  function EffectiveMaxSources(options: GenerateOptions): int
  {
    options.maxSources.GetOr(DefaultMaxSources)
  }

  function EffectiveUseKnowledge(options: GenerateOptions): bool
  {
    options.useKnowledge.GetOr(false)
  }

  /** The prompt `generateResponse` sends. */
  function BuildPrompt(query: string, context: seq<SearchResult>, options: GenerateOptions): (p: AnswerPrompt)
    ensures p.query == query
    ensures p.instruction == SupplementInstruction <==> options.useKnowledge == Some(true)
    ensures options.maxSources.None? ==> p.contextText == ContextText(context, DefaultMaxSources)
    ensures options.maxSources.Some? ==> p.contextText == ContextText(context, options.maxSources.value)
  {
    AnswerPrompt(
      query,
      ContextText(context, EffectiveMaxSources(options)),
      KnowledgeInstruction(EffectiveUseKnowledge(options)))
  }

  /** Omitting `maxSources` numbers at most the first five results. */
  lemma DefaultContextUsesFive(query: string, context: seq<SearchResult>, useKnowledge: Option<bool>)
    ensures BuildPrompt(query, context, GenerateOptions(useKnowledge, None)).contextText
            == Join(ContextEntries(context[..if |context| < 5 then |context| else 5]), ContextSeparator)
  {
  }

  // ---------------------------------------------------------------------
  // The groundedness heuristic

  /** The words of a list that are longer than four characters, in order. */
  function LongWords(ws: seq<string>): (r: seq<string>)
    ensures forall k | 0 <= k < |r| :: |r[k]| > 4 && r[k] in ws
    ensures forall k | 0 <= k < |ws| :: |ws[k]| > 4 ==> ws[k] in r
  {
    if ws == [] then []
    else (if |ws[0]| > 4 then [ws[0]] else []) + LongWords(ws[1..])
  }

  /** The significant terms of the context: its lower-cased words longer
      than four characters. */
  function ContextKeywords(context: string): (r: seq<string>)
    ensures forall k | 0 <= k < |r| :: |r[k]| > 4 && r[k] in SplitWhitespace(ToLower(context))
    ensures forall w | w in SplitWhitespace(ToLower(context)) && |w| > 4 :: w in r
  {
    LongWords(SplitWhitespace(ToLower(context)))
  }

  /** A response word is grounded when some keyword contains it or is
      contained in it. */
  predicate MatchesSomeKeyword(word: string, keywords: seq<string>)
  {
    exists k | 0 <= k < |keywords| :: Contains(keywords[k], word) || Contains(word, keywords[k])
  }

  /** How many words of a list are grounded. */
  function CountMatching(words: seq<string>, keywords: seq<string>): (n: nat)
    ensures n <= |words|
  {
    if words == [] then 0
    else (if MatchesSomeKeyword(words[0], keywords) then 1 else 0) + CountMatching(words[1..], keywords)
  }

  /** `isFullyGrounded(response, context)`: more than 30% of the response's
      words are grounded. The ratio test `matching / total > 0.3` is written
      in integers; `total` is never 0 because a split yields at least one
      piece. */
  predicate IsFullyGrounded(response: string, context: string)
  {
    var words := SplitWhitespace(ToLower(response));
    10 * CountMatching(words, ContextKeywords(context)) > 3 * |words|
  }

  /** The integer test is the source's ratio test: the response has at
      least one word, and more than 30% of its words match. */
  lemma GroundedRatio(response: string, context: string)
    ensures var words := SplitWhitespace(ToLower(response));
            var m := CountMatching(words, ContextKeywords(context));
            |words| > 0 && (IsFullyGrounded(response, context) <==> (m as real) / (|words| as real) > 0.3)
  {
    var words := SplitWhitespace(ToLower(response));
    RatioExceeds(CountMatching(words, ContextKeywords(context)), |words|);
  }

  lemma RatioExceeds(m: nat, t: nat)
    requires t > 0
    ensures 10 * m > 3 * t <==> (m as real) / (t as real) > 0.3
  {
    DivExceeds(m as real, t as real, 0.3);
  }

  lemma DivExceeds(a: real, b: real, c: real)
    requires b > 0.0
    ensures a / b > c <==> a > c * b
  {
    var q := a / b;
    assert q * b == a;
    if q > c {
      assert (q - c) * b > 0.0;
    } else {
      assert (c - q) * b >= 0.0;
    }
  }

  lemma {:induction false} CountMatchingNone(words: seq<string>, keywords: seq<string>)
    requires forall k | 0 <= k < |words| :: !MatchesSomeKeyword(words[k], keywords)
    ensures CountMatching(words, keywords) == 0
  {
    if words != [] {
      CountMatchingNone(words[1..], keywords);
    }
  }

  lemma {:induction false} CountMatchingAll(words: seq<string>, keywords: seq<string>)
    requires forall k | 0 <= k < |words| :: MatchesSomeKeyword(words[k], keywords)
    ensures CountMatching(words, keywords) == |words|
  {
    if words != [] {
      CountMatchingAll(words[1..], keywords);
    }
  }

  lemma {:induction false} NoLongWords(ws: seq<string>)
    requires forall k | 0 <= k < |ws| :: |ws[k]| <= 4
    ensures LongWords(ws) == []
  {
    if ws != [] {
      NoLongWords(ws[1..]);
    }
  }

  /** A context without any word longer than four characters grounds no
      response. */
  lemma NoKeywordsNotGrounded(response: string, context: string)
    requires forall k | 0 <= k < |SplitWhitespace(ToLower(context))| :: |SplitWhitespace(ToLower(context))[k]| <= 4
    ensures !IsFullyGrounded(response, context)
  {
    var keywords := ContextKeywords(context);
    NoLongWords(SplitWhitespace(ToLower(context)));
    var words := SplitWhitespace(ToLower(response));
    CountMatchingNone(words, keywords);
  }

  lemma LowerCharIdempotent(c: char)
    ensures LowerChar(LowerChar(c)) == LowerChar(c)
  {
  }

  /** The pieces of a lower-case string are lower case. */
  lemma {:induction false} SplitKeepsLowercase(s: string)
    requires IsLowercase(s)
    ensures forall k | 0 <= k < |SplitWhitespace(s)| :: IsLowercase(SplitWhitespace(s)[k])
    decreases |s|
  {
    var i := FirstWhitespace(s);
    if i < |s| {
      var rest := TrimStart(s[i..]);
      assert rest == s[|s| - |rest|..];
      SplitKeepsLowercase(rest);
      assert SplitWhitespace(s) == [s[..i]] + SplitWhitespace(rest);
    } else {
      assert s[..i] == s;
    }
  }

  lemma {:induction false} JoinKeepsLowercase(ws: seq<string>)
    requires forall k | 0 <= k < |ws| :: IsLowercase(ws[k])
    ensures IsLowercase(Join(ws, " "))
  {
    if |ws| > 1 {
      JoinKeepsLowercase(ws[1..]);
    }
  }

  lemma LowercaseFixed(s: string)
    requires IsLowercase(s)
    ensures ToLower(s) == s
  {
  }

  /** Every keyword is lower case and is a non-empty word without
      whitespace. */
  lemma KeywordsAreWords(context: string)
    ensures forall k | 0 <= k < |ContextKeywords(context)| ::
              var w := ContextKeywords(context)[k];
              w != [] && HasNoWhitespace(w) && IsLowercase(w)
  {
    var lowered := ToLower(context);
    forall i | 0 <= i < |lowered| ensures LowerChar(lowered[i]) == lowered[i] {
      LowerCharIdempotent(context[i]);
    }
    SplitKeepsLowercase(lowered);
  }

  /** A response made only of context keywords separated by single spaces
      has every word grounded, so its ratio is 1 and it is grounded. */
  lemma VerbatimKeywordsGrounded(ws: seq<string>, context: string)
    requires |ws| >= 1
    requires forall k | 0 <= k < |ws| :: ws[k] in ContextKeywords(context)
    ensures CountMatching(SplitWhitespace(ToLower(Join(ws, " "))), ContextKeywords(context)) == |ws|
    ensures IsFullyGrounded(Join(ws, " "), context)
  {
    var keywords := ContextKeywords(context);
    var joined := Join(ws, " ");
    KeywordListWords(ws, context);
    JoinKeepsLowercase(ws);
    LowercaseFixed(joined);
    SplitJoinedWords(ws);
    assert SplitWhitespace(ToLower(joined)) == ws;
    KeywordListMatches(ws, keywords);
    CountMatchingAll(ws, keywords);
  }

  lemma KeywordListWords(ws: seq<string>, context: string)
    requires forall k | 0 <= k < |ws| :: ws[k] in ContextKeywords(context)
    ensures forall k | 0 <= k < |ws| :: ws[k] != [] && HasNoWhitespace(ws[k]) && IsLowercase(ws[k])
  {
    var keywords := ContextKeywords(context);
    KeywordsAreWords(context);
    forall k | 0 <= k < |ws| ensures ws[k] != [] && HasNoWhitespace(ws[k]) && IsLowercase(ws[k]) {
      assert ws[k] in keywords;
      var j :| 0 <= j < |keywords| && keywords[j] == ws[k];
    }
  }

  lemma KeywordListMatches(ws: seq<string>, keywords: seq<string>)
    requires forall k | 0 <= k < |ws| :: ws[k] in keywords
    ensures forall k | 0 <= k < |ws| :: MatchesSomeKeyword(ws[k], keywords)
  {
    forall k | 0 <= k < |ws| ensures MatchesSomeKeyword(ws[k], keywords) {
      var j :| 0 <= j < |keywords| && keywords[j] == ws[k];
      ContainsItself(ws[k]);
    }
  }

  /** A blank response splits into empty words only (one for the empty
      string, two otherwise), and an empty word is contained in every
      keyword, so a blank response is grounded as soon as the context has
      one keyword. */
  lemma BlankResponseGrounded(response: string, context: string)
    requires IsBlank(response)
    requires |ContextKeywords(context)| > 0
    ensures IsFullyGrounded(response, context)
  {
    var keywords := ContextKeywords(context);
    var b := ToLower(response);
    assert IsBlank(b) by {
      forall i | 0 <= i < |b| ensures IsWhitespace(b[i]) {
        assert b[i] == LowerChar(response[i]);
      }
    }
    var words := SplitWhitespace(b);
    if b == [] {
      assert words == [""];
    } else {
      assert FirstWhitespace(b) == 0;
      assert b[0..] == b;
      TrimStartSpec(b);
      assert TrimStart(b) == [];
      assert words == [""] + SplitWhitespace([]);
      assert words == ["", ""];
    }
    assert OccursAt(keywords[0], "", 0);
    assert MatchesSomeKeyword("", keywords);
    CountMatchingAll(words, keywords);
  }

  // ---------------------------------------------------------------------
  // generateResponse

  /** `generateResponse(query, context, options)`, given the outcome of the
      generation request for `BuildPrompt(query, context, options)`. */
  function GenerateResponse(query: string, context: seq<SearchResult>, options: GenerateOptions,
                            generated: Outcome<string>): (r: Outcome<LLMResponse>)
    ensures generated.Failure? ==> r == Failure(GenerationError)
    ensures generated.Success? ==> r.Success? && r.value.response == generated.value
    ensures r.Success? ==> r.value.sources == SourceTitles(context, EffectiveMaxSources(options))
    ensures r.Success? && !EffectiveUseKnowledge(options) ==> !r.value.usedKnowledge
    ensures r.Success? && EffectiveUseKnowledge(options) ==>
              (r.value.usedKnowledge <==>
               !IsFullyGrounded(generated.value, BuildPrompt(query, context, options).contextText))
  {
    var maxSources := EffectiveMaxSources(options);
    var useKnowledge := EffectiveUseKnowledge(options);
    var contextText := ContextText(context, maxSources);
    var sources := SourceTitles(context, maxSources);
    match generated
    case Failure(_) => Failure(GenerationError)
    case Success(text) =>
      Success(LLMResponse(
        response := text,
        sources := sources,
        usedKnowledge := useKnowledge && !IsFullyGrounded(text, contextText)))
  }
}
