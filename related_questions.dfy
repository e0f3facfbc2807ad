/** The related-questions agent: three follow-up questions from the
    generation service, or three fixed ones when that request fails. */
module RelatedQuestions {
  import opened Wrappers

  /** The object the agent returns: `{ questions: string[] }`. */
  datatype RelatedObject = RelatedObject(questions: seq<string>)

  /** The related-questions schema: an array of exactly three strings. */
  predicate MatchesSchema(o: RelatedObject)
  {
    |o.questions| == 3
  }

  /** What the structured generation request resolves to: the generated
      object if it matches the schema; an object that does not match makes
      the request throw. */
  function GenerateObject(raw: Outcome<RelatedObject>): (r: Outcome<RelatedObject>)
    ensures r.Success? <==> raw.Success? && MatchesSchema(raw.value)
    ensures r.Success? ==> r.value == raw.value
  {
    match raw
    case Success(o) => if MatchesSchema(o) then raw else Failure("schema validation failed")
    case Failure(m) => raw
  }

  const FallbackQuestions: seq<string> := [
    "What are the main aspects of this topic?",
    "How does this relate to current developments?",
    "What should I consider when exploring this further?"
  ]

  /** `generateRelatedQuestions(query, searchContext)`, given what the
      generation service produced: the generated object as it is, otherwise
      the fixed fallback. Query and context shape only the request, which
      the model does not represent. */
  function GenerateRelatedQuestions(query: string, searchContext: string, raw: Outcome<RelatedObject>): (r: RelatedObject)
    ensures |r.questions| == 3
    ensures raw.Success? && MatchesSchema(raw.value) ==> r == raw.value
    ensures !(raw.Success? && MatchesSchema(raw.value)) ==> r.questions == FallbackQuestions
  {
    match GenerateObject(raw)
    case Success(o) => o
    case Failure(_) => RelatedObject(FallbackQuestions)
  }

  /** The fallback is the same whatever the query and the context. */
  lemma FallbackIndependent(q1: string, c1: string, q2: string, c2: string, m1: string, m2: string)
    ensures GenerateRelatedQuestions(q1, c1, Failure(m1)) == GenerateRelatedQuestions(q2, c2, Failure(m2))
  {
  }
}
