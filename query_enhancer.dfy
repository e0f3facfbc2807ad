/** The query enhancer agent: asks the generation service to rewrite a
    query and never lets that request fail the caller. */
module QueryEnhancer {
  import opened Wrappers
  import opened JsStrings

  /** `enhanceQuery(originalQuery)`, given the outcome of the text
      generation request: the trimmed model text, unless it is empty or the
      request failed, in which case the original query. */
  function EnhanceQuery(originalQuery: string, generated: Outcome<string>): (r: string)
    ensures generated.Failure? ==> r == originalQuery
    ensures generated.Success? && Trim(generated.value) != "" ==> r == Trim(generated.value)
    ensures generated.Success? && IsBlank(generated.value) ==> r == originalQuery
  {
    match generated
    case Failure(_) => originalQuery
    case Success(text) =>
      TrimProperties(text);
      if Trim(text) != "" then Trim(text) else originalQuery
  }

  /** A non-empty query never enhances to the empty string, and the result
      is either the original query or a string without surrounding
      whitespace. */
  lemma EnhanceQueryNonEmpty(originalQuery: string, generated: Outcome<string>)
    requires originalQuery != ""
    ensures EnhanceQuery(originalQuery, generated) != ""
    ensures var r := EnhanceQuery(originalQuery, generated);
            r == originalQuery || (!IsWhitespace(r[0]) && !IsWhitespace(r[|r| - 1]))
  {
    if generated.Success? {
      TrimProperties(generated.value);
    }
  }
}
