/** The JavaScript string and array primitives the core relies on, with the
    ECMAScript semantics the source gets from them: `\s` and `trim()`,
    `split(/\s+/)`, `split('\n')`, `join`, `includes`, `substring(0, n)`,
    `slice(0, n)` and the decimal rendering of a number in a template. */
module JsStrings {

  // ---------------------------------------------------------------------
  // Character classes

  /** ECMAScript LineTerminator: what `.` in a regular expression does not match. */
  predicate IsLineTerminator(c: char)
  {
    c == '\n' || c == '\r' || c == '\U{2028}' || c == '\U{2029}'
  }

  /** ECMAScript WhiteSpace or LineTerminator: the class `\s`, and what `trim()` removes. */
  predicate IsWhitespace(c: char)
  {
    || c == ' ' || c == '\t' || c == '\U{0B}' || c == '\U{0C}'
    || c == '\U{A0}' || c == '\U{FEFF}' || c == '\U{1680}'
    || ('\U{2000}' <= c <= '\U{200A}')
    || c == '\U{202F}' || c == '\U{205F}' || c == '\U{3000}'
    || IsLineTerminator(c)
  }

  /** The class `\d`. */
  predicate IsDigit(c: char)
  {
    '0' <= c <= '9'
  }

  predicate IsBlank(s: string)
  {
    forall i | 0 <= i < |s| :: IsWhitespace(s[i])
  }

  predicate HasNoWhitespace(s: string)
  {
    forall i | 0 <= i < |s| :: !IsWhitespace(s[i])
  }

  predicate AllDigits(s: string)
  {
    forall i | 0 <= i < |s| :: IsDigit(s[i])
  }

  predicate StartsWith(s: string, prefix: string)
  {
    |prefix| <= |s| && s[..|prefix|] == prefix
  }

  predicate EndsWith(s: string, suffix: string)
  {
    |suffix| <= |s| && s[|s| - |suffix|..] == suffix
  }

  /** `needle` occurs in `hay` at index `i`. */
  predicate OccursAt(hay: string, needle: string, i: nat)
  {
    i + |needle| <= |hay| && hay[i..i + |needle|] == needle
  }

  /** `hay.includes(needle)`; the empty needle is included in every string. */
  predicate Contains(hay: string, needle: string)
  {
    exists i: nat | i <= |hay| :: OccursAt(hay, needle, i)
  }

  lemma ContainsItself(s: string)
    ensures Contains(s, s)
  {
    assert s[0..|s|] == s;
    assert OccursAt(s, s, 0);
  }

  // ---------------------------------------------------------------------
  // trim()

  /** The length of the leading run of whitespace. */
  function LeadingWhitespace(s: string): (n: nat)
    ensures n <= |s|
    decreases |s|
  {
    if s != [] && IsWhitespace(s[0]) then 1 + LeadingWhitespace(s[1..]) else 0
  }

  /** The length of the trailing run of whitespace. */
  function TrailingWhitespace(s: string): (n: nat)
    ensures n <= |s|
    decreases |s|
  {
    if s != [] && IsWhitespace(s[|s| - 1]) then 1 + TrailingWhitespace(s[..|s| - 1]) else 0
  }

  /** The leading run is whitespace and is followed by a character that is
      not. */
  lemma {:induction false} LeadingWhitespaceSpec(s: string)
    ensures var n := LeadingWhitespace(s);
            && (forall i | 0 <= i < n :: IsWhitespace(s[i]))
            && (n < |s| ==> !IsWhitespace(s[n]))
    decreases |s|
  {
    if s != [] && IsWhitespace(s[0]) {
      LeadingWhitespaceSpec(s[1..]);
      assert forall i | 1 <= i < |s| :: s[i] == s[1..][i - 1];
    }
  }

  /** The trailing run is whitespace and is preceded by a character that
      is not. */
  lemma {:induction false} TrailingWhitespaceSpec(s: string)
    ensures var n := TrailingWhitespace(s);
            && (forall i | |s| - n <= i < |s| :: IsWhitespace(s[i]))
            && (n < |s| ==> !IsWhitespace(s[|s| - n - 1]))
    decreases |s|
  {
    if s != [] && IsWhitespace(s[|s| - 1]) {
      TrailingWhitespaceSpec(s[..|s| - 1]);
      assert forall i | 0 <= i < |s| - 1 :: s[i] == s[..|s| - 1][i];
    }
  }

  /** `trimStart()`: drops the leading run of whitespace. */
  function TrimStart(s: string): (r: string)
    ensures |r| <= |s| && r == s[|s| - |r|..]
    ensures s != [] && IsWhitespace(s[0]) ==> |r| < |s|
  {
    s[LeadingWhitespace(s)..]
  }

  /** What `trimStart()` drops is whitespace, and what it keeps does not
      start with whitespace; it keeps nothing exactly when the string is
      blank. */
  lemma TrimStartSpec(s: string)
    ensures var r := TrimStart(s);
            && (forall i | 0 <= i < |s| - |r| :: IsWhitespace(s[i]))
            && (r == [] || !IsWhitespace(r[0]))
            && (r == [] <==> IsBlank(s))
  {
    LeadingWhitespaceSpec(s);
    var n := LeadingWhitespace(s);
    if n < |s| {
      assert TrimStart(s)[0] == s[n];
    }
  }

  /** A leading whitespace character is dropped and trimming goes on
      after it. */
  lemma TrimStartStep(s: string)
    requires s != [] && IsWhitespace(s[0])
    ensures TrimStart(s) == TrimStart(s[1..])
  {
    var n := LeadingWhitespace(s[1..]);
    assert s[1..][n..] == s[1 + n..];
  }

  /** A string that does not start with whitespace is its own
      `trimStart()`. */
  lemma TrimStartStop(s: string)
    requires s == [] || !IsWhitespace(s[0])
    ensures TrimStart(s) == s
  {
    assert s[0..] == s;
  }

  /** `trimEnd()`: drops the trailing run of whitespace. */
  function TrimEnd(s: string): (r: string)
    ensures |r| <= |s| && r == s[..|r|]
  {
    s[..|s| - TrailingWhitespace(s)]
  }

  /** What `trimEnd()` drops is whitespace, and what it keeps does not end
      with whitespace; it keeps nothing exactly when the string is blank. */
  lemma TrimEndSpec(s: string)
    ensures var r := TrimEnd(s);
            && (forall i | |r| <= i < |s| :: IsWhitespace(s[i]))
            && (r == [] || !IsWhitespace(r[|r| - 1]))
            && (r == [] <==> IsBlank(s))
  {
    TrailingWhitespaceSpec(s);
    var n := TrailingWhitespace(s);
    if n < |s| {
      assert TrimEnd(s)[|s| - n - 1] == s[|s| - n - 1];
    }
  }

  /** `trim()`. */
  function Trim(s: string): (r: string)
    ensures |r| <= |s|
  {
    TrimEnd(TrimStart(s))
  }

  /** The trimmed string is empty exactly when the string is blank, and
      otherwise it starts and ends with a character that is not whitespace. */
  lemma TrimProperties(s: string)
    ensures Trim(s) == [] <==> IsBlank(s)
    ensures Trim(s) != [] ==> !IsWhitespace(Trim(s)[0]) && !IsWhitespace(Trim(s)[|Trim(s)| - 1])
  {
    var t := TrimStart(s);
    var r := TrimEnd(t);
    TrimStartSpec(s);
    TrimEndSpec(t);
    if t != [] {
      assert !IsWhitespace(t[0]);
      assert !IsBlank(t);
    }
    if r != [] {
      assert r[0] == t[0];
    }
  }

  /** Blank text in front of a non-whitespace character is what
      `trimStart()` drops. */
  lemma TrimStartAfterBlank(ws: string, t: string)
    requires IsBlank(ws) && t != [] && !IsWhitespace(t[0])
    ensures TrimStart(ws + t) == t
  {
    var s := ws + t;
    var r := TrimStart(s);
    TrimStartSpec(s);
    assert s[|ws|] == t[0];
    assert forall i | 0 <= i < |ws| :: s[i] == ws[i];
    assert r != [] ==> r[0] == s[|s| - |r|];
    assert |r| == |t|;
    assert s[|ws|..] == t;
  }

  /** The trimmed string is the piece of `s` after its leading whitespace. */
  lemma TrimOccurs(s: string)
    ensures OccursAt(s, Trim(s), |s| - |TrimStart(s)|)
  {
    PrefixOfSuffix(s, TrimStart(s), Trim(s));
  }

  /** A prefix `r` of a suffix `t` of `s` occurs in `s` where `t` starts. */
  lemma PrefixOfSuffix(s: string, t: string, r: string)
    requires |t| <= |s| && t == s[|s| - |t|..]
    requires |r| <= |t| && r == t[..|r|]
    ensures OccursAt(s, r, |s| - |t|)
  {
    var i := |s| - |t|;
    assert s[i..i + |r|] == s[i..][..|r|];
  }

  // ---------------------------------------------------------------------
  // substring, slice, join

  /** `s.substring(0, n)` for a non-negative `n`. */
  function Take(s: string, n: nat): (r: string)
    ensures |r| == if |s| < n then |s| else n
    ensures r == s[..|r|]
  {
    if |s| < n then s else s[..n]
  }

  /** The length of `xs.slice(0, end)` for an integer `end`: a negative end
      counts back from the end of the array. */
  function SliceEnd(len: nat, end: int): (k: nat)
    ensures k <= len
    ensures 0 <= end ==> k == if end < len then end else len
    ensures end < 0 ==> k == if len + end < 0 then 0 else len + end
  {
    if end < 0 then (if len + end < 0 then 0 else len + end)
    else if end < len then end else len
  }

  /** `xs.slice(0, end)`. */
  function SliceTo<T>(xs: seq<T>, end: int): (r: seq<T>)
    ensures |r| == SliceEnd(|xs|, end)
    ensures r == xs[..|r|]
  {
    xs[..SliceEnd(|xs|, end)]
  }

  /** `xs.join(sep)`. */
  function Join(xs: seq<string>, sep: string): (r: string)
    ensures xs == [] ==> r == ""
    ensures xs != [] ==> StartsWith(r, xs[0])
  {
    if |xs| == 0 then ""
    else if |xs| == 1 then xs[0]
    else xs[0] + sep + Join(xs[1..], sep)
  }

  lemma JoinCons(x: string, xs: seq<string>, sep: string)
    requires |xs| > 0
    ensures Join([x] + xs, sep) == x + sep + Join(xs, sep)
  {
    assert ([x] + xs)[1..] == xs;
  }

  /** Joining one more element appends the separator and the element. */
  lemma {:induction false} JoinSnoc(xs: seq<string>, x: string, sep: string)
    requires |xs| > 0
    ensures Join(xs + [x], sep) == Join(xs, sep) + sep + x
  {
    if |xs| == 1 {
      assert (xs + [x])[1..] == [x];
    } else {
      assert (xs + [x])[1..] == xs[1..] + [x];
      JoinSnoc(xs[1..], x, sep);
    }
  }

  // ---------------------------------------------------------------------
  // Numbers in templates

  function DigitChar(d: nat): (c: char)
    requires d < 10
    ensures IsDigit(c) && c as int - '0' as int == d
  {
    (d + '0' as int) as char
  }

  /** The text of a non-negative integer in `${n}`: its decimal digits,
      without leading zeros. */
  function NatToString(n: nat): (r: string)
    ensures |r| >= 1 && AllDigits(r)
    ensures r[0] == '0' ==> n == 0
    decreases n
  {
    if n < 10 then [DigitChar(n)] else NatToString(n / 10) + [DigitChar(n % 10)]
  }

  /** The number a string of decimal digits denotes. */
  function DecimalValue(s: string): nat
    requires AllDigits(s)
  {
    if s == [] then 0
    else DecimalValue(s[..|s| - 1]) * 10 + (s[|s| - 1] as int - '0' as int)
  }

  /** Rendering a number and reading it back gives the number. */
  lemma {:induction false} DecimalRoundTrip(n: nat)
    ensures DecimalValue(NatToString(n)) == n
    decreases n
  {
    if n >= 10 {
      var s := NatToString(n);
      assert s[..|s| - 1] == NatToString(n / 10);
      DecimalRoundTrip(n / 10);
    }
  }

  /** Distinct numbers render as distinct texts. */
  lemma NatToStringInjective(m: nat, n: nat)
    requires NatToString(m) == NatToString(n)
    ensures m == n
  {
    DecimalRoundTrip(m);
    DecimalRoundTrip(n);
  }

  // ---------------------------------------------------------------------
  // toLowerCase()

  function LowerChar(c: char): char
  {
    if 'A' <= c <= 'Z' then (c as int + 32) as char else c
  }

  /** `toLowerCase()`, on the ASCII letters. */
  function ToLower(s: string): (r: string)
    ensures |r| == |s|
    ensures forall i | 0 <= i < |s| :: r[i] == LowerChar(s[i])
  {
    seq(|s|, i requires 0 <= i < |s| => LowerChar(s[i]))
  }

  predicate IsLowercase(s: string)
  {
    forall i | 0 <= i < |s| :: LowerChar(s[i]) == s[i]
  }

  // ---------------------------------------------------------------------
  // split

  /** The index of the first whitespace character, or `|s|`. */
  function FirstWhitespace(s: string): (i: nat)
    ensures i <= |s|
    ensures i < |s| ==> IsWhitespace(s[i])
    ensures HasNoWhitespace(s[..i])
  {
    if s == [] then 0
    else if IsWhitespace(s[0]) then 0
    else
      var i := 1 + FirstWhitespace(s[1..]);
      assert s[..i] == [s[0]] + s[1..][..i - 1];
      i
  }

  /** `s.split(/\s+/)`: the pieces between maximal runs of whitespace; a
      leading or trailing run gives an empty first or last piece, and the
      empty string gives one empty piece. */
  function SplitWhitespace(s: string): (r: seq<string>)
    ensures |r| >= 1
    ensures forall k | 0 <= k < |r| :: HasNoWhitespace(r[k])
    decreases |s|
  {
    var i := FirstWhitespace(s);
    if i == |s| then
      assert s[..i] == s;
      [s]
    else [s[..i]] + SplitWhitespace(TrimStart(s[i..]))
  }

  /** Words that are non-empty and hold no whitespace, joined by single
      spaces, split back into the same words. */
  lemma {:induction false} SplitJoinedWords(ws: seq<string>)
    requires |ws| >= 1
    requires forall k | 0 <= k < |ws| :: ws[k] != [] && HasNoWhitespace(ws[k])
    ensures SplitWhitespace(Join(ws, " ")) == ws
  {
    var w := ws[0];
    if |ws| == 1 {
      assert Join(ws, " ") == w;
      assert w[..|w|] == w;
      assert FirstWhitespace(w) == |w|;
    } else {
      var rest := Join(ws[1..], " ");
      var s := w + " " + rest;
      JoinCons(w, ws[1..], " ");
      assert ws == [w] + ws[1..];
      assert Join(ws, " ") == s;
      JoinHeadNonBlank(ws[1..]);
      FirstWhitespaceAfter(w, " " + rest);
      assert s == w + (" " + rest);
      assert FirstWhitespace(s) == |w|;
      assert s[..|w|] == w;
      assert s[|w|..] == " " + rest;
      assert TrimStart(" " + rest) == rest by {
        assert (" " + rest)[1..] == rest;
        TrimStartStep(" " + rest);
        TrimStartStop(rest);
      }
      assert SplitWhitespace(s) == [w] + SplitWhitespace(rest);
      SplitJoinedWords(ws[1..]);
    }
  }

  lemma JoinHeadNonBlank(ws: seq<string>)
    requires |ws| >= 1
    requires forall k | 0 <= k < |ws| :: ws[k] != [] && HasNoWhitespace(ws[k])
    ensures Join(ws, " ") != [] && !IsWhitespace(Join(ws, " ")[0])
  {
    if |ws| > 1 {
      assert Join(ws, " ")[0] == ws[0][0];
    }
  }

  lemma FirstWhitespaceAfter(w: string, t: string)
    requires HasNoWhitespace(w)
    requires t != [] && IsWhitespace(t[0])
    ensures FirstWhitespace(w + t) == |w|
    decreases |w|
  {
    if w != [] {
      assert (w + t)[1..] == w[1..] + t;
      FirstWhitespaceAfter(w[1..], t);
    }
  }

  /** The index of the first `c`, or `|s|`. */
  function IndexOf(s: string, c: char): (i: nat)
    ensures i <= |s|
    ensures i < |s| ==> s[i] == c
    ensures c !in s[..i]
  {
    if s == [] then 0
    else if s[0] == c then 0
    else
      var i := 1 + IndexOf(s[1..], c);
      assert s[..i] == [s[0]] + s[1..][..i - 1];
      i
  }

  /** `s.split(c)` for a one-character separator: every piece, empty ones
      included. */
  function SplitOn(s: string, c: char): (r: seq<string>)
    ensures |r| >= 1
    ensures forall k | 0 <= k < |r| :: c !in r[k]
    decreases |s|
  {
    var i := IndexOf(s, c);
    if i == |s| then
      assert s[..i] == s;
      [s]
    else [s[..i]] + SplitOn(s[i + 1..], c)
  }

  /** Splitting and joining back with the same separator is the identity. */
  lemma {:induction false} SplitOnJoin(s: string, c: char)
    ensures Join(SplitOn(s, c), [c]) == s
    decreases |s|
  {
    var i := IndexOf(s, c);
    if i == |s| {
      assert s[..i] == s;
      assert SplitOn(s, c) == [s];
    } else {
      var tail := s[i + 1..];
      var rest := SplitOn(tail, c);
      assert SplitOn(s, c) == [s[..i]] + rest;
      SplitOnJoin(tail, c);
      JoinCons(s[..i], rest, [c]);
      assert s == s[..i] + [c] + tail;
    }
  }
}
