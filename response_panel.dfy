/** The answer panel's text formatting: four global regular-expression
    rewrites of the generated answer, a split into lines, the removal of
    blank lines, and the classification of each remaining line as a bullet,
    a section header or a paragraph. Each rewrite scans left to right and
    resumes after a match, as a global `replace` does. */
module ResponsePanel {
  import opened Wrappers
  import opened JsStrings

  /** The two classes of characters a rewrite is shown to keep. */
  datatype CharClass = Visible | NotStar

  predicate InClass(cls: CharClass, c: char)
  {
    match cls
    case Visible => c != '#' && !IsWhitespace(c)
    case NotStar => c != '*'
  }

  /** The characters of `s` in class `keep`, in order. */
  function Keep(s: string, keep: CharClass): (r: string)
    ensures |r| <= |s|
  {
    if s == [] then []
    else if InClass(keep, s[0]) then [s[0]] + Keep(s[1..], keep)
    else Keep(s[1..], keep)
  }

  lemma KeepCons(c: char, x: string, keep: CharClass)
    ensures Keep([c] + x, keep) == if InClass(keep, c) then [c] + Keep(x, keep) else Keep(x, keep)
  {
    assert ([c] + x)[0] == c;
    assert ([c] + x)[1..] == x;
  }

  lemma {:induction false} KeepConcat(a: string, b: string, keep: CharClass)
    ensures Keep(a + b, keep) == Keep(a, keep) + Keep(b, keep)
  {
    if a == [] {
      assert a + b == b;
    } else {
      assert (a + b)[0] == a[0];
      assert (a + b)[1..] == a[1..] + b;
      KeepConcat(a[1..], b, keep);
      if InClass(keep, a[0]) {
        assert Keep(a + b, keep) == [a[0]] + (Keep(a[1..], keep) + Keep(b, keep));
      }
    }
  }

  lemma {:induction false} KeepNone(s: string, keep: CharClass)
    requires forall i | 0 <= i < |s| :: !InClass(keep, s[i])
    ensures Keep(s, keep) == []
  {
    if s != [] {
      KeepNone(s[1..], keep);
    }
  }

  // ---------------------------------------------------------------------
  // `/###\s+/g` -> ''

  /** A `###` followed by a whitespace character starts at `i`. */
  predicate HeaderMarkAt(s: string, i: nat)
  {
    i + 3 < |s| && s[i..i + 3] == "###" && IsWhitespace(s[i + 3])
  }

  /** Removes every `###` together with the whole run of whitespace after
      it, line terminators included. */
  function StripHeaderMarks(s: string): (r: string)
    ensures |r| <= |s|
    decreases |s|
  {
    if s == [] then []
    else if HeaderMarkAt(s, 0) then StripHeaderMarks(TrimStart(s[3..]))
    else [s[0]] + StripHeaderMarks(s[1..])
  }

  /** A text with no header mark is left as it is. */
  lemma {:induction false} StripHeaderMarksNoMark(s: string)
    requires forall i: nat | i < |s| :: !HeaderMarkAt(s, i)
    ensures StripHeaderMarks(s) == s
    decreases |s|
  {
    if s != [] {
      assert !HeaderMarkAt(s, 0);
      forall i: nat | i < |s[1..]| ensures !HeaderMarkAt(s[1..], i) {
        assert !HeaderMarkAt(s, i + 1);
        if i + 3 < |s[1..]| {
          assert s[1..][i..i + 3] == s[i + 1..i + 4];
        }
      }
      StripHeaderMarksNoMark(s[1..]);
    }
  }

  /** Only `#` and whitespace characters are removed: every other character
      stays, in order. */
  lemma {:induction false} StripHeaderMarksKeepsVisible(s: string)
    ensures Keep(StripHeaderMarks(s), Visible) == Keep(s, Visible)
    decreases |s|
  {
    if s != [] {
      if HeaderMarkAt(s, 0) {
        var u := TrimStart(s[3..]);
        StripHeaderMarksKeepsVisible(u);
        MarkInvisible(s, u);
      } else {
        StripHeaderMarksKeepsVisible(s[1..]);
      }
    }
  }

  /** The `###` and the whitespace run a header mark removes hold no
      visible character. */
  lemma MarkInvisible(s: string, u: string)
    requires HeaderMarkAt(s, 0) && u == TrimStart(s[3..])
    ensures Keep(s, Visible) == Keep(u, Visible)
  {
    HashesInvisible(s);
    TrimStartInvisible(s[3..]);
  }

  lemma HashesInvisible(s: string)
    requires |s| > 3 && s[..3] == "###"
    ensures Keep(s, Visible) == Keep(s[3..], Visible)
  {
    var s1 := s[1..];
    var s2 := s1[1..];
    assert s[0] == s[..3][0] == '#';
    assert s1[0] == s[..3][1] == '#';
    assert s2[0] == s[..3][2] == '#';
    assert Keep(s, Visible) == Keep(s1, Visible);
    assert Keep(s1, Visible) == Keep(s2, Visible);
    assert Keep(s2, Visible) == Keep(s2[1..], Visible);
    assert s2[1..] == s[3..];
  }

  lemma {:induction false} TrimStartInvisible(t: string)
    ensures Keep(TrimStart(t), Visible) == Keep(t, Visible)
    decreases |t|
  {
    if t != [] && IsWhitespace(t[0]) {
      TrimStartInvisible(t[1..]);
      TrimStartStep(t);
    } else {
      TrimStartStop(t);
    }
  }

  // ---------------------------------------------------------------------
  // `/\*\*(.*?)\*\*/g` -> '$1'

  /** A `**` starts at `j`. */
  predicate PairAt(t: string, j: nat)
  {
    j + 1 < |t| && t[j] == '*' && t[j + 1] == '*'
  }

  /** The closing `**` the lazy `(.*?)` reaches first: the least index of a
      `**` in `t` with no line terminator before it. */
  function CloseBold(t: string): (r: Option<nat>)
    ensures r.Some? ==> PairAt(t, r.value)
    ensures r.Some? ==> forall j: nat | j < r.value :: !IsLineTerminator(t[j]) && !PairAt(t, j)
    decreases |t|
  {
    if |t| < 2 then None
    else if PairAt(t, 0) then Some(0)
    else if IsLineTerminator(t[0]) then None
    else
      match CloseBold(t[1..])
      case None => None
      case Some(k) =>
        assert forall j: nat | 1 <= j < k + 1 :: PairAt(t[1..], j - 1) == PairAt(t, j);
        Some(k + 1)
  }

  /** When the search finds nothing, a line terminator comes before every
      `**`: a closing pair reachable on the same line is always found. */
  lemma {:induction false} CloseBoldComplete(t: string)
    ensures CloseBold(t).None? ==>
              forall j: nat | PairAt(t, j) :: exists i: nat | i < j :: IsLineTerminator(t[i])
    decreases |t|
  {
    if |t| >= 2 && !PairAt(t, 0) && CloseBold(t).None? {
      if IsLineTerminator(t[0]) {
        forall j: nat | PairAt(t, j) ensures exists i: nat | i < j :: IsLineTerminator(t[i]) {
          assert 0 < j && IsLineTerminator(t[0]);
        }
      } else {
        assert CloseBold(t[1..]).None?;
        CloseBoldComplete(t[1..]);
        forall j: nat | PairAt(t, j) ensures exists i: nat | i < j :: IsLineTerminator(t[i]) {
          assert 0 < j && PairAt(t[1..], j - 1);
          var i: nat :| i < j - 1 && IsLineTerminator(t[1..][i]);
          assert IsLineTerminator(t[i + 1]);
        }
      }
    }
  }

  /** Replaces every `**x**` within a line by `x`. */
  function Unbold(s: string): (r: string)
    ensures |r| <= |s|
    decreases |s|
  {
    if s == [] then []
    else if PairAt(s, 0) && CloseBold(s[2..]).Some? then
      var k := CloseBold(s[2..]).value;
      s[2..2 + k] + Unbold(s[4 + k..])
    else [s[0]] + Unbold(s[1..])
  }

  lemma {:induction false} CloseBoldOf(x: string, rest: string)
    requires '*' !in x
    requires forall j | 0 <= j < |x| :: !IsLineTerminator(x[j])
    ensures CloseBold(x + "**" + rest) == Some(|x|)
    decreases |x|
  {
    var t := x + "**" + rest;
    if x == [] {
      assert PairAt(t, 0);
    } else {
      assert t[0] == x[0];
      assert t[1..] == x[1..] + "**" + rest;
      CloseBoldOf(x[1..], rest);
    }
  }

  /** A bold span without asterisks or line breaks inside loses its two
      pairs of asterisks. */
  lemma UnboldSpan(x: string, rest: string)
    requires '*' !in x
    requires forall j | 0 <= j < |x| :: !IsLineTerminator(x[j])
    ensures Unbold("**" + x + "**" + rest) == x + Unbold(rest)
  {
    var s := "**" + x + "**" + rest;
    assert s[2..] == x + "**" + rest;
    CloseBoldOf(x, rest);
    assert PairAt(s, 0);
    assert s[2..2 + |x|] == x;
    assert s[4 + |x|..] == rest;
  }

  /** Only asterisks are removed: every other character stays, in order. */
  lemma {:induction false} UnboldKeepsNonStars(s: string)
    ensures Keep(Unbold(s), NotStar) == Keep(s, NotStar)
    decreases |s|
  {
    if s != [] {
      if PairAt(s, 0) && CloseBold(s[2..]).Some? {
        var k := CloseBold(s[2..]).value;
        UnboldKeepsNonStars(s[4 + k..]);
        BoldSpanKeepsNonStars(s, k);
      } else {
        UnboldKeepsNonStars(s[1..]);
        KeepCons(s[0], Unbold(s[1..]), NotStar);
      }
    }
  }

  lemma BoldSpanKeepsNonStars(s: string, k: nat)
    requires PairAt(s, 0) && CloseBold(s[2..]) == Some(k)
    requires Keep(Unbold(s[4 + k..]), NotStar) == Keep(s[4 + k..], NotStar)
    ensures Keep(Unbold(s), NotStar) == Keep(s, NotStar)
  {
    assert Unbold(s) == s[2..2 + k] + Unbold(s[4 + k..]);
    KeepConcat(s[2..2 + k], Unbold(s[4 + k..]), NotStar);
    assert s[2..][k] == s[2 + k] && s[2..][k + 1] == s[3 + k];
    SpanStars(s, k);
  }

  /** The asterisk pairs around a bold span hold no other character. */
  lemma SpanStars(s: string, k: nat)
    requires 4 + k <= |s| && PairAt(s, 0) && PairAt(s, 2 + k)
    ensures Keep(s, NotStar) == Keep(s[2..2 + k], NotStar) + Keep(s[4 + k..], NotStar)
  {
    var t := s[2..];
    PairInvisible(s);
    assert t == t[..k] + t[k..];
    KeepConcat(t[..k], t[k..], NotStar);
    PairInvisible(t[k..]);
    assert t[..k] == s[2..2 + k];
    assert t[k..][2..] == s[4 + k..];
  }

  lemma PairInvisible(s: string)
    requires PairAt(s, 0)
    ensures Keep(s, NotStar) == Keep(s[2..], NotStar)
  {
    assert s[1..][0] == '*';
    assert s[1..][1..] == s[2..];
  }

  // ---------------------------------------------------------------------
  // `/\* /g` -> '• '

  /** Replaces every `* ` by `• `: exactly the asterisks followed by a
      space change, and nothing else. */
  function StarBullets(s: string): (r: string)
    ensures |r| == |s|
    ensures forall k | 0 <= k < |s| :: r[k] == if StarSpaceAt(s, k) then '•' else s[k]
    decreases |s|
  {
    if s == [] then []
    else if StarSpaceAt(s, 0) then
      var rest := StarBullets(s[2..]);
      var r := "• " + rest;
      forall k | 2 <= k < |s| ensures r[k] == if StarSpaceAt(s, k) then '•' else s[k] {
        assert r[k] == rest[k - 2];
        assert StarSpaceAt(s[2..], k - 2) == StarSpaceAt(s, k);
      }
      r
    else
      var rest := StarBullets(s[1..]);
      var r := [s[0]] + rest;
      assert r[0] == s[0];
      forall k | 1 <= k < |s| ensures r[k] == if StarSpaceAt(s, k) then '•' else s[k] {
        assert r[k] == rest[k - 1];
        assert StarSpaceAt(s[1..], k - 1) == StarSpaceAt(s, k);
      }
      r
  }

  /** A `* ` starts at `k`. */
  predicate StarSpaceAt(s: string, k: nat)
  {
    k + 1 < |s| && s[k] == '*' && s[k + 1] == ' '
  }

  /** After the rewrite no `* ` is left, so a second rewrite changes
      nothing. */
  lemma StarBulletsIdempotent(s: string)
    ensures forall k: nat | k < |s| :: !StarSpaceAt(StarBullets(s), k)
    ensures StarBullets(StarBullets(s)) == StarBullets(s)
  {
    var r := StarBullets(s);
    forall k: nat | k < |s| ensures !StarSpaceAt(r, k) {
      if k + 1 < |s| {
        assert r[k + 1] == if StarSpaceAt(s, k + 1) then '•' else s[k + 1];
      }
    }
    var r2 := StarBullets(r);
    assert forall k | 0 <= k < |r| :: r2[k] == r[k];
  }

  // ---------------------------------------------------------------------
  // `/\[Source (\d+)\]/g` -> 'Source $1:'

  const SourceTagOpen: string := "[Source "

  /** The length of the run of digits `t` starts with. */
  function DigitRun(t: string): (n: nat)
    ensures n <= |t| && AllDigits(t[..n])
    ensures n < |t| ==> !IsDigit(t[n])
    decreases |t|
  {
    if t == [] || !IsDigit(t[0]) then 0
    else
      var n := 1 + DigitRun(t[1..]);
      assert t[..n] == [t[0]] + t[1..][..n - 1];
      n
  }

  /** Replaces every `[Source N]`, N a run of digits, by `Source N:`. */
  function SourceTags(s: string): (r: string)
    ensures |r| <= |s|
    decreases |s|
  {
    if s == [] then []
    else if StartsWith(s, SourceTagOpen) then
      var n := DigitRun(s[8..]);
      if 0 < n && 8 + n < |s| && s[8 + n] == ']' then
        "Source " + s[8..8 + n] + ":" + SourceTags(s[9 + n..])
      else [s[0]] + SourceTags(s[1..])
    else [s[0]] + SourceTags(s[1..])
  }

  lemma {:induction false} DigitRunOf(d: string, rest: string)
    requires AllDigits(d)
    requires rest == [] || !IsDigit(rest[0])
    ensures DigitRun(d + rest) == |d|
    decreases |d|
  {
    if d != [] {
      assert (d + rest)[1..] == d[1..] + rest;
      DigitRunOf(d[1..], rest);
    }
  }

  /** The citation tag of source `n` becomes `Source n:`. */
  lemma SourceTagRewritten(n: nat, rest: string)
    ensures SourceTags(SourceTagOpen + NatToString(n) + "]" + rest)
            == "Source " + NatToString(n) + ":" + SourceTags(rest)
  {
    var d := NatToString(n);
    var s := SourceTagOpen + d + "]" + rest;
    assert s[..8] == SourceTagOpen;
    assert s[8..] == d + ("]" + rest);
    DigitRunOf(d, "]" + rest);
    assert s[8..8 + |d|] == d;
    assert s[8 + |d|] == ']';
    assert s[9 + |d|..] == rest;
  }

  /** A text with no `[` has no tag and is left as it is. */
  lemma {:induction false} SourceTagsNoBracket(s: string)
    requires '[' !in s
    ensures SourceTags(s) == s
    decreases |s|
  {
    if s != [] {
      assert s[0] != '[';
      assert !StartsWith(s, SourceTagOpen) by {
        if |SourceTagOpen| <= |s| {
          assert s[..8][0] == s[0];
        }
      }
      assert forall c | c in s[1..] :: c in s;
      SourceTagsNoBracket(s[1..]);
    }
  }

  // ---------------------------------------------------------------------
  // Lines and their classification

  /** The four rewrites, in the order they are applied. */
  function CleanText(text: string): (r: string)
    ensures |r| <= |text|
  {
    SourceTags(StarBullets(Unbold(StripHeaderMarks(text))))
  }

  /** `filter(line => line.trim().length > 0)`: the lines that are not
      blank, in order. */
  function NonBlankLines(lines: seq<string>): (r: seq<string>)
    ensures |r| <= |lines|
  {
    if lines == [] then []
    else if |Trim(lines[0])| > 0 then [lines[0]] + NonBlankLines(lines[1..])
    else NonBlankLines(lines[1..])
  }

  /** The kept lines are exactly the lines of the input that are not
      blank. */
  lemma {:induction false} NonBlankLinesMembers(lines: seq<string>)
    ensures forall x :: x in NonBlankLines(lines) <==> x in lines && !IsBlank(x)
  {
    if lines != [] {
      NonBlankLinesMembers(lines[1..]);
      TrimProperties(lines[0]);
      assert forall x :: x in lines <==> x == lines[0] || x in lines[1..];
    }
  }

  /** Dropping blank lines commutes with concatenation, so the order of the
      kept lines is that of the text. */
  lemma {:induction false} NonBlankLinesConcat(a: seq<string>, b: seq<string>)
    ensures NonBlankLines(a + b) == NonBlankLines(a) + NonBlankLines(b)
  {
    if a == [] {
      assert a + b == b;
    } else {
      assert (a + b)[0] == a[0];
      assert (a + b)[1..] == a[1..] + b;
      NonBlankLinesConcat(a[1..], b);
      if |Trim(a[0])| > 0 {
        assert NonBlankLines(a + b) == [a[0]] + (NonBlankLines(a[1..]) + NonBlankLines(b));
      }
    }
  }

  /** The lines the panel renders: none blank, none with a line feed. */
  function FormatLines(text: string): (lines: seq<string>)
    ensures forall i | 0 <= i < |lines| :: !IsBlank(lines[i]) && '\n' !in lines[i]
  {
    var pieces := SplitOn(CleanText(text), '\n');
    var lines := NonBlankLines(pieces);
    NonBlankLinesMembers(pieces);
    assert forall i | 0 <= i < |lines| :: lines[i] in NonBlankLines(pieces);
    lines
  }

  datatype Block = Bullet(text: string) | Header(text: string) | Paragraph(text: string)

  /** Removes a leading `•` and the whitespace after it. The pattern is
      anchored at the start of the untrimmed line, so an indented bullet
      keeps its marker. */
  function BulletText(line: string): (t: string)
    ensures |line| > 0 && line[0] == '•' ==>
              && |t| < |line|
              && t == line[|line| - |t|..]
              && (forall i | 1 <= i < |line| - |t| :: IsWhitespace(line[i]))
              && (t == [] || !IsWhitespace(t[0]))
    ensures !(|line| > 0 && line[0] == '•') ==> t == line
  {
    if |line| > 0 && line[0] == '•' then
      var body := line[1..];
      var t := TrimStart(body);
      TrimStartSpec(body);
      assert body[|body| - |t|..] == line[|line| - |t|..];
      assert forall i | 1 <= i < |line| - |t| :: line[i] == body[i - 1];
      t
    else line
  }

  /** `/^[A-Z\s]+$/`: non-empty, only capital letters and whitespace. */
  predicate IsCapsLine(line: string)
  {
    |line| > 0 && forall i | 0 <= i < |line| :: 'A' <= line[i] <= 'Z' || IsWhitespace(line[i])
  }

  predicate IsSectionHeader(line: string)
  {
    |line| < 60 && (EndsWith(line, ":") || IsCapsLine(line))
  }

  /** `line.replace(':', '')`: only the first colon goes. */
  function RemoveFirstColon(line: string): (r: string)
    ensures ':' !in line ==> r == line
    ensures ':' in line ==>
              var i := IndexOf(line, ':');
              && |r| == |line| - 1
              && r == line[..i] + line[i + 1..]
              && ':' !in r[..i]
  {
    var i := IndexOf(line, ':');
    if i == |line| then
      assert line[..i] == line;
      line
    else line[..i] + line[i + 1..]
  }

  /** A header whose only colon ends it is shown without that colon. */
  lemma HeaderColonDropped(line: string)
    requires EndsWith(line, ":") && ':' !in line[..|line| - 1]
    ensures RemoveFirstColon(line) == line[..|line| - 1]
  {
    assert line[|line| - 1] == ':';
  }

  /** A line is a bullet when its trimmed form starts with `•`; otherwise a
      header when it is a section header; otherwise a paragraph. */
  function Classify(line: string): (b: Block)
    ensures b.Bullet? <==> StartsWith(Trim(line), "•")
    ensures b.Header? <==> !StartsWith(Trim(line), "•") && IsSectionHeader(line)
    ensures b.Bullet? ==> b.text == BulletText(line)
    ensures b.Header? ==> b.text == RemoveFirstColon(line)
    ensures b.Paragraph? ==> b.text == line
  {
    if StartsWith(Trim(line), "•") then Bullet(BulletText(line))
    else if IsSectionHeader(line) then Header(RemoveFirstColon(line))
    else Paragraph(line)
  }

  /** `formatResponse(text)`: one block per rendered line, in order. */
  function FormatResponse(text: string): (blocks: seq<Block>)
    ensures |blocks| == |FormatLines(text)|
    ensures forall i | 0 <= i < |blocks| :: blocks[i] == Classify(FormatLines(text)[i])
  {
    var lines := FormatLines(text);
    seq(|lines|, i requires 0 <= i < |lines| => Classify(lines[i]))
  }

  /** An indented bullet is a bullet whose text still holds the marker. */
  lemma IndentedBulletKeepsMarker(indent: string, rest: string)
    requires indent != [] && IsBlank(indent)
    ensures Classify(indent + "•" + rest) == Bullet(indent + "•" + rest)
  {
    var t := "•" + rest;
    var line := indent + t;
    assert indent + "•" + rest == line;
    assert t[0] == '•';
    TrimStartAfterBlank(indent, t);
    BulletTrimmed(t);
    assert Trim(line) == TrimEnd(t);
    assert line[0] == indent[0];
    assert !IsWhitespace('•');
    assert BulletText(line) == line;
  }

  lemma BulletTrimmed(t: string)
    requires t != [] && t[0] == '•'
    ensures StartsWith(TrimEnd(t), "•")
  {
    var r := TrimEnd(t);
    TrimEndSpec(t);
    assert !IsBlank(t) by { assert !IsWhitespace(t[0]); }
    assert r[0] == '•';
    assert r[..1] == "•";
  }

  /** The rendered lines are exactly the lines of the cleaned text that
      are not blank. */
  lemma FormatLinesMembers(text: string)
    ensures forall x :: x in FormatLines(text) <==> x in SplitOn(CleanText(text), '\n') && !IsBlank(x)
  {
    NonBlankLinesMembers(SplitOn(CleanText(text), '\n'));
  }
}
