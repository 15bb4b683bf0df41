/** Reading scores and findings out of the vision model's free-text reply
    (lib/ai-analysis.ts). The regular expressions of the source are written
    here as scanners over the reply:

    - `<label>[:\s]+(\d+)` with the `i` flag, for each numeric field, where a
      label of several words allows `\s+` between them (`visual\s+appeal`);
    - the bulleted-list pattern of `extractListItems`, applied line by line;
    - the leading-marker strip `^[-*•\d.)\s]+` of its fallback.

    Every quantifier in these patterns is greedy and the character after each
    one cannot be consumed by it (a letter after `\s+`, a digit after
    `[:\s]+`, a non-digit after `\d+`), so backtracking never yields another
    capture: each scanner takes the longest run, as the engine's first
    successful attempt does. */
module ScoreParsing {
  import opened Wrappers
  import opened Text

  /** The value a numeric field takes when its label never matches. */
  const DefaultScore: nat := 50

  /** Keywords and label words are non-empty runs of lower-case ASCII letters. */
  predicate IsWord(w: string) {
    |w| >= 1 && forall k :: 0 <= k < |w| ==> 'a' <= w[k] <= 'z'
  }

  /** A keyword of `extractListItems`. */
  type Keyword = w: string | IsWord(w) witness "a"

  /** `w` (lower case) occurs at `p` of `s` when case is ignored. */
  predicate CiOccursAt(s: string, p: nat, w: string) {
    OccursAt(Lower(s), p, w)
  }

  /** The separator class `[:\s]`. */
  predicate IsSep(c: char) {
    c == ':' || IsJsSpace(c)
  }

  /** Where the label pattern ends when it starts at `p`, if it matches there. */
  function LabelEnd(s: string, p: nat, words: seq<string>): (e: Option<nat>)
    requires p <= |s|
    ensures e.Some? ==> p <= e.value <= |s|
    ensures e.Some? && |words| >= 1 ==> CiOccursAt(s, p, words[0])
    decreases |words|
  {
    if words == [] then Some(p)
    else if !CiOccursAt(s, p, words[0]) then None
    else
      var q := p + |words[0]|;
      if |words| == 1 then Some(q)
      else
        var r := RunEnd(s, q, IsJsSpace);
        if r == q then None else LabelEnd(s, r, words[1..])
  }

  /** The number `<label>[:\s]+(\d+)` captures when the match starts at `p`. */
  function MatchAt(s: string, p: nat, words: seq<string>): Option<nat>
    requires p <= |s|
  {
    match LabelEnd(s, p, words)
    case None => None
    case Some(j) =>
      var k := RunEnd(s, j, IsSep);
      if k == j || k == |s| || !IsDigit(s[k]) then None
      else
        var e := RunEnd(s, k, IsDigit);
        assert AllDigits(s[k..e]);
        Some(DigitsValue(s[k..e]))
  }

  /** Where the leftmost match at or after `p` starts. */
  function FirstMatchFrom(s: string, p: nat, words: seq<string>): (r: Option<nat>)
    requires p <= |s|
    ensures r.None? ==> forall q :: p <= q <= |s| ==> MatchAt(s, q, words).None?
    ensures r.Some? ==> p <= r.value <= |s| && MatchAt(s, r.value, words).Some?
    ensures r.Some? ==> forall q :: p <= q < r.value ==> MatchAt(s, q, words).None?
    decreases |s| - p
  {
    if MatchAt(s, p, words).Some? then Some(p)
    else if p == |s| then None
    else FirstMatchFrom(s, p + 1, words)
  }

  /** The match starting at `q` is the leftmost one. */
  predicate IsFirstMatch(s: string, q: nat, words: seq<string>)
    requires q <= |s|
  {
    MatchAt(s, q, words).Some? && forall q' :: 0 <= q' < q ==> MatchAt(s, q', words).None?
  }

  /** `text.match(/<label>[:\s]+(\d+)/i)` followed by `parseInt` of the
      capture, or 50 when there is no match. */
  function LabelledScore(text: string, words: seq<string>): nat {
    match FirstMatchFrom(text, 0, words)
    case None => DefaultScore
    case Some(p) => MatchAt(text, p, words).value
  }

  /** A labelled score is the number captured by the leftmost match of its
      pattern, or 50 when the pattern matches nowhere. The value is not
      clamped to 0..100. */
  lemma LabelledScoreIsFirstCapture(text: string, words: seq<string>)
    ensures (forall q :: 0 <= q <= |text| ==> MatchAt(text, q, words).None?) ==> LabelledScore(text, words) == DefaultScore
    ensures forall q | 0 <= q <= |text| && IsFirstMatch(text, q, words) ::
      LabelledScore(text, words) == MatchAt(text, q, words).value
  {
    match FirstMatchFrom(text, 0, words)
    case None =>
    case Some(p) =>
      assert forall q | 0 <= q <= |text| && IsFirstMatch(text, q, words) :: q == p;
  }

  /** `Math.round((a + b + c) / 3)`: the integer nearest the mean, halves
      rounded up. `Math.round(x)` is the integer `r` with `r <= x + 0.5 < r + 1`;
      with `x = (a + b + c) / 3`, multiplying through by 6 gives the bounds below. */
  function RoundedMean(a: nat, b: nat, c: nat): (r: nat)
    ensures 6 * r <= 2 * (a + b + c) + 3 < 6 * r + 6
  {
    (a + b + c + 1) / 3
  }

  /** The same bounds stated over the reals, as `Math.round` defines them. */
  lemma RoundedMeanIsMathRound(a: nat, b: nat, c: nat)
    ensures var r := RoundedMean(a, b, c);
      r as real <= (a + b + c) as real / 3.0 + 0.5 < r as real + 1.0
  {
  }

  /** A rounded mean lies between the smallest and the largest of the three,
      so three scores in 0..100 give an overall score in 0..100. */
  lemma RoundedMeanBetween(a: nat, b: nat, c: nat)
    ensures var r := RoundedMean(a, b, c);
      (r >= a || r >= b || r >= c) && (r <= a || r <= b || r <= c)
    ensures a == b == c ==> RoundedMean(a, b, c) == a
  {
  }

  // ---------------------------------------------------------------- list items

  /** The numbered or bulleted marker `\s*(?:\d+\.|[-*•])` at the start of a
      line; the position right after it. */
  function BulletEnd(line: string): (b: Option<nat>)
    ensures b.Some? ==> 1 <= b.value <= |line|
  {
    var i := RunEnd(line, 0, IsJsSpace);
    if i == |line| then None
    else if line[i] == '-' || line[i] == '*' || line[i] == '•' then Some(i + 1)
    else if IsDigit(line[i]) then
      var d := RunEnd(line, i, IsDigit);
      if d < |line| && line[d] == '.' then Some(d + 1) else None
    else None
  }

  /** `.+<keyword>.+?` within one line: the keyword occurs with at least one
      character before and one after it. */
  predicate KeywordInside(r: string, kw: string) {
    exists q | 1 <= q <= |r| :: q + |kw| < |r| && CiOccursAt(r, q, kw)
  }

  /** The item the bulleted pattern captures from one line, trimmed. */
  function BulletItem(line: string, kw: string): Option<string> {
    match BulletEnd(line)
    case None => None
    case Some(b) => if KeywordInside(line[b..], kw) then Some(Trim(line[b..])) else None
  }

  /** The bulleted pattern's captures over all lines, in document order. */
  function BulletedItems(lines: seq<string>, kw: string): seq<string> {
    if lines == [] then []
    else
      match BulletItem(lines[0], kw)
      case Some(item) => [item] + BulletedItems(lines[1..], kw)
      case None => BulletedItems(lines[1..], kw)
  }

  /** The class `[-*•\d.)\s]` the fallback strips from the start of a line. */
  predicate IsLeadChar(c: char) {
    c == '-' || c == '*' || c == '•' || c == '.' || c == ')' || IsDigit(c) || IsJsSpace(c)
  }

  /** `line.replace(/^[-*•\d.)\s]+/, '').trim()`. */
  function CleanLine(line: string): string {
    Trim(line[RunEnd(line, 0, IsLeadChar)..])
  }

  /** The fallback line scan: every line mentioning the keyword, cleaned, and
      kept when something is left. */
  function FallbackItems(lines: seq<string>, kw: string): seq<string> {
    if lines == [] then []
    else if ContainsCi(lines[0], kw) && CleanLine(lines[0]) != "" then
      [CleanLine(lines[0])] + FallbackItems(lines[1..], kw)
    else FallbackItems(lines[1..], kw)
  }

  /** An item that can be shown as a finding: non-empty, trimmed, and
      mentioning the keyword. */
  predicate GoodItem(item: string, kw: string) {
    item != "" && IsTrimmed(item) && ContainsCi(item, kw)
  }

  /** `extractListItems(text, keyword)`: at most five items, in document
      order; the bulleted captures when there is at least one, otherwise the
      fallback line scan. Every item is non-empty, trimmed and contains the
      keyword. The keyword is spliced into the pattern unescaped, so only
      letter keywords (the four the analysers pass) are modelled. */
  function ExtractListItems(text: string, kw: string): (items: seq<string>)
    requires IsWord(kw)
    ensures |items| <= 5
    ensures var b := BulletedItems(Split(text, '\n'), kw);
      b != [] ==> |items| == (if |b| < 5 then |b| else 5) && items == b[..|items|]
    ensures var b := BulletedItems(Split(text, '\n'), kw);
      var f := FallbackItems(Split(text, '\n'), kw);
      b == [] ==> |items| == (if |f| < 5 then |f| else 5) && items == f[..|items|]
    ensures forall k :: 0 <= k < |items| ==> GoodItem(items[k], kw)
  {
    var lines := Split(text, '\n');
    var b := BulletedItems(lines, kw);
    if b != [] then
      BulletedItemsGood(lines, kw);
      Take(b, 5)
    else
      FallbackItemsGood(lines, kw);
      Take(FallbackItems(lines, kw), 5)
  }

  // ---------------------------------------------------------------- item lemmas

  lemma LowerSlice(s: string, i: nat, j: nat)
    requires i <= j <= |s|
    ensures Lower(s[i..j]) == Lower(s)[i..j]
  {
  }

  /** An occurrence of a word survives cutting the text around it. */
  lemma OccurrenceSurvivesSlice(s: string, i: nat, j: nat, p: nat, w: string)
    requires i <= p && p + |w| <= j <= |s|
    requires CiOccursAt(s, p, w)
    ensures CiOccursAt(s[i..j], p - i, w)
  {
    LowerSlice(s, i, j);
    assert Lower(s[i..j])[p - i..p - i + |w|] == Lower(s)[p..p + |w|];
  }

  /** The characters of an occurrence of a word are letters, which neither
      `trim` nor the marker strip removes. */
  lemma OccurrenceLetters(s: string, p: nat, w: string, k: nat)
    requires IsWord(w) && CiOccursAt(s, p, w) && k < |w|
    ensures !IsJsSpace(s[p + k]) && !IsLeadChar(s[p + k])
  {
    assert Lower(s)[p + k] == w[k];
  }

  /** Trimming keeps an occurrence of a word. */
  lemma TrimKeepsWord(s: string, p: nat, w: string)
    requires IsWord(w) && CiOccursAt(s, p, w)
    ensures ContainsCi(Trim(s), w)
  {
    var i := TrimStart(s);
    var j := TrimEnd(s, i);
    OccurrenceLetters(s, p, w, 0);
    OccurrenceLetters(s, p, w, |w| - 1);
    assert i <= p;
    assert p + |w| <= j;
    OccurrenceSurvivesSlice(s, i, j, p, w);
    assert Trim(s) == s[i..j];
    assert OccursAt(Lower(Trim(s)), p - i, w);
    assert Lower(w) == w;
  }

  lemma BulletItemGood(line: string, kw: string)
    requires IsWord(kw)
    requires BulletItem(line, kw).Some?
    ensures GoodItem(BulletItem(line, kw).value, kw)
  {
    var b := BulletEnd(line).value;
    var r := line[b..];
    var q :| 1 <= q <= |r| && q + |kw| < |r| && CiOccursAt(r, q, kw);
    TrimKeepsWord(r, q, kw);
  }

  lemma {:induction false} BulletedItemsGood(lines: seq<string>, kw: string)
    requires IsWord(kw)
    ensures forall k :: 0 <= k < |BulletedItems(lines, kw)| ==> GoodItem(BulletedItems(lines, kw)[k], kw)
    decreases |lines|
  {
    if lines != [] {
      BulletedItemsGood(lines[1..], kw);
      if BulletItem(lines[0], kw).Some? {
        BulletItemGood(lines[0], kw);
      }
    }
  }

  /** A cleaned line still contains the keyword its line contained. */
  lemma CleanLineKeepsKeyword(line: string, kw: string)
    requires IsWord(kw) && ContainsCi(line, kw)
    ensures ContainsCi(CleanLine(line), kw)
  {
    assert Lower(kw) == kw;
    var p :| 0 <= p <= |Lower(line)| && OccursAt(Lower(line), p, kw);
    var e := RunEnd(line, 0, IsLeadChar);
    OccurrenceLetters(line, p, kw, 0);
    assert e <= p;
    OccurrenceSurvivesSlice(line, e, |line|, p, kw);
    assert line[e..|line|] == line[e..];
    TrimKeepsWord(line[e..], p - e, kw);
  }

  lemma {:induction false} FallbackItemsGood(lines: seq<string>, kw: string)
    requires IsWord(kw)
    ensures forall k :: 0 <= k < |FallbackItems(lines, kw)| ==> GoodItem(FallbackItems(lines, kw)[k], kw)
    decreases |lines|
  {
    if lines != [] {
      FallbackItemsGood(lines[1..], kw);
      if ContainsCi(lines[0], kw) && CleanLine(lines[0]) != "" {
        CleanLineKeepsKeyword(lines[0], kw);
      }
    }
  }
}
