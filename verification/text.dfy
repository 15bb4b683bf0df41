/** String primitives with JavaScript semantics: the `\s` character class and
    `String.prototype.trim`, `split` on one character, `indexOf`, ASCII case
    folding as the `/i` regular-expression flag performs it, `parseInt` without
    a radix, and the decimal rendering of integers in template literals. */
module Text {
  import opened Wrappers

  /** ECMAScript WhiteSpace and LineTerminator code points: the class `\s`
      matches and the set `trim()` removes. */
  predicate IsJsSpace(c: char) {
    || c == '\t' || c == '\n' || c == '\U{000B}' || c == '\U{000C}' || c == '\r'
    || c == ' ' || c == '\U{00A0}' || c == '\U{1680}'
    || ('\U{2000}' <= c <= '\U{200A}')
    || c == '\U{2028}' || c == '\U{2029}' || c == '\U{202F}' || c == '\U{205F}'
    || c == '\U{3000}' || c == '\U{FEFF}'
  }

  /** TypeScript truthiness of an optional string: present and not empty. */
  predicate Truthy(o: Option<string>) {
    o.Some? && o.value != ""
  }

  /** `o || fallback` for an optional string. */
  function OrElse(o: Option<string>, fallback: string): (r: string)
    ensures Truthy(o) ==> r == o.value
    ensures !Truthy(o) ==> r == fallback
  {
    if Truthy(o) then o.value else fallback
  }

  /** `n || fallback` for an optional number: absent, NaN and zero are falsy. */
  function NumOrElse(n: Option<int>, fallback: int): (r: int)
    ensures n.Some? && n.value != 0 ==> r == n.value
    ensures n.None? || n.value == 0 ==> r == fallback
  {
    if n.Some? && n.value != 0 then n.value else fallback
  }

  /** The class `\d`: ASCII digits only. */
  predicate IsDigit(c: char) {
    '0' <= c <= '9'
  }

  predicate IsHexDigit(c: char) {
    IsDigit(c) || ('a' <= c <= 'f') || ('A' <= c <= 'F')
  }

  predicate AllDigits(s: string) {
    forall k :: 0 <= k < |s| ==> IsDigit(s[k])
  }

  /** Case folding of the non-unicode `/i` flag: only ASCII letters fold. */
  function ToLowerAscii(c: char): (d: char)
    ensures 'A' <= c <= 'Z' ==> 'a' <= d <= 'z'
    ensures !('A' <= c <= 'Z') ==> d == c
  {
    if 'A' <= c <= 'Z' then (c as int + 32) as char else c
  }

  function Lower(s: string): (r: string)
    ensures |r| == |s|
    ensures forall k :: 0 <= k < |s| ==> r[k] == ToLowerAscii(s[k])
  {
    seq(|s|, k requires 0 <= k < |s| => ToLowerAscii(s[k]))
  }

  /** End of the longest run of characters satisfying `f` that starts at `p`. */
  function RunEnd(s: string, p: nat, f: char -> bool): (e: nat)
    requires p <= |s|
    ensures p <= e <= |s|
    ensures forall k :: p <= k < e ==> f(s[k])
    ensures e == |s| || !f(s[e])
    decreases |s| - p
  {
    if p == |s| || !f(s[p]) then p else RunEnd(s, p + 1, f)
  }

  // ---------------------------------------------------------------- trim

  predicate IsTrimmed(s: string) {
    s == [] || (!IsJsSpace(s[0]) && !IsJsSpace(s[|s| - 1]))
  }

  /** Start of the text that `trim()` keeps. */
  function TrimStart(s: string): (i: nat)
    ensures i <= |s|
    ensures forall k :: 0 <= k < i ==> IsJsSpace(s[k])
    ensures i == |s| || !IsJsSpace(s[i])
  {
    RunEnd(s, 0, IsJsSpace)
  }

  /** End of the text that `trim()` keeps, when the kept text starts at `i`. */
  function TrimEnd(s: string, i: nat): (j: nat)
    requires i <= |s|
    requires i == |s| || !IsJsSpace(s[i])
    ensures i <= j <= |s|
    ensures forall k :: j <= k < |s| ==> IsJsSpace(s[k])
    ensures j == i || !IsJsSpace(s[j - 1])
    decreases |s|
  {
    if |s| == i || !IsJsSpace(s[|s| - 1]) then |s|
    else TrimEnd(s[..|s| - 1], i)
  }

  /** `String.prototype.trim`: drops leading and trailing `\s` characters. */
  function Trim(s: string): (r: string)
    ensures IsTrimmed(r)
    ensures |r| <= |s|
    ensures IsTrimmed(s) ==> r == s
  {
    var i := TrimStart(s);
    var j := TrimEnd(s, i);
    assert IsTrimmed(s) && s != [] ==> i == 0 && j == |s|;
    s[i..j]
  }

  // ---------------------------------------------------------------- search

  predicate OccursAt(s: string, p: nat, w: string) {
    p + |w| <= |s| && s[p..p + |w|] == w
  }

  predicate Contains(s: string, w: string) {
    exists p | 0 <= p <= |s| :: OccursAt(s, p, w)
  }

  /** `s.toLowerCase().includes(w.toLowerCase())` under ASCII folding. */
  predicate ContainsCi(s: string, w: string) {
    Contains(Lower(s), Lower(w))
  }

  /** First occurrence of `w` in `s` at or after `p` (`indexOf`). */
  function IndexOfFrom(s: string, w: string, p: nat): (r: Option<nat>)
    requires p <= |s|
    ensures r.Some? ==> p <= r.value && OccursAt(s, r.value, w)
    ensures r.Some? ==> forall q :: p <= q < r.value ==> !OccursAt(s, q, w)
    ensures r.None? ==> forall q :: p <= q <= |s| ==> !OccursAt(s, q, w)
    decreases |s| - p
  {
    if OccursAt(s, p, w) then Some(p)
    else if p == |s| then None
    else IndexOfFrom(s, w, p + 1)
  }

  function IndexOf(s: string, w: string): (r: Option<nat>)
    ensures r.Some? <==> Contains(s, w)
    ensures r.Some? ==> OccursAt(s, r.value, w) && forall q :: 0 <= q < r.value ==> !OccursAt(s, q, w)
  {
    IndexOfFrom(s, w, 0)
  }

  /** `s.replace(w, '')` with a string pattern: only the first occurrence goes. */
  function RemoveFirst(s: string, w: string): (r: string)
    ensures !Contains(s, w) ==> r == s
    ensures Contains(s, w) ==> |r| == |s| - |w|
    ensures OccursAt(s, 0, w) ==> r == s[|w|..]
  {
    match IndexOf(s, w)
    case None => s
    case Some(i) => s[..i] + s[i + |w|..]
  }

  /** `s.slice(0, n)` or `s.substring(0, n)` for a non-negative `n`: the
      first `n` elements, or all of them when there are fewer. */
  function Take<T>(s: seq<T>, n: nat): (r: seq<T>)
    ensures |r| == if |s| < n then |s| else n
    ensures r == s[..|r|]
  {
    if |s| <= n then s else s[..n]
  }

  // ---------------------------------------------------------------- split

  /** `parts.join(sep)`. */
  function Join(parts: seq<string>, sep: char): string
    requires |parts| >= 1
  {
    if |parts| == 1 then parts[0] else parts[0] + [sep] + Join(parts[1..], sep)
  }

  /** `s.split(sep)` for a one-character separator: one piece more than there
      are separators, none of them containing the separator, and joining the
      pieces gives back `s`. */
  function Split(s: string, sep: char): (parts: seq<string>)
    ensures |parts| >= 1
    ensures forall k :: 0 <= k < |parts| ==> sep !in parts[k]
    ensures Join(parts, sep) == s
    decreases |s|
  {
    var i := RunEnd(s, 0, c => c != sep);
    if i == |s| then
      assert s[..i] == s;
      [s]
    else
      var rest := Split(s[i + 1..], sep);
      assert sep !in s[..i];
      assert s == s[..i] + [sep] + s[i + 1..];
      [s[..i]] + rest
  }

  /** Splitting at the first separator: the text before it is the first
      piece. */
  lemma SplitCons(a: string, rest: string, sep: char)
    requires sep !in a
    ensures Split(a + [sep] + rest, sep) == [a] + Split(rest, sep)
  {
    var s := a + [sep] + rest;
    var i := RunEnd(s, 0, c => c != sep);
    assert forall k :: 0 <= k < |a| ==> s[k] == a[k] && s[k] != sep;
    assert s[|a|] == sep;
    assert i == |a|;
    assert s[..i] == a;
    assert s[i + 1..] == rest;
  }

  /** A text without the separator is one piece. */
  lemma SplitWithoutSep(s: string, sep: char)
    requires sep !in s
    ensures Split(s, sep) == [s]
  {
    SplitJoin([s], sep);
  }

  /** Splitting undoes joining when no piece contains the separator. */
  lemma {:induction false} SplitJoin(parts: seq<string>, sep: char)
    requires |parts| >= 1
    requires forall k :: 0 <= k < |parts| ==> sep !in parts[k]
    ensures Split(Join(parts, sep), sep) == parts
    decreases |parts|
  {
    if |parts| == 1 {
      var s := parts[0];
      var i := RunEnd(s, 0, c => c != sep);
      assert i == |s|;
      assert s[..i] == s;
    } else {
      SplitCons(parts[0], Join(parts[1..], sep), sep);
      SplitJoin(parts[1..], sep);
      assert parts == [parts[0]] + parts[1..];
    }
  }

  // ---------------------------------------------------------------- numbers

  function DigitValue(c: char): (d: nat)
    requires IsDigit(c)
    ensures d < 10
  {
    c as int - '0' as int
  }

  function DigitChar(d: nat): (c: char)
    requires d < 10
    ensures IsDigit(c) && DigitValue(c) == d
  {
    ('0' as int + d) as char
  }

  /** The value of a run of decimal digits, most significant first. */
  function DigitsValue(ds: string): nat
    requires AllDigits(ds)
  {
    if ds == [] then 0 else 10 * DigitsValue(ds[..|ds| - 1]) + DigitValue(ds[|ds| - 1])
  }

  function HexValue(c: char): (d: nat)
    requires IsHexDigit(c)
    ensures d < 16
  {
    if IsDigit(c) then DigitValue(c)
    else if 'a' <= c <= 'f' then c as int - 'a' as int + 10
    else c as int - 'A' as int + 10
  }

  function HexDigitsValue(ds: string): nat
    requires forall k :: 0 <= k < |ds| ==> IsHexDigit(ds[k])
  {
    if ds == [] then 0 else 16 * HexDigitsValue(ds[..|ds| - 1]) + HexValue(ds[|ds| - 1])
  }

  /** Decimal rendering of a natural number, as a template literal prints it:
      only digits, and no leading zero. */
  function NatToString(n: nat): (s: string)
    ensures |s| >= 1
    ensures AllDigits(s)
    ensures |s| > 1 ==> s[0] != '0'
    decreases n
  {
    if n < 10 then [DigitChar(n)] else NatToString(n / 10) + [DigitChar(n % 10)]
  }

  function IntToString(n: int): (s: string)
    ensures n < 0 <==> (|s| > 0 && s[0] == '-')
  {
    if n < 0 then "-" + NatToString(-n) else NatToString(n)
  }

  lemma {:induction false} NatToStringValue(n: nat)
    ensures DigitsValue(NatToString(n)) == n
    decreases n
  {
    if n >= 10 {
      var s := NatToString(n);
      NatToStringValue(n / 10);
      assert s[..|s| - 1] == NatToString(n / 10);
    }
  }

  /** The digits `parseInt` reads from position `j`: hexadecimal after a
      `0x`/`0X` prefix, decimal otherwise; `None` when there is no digit. */
  function ParseDigits(s: string, j: nat): Option<nat>
    requires j <= |s|
  {
    var hex := j + 1 < |s| && s[j] == '0' && (s[j + 1] == 'x' || s[j + 1] == 'X');
    var k := if hex then j + 2 else j;
    var e := RunEnd(s, k, if hex then IsHexDigit else IsDigit);
    if e == k then None
    else Some(if hex then HexDigitsValue(s[k..e]) else DigitsValue(s[k..e]))
  }

  /** JavaScript `parseInt(s)` without a radix: leading `\s` skipped, one
      optional sign, a `0x`/`0X` prefix switching to hexadecimal, then the
      longest run of digits; `None` stands for NaN (no digit at all). */
  function ParseInt(s: string): (r: Option<int>)
    ensures r.None? ==> !AllDigits(s) || s == []
  {
    var i := RunEnd(s, 0, IsJsSpace);
    var neg := i < |s| && s[i] == '-';
    var j := if i < |s| && (s[i] == '-' || s[i] == '+') then i + 1 else i;
    match ParseDigits(s, j)
    case None => None
    case Some(v) =>
      var x: int := if neg then -(v as int) else v;
      Some(x)
  }

  /** The printed digits of `m`, read from where they start, give `m`: they
      have no `0x` prefix and run to the end. */
  lemma ParseDigitsOfNatToString(s: string, j: nat, m: nat)
    requires j <= |s| && s[j..] == NatToString(m)
    ensures ParseDigits(s, j) == Some(m)
  {
    var d := NatToString(m);
    NatToStringValue(m);
    assert forall k :: j <= k < |s| ==> s[k] == d[k - j];
    var e := RunEnd(s, j, IsDigit);
    assert e == |s|;
    assert s[j..e] == d;
  }

  /** `parseInt` reads back every integer a template literal prints. */
  lemma ParseIntOfIntToString(n: int)
    ensures ParseInt(IntToString(n)) == Some(n)
  {
    var m: nat := if n < 0 then -n else n;
    var s := IntToString(n);
    var j := if n < 0 then 1 else 0;
    assert s[j..] == NatToString(m);
    assert !IsJsSpace(s[0]);
    assert RunEnd(s, 0, IsJsSpace) == 0;
    ParseDigitsOfNatToString(s, j, m);
  }
}
