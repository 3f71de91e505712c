/** The Kotlin string functions the core calls, with their standard-library semantics:
    `isBlank`, `contains`, `indexOf`, `lastIndexOf`, `substringBefore`, `substringAfter`,
    `substringBeforeLast`, `split`, `replace`, `removePrefix`, `removeSuffix`,
    `removeSurrounding` and `trim`. Text is a sequence of `char`, each a Unicode scalar
    value; lengths and indices count those, not UTF-16 code units. */
module Text {
  import opened Wrappers

  /** Kotlin's `Char.isWhitespace()` on the JVM: `Character.isWhitespace` or
      `Character.isSpaceChar` (the ASCII controls TAB to CR and FS to US, and every
      Unicode space, line and paragraph separator). */
  predicate IsWhitespace(c: char) {
    || c == ' '
    || '\t' <= c <= '\r'
    || '\U{1C}' <= c <= '\U{1F}'
    || c == '\U{A0}'
    || c == '\U{1680}'
    || '\U{2000}' <= c <= '\U{200A}'
    || c == '\U{2028}' || c == '\U{2029}'
    || c == '\U{202F}' || c == '\U{205F}' || c == '\U{3000}'
  }

  /** Kotlin's `isBlank()`: empty or made of whitespace only. */
  predicate IsBlank(s: string) {
    forall i :: 0 <= i < |s| ==> IsWhitespace(s[i])
  }

  /** `d` occurs in `s` starting at index `i`. */
  predicate OccursAt(s: string, d: string, i: int) {
    0 <= i && i + |d| <= |s| && s[i..i + |d|] == d
  }

  /** `i` is the leftmost occurrence of `d` in `s`. */
  ghost predicate IsFirstOccurrence(s: string, d: string, i: int) {
    OccursAt(s, d, i) && forall j :: 0 <= j < i ==> !OccursAt(s, d, j)
  }

  /** `i` is the rightmost occurrence of `d` in `s`. */
  ghost predicate IsLastOccurrence(s: string, d: string, i: int) {
    OccursAt(s, d, i) && forall j :: i < j ==> !OccursAt(s, d, j)
  }

  lemma OccursShift(s: string, d: string, i: int)
    requires |s| > 0 && i >= 1
    ensures OccursAt(s, d, i) <==> OccursAt(s[1..], d, i - 1)
  {
    if i + |d| <= |s| {
      assert s[1..][i - 1..i - 1 + |d|] == s[i..i + |d|];
    }
  }

  lemma OccursInPrefix(s: string, d: string, n: int, i: int)
    requires 0 <= n <= |s|
    ensures OccursAt(s[..n], d, i) <==> OccursAt(s, d, i) && i + |d| <= n
  {
    if 0 <= i && i + |d| <= n {
      assert s[..n][i..i + |d|] == s[i..i + |d|];
    }
  }

  /** Kotlin's `indexOf(d)`: the leftmost occurrence, or none. */
  function IndexOf(s: string, d: string): (r: Option<nat>)
    ensures r.Some? ==> IsFirstOccurrence(s, d, r.value)
    ensures r.None? ==> forall i :: !OccursAt(s, d, i)
    decreases |s|
  {
    if |s| < |d| then None
    else if s[..|d|] == d then Some(0)
    else
      var rest := IndexOf(s[1..], d);
      assert !OccursAt(s, d, 0);
      assert forall j :: 1 <= j ==> (OccursAt(s, d, j) <==> OccursAt(s[1..], d, j - 1)) by {
        forall j | 1 <= j ensures OccursAt(s, d, j) <==> OccursAt(s[1..], d, j - 1) {
          OccursShift(s, d, j);
        }
      }
      match rest
      case Some(k) => Some(k + 1)
      case None => None
  }

  /** Kotlin's `lastIndexOf(d)`: the rightmost occurrence, or none. */
  function LastIndexOf(s: string, d: string): (r: Option<nat>)
    ensures r.Some? ==> IsLastOccurrence(s, d, r.value)
    ensures r.None? ==> forall i :: !OccursAt(s, d, i)
    decreases |s|
  {
    if |s| < |d| then None
    else if s[|s| - |d|..] == d then Some(|s| - |d|)
    else
      var n := |s| - 1;
      assert forall j :: OccursAt(s, d, j) <==> OccursAt(s[..n], d, j) by {
        forall j ensures OccursAt(s, d, j) <==> OccursAt(s[..n], d, j) {
          OccursInPrefix(s, d, n, j);
        }
      }
      LastIndexOf(s[..n], d)
  }

  /** Kotlin's `contains(d)`, which is `indexOf(d) >= 0`. */
  predicate Contains(s: string, d: string) {
    IndexOf(s, d).Some?
  }

  /** Kotlin's `substringBefore(d)`: the text before the first `d`, or all of `s`. */
  function SubstringBefore(s: string, d: string): (r: string)
    ensures !Contains(s, d) ==> r == s
    ensures Contains(s, d) ==> |r| <= |s| && r == s[..|r|] && IsFirstOccurrence(s, d, |r|)
  {
    match IndexOf(s, d)
    case Some(i) => s[..i]
    case None => s
  }

  /** Kotlin's `substringAfter(d)`: the text after the first `d`, or all of `s`. */
  function SubstringAfter(s: string, d: string): (r: string)
    ensures !Contains(s, d) ==> r == s
    ensures Contains(s, d) ==>
      |r| + |d| <= |s| && r == s[|s| - |r|..] && IsFirstOccurrence(s, d, |s| - |r| - |d|)
  {
    match IndexOf(s, d)
    case Some(i) => s[i + |d|..]
    case None => s
  }

  /** Kotlin's `substringBeforeLast(d)`: the text before the last `d`, or all of `s`. */
  function SubstringBeforeLast(s: string, d: string): (r: string)
    ensures !Contains(s, d) ==> r == s
    ensures Contains(s, d) ==> |r| <= |s| && r == s[..|r|] && IsLastOccurrence(s, d, |r|)
  {
    match LastIndexOf(s, d)
    case Some(i) => s[..i]
    case None => s
  }

  /** Kotlin's `joinToString(d)`. */
  function Join(pieces: seq<string>, d: string): string {
    if |pieces| == 0 then ""
    else if |pieces| == 1 then pieces[0]
    else pieces[0] + d + Join(pieces[1..], d)
  }

  /** Kotlin's `split(d)` for a non-empty literal delimiter: the pieces between the
      leftmost non-overlapping occurrences of `d`. */
  function Split(s: string, d: string): (r: seq<string>)
    requires |d| > 0
    ensures |r| > 0
    ensures Join(r, d) == s
    ensures forall k :: 0 <= k < |r| ==> !Contains(r[k], d)
    decreases |s|
  {
    match IndexOf(s, d)
    case None => [s]
    case Some(i) =>
      var rest := Split(s[i + |d|..], d);
      assert !Contains(s[..i], d) by {
        forall j ensures !OccursAt(s[..i], d, j) {
          OccursInPrefix(s, d, i, j);
        }
      }
      assert s == s[..i] + d + s[i + |d|..];
      [s[..i]] + rest
  }

  /** The first occurrence is what `indexOf` finds. */
  lemma IndexOfFirst(s: string, d: string, i: int)
    requires IsFirstOccurrence(s, d, i)
    ensures IndexOf(s, d) == Some(i)
  {
    if IndexOf(s, d).Some? {
      var k := IndexOf(s, d).value;
      assert !(k < i) && !(i < k);
    }
  }

  /** `split` cuts at the first occurrence and goes on after it. */
  lemma SplitAt(s: string, d: string, i: nat)
    requires |d| > 0 && IndexOf(s, d) == Some(i)
    ensures i + |d| <= |s|
    ensures Split(s, d) == [s[..i]] + Split(s[i + |d|..], d)
  {
  }

  /** A text without the delimiter is a single piece. */
  lemma SplitNone(s: string, d: string)
    requires |d| > 0 && !Contains(s, d)
    ensures Split(s, d) == [s]
  {
  }

  /** Kotlin's `replace(p, rep)`: every leftmost non-overlapping occurrence of `p`
      replaced by `rep`. */
  function ReplaceAll(s: string, p: string, rep: string): string
    requires |p| > 0
    decreases |s|
  {
    match IndexOf(s, p)
    case None => s
    case Some(i) => s[..i] + rep + ReplaceAll(s[i + |p|..], p, rep)
  }

  /** `replace` is `split` followed by joining with the replacement. */
  lemma {:induction false} ReplaceAllIsSplitJoin(s: string, p: string, rep: string)
    requires |p| > 0
    ensures ReplaceAll(s, p, rep) == Join(Split(s, p), rep)
    decreases |s|
  {
    match IndexOf(s, p)
    case None =>
    case Some(i) =>
      ReplaceAllIsSplitJoin(s[i + |p|..], p, rep);
      var rest := Split(s[i + |p|..], p);
      assert Split(s, p) == [s[..i]] + rest;
  }

  /** Replacing a string that does not occur changes nothing. */
  lemma ReplaceAllAbsent(s: string, p: string, rep: string)
    requires |p| > 0 && !Contains(s, p)
    ensures ReplaceAll(s, p, rep) == s
  {
  }

  /** Deleting every occurrence of a pattern never lengthens the text. */
  lemma {:induction false} ReplaceAllDeletes(s: string, p: string)
    requires |p| > 0
    ensures |ReplaceAll(s, p, "")| <= |s|
    decreases |s|
  {
    match IndexOf(s, p)
    case None =>
    case Some(i) => ReplaceAllDeletes(s[i + |p|..], p);
  }

  /** Kotlin's `startsWith(p)`. */
  predicate StartsWith(s: string, p: string) {
    p <= s
  }

  /** Kotlin's `endsWith(q)`. */
  predicate EndsWith(s: string, q: string) {
    |q| <= |s| && s[|s| - |q|..] == q
  }

  /** Kotlin's `removePrefix(p)`. */
  function RemovePrefix(s: string, p: string): string {
    if StartsWith(s, p) then s[|p|..] else s
  }

  /** Kotlin's `removeSuffix(q)`. */
  function RemoveSuffix(s: string, q: string): string {
    if EndsWith(s, q) then s[..|s| - |q|] else s
  }

  /** Kotlin's `removeSurrounding(p, q)`: strips both ends only when `s` is long enough to
      hold both and starts with `p` and ends with `q`. */
  function RemoveSurrounding(s: string, p: string, q: string): string {
    if |s| >= |p| + |q| && StartsWith(s, p) && EndsWith(s, q) then s[|p|..|s| - |q|] else s
  }

  /** The first index at or after `i` that does not hold whitespace, or `|s|`. */
  function SkipWhitespace(s: string, i: nat): (j: nat)
    requires i <= |s|
    ensures i <= j <= |s|
    ensures forall k :: i <= k < j ==> IsWhitespace(s[k])
    ensures j < |s| ==> !IsWhitespace(s[j])
    decreases |s| - i
  {
    if i < |s| && IsWhitespace(s[i]) then SkipWhitespace(s, i + 1) else i
  }

  /** The index just after the last character before `j`, and not before `lo`, that is not
      whitespace, or `lo`. */
  function SkipWhitespaceBack(s: string, lo: nat, j: nat): (r: nat)
    requires lo <= j <= |s|
    ensures lo <= r <= j
    ensures forall k :: r <= k < j ==> IsWhitespace(s[k])
    ensures r > lo ==> !IsWhitespace(s[r - 1])
    decreases j
  {
    if j > lo && IsWhitespace(s[j - 1]) then SkipWhitespaceBack(s, lo, j - 1) else j
  }

  /** Where the text kept by `trim()` starts. */
  function TrimFrom(s: string): nat
    ensures TrimFrom(s) <= |s|
  {
    SkipWhitespace(s, 0)
  }

  /** Kotlin's `trim()`: `s` without its leading and trailing whitespace. Like the library,
      it scans for the first character from the start and then from the end that is not
      whitespace. */
  function Trim(s: string): (r: string)
    ensures |r| <= |s|
    ensures |r| > 0 ==> !IsWhitespace(r[0]) && !IsWhitespace(r[|r| - 1])
  {
    var a := TrimFrom(s);
    var b := SkipWhitespaceBack(s, a, |s|);
    s[a..b]
  }

  /** `trim()` keeps an infix of `s` starting where the leading whitespace ends, and
      removes only whitespace on either side of it. */
  lemma TrimIsInfix(s: string)
    ensures var i := TrimFrom(s);
      && i + |Trim(s)| <= |s|
      && s[i..i + |Trim(s)|] == Trim(s)
      && (forall k :: 0 <= k < i ==> IsWhitespace(s[k]))
      && (forall k :: i + |Trim(s)| <= k < |s| ==> IsWhitespace(s[k]))
  {
  }

  /** Kotlin's `Int.toString()` for the decimal digits of a natural number. */
  function NatToString(n: nat): string
    decreases n
  {
    var digit := "0123456789"[n % 10];
    if n < 10 then [digit] else NatToString(n / 10) + [digit]
  }

  /** Kotlin's `Int.toString()`, as used in string templates. */
  function IntToString(i: int): string {
    if i < 0 then "-" + NatToString(-i) else NatToString(i)
  }
}
