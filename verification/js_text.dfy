/** The JavaScript string operations the pipeline relies on, over `seq<char>`:
    `trim`, `includes`/`split` (through `Find`), `replace` with a string pattern
    (first occurrence only), `replace` with a global literal regular expression,
    and `Array.prototype.join`. */
module JsText {
  import opened Wrappers

  /** The characters matched by `\s` and removed by `trim`: WhiteSpace and
      LineTerminator of ECMAScript, with the space separators listed out. */
  predicate IsWhitespace(c: char) {
    || c == ' ' || c == '\t' || c == '\n' || c == '\r'
    || c as int == 0x0B || c as int == 0x0C || c as int == 0xA0
    || c as int == 0x1680 || (0x2000 <= c as int <= 0x200A)
    || c as int == 0x2028 || c as int == 0x2029 || c as int == 0x202F
    || c as int == 0x205F || c as int == 0x3000 || c as int == 0xFEFF
  }

  predicate AllWhitespace(s: string) {
    forall i | 0 <= i < |s| :: IsWhitespace(s[i])
  }

  /** The length of the whitespace run that starts `s`. */
  function LeadingWhitespace(s: string): (k: nat)
    ensures k <= |s| && AllWhitespace(s[..k])
    ensures k < |s| ==> !IsWhitespace(s[k])
    decreases |s|
  {
    if |s| > 0 && IsWhitespace(s[0]) then
      var k := LeadingWhitespace(s[1..]);
      k + 1
    else 0
  }

  /** The length of the whitespace run that ends `s`. */
  function TrailingWhitespace(s: string): (k: nat)
    ensures k <= |s| && AllWhitespace(s[|s| - k..])
    ensures k < |s| ==> !IsWhitespace(s[|s| - k - 1])
    decreases |s|
  {
    if |s| > 0 && IsWhitespace(s[|s| - 1]) then
      var t := s[..|s| - 1];
      var k := TrailingWhitespace(t);
      assert forall i | |t| - k <= i < |t| :: s[i] == t[i] && IsWhitespace(t[i]);
      k + 1
    else 0
  }

  /** Leading whitespace removed (`trimStart`, and the first step of `parseInt`). */
  function TrimStart(s: string): (r: string)
    ensures r == [] || !IsWhitespace(r[0])
  {
    s[LeadingWhitespace(s)..]
  }

  /** Trailing whitespace removed. */
  function TrimEnd(s: string): (r: string)
    ensures r == [] || !IsWhitespace(r[|r| - 1])
  {
    s[..|s| - TrailingWhitespace(s)]
  }

  /** `String.prototype.trim`: the slice of `s` between its leading and its
      trailing whitespace runs. */
  function Trim(s: string): (r: string)
    ensures exists i, j | 0 <= i <= j <= |s| ::
      r == s[i..j] && AllWhitespace(s[..i]) && AllWhitespace(s[j..])
    ensures r == [] || (!IsWhitespace(r[0]) && !IsWhitespace(r[|r| - 1]))
  {
    var k := LeadingWhitespace(s);
    var t := s[k..];
    var j := k + |t| - TrailingWhitespace(t);
    TrimSlice(s, t, k, j);
    TrimTail(s, t, k, j);
    TrimEnd(t)
  }

  /** The trimmed text is the slice between the two whitespace runs, and it
      starts with the first character that is not whitespace. */
  lemma TrimSlice(s: string, t: string, k: nat, j: int)
    requires k == LeadingWhitespace(s) && t == s[k..] && j == k + |t| - TrailingWhitespace(t)
    ensures k <= j <= |s| && TrimEnd(t) == s[k..j]
    ensures TrimEnd(t) != [] ==> TrimEnd(t)[0] == s[k]
  {
  }

  /** What the trim drops on either side is whitespace. */
  lemma TrimTail(s: string, t: string, k: nat, j: int)
    requires k == LeadingWhitespace(s) && t == s[k..] && j == k + |t| - TrailingWhitespace(t)
    ensures k <= j <= |s| && AllWhitespace(s[..k]) && AllWhitespace(s[j..])
  {
    assert t[|t| - TrailingWhitespace(t)..] == s[j..];
  }

  lemma {:induction false} TrimStartFixed(s: string)
    requires s == [] || !IsWhitespace(s[0])
    ensures TrimStart(s) == s
  {
  }

  lemma {:induction false} TrimEndFixed(s: string)
    requires s == [] || !IsWhitespace(s[|s| - 1])
    ensures TrimEnd(s) == s
  {
  }

  /** Trimming twice is trimming once. */
  lemma TrimIdempotent(s: string)
    ensures Trim(Trim(s)) == Trim(s)
  {
    var t := Trim(s);
    TrimStartFixed(t);
    TrimEndFixed(t);
  }

  /** `pat` occurs in `s` starting at index `i`. */
  predicate OccursAt(s: string, pat: string, i: int) {
    0 <= i && i + |pat| <= |s| && s[i..i + |pat|] == pat
  }

  /** `s.includes(pat)`. */
  predicate Contains(s: string, pat: string) {
    exists i | 0 <= i <= |s| :: OccursAt(s, pat, i)
  }

  /** The first index at or after `from` where `pat` occurs. */
  function FindFrom(s: string, pat: string, from: nat): (r: Option<nat>)
    ensures r.Some? ==> from <= r.value && OccursAt(s, pat, r.value)
    ensures forall j | from <= j && (r.None? || j < r.value) :: !OccursAt(s, pat, j)
    decreases |s| - from
  {
    if from + |pat| > |s| then None
    else if s[from..from + |pat|] == pat then Some(from)
    else FindFrom(s, pat, from + 1)
  }

  /** The first occurrence of `pat` in `s` (`indexOf`, with `None` for -1). */
  function Find(s: string, pat: string): (r: Option<nat>)
    ensures r.Some? ==> OccursAt(s, pat, r.value)
    ensures forall j | 0 <= j && (r.None? || j < r.value) :: !OccursAt(s, pat, j)
    ensures r.None? <==> !Contains(s, pat)
  {
    FindFrom(s, pat, 0)
  }

  /** `s.replace(pat, rep)` with a string pattern: only the first occurrence is
      replaced. (The replacement strings used here contain no `$`.) */
  function ReplaceFirst(s: string, pat: string, rep: string): (r: string)
    ensures !Contains(s, pat) ==> r == s
    ensures Contains(s, pat) ==>
      exists i | OccursAt(s, pat, i) ::
        (forall j | 0 <= j < i :: !OccursAt(s, pat, j)) && r == s[..i] + rep + s[i + |pat|..]
  {
    match Find(s, pat)
    case None => s
    case Some(i) => s[..i] + rep + s[i + |pat|..]
  }

  /** `s.replace(/pat/g, rep)` for a literal, non-empty pattern and a
      replacement without `$`: the text is scanned left to right, each match is
      replaced and the scan resumes after it. */
  function ReplaceAll(s: string, pat: string, rep: string): (r: string)
    requires |pat| > 0
    ensures |r| == |s| + Occurrences(s, pat) * (|rep| - |pat|)
    decreases |s|
  {
    if |s| < |pat| then s
    else if s[..|pat|] == pat then
      var k := Occurrences(s[|pat|..], pat);
      assert (k + 1) * (|rep| - |pat|) == k * (|rep| - |pat|) + (|rep| - |pat|);
      rep + ReplaceAll(s[|pat|..], pat, rep)
    else [s[0]] + ReplaceAll(s[1..], pat, rep)
  }

  /** The number of matches the scan of `ReplaceAll` replaces. */
  function Occurrences(s: string, pat: string): nat
    requires |pat| > 0
    decreases |s|
  {
    if |s| < |pat| then 0
    else if s[..|pat|] == pat then 1 + Occurrences(s[|pat|..], pat)
    else Occurrences(s[1..], pat)
  }

  /** Zero matches by the scan exactly when the pattern occurs nowhere. */
  lemma OccurrencesZeroIffAbsent(s: string, pat: string)
    requires |pat| > 0
    ensures Occurrences(s, pat) == 0 <==> !Contains(s, pat)
  {
    if Contains(s, pat) {
      var i :| 0 <= i <= |s| && OccursAt(s, pat, i);
      OccurrenceIsCounted(s, pat, i);
    }
    if Occurrences(s, pat) > 0 {
      var i := CountedOccurrence(s, pat);
    }
  }

  /** The scan never steps over an occurrence without counting a match. */
  lemma {:induction false} OccurrenceIsCounted(s: string, pat: string, i: nat)
    requires |pat| > 0 && OccursAt(s, pat, i)
    ensures Occurrences(s, pat) > 0
    decreases |s|
  {
    if s[..|pat|] != pat {
      assert i != 0;
      assert s[1..][i - 1..i - 1 + |pat|] == s[i..i + |pat|];
      OccurrenceIsCounted(s[1..], pat, i - 1);
    }
  }

  /** A counted match is an occurrence; `i` is the first one the scan meets. */
  lemma {:induction false} CountedOccurrence(s: string, pat: string) returns (i: nat)
    requires |pat| > 0 && Occurrences(s, pat) > 0
    ensures OccursAt(s, pat, i)
    decreases |s|
  {
    if s[..|pat|] == pat {
      i := 0;
    } else {
      var j := CountedOccurrence(s[1..], pat);
      assert s[1..][j..j + |pat|] == s[j + 1..j + 1 + |pat|];
      i := j + 1;
    }
  }

  /** Replacing a pattern that does not occur changes nothing. */
  lemma {:induction false} ReplaceAllAbsent(s: string, pat: string, rep: string)
    requires |pat| > 0 && Occurrences(s, pat) == 0
    ensures ReplaceAll(s, pat, rep) == s
    decreases |s|
  {
    if |s| >= |pat| {
      ReplaceAllAbsent(s[1..], pat, rep);
      assert [s[0]] + s[1..] == s;
    }
  }

  /** A single character that does not occur is never matched. */
  lemma {:induction false} OccurrencesOfMissingChar(s: string, c: char)
    requires c !in s
    ensures Occurrences(s, [c]) == 0
    decreases |s|
  {
    if |s| > 0 {
      assert s[0] != c;
      OccurrencesOfMissingChar(s[1..], c);
    }
  }

  /** The characters of `s` other than `c`, in their order. */
  function Without(s: string, c: char): (r: string)
    ensures c !in r && |r| <= |s|
    decreases |s|
  {
    if |s| == 0 then []
    else if s[0] == c then Without(s[1..], c)
    else [s[0]] + Without(s[1..], c)
  }

  /** Removing a character from two joined texts removes it from each. */
  lemma {:induction false} WithoutAppend(a: string, b: string, c: char)
    ensures Without(a + b, c) == Without(a, c) + Without(b, c)
    decreases |a|
  {
    if |a| > 0 {
      assert (a + b)[1..] == a[1..] + b;
      WithoutAppend(a[1..], b, c);
    } else {
      assert a + b == b;
    }
  }

  /** Only `c` is removed: every other character keeps its number of
      occurrences. */
  lemma {:induction false} WithoutKeepsOthers(s: string, c: char)
    ensures multiset(Without(s, c)) == multiset(s)[c := 0]
    decreases |s|
  {
    if |s| > 0 {
      WithoutKeepsOthers(s[1..], c);
      assert s == [s[0]] + s[1..];
      assert multiset(s) == multiset{s[0]} + multiset(s[1..]);
    }
  }

  /** Removing a character that does not occur changes nothing. */
  lemma {:induction false} WithoutAbsent(s: string, c: char)
    requires c !in s
    ensures Without(s, c) == s
    decreases |s|
  {
    if |s| > 0 {
      WithoutAbsent(s[1..], c);
      assert [s[0]] + s[1..] == s;
    }
  }

  /** A global replacement of a one-character pattern by nothing removes
      exactly the occurrences of that character and keeps the rest in order. */
  lemma {:induction false} ReplaceAllCharByNothing(s: string, c: char)
    ensures ReplaceAll(s, [c], "") == Without(s, c)
    decreases |s|
  {
    if |s| > 0 {
      ReplaceAllCharByNothing(s[1..], c);
      assert s[..1] == [c] <==> s[0] == c;
    }
  }

  /** `parts.join(sep)`: the parts in order with `sep` between neighbours. */
  function Join(parts: seq<string>, sep: string): (r: string)
    ensures |parts| == 0 ==> r == ""
    ensures |parts| == 1 ==> r == parts[0]
    ensures |parts| > 0 ==> parts[0] <= r
    ensures |parts| > 0 ==> |parts[|parts| - 1]| <= |r| && r[|r| - |parts[|parts| - 1]|..] == parts[|parts| - 1]
  {
    if |parts| == 0 then ""
    else if |parts| == 1 then parts[0]
    else Join(parts[..|parts| - 1], sep) + sep + parts[|parts| - 1]
  }

  /** The total length of the parts. */
  function TotalLength(parts: seq<string>): nat {
    if |parts| == 0 then 0 else TotalLength(parts[..|parts| - 1]) + |parts[|parts| - 1]|
  }

  /** The joined text is as long as the parts together and one separator
      between each two neighbours. */
  lemma {:induction false} JoinLength(parts: seq<string>, sep: string)
    requires |parts| > 0
    ensures |Join(parts, sep)| == TotalLength(parts) + (|parts| - 1) * |sep|
  {
    if |parts| > 1 {
      var init := parts[..|parts| - 1];
      JoinLength(init, sep);
      OneMore(|init| - 1, |sep|);
    }
  }

  lemma OneMore(m: int, k: int)
    ensures m * k + k == (m + 1) * k
  {
  }
}
