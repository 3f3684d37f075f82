/**
 * String vocabulary shared by the scrubber, the cleaning rules and the record builders:
 * Python's whitespace set (used by the regex class `\s` and by `str.strip()`), ASCII digits
 * and letters, prefix and substring search, and the subsequence relation.
 * Letters and digits are restricted to ASCII: every text these helpers meet in the pipeline
 * has been scrubbed to printable ASCII first.
 */
module Text {
  import opened Wrappers

  // ---------------------------------------------------------------------------------------
  // Character classes

  /** Python's `str.isspace()`: the characters matched by `\s` and removed by `strip()`. */
  predicate IsSpace(c: char) {
    || c == ' '
    || '\t' <= c <= '\r'
    || '\U{1C}' <= c <= '\U{1F}'
    || c == '\U{85}' || c == '\U{A0}' || c == '\U{1680}'
    || '\U{2000}' <= c <= '\U{200A}'
    || c == '\U{2028}' || c == '\U{2029}' || c == '\U{202F}' || c == '\U{205F}' || c == '\U{3000}'
  }

  predicate IsAsciiDigit(c: char) {
    '0' <= c <= '9'
  }

  /** The characters 0x20 to 0x7E: what the scrubber lets through. */
  predicate IsPrintableAscii(c: char) {
    ' ' <= c <= '~'
  }

  predicate AllPrintable(s: string) {
    forall i :: 0 <= i < |s| ==> IsPrintableAscii(s[i])
  }

  /** Printable text holds no line break. */
  lemma PrintableHasNoBreaks(s: string)
    requires AllPrintable(s)
    ensures '\n' !in s
  {
  }

  // ---------------------------------------------------------------------------------------
  // Prefixes, occurrences and first occurrence (`str.find`, `re.search` of a literal)

  predicate StartsWith(s: string, p: string) {
    |p| <= |s| && s[..|p|] == p
  }

  predicate OccursAt(s: string, p: string, i: nat) {
    i + |p| <= |s| && s[i..i + |p|] == p
  }

  predicate Contains(s: string, p: string) {
    exists i: nat | i <= |s| :: OccursAt(s, p, i)
  }

  /** The first position at which `p` occurs in `s`, if any. */
  function IndexOf(s: string, p: string): (r: Option<nat>)
    ensures r.Some? ==> OccursAt(s, p, r.value)
    ensures r.Some? ==> forall j: nat :: j < r.value ==> !OccursAt(s, p, j)
    ensures r.None? ==> !Contains(s, p)
    decreases |s|
  {
    if StartsWith(s, p) then Some(0)
    else if s == [] then None
    else
      var rest := IndexOf(s[1..], p);
      ShiftOccurrence(s, p);
      if rest.None? then None else Some(rest.value + 1)
  }

  /** The first position at or after `k` at which `p` occurs in `s`, if any. */
  function IndexFrom(s: string, p: string, k: nat): (r: Option<nat>)
    requires k <= |s|
    ensures r.Some? ==> k <= r.value && OccursAt(s, p, r.value)
    ensures r.Some? ==> forall j: nat :: k <= j < r.value ==> !OccursAt(s, p, j)
    ensures r.None? ==> forall j: nat :: k <= j ==> !OccursAt(s, p, j)
  {
    SliceOccurrence(s, p, k);
    match IndexOf(s[k..], p)
    case None => None
    case Some(a) => Some(k + a)
  }

  /** The occurrences in `s[k..]` are the occurrences in `s` from `k` on, shifted by `k`. */
  lemma SliceOccurrence(s: string, p: string, k: nat)
    requires k <= |s|
    ensures IndexOf(s[k..], p).None? ==> forall j: nat :: k <= j ==> !OccursAt(s, p, j)
    ensures IndexOf(s[k..], p).Some? ==>
      && OccursAt(s, p, k + IndexOf(s[k..], p).value)
      && forall j: nat :: k <= j < k + IndexOf(s[k..], p).value ==> !OccursAt(s, p, j)
  {
    var t := s[k..];
    var r := IndexOf(t, p);
    forall j: nat | k <= j && OccursAt(s, p, j)
      ensures j - k <= |t| && OccursAt(t, p, j - k)
    {
      assert t[j - k..j - k + |p|] == s[j..j + |p|];
    }
    if r.Some? {
      var a := r.value;
      assert t[a..a + |p|] == s[k + a..k + a + |p|];
    }
  }

  /** An occurrence in `s[1..]` is an occurrence in `s`, one position further on. */
  lemma ShiftOccurrence(s: string, p: string)
    requires s != []
    ensures OccursAt(s, p, 0) <==> StartsWith(s, p)
    ensures forall j: nat :: OccursAt(s[1..], p, j) <==> OccursAt(s, p, j + 1)
    ensures forall j: nat :: 0 < j ==> (OccursAt(s, p, j) <==> OccursAt(s[1..], p, j - 1))
  {
    forall j: nat ensures OccursAt(s[1..], p, j) <==> OccursAt(s, p, j + 1) {
      if j + 1 + |p| <= |s| {
        assert s[1..][j..j + |p|] == s[j + 1..j + 1 + |p|];
      }
    }
    forall j: nat | 0 < j ensures OccursAt(s, p, j) <==> OccursAt(s[1..], p, j - 1) {
      assert OccursAt(s[1..], p, j - 1) <==> OccursAt(s, p, j - 1 + 1);
    }
  }

  // ---------------------------------------------------------------------------------------
  // Counting and runs

  function Count(s: string, c: char): nat {
    if s == [] then 0 else (if s[0] == c then 1 else 0) + Count(s[1..], c)
  }

  /** The end of the run of whitespace that starts at `i` (the greedy `\s*`). */
  function SpaceRun(s: string, i: nat): (j: nat)
    requires i <= |s|
    ensures i <= j <= |s|
    ensures forall k :: i <= k < j ==> IsSpace(s[k])
    ensures j < |s| ==> !IsSpace(s[j])
    decreases |s| - i
  {
    if i < |s| && IsSpace(s[i]) then SpaceRun(s, i + 1) else i
  }

  /** The end of the run of ASCII digits that starts at `i` (the greedy `\d*`). */
  function DigitRun(s: string, i: nat): (j: nat)
    requires i <= |s|
    ensures i <= j <= |s|
    ensures forall k :: i <= k < j ==> IsAsciiDigit(s[k])
    ensures j < |s| ==> !IsAsciiDigit(s[j])
    decreases |s| - i
  {
    if i < |s| && IsAsciiDigit(s[i]) then DigitRun(s, i + 1) else i
  }

  // ---------------------------------------------------------------------------------------
  // str.strip()

  /** The index of the first non-whitespace character, or |s|. */
  function LeftEnd(s: string): (k: nat)
    ensures k <= |s|
    ensures forall i :: 0 <= i < k ==> IsSpace(s[i])
    ensures k < |s| ==> !IsSpace(s[k])
  {
    SpaceRun(s, 0)
  }

  /** One past the index of the last non-whitespace character, or 0. */
  function RightEnd(s: string): (k: nat)
    ensures k <= |s|
    ensures forall i :: k <= i < |s| ==> IsSpace(s[i])
    ensures k > 0 ==> !IsSpace(s[k - 1])
    decreases |s|
  {
    if s == [] || !IsSpace(s[|s| - 1]) then |s| else RightEnd(s[..|s| - 1])
  }

  /** Python's `str.strip()` with no argument. */
  function Strip(s: string): (r: string)
    ensures r == [] <==> forall i :: 0 <= i < |s| ==> IsSpace(s[i])
    ensures r != [] ==> !IsSpace(r[0]) && !IsSpace(r[|r| - 1])
    ensures r != [] ==> LeftEnd(s) < RightEnd(s) && r == s[LeftEnd(s)..RightEnd(s)]
  {
    var l := LeftEnd(s);
    if l == |s| then [] else s[l..RightEnd(s)]
  }

  /** Empty, or whitespace only: the texts `get_embedding` refuses to send. */
  predicate IsBlank(s: string) {
    forall i :: 0 <= i < |s| ==> IsSpace(s[i])
  }

  // ---------------------------------------------------------------------------------------
  // str.lower(), str.replace(c, repl), str.isdigit(), int()

  function LowerChar(c: char): char {
    if 'A' <= c <= 'Z' then (c as int + 32) as char else c
  }

  /** `str.lower()` on ASCII letters; every other character is kept. */
  function Lower(s: string): (r: string)
    ensures |r| == |s|
    ensures forall i :: 0 <= i < |s| ==> r[i] == LowerChar(s[i])
  {
    seq(|s|, i requires 0 <= i < |s| => LowerChar(s[i]))
  }

  /** `str.replace(c, repl)` for a single-character pattern. */
  function ReplaceChar(s: string, c: char, repl: string): string {
    if s == [] then [] else (if s[0] == c then repl else [s[0]]) + ReplaceChar(s[1..], c, repl)
  }

  /** Replacing a character that does not occur leaves the text as it was. */
  lemma {:induction false} ReplaceAbsent(s: string, c: char, repl: string)
    requires c !in s
    ensures ReplaceChar(s, c, repl) == s
  {
    if s != [] {
      assert c !in s[1..];
      ReplaceAbsent(s[1..], c, repl);
    }
  }

  /** Replacing a character by a single character works position by position. */
  lemma {:induction false} ReplaceCharByChar(s: string, c: char, d: char)
    ensures |ReplaceChar(s, c, [d])| == |s|
    ensures forall i :: 0 <= i < |s| ==> ReplaceChar(s, c, [d])[i] == if s[i] == c then d else s[i]
  {
    if s != [] {
      ReplaceCharByChar(s[1..], c, d);
      var head := if s[0] == c then [d] else [s[0]];
      assert ReplaceChar(s, c, [d]) == head + ReplaceChar(s[1..], c, [d]);
      forall i | 0 < i < |s|
        ensures ReplaceChar(s, c, [d])[i] == if s[i] == c then d else s[i]
      {
        assert s[1..][i - 1] == s[i];
      }
    }
  }

  /** `str.isdigit()` on ASCII: non-empty and made of the digits 0-9 only. */
  predicate IsDigits(s: string) {
    |s| > 0 && forall i :: 0 <= i < |s| ==> IsAsciiDigit(s[i])
  }

  /** `int(s)` for a string of ASCII digits. */
  function DecimalValue(s: string): nat
    requires forall i :: 0 <= i < |s| ==> IsAsciiDigit(s[i])
  {
    if s == [] then 0
    else
      assert IsAsciiDigit(s[|s| - 1]);
      10 * DecimalValue(s[..|s| - 1]) + (s[|s| - 1] as int - '0' as int)
  }

  // ---------------------------------------------------------------------------------------
  // Subsequences

  /** `a` is obtained from `b` by deleting characters, the rest kept in order. */
  predicate IsSubsequence(a: string, b: string)
    decreases |b|
  {
    && |a| <= |b|
    && (|| a == []
        || (a[0] == b[0] && IsSubsequence(a[1..], b[1..]))
        || IsSubsequence(a, b[1..]))
  }

  /** Every character of a subsequence is a character of the original. */
  lemma {:induction false} SubsequenceChars(a: string, b: string)
    requires IsSubsequence(a, b)
    ensures forall i :: 0 <= i < |a| ==> a[i] in b
    decreases |b|
  {
    if a == [] {
    } else if a[0] == b[0] && IsSubsequence(a[1..], b[1..]) {
      SubsequenceChars(a[1..], b[1..]);
      forall i | 0 <= i < |a| ensures a[i] in b {
        if i > 0 {
          assert a[i] == a[1..][i - 1];
        }
      }
    } else {
      SubsequenceChars(a, b[1..]);
    }
  }

  /** Deleting characters keeps a printable text printable and a one-line text on one line. */
  lemma SubsequenceKeepsClass(a: string, b: string)
    requires IsSubsequence(a, b)
    ensures AllPrintable(b) ==> AllPrintable(a)
    ensures '\n' !in b ==> '\n' !in a
  {
    SubsequenceChars(a, b);
  }

  /** The subsequence relation is transitive. */
  lemma {:induction false} SubsequenceTransitive(a: string, b: string, c: string)
    requires IsSubsequence(a, b) && IsSubsequence(b, c)
    ensures IsSubsequence(a, c)
    decreases |c|
  {
    if a == [] {
    } else if b[0] == c[0] && IsSubsequence(b[1..], c[1..]) {
      if a[0] == b[0] && IsSubsequence(a[1..], b[1..]) {
        SubsequenceTransitive(a[1..], b[1..], c[1..]);
      } else {
        SubsequenceTransitive(a, b[1..], c[1..]);
      }
    } else {
      SubsequenceTransitive(a, b, c[1..]);
    }
  }

  /** Every text is a subsequence of itself. */
  lemma {:induction false} SubsequenceReflexive(s: string)
    ensures IsSubsequence(s, s)
    decreases |s|
  {
    if s != [] {
      SubsequenceReflexive(s[1..]);
    }
  }

  /** A slice of a text is a subsequence of it. */
  lemma {:induction false} SliceIsSubsequence(s: string, i: nat, j: nat)
    requires i <= j <= |s|
    ensures IsSubsequence(s[i..j], s)
    decreases |s|
  {
    if i == j {
    } else if i == 0 {
      if j == |s| {
        assert s[i..j] == s;
        SubsequenceReflexive(s);
      } else {
        SliceIsSubsequence(s[..|s| - 1], 0, j);
        assert s[..|s| - 1][0..j] == s[0..j];
        PrefixSubsequence(s[i..j], s);
      }
    } else {
      SliceIsSubsequence(s[1..], i - 1, j - 1);
      assert s[1..][i - 1..j - 1] == s[i..j];
    }
  }

  /** A subsequence of a suffix is a subsequence of the whole. */
  lemma SuffixSubsequence(a: string, s: string, k: nat)
    requires k <= |s| && IsSubsequence(a, s[k..])
    ensures IsSubsequence(a, s)
  {
    SliceIsSubsequence(s, k, |s|);
    assert s[k..|s|] == s[k..];
    SubsequenceTransitive(a, s[k..], s);
  }

  /** Keeping the first character and a subsequence of the rest gives a subsequence. */
  lemma ConsSubsequence(a: string, s: string)
    requires s != [] && IsSubsequence(a, s[1..])
    ensures IsSubsequence([s[0]] + a, s)
  {
    var b := [s[0]] + a;
    assert b[0] == s[0] && b[1..] == a;
  }

  /** A subsequence of all but the last character is a subsequence of the whole. */
  lemma {:induction false} PrefixSubsequence(a: string, s: string)
    requires s != [] && IsSubsequence(a, s[..|s| - 1])
    ensures IsSubsequence(a, s)
    decreases |s|
  {
    var t := s[..|s| - 1];
    if a == [] {
    } else if a[0] == t[0] && IsSubsequence(a[1..], t[1..]) {
      assert t[1..] == s[1..][..|s[1..]| - 1];
      PrefixSubsequence(a[1..], s[1..]);
    } else {
      assert t[1..] == s[1..][..|s[1..]| - 1];
      PrefixSubsequence(a, s[1..]);
    }
  }
}
