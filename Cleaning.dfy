/**
 * The regex rules that `read_and_clean_webpage` and the scripts' main blocks apply after
 * scrubbing. Each fixed rule is a dedicated string function that scans the text left to
 * right and replaces every non-overlapping match, as `re.sub` does. `\s` is Python's
 * whitespace set; `\d` and IGNORECASE are taken on ASCII, which is all the scrubbed text holds.
 *
 * Scrubbing removes every line break, so on the text these rules actually receive
 * `SIGN IN TO EDIT.*` cuts the text at the phrase, the blank-line rule does nothing and the
 * standalone-number rule fires only when the whole text is one number.
 */
module Cleaning {
  import opened Wrappers
  import opened Text
  import opened Scrubber
  import opened Exceptions
  import opened Files

  // ---------------------------------------------------------------------------------------
  // Fixed patterns made of literals, `\s*` and `.`

  /**
   * One element of a fixed pattern. Every `\s*` in the patterns below is followed by a
   * literal that starts with a non-space character, so taking the longest run of spaces is
   * the only way the pattern can match: greedy matching is exact here.
   */
  datatype Token = Lit(text: string) | LitNoCase(text: string) | Spaces | AnyChar

  /** A literal compared case-insensitively (IGNORECASE on ASCII letters). */
  predicate StartsWithNoCase(s: string, p: string) {
    |p| <= |s| && forall i :: 0 <= i < |p| ==> LowerChar(s[i]) == LowerChar(p[i])
  }

  /** The length of the match of `toks` at the start of `s`, if there is one. */
  function MatchTokens(s: string, toks: seq<Token>): (r: Option<nat>)
    ensures r.Some? ==> r.value <= |s|
    ensures r.Some? && toks != [] && (toks[0].Lit? || toks[0].LitNoCase?) ==>
      |toks[0].text| <= r.value
    decreases |toks|
  {
    if toks == [] then Some(0)
    else
      var first := FirstTokenLength(s, toks[0]);
      if first.None? then None
      else
        var rest := MatchTokens(s[first.value..], toks[1..]);
        if rest.None? then None else Some(first.value + rest.value)
  }

  /** Whether `piece` is, all of it, a match of the single token `tok`. */
  predicate MatchesToken(piece: string, tok: Token) {
    match tok
    case Lit(p) => piece == p
    case LitNoCase(p) => |piece| == |p| && StartsWithNoCase(piece, p)
    case Spaces => IsBlank(piece)
    case AnyChar => |piece| == 1
  }

  /**
   * Whether `t`, all of it, matches `toks` read as a regular expression: it splits into
   * consecutive pieces, one per token, each matching its token.
   */
  ghost predicate Matches(t: string, toks: seq<Token>)
    decreases |toks|
  {
    if toks == [] then t == []
    else exists i :: 0 <= i <= |t| && MatchesToken(t[..i], toks[0]) && Matches(t[i..], toks[1..])
  }

  /**
   * The patterns below put a literal starting with a non-space character after every `\s*`,
   * which is what makes their match at a position unique.
   */
  predicate SpacesBeforeLiteral(toks: seq<Token>) {
    forall i :: 0 <= i < |toks| && toks[i].Spaces? ==>
      && i + 1 < |toks|
      && (toks[i + 1].Lit? || toks[i + 1].LitNoCase?)
      && |toks[i + 1].text| > 0
      && !IsSpace(toks[i + 1].text[0])
  }

  /**
   * `MatchTokens` finds exactly the matches the regular expression admits: it returns `k`
   * if and only if the first `k` characters match the pattern.
   */
  lemma {:induction false} MatchTokensMeaning(s: string, toks: seq<Token>, k: nat)
    requires SpacesBeforeLiteral(toks)
    requires k <= |s|
    ensures MatchTokens(s, toks) == Some(k) <==> Matches(s[..k], toks)
  {
    if MatchTokens(s, toks) == Some(k) {
      MatchTokensSound(s, toks, k);
    }
    if Matches(s[..k], toks) {
      MatchTokensComplete(s, toks, k);
    }
  }

  /** What `MatchTokens` returns is a match. */
  lemma {:induction false} MatchTokensSound(s: string, toks: seq<Token>, k: nat)
    requires MatchTokens(s, toks) == Some(k)
    ensures k <= |s| && Matches(s[..k], toks)
    decreases |toks|
  {
    if toks != [] {
      var j := FirstTokenLength(s, toks[0]).value;
      MatchTokensSound(s[j..], toks[1..], k - j);
      PrefixSlices(s, j, k);
      FirstTokenMatches(s, toks[0], j);
    }
  }

  /** Every match is the one `MatchTokens` returns. */
  lemma {:induction false} MatchTokensComplete(s: string, toks: seq<Token>, k: nat)
    requires SpacesBeforeLiteral(toks)
    requires k <= |s| && Matches(s[..k], toks)
    ensures MatchTokens(s, toks) == Some(k)
    decreases |toks|
  {
    if toks != [] {
      var rest := toks[1..];
      SpacesBeforeLiteralTail(toks);
      var i := FirstTokenOfMatch(s, toks, k);
      MatchTokensComplete(s[i..], rest, k - i);
      MatchTokensStep(s, toks, i, k);
    }
  }

  /** A first token of length `i` and a match of the rest make a match of the whole. */
  lemma MatchTokensStep(s: string, toks: seq<Token>, i: nat, k: nat)
    requires toks != [] && i <= k <= |s|
    requires FirstTokenLength(s, toks[0]) == Some(i)
    requires MatchTokens(s[i..], toks[1..]) == Some(k - i)
    ensures MatchTokens(s, toks) == Some(k)
  {
  }

  /** The first token of a match takes the length `MatchTokens` gives it. */
  lemma FirstTokenOfMatch(s: string, toks: seq<Token>, k: nat) returns (i: nat)
    requires toks != [] && SpacesBeforeLiteral(toks)
    requires k <= |s| && Matches(s[..k], toks)
    ensures i <= k && FirstTokenLength(s, toks[0]) == Some(i) && Matches(s[i..][..k - i], toks[1..])
  {
    i := MatchesSplit(s, toks, k);
    if toks[0].Spaces? {
      MatchesStartsWithLiteral(s[i..][..k - i], toks[1..]);
    }
    FirstTokenUnique(s, toks[0], i, toks[0].Spaces? ==> i < |s| && !IsSpace(s[i]));
  }

  lemma PrefixSlices(s: string, j: nat, k: nat)
    requires j <= k <= |s|
    ensures s[..k][..j] == s[..j] && s[..k][j..] == s[j..][..k - j]
  {
  }

  /** A match of a non-empty pattern splits after its first token. */
  lemma MatchesSplit(s: string, toks: seq<Token>, k: nat) returns (i: nat)
    requires toks != [] && k <= |s| && Matches(s[..k], toks)
    ensures i <= k && MatchesToken(s[..i], toks[0]) && Matches(s[i..][..k - i], toks[1..])
  {
    var t := s[..k];
    i :| 0 <= i <= |t| && MatchesToken(t[..i], toks[0]) && Matches(t[i..], toks[1..]);
    assert t[..i] == s[..i];
    assert t[i..] == s[i..][..k - i];
  }

  lemma SpacesBeforeLiteralTail(toks: seq<Token>)
    requires toks != [] && SpacesBeforeLiteral(toks)
    ensures SpacesBeforeLiteral(toks[1..])
  {
    var rest := toks[1..];
    forall i | 0 <= i < |rest| && rest[i].Spaces?
      ensures i + 1 < |rest| && (rest[i + 1].Lit? || rest[i + 1].LitNoCase?)
      ensures |rest[i + 1].text| > 0 && !IsSpace(rest[i + 1].text[0])
    {
      assert rest[i] == toks[i + 1];
    }
  }

  /** The length `MatchTokens` takes for the first token, if it matches there. */
  function FirstTokenLength(s: string, tok: Token): (r: Option<nat>)
    ensures r.Some? ==> r.value <= |s|
  {
    match tok
    case Lit(p) => if StartsWith(s, p) then Some(|p|) else None
    case LitNoCase(p) => if StartsWithNoCase(s, p) then Some(|p|) else None
    case Spaces => Some(SpaceRun(s, 0))
    case AnyChar => if s != [] then Some(1) else None
  }

  lemma FirstTokenMatches(s: string, tok: Token, j: nat)
    requires FirstTokenLength(s, tok) == Some(j)
    ensures MatchesToken(s[..j], tok)
  {
  }

  /**
   * A prefix matching a token is the one `MatchTokens` takes, provided that after a run of
   * spaces the next character is not a space.
   */
  lemma FirstTokenUnique(s: string, tok: Token, i: nat, stops: bool)
    requires i <= |s| && MatchesToken(s[..i], tok)
    requires stops == (tok.Spaces? ==> i < |s| && !IsSpace(s[i]))
    requires stops
    ensures FirstTokenLength(s, tok) == Some(i)
  {
    if tok.Lit? {
      assert s[..|tok.text|] == s[..i];
    }
  }

  /** A text matching a pattern that opens with a literal starts with a non-space character. */
  lemma MatchesStartsWithLiteral(t: string, toks: seq<Token>)
    requires toks != [] && (toks[0].Lit? || toks[0].LitNoCase?)
    requires |toks[0].text| > 0 && !IsSpace(toks[0].text[0])
    requires Matches(t, toks)
    ensures 0 < |t| && !IsSpace(t[0])
  {
    var i :| 0 <= i <= |t| && MatchesToken(t[..i], toks[0]) && Matches(t[i..], toks[1..]);
    assert t[..i][0] == t[0];
    var c := toks[0].text[0];
    assert LowerChar(t[0]) == LowerChar(c);
  }

  // ---------------------------------------------------------------------------------------
  // `re.sub(pattern, '', s)`

  /**
   * `matchAt` describes a pattern: the length of its match at the very start of its
   * argument, if it matches there. A rule fires at a position when that match is non-empty;
   * an empty match deletes nothing, which is the same as no match.
   */
  predicate Fires(s: string, matchAt: string -> Option<nat>) {
    matchAt(s).Some? && 0 < matchAt(s).value <= |s|
  }

  /**
   * `re.sub(pattern, '', s)`: scanning left to right, each match is deleted and the scan
   * resumes after it; where the pattern does not match, the character is kept. None of the
   * patterns looks behind, so a match depends only on the text from its start on.
   */
  function DeleteAll(s: string, matchAt: string -> Option<nat>): string
    decreases |s|
  {
    if s == [] then []
    else if Fires(s, matchAt) then DeleteAll(s[matchAt(s).value..], matchAt)
    else [s[0]] + DeleteAll(s[1..], matchAt)
  }

  /** Deleting matches only ever deletes characters. */
  lemma {:induction false} DeleteAllSubsequence(s: string, matchAt: string -> Option<nat>)
    ensures IsSubsequence(DeleteAll(s, matchAt), s)
    decreases |s|
  {
    if s == [] {
    } else if Fires(s, matchAt) {
      var k := matchAt(s).value;
      DeleteAllSubsequence(s[k..], matchAt);
      SuffixSubsequence(DeleteAll(s[k..], matchAt), s, k);
    } else {
      DeleteAllSubsequence(s[1..], matchAt);
      ConsSubsequence(DeleteAll(s[1..], matchAt), s);
    }
  }

  /** Where the pattern matches nowhere, deleting its matches changes nothing. */
  lemma {:induction false} DeleteAllNowhere(s: string, matchAt: string -> Option<nat>)
    requires forall i :: 0 <= i <= |s| ==> !Fires(s[i..], matchAt)
    ensures DeleteAll(s, matchAt) == s
    decreases |s|
  {
    if s != [] {
      assert s[0..] == s;
      forall i | 0 <= i <= |s[1..]| ensures !Fires(s[1..][i..], matchAt) {
        assert s[1..][i..] == s[i + 1..];
      }
      DeleteAllNowhere(s[1..], matchAt);
      assert s == [s[0]] + s[1..];
    }
  }

  /**
   * At the first position `i` where the pattern matches, everything before `i` is kept, the
   * match is deleted and the scan goes on after it.
   */
  lemma {:induction false} DeleteAllFirst(s: string, matchAt: string -> Option<nat>, i: nat)
    requires i < |s| && Fires(s[i..], matchAt)
    requires forall j :: 0 <= j < i ==> !Fires(s[j..], matchAt)
    ensures i + matchAt(s[i..]).value <= |s|
    ensures DeleteAll(s, matchAt) == s[..i] + DeleteAll(s[i + matchAt(s[i..]).value..], matchAt)
    decreases i
  {
    assert s[0..] == s;
    var k := matchAt(s[i..]).value;
    var rest := DeleteAll(s[i + k..], matchAt);
    if i == 0 {
      assert s[..0] + rest == rest;
    } else {
      var t := s[1..];
      assert !Fires(s, matchAt);
      assert DeleteAll(s, matchAt) == [s[0]] + DeleteAll(t, matchAt);
      forall j | 0 <= j < i - 1 ensures !Fires(t[j..], matchAt) {
        assert t[j..] == s[j + 1..];
      }
      assert t[i - 1..] == s[i..];
      DeleteAllFirst(t, matchAt, i - 1);
      assert t[i - 1 + k..] == s[i + k..];
      ConsPrefix(s, i, rest);
    }
  }

  /** Putting back the first character in front of a shorter prefix. */
  lemma ConsPrefix(s: string, i: nat, rest: string)
    requires 0 < i <= |s|
    ensures [s[0]] + (s[1..][..i - 1] + rest) == s[..i] + rest
  {
    assert s[..i] == [s[0]] + s[1..][..i - 1];
  }

  // ---------------------------------------------------------------------------------------
  // `re.sub(r'SIGN IN TO EDIT.*', '', content)`

  const SignInPhrase: string := "SIGN IN TO EDIT"

  /** The index of the first line break, or |s|: where `.*` stops without DOTALL. */
  function LineEnd(s: string): (k: nat)
    ensures k <= |s|
    ensures forall i :: 0 <= i < k ==> s[i] != '\n'
    ensures k < |s| ==> s[k] == '\n'
    decreases |s|
  {
    if s == [] || s[0] == '\n' then 0 else 1 + LineEnd(s[1..])
  }

  /** On a text without line breaks, `.*` runs to the end. */
  lemma {:induction false} LineEndOfOneLine(s: string)
    requires '\n' !in s
    ensures LineEnd(s) == |s|
    decreases |s|
  {
    if s != [] {
      assert '\n' !in s[1..];
      LineEndOfOneLine(s[1..]);
    }
  }

  /** The pattern `SIGN IN TO EDIT.*`: the phrase and the rest of its line. */
  function SignInAt(s: string): (r: Option<nat>)
    ensures r.Some? <==> StartsWith(s, SignInPhrase)
    ensures r.Some? ==> |SignInPhrase| <= r.value <= |s|
    ensures r.Some? ==> forall i :: 0 <= i < r.value ==> s[i] != '\n'
    ensures r.Some? && r.value < |s| ==> s[r.value] == '\n'
  {
    if StartsWith(s, SignInPhrase) then
      assert s[..|SignInPhrase|] == SignInPhrase;
      assert forall i :: 0 <= i < |SignInPhrase| ==> s[i] != '\n';
      Some(LineEnd(s))
    else None
  }

  /** The sign-in rule: every occurrence of the phrase goes, with the rest of its line. */
  function CutSignIn(s: string): string {
    DeleteAll(s, SignInAt)
  }

  /** The text before the first occurrence of `p`, or all of it when `p` does not occur. */
  function PrefixBefore(s: string, p: string): (r: string)
    requires p != []
    ensures !Contains(r, p)
    ensures StartsWith(s, r)
  {
    var k := IndexOf(s, p);
    var r := if k.Some? then s[..k.value] else s;
    forall j: nat | OccursAt(r, p, j) ensures OccursAt(s, p, j) {
      assert r[j..j + |p|] == s[j..j + |p|];
    }
    r
  }

  /** An occurrence at `i` is the phrase at the start of the suffix from `i`. */
  lemma OccursAtSuffix(s: string, p: string, i: nat)
    requires i <= |s|
    ensures OccursAt(s, p, i) <==> StartsWith(s[i..], p)
  {
    if i + |p| <= |s| {
      assert s[i..][..|p|] == s[i..i + |p|];
    }
  }

  /**
   * On one line of text the rule keeps exactly the prefix before the phrase's first
   * occurrence, so the phrase no longer occurs.
   */
  lemma CutSignInSingleLine(s: string)
    requires '\n' !in s
    ensures CutSignIn(s) == PrefixBefore(s, SignInPhrase)
    ensures !Contains(CutSignIn(s), SignInPhrase)
  {
    var k := IndexOf(s, SignInPhrase);
    forall j | 0 <= j <= |s| ensures Fires(s[j..], SignInAt) <==> OccursAt(s, SignInPhrase, j) {
      OccursAtSuffix(s, SignInPhrase, j);
    }
    if k.Some? {
      var i := k.value;
      DeleteAllFirst(s, SignInAt, i);
      assert '\n' !in s[i..];
      LineEndOfOneLine(s[i..]);
      assert s[i + SignInAt(s[i..]).value..] == [];
    } else {
      DeleteAllNowhere(s, SignInAt);
    }
  }

  // ---------------------------------------------------------------------------------------
  // `re.sub(r'Contents\s*\[hide\].*?(?=(Overview|\d+\s*Overview|\d+\s*Stats|...))', '', ...,
  //         flags=re.DOTALL | re.IGNORECASE)`

  /** The marker `Contents\s*\[hide\]`, case-insensitively. */
  const ContentsMarker: seq<Token> := [LitNoCase("contents"), Spaces, LitNoCase("[hide]")]

  /**
   * The lookahead, on the text from the candidate position on: it starts with `Overview`,
   * or with digits, optional whitespace and one of Overview, Stats, Firepower, Speed, Health
   * (in any case).
   */
  predicate IsHeading(t: string) {
    || StartsWithNoCase(t, "overview")
    || (var d := DigitRun(t, 0);
        && d > 0
        && var w := SpaceRun(t, d);
           || StartsWithNoCase(t[w..], "overview")
           || StartsWithNoCase(t[w..], "stats")
           || StartsWithNoCase(t[w..], "firepower")
           || StartsWithNoCase(t[w..], "speed")
           || StartsWithNoCase(t[w..], "health"))
  }

  /**
   * A lazy `.*?` (DOTALL) followed by a lookahead `holds`: the nearest position from `i` on
   * at which the lookahead succeeds.
   */
  function FirstWhere(s: string, i: nat, holds: string -> bool): (r: Option<nat>)
    requires i <= |s|
    ensures r.Some? ==> i <= r.value <= |s|
    decreases |s| - i
  {
    if holds(s[i..]) then Some(i)
    else if i == |s| then None
    else FirstWhere(s, i + 1, holds)
  }

  /** The lazy `.*?` stops at the nearest position where the lookahead holds, if any. */
  lemma {:induction false} FirstWhereNearest(s: string, i: nat, holds: string -> bool)
    requires i <= |s|
    ensures FirstWhere(s, i, holds).Some? ==> holds(s[FirstWhere(s, i, holds).value..])
    ensures FirstWhere(s, i, holds).Some? ==>
      forall j :: i <= j < FirstWhere(s, i, holds).value ==> !holds(s[j..])
    ensures FirstWhere(s, i, holds).None? ==> forall j :: i <= j <= |s| ==> !holds(s[j..])
    decreases |s| - i
  {
    if !holds(s[i..]) && i < |s| {
      FirstWhereNearest(s, i + 1, holds);
    }
  }

  /**
   * The length of the block the rule deletes at the start of `s`: from the marker up to,
   * not including, the nearest heading after it.
   */
  function ContentsBlock(s: string): (r: Option<nat>)
    ensures r.Some? ==> 0 < r.value <= |s|
  {
    var m := MatchTokens(s, ContentsMarker);
    if m.None? then None else FirstWhere(s, m.value, IsHeading)
  }

  /**
   * A block starts at the beginning of `s` exactly when the marker is there and a heading
   * follows it; it then ends at the nearest such heading.
   */
  lemma ContentsBlockMeaning(s: string)
    ensures ContentsBlock(s).Some? ==>
      && MatchTokens(s, ContentsMarker).Some?
      && MatchTokens(s, ContentsMarker).value <= ContentsBlock(s).value
      && IsHeading(s[ContentsBlock(s).value..])
      && forall j :: MatchTokens(s, ContentsMarker).value <= j < ContentsBlock(s).value ==>
           !IsHeading(s[j..])
    ensures ContentsBlock(s).None? ==>
      || MatchTokens(s, ContentsMarker).None?
      || forall j :: MatchTokens(s, ContentsMarker).value <= j <= |s| ==> !IsHeading(s[j..])
  {
    var m := MatchTokens(s, ContentsMarker);
    if m.Some? {
      FirstWhereNearest(s, m.value, IsHeading);
    }
  }

  /** The marker is matched exactly where the text reads `contents`, whitespace, `[hide]`. */
  lemma ContentsMarkerMeaning(s: string, k: nat)
    requires k <= |s|
    ensures MatchTokens(s, ContentsMarker) == Some(k) <==> Matches(s[..k], ContentsMarker)
  {
    assert SpacesBeforeLiteral(ContentsMarker) by {
      assert ContentsMarker[2].text[0] == '[';
    }
    MatchTokensMeaning(s, ContentsMarker, k);
  }

  /** The Contents rule applied to the whole text. */
  function StripContents(s: string): string {
    DeleteAll(s, ContentsBlock)
  }

  // ---------------------------------------------------------------------------------------
  // `re.sub(r'^\s*\d+(\.\d+)?\s*$', '', content, flags=re.MULTILINE)` on one line

  /** The end of `(\.\d+)?` from `b`: after a dot and its digits, or `b` itself when there are none. */
  function FractionEnd(s: string, b: nat): (c: nat)
    requires b <= |s|
    ensures b <= c <= |s|
    ensures c != b ==> s[b] == '.' && IsDigits(s[b + 1..c])
    ensures c != b && c < |s| ==> !IsAsciiDigit(s[c])
  {
    if b < |s| && s[b] == '.' && DigitRun(s, b + 1) > b + 1 then
      var c := DigitRun(s, b + 1);
      DigitSlice(s, b + 1, c);
      c
    else b
  }

  /** The whole line is optional whitespace, digits, optionally `.` and digits, whitespace. */
  predicate IsStandaloneNumber(s: string) {
    var a := SpaceRun(s, 0);
    var b := DigitRun(s, a);
    b > a && SpaceRun(s, FractionEnd(s, b)) == |s|
  }

  /** `(\.\d+)?`: nothing, or a dot followed by one or more digits. */
  predicate IsOptionalFraction(f: string) {
    f == [] || (f[0] == '.' && IsDigits(f[1..]))
  }

  /**
   * The pattern `\s*\d+(\.\d+)?\s*` read off piece by piece: the text splits into
   * whitespace, digits, an optional fraction and whitespace.
   */
  ghost predicate IsNumberLine(s: string) {
    exists p, n, f, q :: s == p + n + f + q && IsBlank(p) && IsDigits(n) && IsOptionalFraction(f) && IsBlank(q)
  }

  /**
   * The standalone-number rule on a text without line breaks, where `^` and `$` can only
   * match at its two ends: the text is erased exactly when it is one number, and kept
   * otherwise.
   */
  function DropStandaloneNumber(s: string): (r: string)
    ensures r == s || r == []
    ensures r != s <==> IsNumberLine(s)
    ensures IsDigits(s) ==> r == []
    ensures r != s ==> exists i :: 0 <= i < |s| && IsAsciiDigit(s[i])
    ensures r != s ==> forall i :: 0 <= i < |s| ==> IsSpace(s[i]) || IsAsciiDigit(s[i]) || s[i] == '.'
  {
    DigitsAreStandalone(s);
    StandaloneIsNumberLine(s);
    if IsStandaloneNumber(s) then
      var a := SpaceRun(s, 0);
      assert IsAsciiDigit(s[a]);
      []
    else
      s
  }

  /** The scan in `IsStandaloneNumber` accepts exactly the texts the pattern describes. */
  lemma StandaloneIsNumberLine(s: string)
    ensures IsStandaloneNumber(s) <==> IsNumberLine(s)
  {
    if IsStandaloneNumber(s) {
      StandaloneSplit(s);
    }
    if IsNumberLine(s) {
      var p, n, f, q :| s == p + n + f + q && IsBlank(p) && IsDigits(n) && IsOptionalFraction(f) && IsBlank(q);
      NumberLineScan(s, p, n, f, q);
    }
  }

  /** The pieces the scan finds split the text as the pattern describes. */
  lemma StandaloneSplit(s: string)
    requires IsStandaloneNumber(s)
    ensures IsNumberLine(s)
  {
    var a := SpaceRun(s, 0);
    var b := DigitRun(s, a);
    var c := FractionEnd(s, b);
    BlankSlice(s, 0, a);
    BlankSlice(s, c, |s|);
    DigitSlice(s, a, b);
    FractionSlice(s, b);
    NumberLineOfBounds(s, a, b, c);
  }

  /** What `FractionEnd` skips is an optional fraction. */
  lemma FractionSlice(s: string, b: nat)
    requires b <= |s|
    ensures IsOptionalFraction(s[b..FractionEnd(s, b)])
  {
    var c := FractionEnd(s, b);
    if c != b {
      assert s[b..c][1..] == s[b + 1..c];
    }
  }

  /** Pieces given by their bounds witness the split. */
  lemma NumberLineOfBounds(s: string, a: nat, b: nat, c: nat)
    requires a <= b <= c <= |s|
    requires IsBlank(s[..a]) && IsDigits(s[a..b]) && IsOptionalFraction(s[b..c]) && IsBlank(s[c..])
    ensures IsNumberLine(s)
  {
    SplitFour(s, a, b, c);
    var p, n, f, q := s[..a], s[a..b], s[b..c], s[c..];
    assert s == p + n + f + q && IsBlank(p) && IsDigits(n) && IsOptionalFraction(f) && IsBlank(q);
  }

  lemma SplitFour(s: string, a: nat, b: nat, c: nat)
    requires a <= b <= c <= |s|
    ensures s == s[..a] + s[a..b] + s[b..c] + s[c..]
  {
    assert s[..c] == s[..a] + s[a..b] + s[b..c];
  }

  /** The four pieces can be read back from their concatenation. */
  lemma PiecesOfFour(s: string, p: string, n: string, f: string, q: string)
    requires s == p + n + f + q
    ensures s[..|p|] == p && s[|p|..|p| + |n|] == n
    ensures s[|p| + |n|..|p| + |n| + |f|] == f && s[|p| + |n| + |f|..] == q
  {
    assert s == ((p + n) + f) + q;
    assert s[..|p| + |n| + |f|] == (p + n) + f;
    assert s[..|p| + |n|] == p + n;
  }

  /** A slice inside a run of whitespace is blank. */
  lemma BlankSlice(s: string, i: nat, j: nat)
    requires i <= j <= |s|
    requires forall k :: i <= k < j ==> IsSpace(s[k])
    ensures IsBlank(s[i..j])
  {
  }

  /** A slice inside a run of digits, when not empty, is digits. */
  lemma DigitSlice(s: string, i: nat, j: nat)
    requires i < j <= |s|
    requires forall k :: i <= k < j ==> IsAsciiDigit(s[k])
    ensures IsDigits(s[i..j])
  {
  }

  /** No digit and no dot is whitespace. */
  lemma DigitsAndDotsAreNotSpaces(c: char)
    requires IsAsciiDigit(c) || c == '.'
    ensures !IsSpace(c)
  {
  }

  /** A blank piece at `i`, followed by a non-space or the end, is the run of spaces from `i`. */
  lemma SpaceRunOver(s: string, i: nat, t: string)
    requires i + |t| <= |s| && s[i..i + |t|] == t && IsBlank(t)
    requires i + |t| < |s| ==> !IsSpace(s[i + |t|])
    ensures SpaceRun(s, i) == i + |t|
  {
    assert forall k :: i <= k < i + |t| ==> s[k] == t[k - i];
  }

  /** A piece of digits at `i`, followed by a non-digit or the end, is the run of digits from `i`. */
  lemma DigitRunOver(s: string, i: nat, t: string)
    requires i + |t| <= |s| && s[i..i + |t|] == t && IsDigits(t)
    requires i + |t| < |s| ==> !IsAsciiDigit(s[i + |t|])
    ensures DigitRun(s, i) == i + |t|
  {
    assert forall k :: i <= k < i + |t| ==> s[k] == t[k - i];
  }

  /** On a text split as the pattern describes, the scan finds the same pieces. */
  lemma NumberLineScan(s: string, p: string, n: string, f: string, q: string)
    requires s == p + n + f + q && IsBlank(p) && IsDigits(n) && IsOptionalFraction(f) && IsBlank(q)
    ensures IsStandaloneNumber(s)
  {
    PiecesOfFour(s, p, n, f, q);
    ScanPieces(s, |p|, |p| + |n|, |p| + |n| + |f|);
  }

  /** The scan over pieces given by their bounds. */
  lemma ScanPieces(s: string, a: nat, b: nat, c: nat)
    requires a <= b <= c <= |s|
    requires IsBlank(s[..a]) && IsDigits(s[a..b]) && IsOptionalFraction(s[b..c]) && IsBlank(s[c..])
    ensures IsStandaloneNumber(s)
  {
    assert s[a] == s[a..b][0];
    DigitsAndDotsAreNotSpaces(s[a]);
    SpaceRunOver(s, 0, s[..a]);
    if b < |s| {
      if b < c {
        assert s[b] == s[b..c][0];
      } else {
        assert s[b] == s[c..][0];
      }
    }
    DigitRunOver(s, a, s[a..b]);
    if c < |s| {
      assert s[c] == s[c..][0];
    }
    FractionEndOver(s, b, c);
    assert s[c..c + |s[c..]|] == s[c..];
    SpaceRunOver(s, c, s[c..]);
  }

  /** An optional fraction from `b` to `c`, followed by a non-digit or the end, ends at `c`. */
  lemma FractionEndOver(s: string, b: nat, c: nat)
    requires b <= c <= |s| && IsOptionalFraction(s[b..c])
    requires c < |s| ==> !IsAsciiDigit(s[c])
    requires b == c && b < |s| ==> s[b] != '.'
    ensures FractionEnd(s, b) == c
  {
    if b < c {
      assert s[b] == s[b..c][0];
      assert s[b + 1..c] == s[b..c][1..];
      DigitRunOver(s, b + 1, s[b + 1..c]);
    }
  }

  /** A text of digits alone is a standalone number. */
  lemma DigitsAreStandalone(s: string)
    ensures IsDigits(s) ==> IsStandaloneNumber(s)
  {
    if IsDigits(s) {
      assert SpaceRun(s, 0) == 0;
      DigitsRunToEnd(s, 0);
    }
  }

  lemma {:induction false} DigitsRunToEnd(s: string, i: nat)
    requires i <= |s|
    requires forall k :: i <= k < |s| ==> IsAsciiDigit(s[k])
    ensures DigitRun(s, i) == |s|
    decreases |s| - i
  {
    if i < |s| {
      DigitsRunToEnd(s, i + 1);
    }
  }

  // ---------------------------------------------------------------------------------------
  // `re.sub(r'\n{3,}', '\n\n', content)`

  /** The end of the run of line breaks that starts at `i`. */
  function NewlineRun(s: string, i: nat): (j: nat)
    requires i <= |s|
    ensures i <= j <= |s|
    decreases |s| - i
  {
    if i < |s| && s[i] == '\n' then NewlineRun(s, i + 1) else i
  }

  /** Three or more consecutive line breaks become two. */
  function CollapseBlankLines(s: string): string
    decreases |s|
  {
    if s == [] then []
    else
      var n := NewlineRun(s, 0);
      if n >= 3 then "\n\n" + CollapseBlankLines(s[n..]) else [s[0]] + CollapseBlankLines(s[1..])
  }

  /** On a text without line breaks the blank-line rule does nothing. */
  lemma {:induction false} CollapseBlankLinesSingleLine(s: string)
    requires '\n' !in s
    ensures CollapseBlankLines(s) == s
    decreases |s|
  {
    if s != [] {
      assert NewlineRun(s, 0) == 0;
      assert '\n' !in s[1..];
      CollapseBlankLinesSingleLine(s[1..]);
      assert s == [s[0]] + s[1..];
    }
  }

  // ---------------------------------------------------------------------------------------
  // The chat-bubble rule

  /**
   * The first `SIGN IN TO EDIT` rule needs the character U+D83D, a lone UTF-16 surrogate.
   * No string of Unicode scalar values holds one (and scrubbed text is ASCII), so the rule
   * never matches and leaves every text as it is.
   */
  function StripChatBubble(s: string): string {
    s
  }

  // ---------------------------------------------------------------------------------------
  // The chains

  /**
   * What `read_and_clean_webpage` does to the file's content after reading it; the same
   * chain is applied inline to the hard-coded page in the Spitfire and P-51 main blocks.
   */
  function CleanWebpage(content: string): string {
    var scrubbed := Scrub(content);
    var noBubble := StripChatBubble(scrubbed);
    var noSignIn := CutSignIn(noBubble);
    var noContents := StripContents(noSignIn);
    var noNumbers := DropStandaloneNumber(noContents);
    var collapsed := CollapseBlankLines(noNumbers);
    Strip(collapsed)
  }

  /**
   * `read_and_clean_webpage(filepath)`: a missing file raises `FileNotFoundError` naming the
   * path; otherwise the whole file is read and put through the cleaning chain.
   */
  method ReadAndCleanWebpage(fs: FileSystem, path: string) returns (r: Result<string, Exception>)
    ensures path !in fs.files ==> r == Failure(FileNotFoundError("Webpage file not found: " + path))
    ensures path in fs.files ==> r == Success(CleanWebpage(Joined(fs.files[path])))
  {
    if !fs.Exists(path) {
      return Failure(FileNotFoundError("Webpage file not found: " + path));
    }
    var content := Joined(fs.files[path]);
    content := Scrub(content);
    content := StripChatBubble(content);
    content := CutSignIn(content);
    content := StripContents(content);
    content := DropStandaloneNumber(content);
    content := CollapseBlankLines(content);
    return Success(Strip(content));
  }

  /**
   * The cleaning chain reduces to three simple steps on one line of printable ASCII: the
   * chat-bubble and blank-line rules do nothing, the sign-in rule cuts at the phrase and the
   * final strip removes only spaces. The result is a subsequence of the input.
   */
  lemma CleanWebpageSimplified(content: string)
    ensures
      var cut := PrefixBefore(Scrub(content), SignInPhrase);
      CleanWebpage(content) == Strip(DropStandaloneNumber(StripContents(cut)))
    ensures AllPrintable(CleanWebpage(content)) && '\n' !in CleanWebpage(content)
    ensures IsSubsequence(CleanWebpage(content), content)
    ensures var r := CleanWebpage(content); r != [] ==> r[0] != ' ' && r[|r| - 1] != ' '
  {
    var scrubbed := Scrub(content);
    ScrubKeepsExactlyPrintable(content);
    ScrubSingleLine(content);
    CutSignInSingleLine(scrubbed);
    var cut := CutSignIn(scrubbed);
    DeleteAllSubsequence(scrubbed, SignInAt);
    SubsequenceKeepsClass(cut, scrubbed);
    var noContents := StripContents(cut);
    DeleteAllSubsequence(cut, ContentsBlock);
    SubsequenceKeepsClass(noContents, cut);
    SubsequenceTransitive(noContents, cut, scrubbed);
    SubsequenceTransitive(noContents, scrubbed, content);
    ChainTail(noContents, content);
  }

  /** The last three steps of the chain on one line of printable ASCII. */
  lemma ChainTail(x: string, content: string)
    requires AllPrintable(x) && '\n' !in x && IsSubsequence(x, content)
    ensures CollapseBlankLines(DropStandaloneNumber(x)) == DropStandaloneNumber(x)
    ensures var r := Strip(DropStandaloneNumber(x));
      && AllPrintable(r) && '\n' !in r && IsSubsequence(r, content)
      && (r != [] ==> r[0] != ' ' && r[|r| - 1] != ' ')
  {
    var noNumbers := DropStandaloneNumber(x);
    assert noNumbers == x || noNumbers == [];
    CollapseBlankLinesSingleLine(noNumbers);
    var r := Strip(noNumbers);
    if r != [] {
      SliceIsSubsequence(noNumbers, LeftEnd(noNumbers), RightEnd(noNumbers));
    }
    if noNumbers == x {
      SubsequenceTransitive(r, x, content);
    }
    SubsequenceKeepsClass(r, noNumbers);
  }

  /** On printable ASCII, `strip()` removes spaces and nothing else. */
  lemma StripRemovesOnlySpaces(s: string)
    requires AllPrintable(s)
    ensures forall i :: 0 <= i < LeftEnd(s) ==> s[i] == ' '
    ensures forall i :: RightEnd(s) <= i < |s| ==> s[i] == ' '
  {
  }

  /** The table-of-contents pattern of the MiG-29 main block (DOTALL, so `.` is any character). */
  const Mig29TocTokens: seq<Token> :=
    [ Lit("Contents"), Spaces, Lit("1Overview"), Spaces, Lit("2History"), Spaces, Lit("3Stats"),
      Spaces, Lit("3"), AnyChar, Lit("1Firepower"), Spaces, Lit("3"), AnyChar, Lit("2Speed"),
      Spaces, Lit("3"), AnyChar, Lit("3Health") ]

  const CollapseWord: seq<Token> := [Lit("Collapse")]

  function Mig29TocAt(s: string): Option<nat> {
    MatchTokens(s, Mig29TocTokens)
  }

  function CollapseAt(s: string): Option<nat> {
    MatchTokens(s, CollapseWord)
  }

  /** The table-of-contents rule deletes exactly the prefixes that match its pattern. */
  lemma Mig29TocMeaning(s: string, k: nat)
    requires k <= |s|
    ensures Mig29TocAt(s) == Some(k) <==> Matches(s[..k], Mig29TocTokens)
  {
    assert SpacesBeforeLiteral(Mig29TocTokens) by {
      forall i | 0 <= i < |Mig29TocTokens| && Mig29TocTokens[i].Spaces?
        ensures i + 1 < |Mig29TocTokens| && Mig29TocTokens[i + 1].Lit?
        ensures |Mig29TocTokens[i + 1].text| > 0 && IsAsciiDigit(Mig29TocTokens[i + 1].text[0])
      {
      }
    }
    MatchTokensMeaning(s, Mig29TocTokens, k);
  }

  /** `Collapse` is deleted exactly where the word occurs, case-sensitively. */
  lemma CollapseMeaning(s: string)
    ensures CollapseAt(s).Some? <==> StartsWith(s, "Collapse")
    ensures CollapseAt(s).Some? ==> CollapseAt(s).value == 8
  {
  }

  /** The chain the MiG-29 main block applies to its hard-coded page. */
  function CleanMig29Page(content: string): string {
    var scrubbed := Scrub(content);
    var noBubble := StripChatBubble(scrubbed);
    var noSignIn := CutSignIn(noBubble);
    var noToc := DeleteAll(noSignIn, Mig29TocAt);
    var noNumbers := DropStandaloneNumber(noToc);
    var noCollapse := DeleteAll(noNumbers, CollapseAt);
    var collapsed := CollapseBlankLines(noCollapse);
    Strip(collapsed)
  }

  /** How the MiG-29 main block's hard-coded page begins: a line `9`, blank lines, the phrase. */
  const Mig29PageOpening: string := "\n9\n\n\nSIGN IN TO EDIT"

  /**
   * Whatever follows the opening, the MiG-29 main block cleans its page to the empty text:
   * scrubbing joins the lines into `9SIGN IN TO EDIT...`, the sign-in rule keeps only `9`,
   * and the standalone-number rule erases it.
   */
  lemma Mig29PageCleansToEmpty(rest: string)
    ensures CleanMig29Page(Mig29PageOpening + rest) == ""
  {
    ScrubConcat(Mig29PageOpening, rest);
    ScrubOpening();
    ScrubSingleLine(rest);
    CutAfterNine(Scrub(rest));
    assert CutSignIn(StripChatBubble(Scrub(Mig29PageOpening + rest))) == "9";
    NineCleansToEmpty();
  }

  /** On one line, the sign-in rule keeps only what precedes the phrase. */
  lemma CutAfterNine(tail: string)
    requires '\n' !in tail
    ensures CutSignIn("9" + SignInPhrase + tail) == "9"
  {
    var x := SignInPhrase + tail;
    assert "9" + SignInPhrase + tail == "9" + x;
    assert ("9" + x)[1..] == x;
    assert x[..|SignInPhrase|] == SignInPhrase;
    assert StartsWith(x, SignInPhrase);
    PrintableHasNoBreaks(SignInPhrase);
    assert '\n' !in x;
    LineEndOfOneLine(x);
    assert Fires(x, SignInAt);
    assert !Fires("9" + x, SignInAt);
    assert SignInAt(x) == Some(|x|);
    assert x[|x|..] == [];
    assert DeleteAll(x, SignInAt) == DeleteAll([], SignInAt);
  }

  /** The rest of the MiG-29 chain erases the lone `9`. */
  lemma NineCleansToEmpty()
    ensures Strip(CollapseBlankLines(DeleteAll(DropStandaloneNumber(
      DeleteAll("9", Mig29TocAt)), CollapseAt))) == ""
  {
    assert Mig29TocAt("9").None?;
    assert DeleteAll("9", Mig29TocAt) == "9";
    assert IsDigits("9");
  }

  /** Scrubbing the opening deletes its line breaks. */
  lemma ScrubOpening()
    ensures Scrub(Mig29PageOpening) == "9" + SignInPhrase
  {
    ScrubIsKeepPrintable(Mig29PageOpening);
    KeepPrintableOpening();
  }

  lemma KeepPrintableOpening()
    ensures KeepPrintable(Mig29PageOpening) == "9" + SignInPhrase
  {
    var lines := "\n9\n\n\n";
    assert Mig29PageOpening == lines + SignInPhrase;
    KeepPrintableConcat(lines, SignInPhrase);
    KeepPrintableBreaks();
    KeepPrintablePhrase();
  }

  lemma KeepPrintableBreaks()
    ensures KeepPrintable("\n9\n\n\n") == "9"
  {
    var lines := "\n9\n\n\n";
    assert lines[1..] == "9\n\n\n";
    assert lines[2..] == "\n\n\n";
  }

  lemma KeepPrintablePhrase()
    ensures KeepPrintable(SignInPhrase) == SignInPhrase
  {
    assert AllPrintable(SignInPhrase);
    KeepPrintableLength(SignInPhrase);
  }
}
