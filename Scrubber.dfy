/**
 * The character scrubber `_scrub_webpage_content_chars`, identical in the MiG-29, Spitfire
 * and P-51 scripts. It is modelled step by step as written (ASCII encoding with errors
 * ignored, dash replacement, zero-width removal, control-character removal), and then shown
 * to equal a much simpler reference: keep exactly the printable ASCII characters.
 */
module Scrubber {
  import opened Text

  const EnDash: char := '\U{2013}'
  const EmDash: char := '\U{2014}'
  const ZeroWidthSpace: char := '\U{200B}'
  const ZeroWidthNonJoiner: char := '\U{200C}'
  const ZeroWidthJoiner: char := '\U{200D}'
  const ByteOrderMark: char := '\U{FEFF}'

  /** `text.encode('ascii', 'ignore').decode('ascii')`: every character from 128 on is dropped. */
  function AsciiIgnore(s: string): string {
    if s == [] then [] else (if s[0] < '\U{80}' then [s[0]] else []) + AsciiIgnore(s[1..])
  }

  /** The class `[\x00-\x1F\x7F-\x9F]`. */
  predicate IsControl(c: char) {
    c <= '\U{1F}' || '\U{7F}' <= c <= '\U{9F}'
  }

  /** `re.sub(r'[\x00-\x1F\x7F-\x9F]', '', text)`. */
  function DropControls(s: string): string {
    if s == [] then [] else (if IsControl(s[0]) then [] else [s[0]]) + DropControls(s[1..])
  }

  /** `_scrub_webpage_content_chars`, its four steps in the order the source runs them. */
  function Scrub(s: string): string {
    var ascii := AsciiIgnore(s);
    var dashes := ReplaceChar(ReplaceChar(ascii, EnDash, "-"), EmDash, "-");
    var visible :=
      ReplaceChar(ReplaceChar(ReplaceChar(ReplaceChar(dashes, ZeroWidthSpace, ""),
        ZeroWidthNonJoiner, ""), ZeroWidthJoiner, ""), ByteOrderMark, "");
    DropControls(visible)
  }

  /** The reference behaviour: the input filtered to the characters 0x20 to 0x7E. */
  function KeepPrintable(s: string): string {
    if s == [] then [] else (if IsPrintableAscii(s[0]) then [s[0]] else []) + KeepPrintable(s[1..])
  }

  // ---------------------------------------------------------------------------------------
  // The scrubber equals the reference

  /** After the ASCII step no character at or above 128 is left. */
  lemma {:induction false} AsciiIgnoreIsAscii(s: string)
    ensures forall i :: 0 <= i < |AsciiIgnore(s)| ==> AsciiIgnore(s)[i] < '\U{80}'
  {
    if s != [] {
      AsciiIgnoreIsAscii(s[1..]);
    }
  }

  /** Removing control characters from the ASCII-only text leaves exactly the printable ones. */
  lemma {:induction false} ControlsOfAscii(s: string)
    ensures DropControls(AsciiIgnore(s)) == KeepPrintable(s)
  {
    if s != [] {
      ControlsOfAscii(s[1..]);
      var head := if s[0] < '\U{80}' then [s[0]] else [];
      DropControlsConcat(head, AsciiIgnore(s[1..]));
    }
  }

  lemma {:induction false} DropControlsConcat(a: string, b: string)
    ensures DropControls(a + b) == DropControls(a) + DropControls(b)
  {
    if a == [] {
      assert a + b == b;
    } else {
      assert (a + b)[0] == a[0] && (a + b)[1..] == a[1..] + b;
      DropControlsConcat(a[1..], b);
    }
  }

  /**
   * The scrubber keeps exactly the printable ASCII characters. The dash and zero-width
   * replacements never fire: those characters are above 127 and the ASCII step has already
   * deleted them.
   */
  lemma ScrubIsKeepPrintable(s: string)
    ensures Scrub(s) == KeepPrintable(s)
  {
    var ascii := AsciiIgnore(s);
    AsciiIgnoreIsAscii(s);
    ReplaceAbsent(ascii, EnDash, "-");
    ReplaceAbsent(ascii, EmDash, "-");
    ReplaceAbsent(ascii, ZeroWidthSpace, "");
    ReplaceAbsent(ascii, ZeroWidthNonJoiner, "");
    ReplaceAbsent(ascii, ZeroWidthJoiner, "");
    ReplaceAbsent(ascii, ByteOrderMark, "");
    ControlsOfAscii(s);
  }

  // ---------------------------------------------------------------------------------------
  // Properties of the reference filter

  lemma {:induction false} KeepPrintableSubsequence(s: string)
    ensures IsSubsequence(KeepPrintable(s), s)
  {
    if s != [] {
      KeepPrintableSubsequence(s[1..]);
      var r := KeepPrintable(s);
      if IsPrintableAscii(s[0]) {
        assert r[0] == s[0] && r[1..] == KeepPrintable(s[1..]);
      } else {
        assert r == KeepPrintable(s[1..]);
      }
    }
  }

  lemma {:induction false} KeepPrintablePrintable(s: string)
    ensures AllPrintable(KeepPrintable(s))
  {
    if s != [] {
      KeepPrintablePrintable(s[1..]);
    }
  }

  lemma {:induction false} KeepPrintableCount(s: string, c: char)
    ensures Count(KeepPrintable(s), c) == if IsPrintableAscii(c) then Count(s, c) else 0
  {
    if s != [] {
      KeepPrintableCount(s[1..], c);
      var head := if IsPrintableAscii(s[0]) then [s[0]] else [];
      CountConcat(head, KeepPrintable(s[1..]), c);
    }
  }

  lemma {:induction false} CountConcat(a: string, b: string, c: char)
    ensures Count(a + b, c) == Count(a, c) + Count(b, c)
  {
    if a == [] {
      assert a + b == b;
    } else {
      assert (a + b)[0] == a[0] && (a + b)[1..] == a[1..] + b;
      CountConcat(a[1..], b, c);
    }
  }

  lemma {:induction false} KeepPrintableLength(s: string)
    ensures |KeepPrintable(s)| <= |s|
    ensures |KeepPrintable(s)| == |s| <==> AllPrintable(s)
    ensures KeepPrintable(s) == s <==> AllPrintable(s)
  {
    if s != [] {
      KeepPrintableLength(s[1..]);
      if !IsPrintableAscii(s[0]) {
        assert !AllPrintable(s);
      } else if !AllPrintable(s[1..]) {
        var i :| 0 <= i < |s[1..]| && !IsPrintableAscii(s[1..][i]);
        assert !IsPrintableAscii(s[i + 1]);
      } else {
        assert s == [s[0]] + s[1..];
      }
    }
  }

  lemma {:induction false} KeepPrintableConcat(a: string, b: string)
    ensures KeepPrintable(a + b) == KeepPrintable(a) + KeepPrintable(b)
  {
    if a == [] {
      assert a + b == b;
    } else {
      assert (a + b)[0] == a[0] && (a + b)[1..] == a[1..] + b;
      KeepPrintableConcat(a[1..], b);
    }
  }

  // ---------------------------------------------------------------------------------------
  // What the scrubber promises

  /**
   * The output is the input's printable ASCII characters, in their original order: a
   * subsequence of the input, every character in 0x20-0x7E, and each printable character
   * kept as often as it occurs.
   */
  lemma ScrubKeepsExactlyPrintable(s: string)
    ensures IsSubsequence(Scrub(s), s)
    ensures AllPrintable(Scrub(s))
    ensures forall c :: Count(Scrub(s), c) == if IsPrintableAscii(c) then Count(s, c) else 0
  {
    ScrubIsKeepPrintable(s);
    KeepPrintableSubsequence(s);
    KeepPrintablePrintable(s);
    forall c ensures Count(Scrub(s), c) == if IsPrintableAscii(c) then Count(s, c) else 0 {
      KeepPrintableCount(s, c);
    }
  }

  /** Tab, line feed and carriage return are control characters: scrubbed text is one line. */
  lemma ScrubSingleLine(s: string)
    ensures '\n' !in Scrub(s) && '\t' !in Scrub(s) && '\r' !in Scrub(s)
  {
    ScrubIsKeepPrintable(s);
    KeepPrintablePrintable(s);
  }

  /** Scrubbing is the identity exactly on printable ASCII text. */
  lemma ScrubIdentity(s: string)
    ensures Scrub(s) == s <==> AllPrintable(s)
  {
    ScrubIsKeepPrintable(s);
    KeepPrintableLength(s);
  }

  /** Scrubbing twice is scrubbing once. */
  lemma ScrubIdempotent(s: string)
    ensures Scrub(Scrub(s)) == Scrub(s)
  {
    ScrubIsKeepPrintable(s);
    KeepPrintablePrintable(s);
    ScrubIdentity(Scrub(s));
  }

  /** Scrubbing never lengthens a text, and shortens every text that is not printable ASCII. */
  lemma ScrubShrinks(s: string)
    ensures |Scrub(s)| <= |s|
    ensures |Scrub(s)| == |s| <==> AllPrintable(s)
  {
    ScrubIsKeepPrintable(s);
    KeepPrintableLength(s);
  }

  /**
   * En-dashes and em-dashes are deleted, never turned into `-`: the output has exactly the
   * input's hyphens, and none of the dash, zero-width or byte-order-mark characters.
   */
  lemma ScrubNeverMakesHyphens(s: string)
    ensures Count(Scrub(s), '-') == Count(s, '-')
    ensures EnDash !in Scrub(s) && EmDash !in Scrub(s)
    ensures ZeroWidthSpace !in Scrub(s) && ZeroWidthNonJoiner !in Scrub(s)
    ensures ZeroWidthJoiner !in Scrub(s) && ByteOrderMark !in Scrub(s)
  {
    ScrubKeepsExactlyPrintable(s);
  }

  /** Scrubbing works character by character, so it distributes over concatenation. */
  lemma ScrubConcat(a: string, b: string)
    ensures Scrub(a + b) == Scrub(a) + Scrub(b)
  {
    ScrubIsKeepPrintable(a + b);
    ScrubIsKeepPrintable(a);
    ScrubIsKeepPrintable(b);
    KeepPrintableConcat(a, b);
  }
}
