/**
 * String helpers that stand for the JavaScript string and number built-ins the
 * core relies on: `String(n)`, `Number(s)`, `parseInt`, `padStart`, `split`,
 * `join`, `trim`, `replace`, `startsWith` and `includes`.
 */
module Text {
  import opened Wrappers

  // ---------------------------------------------------------------------------
  // Decimal digits

  predicate IsDigit(c: char) { '0' <= c <= '9' }

  predicate AllDigits(s: string) { forall i :: 0 <= i < |s| ==> IsDigit(s[i]) }

  function DigitValue(c: char): (d: nat)
    requires IsDigit(c)
    ensures d < 10
  {
    (c as int) - ('0' as int)
  }

  function DigitChar(d: nat): (c: char)
    requires d < 10
    ensures IsDigit(c) && DigitValue(c) == d
  {
    (('0' as int) + d) as char
  }

  /** The value of a string of decimal digits; the empty string reads as 0. */
  function ParseDigits(s: string): nat
    requires AllDigits(s)
  {
    if |s| == 0 then 0 else ParseDigits(s[..|s| - 1]) * 10 + DigitValue(s[|s| - 1])
  }

  /** `String(n)` for a non-negative integer: its decimal digits, no leading zero. */
  function NatToString(n: nat): (s: string)
    ensures AllDigits(s) && |s| >= 1
    ensures |s| > 1 ==> s[0] != '0'
  {
    if n < 10 then [DigitChar(n)] else NatToString(n / 10) + [DigitChar(n % 10)]
  }

  /** `String(n)` for any integer: a minus sign before the digits when negative. */
  function IntToString(n: int): string
  {
    if n < 0 then "-" + NatToString(-n) else NatToString(n)
  }

  /** Reading back the decimal text of `n` gives `n`. */
  lemma {:induction false} ParseNatToString(n: nat)
    ensures ParseDigits(NatToString(n)) == n
  {
    if n >= 10 {
      var s := NatToString(n / 10);
      ParseNatToString(n / 10);
      assert (s + [DigitChar(n % 10)])[..|s|] == s;
    }
  }

  lemma NatToStringInjective(m: nat, n: nat)
    ensures NatToString(m) == NatToString(n) ==> m == n
  {
    ParseNatToString(m);
    ParseNatToString(n);
  }

  /** Leading zeros do not change the value of a digit string. */
  lemma {:induction false} ParseLeadingZeros(k: nat, s: string)
    requires AllDigits(s)
    ensures AllDigits(Repeat('0', k) + s)
    ensures ParseDigits(Repeat('0', k) + s) == ParseDigits(s)
    decreases |s|
  {
    var t := Repeat('0', k) + s;
    assert forall i :: 0 <= i < |t| ==> IsDigit(t[i]) by {
      forall i | 0 <= i < |t| ensures IsDigit(t[i]) {
        if i >= k { assert t[i] == s[i - k]; }
      }
    }
    if |s| == 0 {
      assert t == Repeat('0', k);
      ParseZeros(k);
    } else {
      var init := s[..|s| - 1];
      assert t[..|t| - 1] == Repeat('0', k) + init;
      ParseLeadingZeros(k, init);
    }
  }

  lemma {:induction false} ParseZeros(k: nat)
    ensures AllDigits(Repeat('0', k)) && ParseDigits(Repeat('0', k)) == 0
  {
    if k > 0 {
      ParseZeros(k - 1);
      assert Repeat('0', k)[..k - 1] == Repeat('0', k - 1);
    }
  }

  // ---------------------------------------------------------------------------
  // Number conversions

  /**
   * `Number(s)` on the text between separators of a date or a time. Digit
   * strings are numbers, and so is the empty string, which JavaScript reads
   * as 0; every other string is NaN (None).
   */
  function JsNumber(s: string): (r: Option<nat>)
    ensures r.Some? <==> AllDigits(s)
    ensures s == "" ==> r == Some(0)
  {
    if AllDigits(s) then Some(ParseDigits(s)) else None
  }

  /** Length of the longest prefix of `s` made of digits. */
  function DigitPrefixLength(s: string): (k: nat)
    ensures k <= |s| && AllDigits(s[..k])
    ensures k < |s| ==> !IsDigit(s[k])
  {
    if |s| == 0 || !IsDigit(s[0]) then 0
    else
      var k := 1 + DigitPrefixLength(s[1..]);
      assert s[..k] == [s[0]] + s[1..][..k - 1];
      k
  }

  /** `parseInt(s, 10)` on unsigned text: the value of the leading digits, None (NaN) when there are none. */
  function ParseIntPrefix(s: string): (r: Option<nat>)
    ensures r.Some? <==> |s| > 0 && IsDigit(s[0])
  {
    var k := DigitPrefixLength(s);
    if k == 0 then None else Some(ParseDigits(s[..k]))
  }

  lemma ParseIntOfDigits(s: string)
    requires AllDigits(s) && |s| > 0
    ensures ParseIntPrefix(s) == Some(ParseDigits(s))
  {
    var k := DigitPrefixLength(s);
    assert k == |s|;
    assert s[..k] == s;
  }

  // ---------------------------------------------------------------------------
  // Padding

  function Repeat(c: char, n: nat): (r: string)
    ensures |r| == n && forall i :: 0 <= i < n ==> r[i] == c
  {
    if n == 0 then "" else Repeat(c, n - 1) + [c]
  }

  /** `s.padStart(width, c)`. */
  function PadStart(s: string, width: nat, c: char): (r: string)
    ensures |r| == if |s| >= width then |s| else width
    ensures r[|r| - |s|..] == s
    ensures forall i :: 0 <= i < |r| - |s| ==> r[i] == c
  {
    if |s| >= width then s else Repeat(c, width - |s|) + s
  }

  /** `String(n).padStart(2, '0')`: at least two characters, and it still reads as `n`. */
  lemma PaddedReadsBack(n: nat)
    ensures |PadStart(NatToString(n), 2, '0')| >= 2
    ensures AllDigits(PadStart(NatToString(n), 2, '0'))
    ensures ParseDigits(PadStart(NatToString(n), 2, '0')) == n
    ensures n < 100 ==> |PadStart(NatToString(n), 2, '0')| == 2
  {
    var s := NatToString(n);
    var p := PadStart(s, 2, '0');
    ParseNatToString(n);
    if |s| < 2 {
      assert p == Repeat('0', 2 - |s|) + s;
      ParseLeadingZeros(2 - |s|, s);
    } else {
      assert p == s;
    }
    if n < 100 {
      TwoDigitsAtMost(n);
    }
  }

  /** A number below 100 is written with at most two digits. */
  lemma TwoDigitsAtMost(n: nat)
    requires n < 100
    ensures |NatToString(n)| <= 2
  {
    if n >= 10 {
      assert NatToString(n) == NatToString(n / 10) + [DigitChar(n % 10)];
      assert |NatToString(n / 10)| == 1;
    }
  }

  // ---------------------------------------------------------------------------
  // Prefixes, substrings, replacement

  /** Texts that differ only in their middle part differ. */
  lemma InfixInjective(prefix: string, a: string, b: string, suffix: string)
    requires a != b
    ensures prefix + a + suffix != prefix + b + suffix
  {
    var x, y := prefix + a + suffix, prefix + b + suffix;
    if |a| == |b| {
      assert x[|prefix|..|prefix| + |a|] == a;
      assert y[|prefix|..|prefix| + |b|] == b;
    } else {
      assert |x| != |y|;
    }
  }

  predicate StartsWith(s: string, prefix: string)
  {
    |prefix| <= |s| && s[..|prefix|] == prefix
  }

  /** `s.includes(p)`. */
  predicate Contains(s: string, p: string)
    decreases |s|
  {
    StartsWith(s, p) || (|s| > 0 && Contains(s[1..], p))
  }

  /** Index of the first occurrence of `p` in `s`. */
  function IndexOf(s: string, p: string): (r: Option<nat>)
    ensures r.Some? ==> r.value + |p| <= |s| && s[r.value..r.value + |p|] == p
    ensures StartsWith(s, p) ==> r == Some(0)
    decreases |s|
  {
    if StartsWith(s, p) then Some(0)
    else if |s| == 0 then None
    else match IndexOf(s[1..], p)
      case None => None
      case Some(i) =>
        assert s[1..][i..i + |p|] == s[i + 1..i + 1 + |p|];
        Some(i + 1)
  }

  /** `s.replace(p, r)` with a string pattern: only the first occurrence is replaced. */
  function ReplaceFirst(s: string, p: string, r: string): string
  {
    match IndexOf(s, p)
    case None => s
    case Some(i) => s[..i] + r + s[i + |p|..]
  }

  lemma ReplacePrefix(p: string, rest: string)
    ensures ReplaceFirst(p + rest, p, "") == rest
  {
    assert StartsWith(p + rest, p);
    assert (p + rest)[|p|..] == rest;
  }

  /** `s.replace(/a/g, b)` for one character. */
  function ReplaceAll(s: string, a: char, b: char): (r: string)
    ensures |r| == |s|
    ensures forall i :: 0 <= i < |s| ==> r[i] == (if s[i] == a then b else s[i])
  {
    if |s| == 0 then "" else [if s[0] == a then b else s[0]] + ReplaceAll(s[1..], a, b)
  }

  // ---------------------------------------------------------------------------
  // Split and join

  /** `s.split(sep)` for a one-character separator: never empty, pieces never hold `sep`. */
  function Split(s: string, sep: char): (r: seq<string>)
    ensures |r| >= 1
    ensures forall k :: 0 <= k < |r| ==> sep !in r[k]
    decreases |s|
  {
    if |s| == 0 then [""]
    else
      var rest := Split(s[1..], sep);
      if s[0] == sep then [""] + rest
      else [[s[0]] + rest[0]] + rest[1..]
  }

  /** `parts.join(sep)` for a one-character separator. */
  function Join(parts: seq<string>, sep: char): string
  {
    if |parts| == 0 then ""
    else if |parts| == 1 then parts[0]
    else parts[0] + [sep] + Join(parts[1..], sep)
  }

  /** Splitting and joining again on the same separator gives the text back. */
  lemma {:induction false} JoinSplit(s: string, sep: char)
    ensures Join(Split(s, sep), sep) == s
    decreases |s|
  {
    if |s| > 0 {
      var rest := Split(s[1..], sep);
      JoinSplit(s[1..], sep);
      if s[0] == sep {
        assert Split(s, sep) == [""] + rest;
        assert ([""] + rest)[1..] == rest;
      } else {
        var r := Split(s, sep);
        assert r == [[s[0]] + rest[0]] + rest[1..];
        if |rest| == 1 {
          assert Join(r, sep) == [s[0]] + rest[0];
        } else {
          assert r[1..] == rest[1..];
          assert Join(rest, sep) == rest[0] + [sep] + Join(rest[1..], sep);
        }
      }
    }
  }

  /** Every character of `s` other than `sep` lies in some piece of the split. */
  lemma {:induction false} SplitCovers(s: string, sep: char, i: nat)
    requires i < |s| && s[i] != sep
    ensures exists k :: 0 <= k < |Split(s, sep)| && s[i] in Split(s, sep)[k]
    decreases |s|
  {
    var r := Split(s, sep);
    var rest := Split(s[1..], sep);
    if i == 0 {
      assert r[0] == [s[0]] + rest[0];
      assert s[0] in r[0];
    } else {
      SplitCovers(s[1..], sep, i - 1);
      var k :| 0 <= k < |rest| && s[1..][i - 1] in rest[k];
      if s[0] == sep {
        assert r[k + 1] == rest[k];
      } else if k == 0 {
        assert r[0] == [s[0]] + rest[0];
      } else {
        assert r[k] == rest[k];
      }
    }
  }

  /** Every character of a piece of the split comes from the text. */
  lemma {:induction false} SplitChars(s: string, sep: char, k: nat, c: char)
    requires k < |Split(s, sep)| && c in Split(s, sep)[k]
    ensures c in s
    decreases |s|
  {
    var r := Split(s, sep);
    if |s| > 0 {
      var rest := Split(s[1..], sep);
      if s[0] == sep {
        assert k > 0 && r[k] == rest[k - 1];
        SplitChars(s[1..], sep, k - 1, c);
      } else if k == 0 {
        assert r[0] == [s[0]] + rest[0];
        if c != s[0] {
          SplitChars(s[1..], sep, 0, c);
        }
      } else {
        assert r[k] == rest[k];
        SplitChars(s[1..], sep, k, c);
      }
    }
  }

  /** A text without the separator splits into itself alone. */
  lemma {:induction false} SplitNoSeparator(s: string, sep: char)
    requires sep !in s
    ensures Split(s, sep) == [s]
    decreases |s|
  {
    if |s| > 0 {
      SplitNoSeparator(s[1..], sep);
      assert [s[0]] + s[1..] == s;
    }
  }

  /** A text made of a first line, the separator and the rest splits into that line and the rest's pieces. */
  lemma {:induction false} SplitFirstLine(line: string, sep: char, rest: string)
    requires sep !in line
    ensures Split(line + [sep] + rest, sep) == [line] + Split(rest, sep)
    decreases |line|
  {
    var s := line + [sep] + rest;
    if |line| == 0 {
      assert s == [sep] + rest;
      assert s[1..] == rest;
    } else {
      assert s[1..] == line[1..] + [sep] + rest;
      SplitFirstLine(line[1..], sep, rest);
      assert [line[0]] + line[1..] == line;
    }
  }

  /** Splitting `a + [sep] + b` where neither part holds the separator gives `[a, b]`. */
  lemma SplitAround(a: string, b: string, sep: char)
    requires sep !in a && sep !in b
    ensures Split(a + [sep] + b, sep) == [a, b]
  {
    SplitFirstLine(a, sep, b);
    SplitNoSeparator(b, sep);
  }

  // ---------------------------------------------------------------------------
  // Whitespace

  /** The white-space and line-terminator characters `String.prototype.trim` removes. */
  predicate IsWhitespace(c: char)
  {
    c == ' ' || c == '\t' || c == '\n' || c == '\r' || c == '\U{000B}' || c == '\U{000C}'
    || c == '\U{00A0}' || c == '\U{1680}' || ('\U{2000}' <= c <= '\U{200A}')
    || c == '\U{2028}' || c == '\U{2029}' || c == '\U{202F}' || c == '\U{205F}'
    || c == '\U{3000}' || c == '\U{FEFF}'
  }

  predicate IsBlank(s: string) { forall i :: 0 <= i < |s| ==> IsWhitespace(s[i]) }

  function TrimStart(s: string): (r: string)
    ensures |r| <= |s| && r == s[|s| - |r|..]
    ensures |r| > 0 ==> !IsWhitespace(r[0])
    ensures IsBlank(s[..|s| - |r|])
  {
    if |s| == 0 || !IsWhitespace(s[0]) then s
    else
      var r := TrimStart(s[1..]);
      assert s[..|s| - |r|] == [s[0]] + s[1..][..|s| - 1 - |r|];
      r
  }

  function TrimEnd(s: string): (r: string)
    ensures |r| <= |s| && r == s[..|r|]
    ensures |r| > 0 ==> !IsWhitespace(r[|r| - 1])
    ensures IsBlank(s[|r|..])
  {
    if |s| == 0 || !IsWhitespace(s[|s| - 1]) then s
    else
      var r := TrimEnd(s[..|s| - 1]);
      assert s[|r|..] == s[..|s| - 1][|r|..] + [s[|s| - 1]];
      r
  }

  /** `s.trim()`: the text between the leading and the trailing white space. */
  function Trim(s: string): (r: string)
    ensures |r| > 0 ==> !IsWhitespace(r[0]) && !IsWhitespace(r[|r| - 1])
  {
    TrimStart(TrimEnd(s))
  }

  /** `s.trim()` is empty exactly when `s` is all white space. */
  lemma TrimEmptyIffBlank(s: string)
    ensures Trim(s) == "" <==> IsBlank(s)
  {
    var e := TrimEnd(s);
    var r := TrimStart(e);
    if r == "" {
      assert IsBlank(e) by {
        assert e[..|e| - |r|] == e;
      }
      assert |e| == 0;
      assert forall i :: 0 <= i < |s| ==> IsWhitespace(s[i]) by {
        forall i | 0 <= i < |s| ensures IsWhitespace(s[i]) {
          assert s[i] == s[|e|..][i];
        }
      }
    } else {
      assert r == e[|e| - |r|..];
      assert r[0] == e[|e| - |r|] == s[|e| - |r|];
    }
  }

  /** A piece holding a non-white-space character does not trim to nothing. */
  lemma TrimKeepsVisible(s: string, c: char)
    requires c in s && !IsWhitespace(c)
    ensures Trim(s) != ""
  {
    TrimEmptyIffBlank(s);
  }

  /** `[a, b, ...].filter(Boolean).join(' ')`: the non-empty words, separated by single spaces. */
  function JoinWords(words: seq<string>): string
  {
    if |words| == 0 then ""
    else if words[0] == "" then JoinWords(words[1..])
    else
      var rest := JoinWords(words[1..]);
      if rest == "" then words[0] else words[0] + " " + rest
  }
}
