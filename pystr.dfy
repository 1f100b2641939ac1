/** The Python string built-ins that the scripts rely on: `str.strip()` with no
    argument, `str.lower()` and `str()` of an integer. `JoinLines` is how the
    model writes a multi-line f-string, one template line at a time, and
    `SplitLines` cuts a text at its line breaks so that a printed ID card can
    be read back. */
module PyStr {

  /** The characters for which Python's `str.isspace()` is true: tab to
      carriage return, the separators 0x1C to 0x1F, the space, NEL, no-break
      space, the Unicode space separators (U+1680, U+2000 to U+200A, U+202F,
      U+205F, U+3000), and the line separator U+2028 and paragraph separator
      U+2029. `strip()` with no argument removes exactly these from both ends
      of a string. */
  predicate IsSpace(c: char)
  {
    ('\t' <= c <= '\r') || ('\U{1C}' <= c <= ' ') || c == '\U{85}' || c == '\U{A0}'
    || c == '\U{1680}' || ('\U{2000}' <= c <= '\U{200A}') || c == '\U{2028}'
    || c == '\U{2029}' || c == '\U{202F}' || c == '\U{205F}' || c == '\U{3000}'
  }

  predicate AllSpaces(s: string)
  {
    forall k :: 0 <= k < |s| ==> IsSpace(s[k])
  }

  /** Neither end of `s` is whitespace: what `strip()` guarantees of its result. */
  predicate NoEdgeSpace(s: string)
  {
    s == [] || (!IsSpace(s[0]) && !IsSpace(s[|s| - 1]))
  }

  /** How many whitespace characters `s` starts with: the index of its first
      non-whitespace character, or `|s|` when there is none. */
  function LeadingSpaces(s: string): (n: nat)
    ensures n <= |s|
  {
    if s != [] && IsSpace(s[0]) then LeadingSpaces(s[1..]) + 1 else 0
  }

  /** The leading whitespace is whitespace, and stops at a character that is not. */
  lemma {:induction false} LeadingSpacesStop(s: string)
    ensures forall k :: 0 <= k < LeadingSpaces(s) ==> IsSpace(s[k])
    ensures LeadingSpaces(s) < |s| ==> !IsSpace(s[LeadingSpaces(s)])
    decreases |s|
  {
    if s != [] && IsSpace(s[0]) {
      LeadingSpacesStop(s[1..]);
      assert forall k :: 1 <= k < LeadingSpaces(s) ==> s[k] == s[1..][k - 1];
    }
  }

  /** How many whitespace characters `s` ends with. */
  function TrailingSpaces(s: string): (n: nat)
    ensures n <= |s|
  {
    if s != [] && IsSpace(s[|s| - 1]) then TrailingSpaces(s[..|s| - 1]) + 1 else 0
  }

  /** The trailing whitespace is whitespace, and stops at a character that is not. */
  lemma {:induction false} TrailingSpacesStop(s: string)
    ensures forall k :: |s| - TrailingSpaces(s) <= k < |s| ==> IsSpace(s[k])
    ensures TrailingSpaces(s) < |s| ==> !IsSpace(s[|s| - TrailingSpaces(s) - 1])
    decreases |s|
  {
    if s != [] && IsSpace(s[|s| - 1]) {
      TrailingSpacesStop(s[..|s| - 1]);
      assert forall k :: |s| - TrailingSpaces(s) <= k < |s| - 1 ==> s[k] == s[..|s| - 1][k];
    }
  }

  /** The leading whitespace is characterised by where it stops: any `n` with
      only whitespace before it and none at it is `LeadingSpaces(s)`. */
  lemma {:induction false} LeadingSpacesUnique(s: string, n: nat)
    requires n <= |s|
    requires forall k :: 0 <= k < n ==> IsSpace(s[k])
    requires n < |s| ==> !IsSpace(s[n])
    ensures LeadingSpaces(s) == n
    decreases |s|
  {
    if n > 0 {
      assert forall k :: 0 <= k < n - 1 ==> s[1..][k] == s[k + 1];
      LeadingSpacesUnique(s[1..], n - 1);
    }
  }

  /** The trailing whitespace is characterised the same way, from the end. */
  lemma {:induction false} TrailingSpacesUnique(s: string, n: nat)
    requires n <= |s|
    requires forall k :: |s| - n <= k < |s| ==> IsSpace(s[k])
    requires n < |s| ==> !IsSpace(s[|s| - n - 1])
    ensures TrailingSpaces(s) == n
    decreases |s|
  {
    if n > 0 {
      var t := s[..|s| - 1];
      assert forall k :: |t| - (n - 1) <= k < |t| ==> t[k] == s[k];
      TrailingSpacesUnique(t, n - 1);
    }
  }

  /** `s.lstrip()`: `s` without its leading whitespace. */
  function TrimStart(s: string): (r: string)
    ensures r == [] || !IsSpace(r[0])
  {
    LeadingSpacesStop(s);
    s[LeadingSpaces(s)..]
  }

  /** `s.rstrip()`: `s` without its trailing whitespace. */
  function TrimEnd(s: string): (r: string)
    ensures r == [] || !IsSpace(r[|r| - 1])
  {
    TrailingSpacesStop(s);
    s[..|s| - TrailingSpaces(s)]
  }

  /** `s.strip()`: `s` without its leading and trailing whitespace. */
  function Strip(s: string): (r: string)
    ensures NoEdgeSpace(r)
  {
    TrimEnd(TrimStart(s))
  }

  lemma LeadingSpacesAreSpaces(s: string)
    ensures AllSpaces(s[..LeadingSpaces(s)])
  {
    LeadingSpacesStop(s);
    assert forall k :: 0 <= k < LeadingSpaces(s) ==> s[..LeadingSpaces(s)][k] == s[k];
  }

  lemma TrailingSpacesAreSpaces(s: string)
    ensures AllSpaces(s[|s| - TrailingSpaces(s)..])
  {
    TrailingSpacesStop(s);
    var n := |s| - TrailingSpaces(s);
    assert forall k :: 0 <= k < |s| - n ==> s[n..][k] == s[n + k];
  }

  /** `strip()` keeps the piece of `s` that starts after its leading whitespace. */
  lemma StripKeepsMiddle(s: string)
    ensures LeadingSpaces(s) + |Strip(s)| <= |s|
    ensures Strip(s) == s[LeadingSpaces(s)..LeadingSpaces(s) + |Strip(s)|]
  {
    var i := LeadingSpaces(s);
    var t := TrimStart(s);
    var j := |t| - TrailingSpaces(t);
    var r := Strip(s);
    assert r == t[..j] && |r| == j;
    assert forall k :: 0 <= k < j ==> r[k] == s[i + k];
    assert r == s[i..i + j];
  }

  /** Only whitespace surrounds, in `s`, the piece that `strip()` keeps. */
  lemma StripRemovesSpaces(s: string)
    ensures LeadingSpaces(s) + |Strip(s)| <= |s|
    ensures AllSpaces(s[..LeadingSpaces(s)])
    ensures AllSpaces(s[LeadingSpaces(s) + |Strip(s)|..])
  {
    var i := LeadingSpaces(s);
    var t := TrimStart(s);
    var j := |t| - TrailingSpaces(t);
    LeadingSpacesAreSpaces(s);
    TrailingSpacesAreSpaces(t);
    assert forall k :: 0 <= k < |s| - i - j ==> s[i + j..][k] == t[j..][k];
  }

  /** A string whose ends are not whitespace is left alone by `strip()`. */
  lemma StripNoEdgeSpace(s: string)
    requires NoEdgeSpace(s)
    ensures Strip(s) == s
  {
    if s != [] {
      LeadingSpacesUnique(s, 0);
      assert TrimStart(s) == s;
      TrailingSpacesUnique(s, 0);
    }
  }

  /** `strip()` is idempotent. */
  lemma StripIdempotent(s: string)
    ensures Strip(Strip(s)) == Strip(s)
  {
    StripNoEdgeSpace(Strip(s));
  }

  /** The leading whitespace of `a + b` runs into `b` only when `a` is all whitespace. */
  lemma LeadingSpacesConcat(a: string, b: string)
    ensures LeadingSpaces(a + b)
         == if LeadingSpaces(a) < |a| then LeadingSpaces(a) else |a| + LeadingSpaces(b)
  {
    var n := if LeadingSpaces(a) < |a| then LeadingSpaces(a) else |a| + LeadingSpaces(b);
    LeadingSpacesStop(a);
    LeadingSpacesStop(b);
    assert forall k :: 0 <= k < |a| ==> (a + b)[k] == a[k];
    assert forall k :: |a| <= k < |a + b| ==> (a + b)[k] == b[k - |a|];
    LeadingSpacesUnique(a + b, n);
  }

  /** The trailing whitespace of `a + b` runs into `a` only when `b` is all whitespace. */
  lemma TrailingSpacesConcat(a: string, b: string)
    ensures TrailingSpaces(a + b)
         == if TrailingSpaces(b) < |b| then TrailingSpaces(b) else |b| + TrailingSpaces(a)
  {
    var n := if TrailingSpaces(b) < |b| then TrailingSpaces(b) else |b| + TrailingSpaces(a);
    TrailingSpacesStop(a);
    TrailingSpacesStop(b);
    assert forall k :: 0 <= k < |a| ==> (a + b)[k] == a[k];
    assert forall k :: |a| <= k < |a + b| ==> (a + b)[k] == b[k - |a|];
    TrailingSpacesUnique(a + b, n);
  }

  /** Leading whitespace is invisible to `lstrip()`. */
  lemma TrimStartSpaces(pre: string, s: string)
    requires AllSpaces(pre)
    ensures TrimStart(pre + s) == TrimStart(s)
  {
    LeadingSpacesUnique(pre, |pre|);
    LeadingSpacesConcat(pre, s);
    assert (pre + s)[|pre| + LeadingSpaces(s)..] == s[LeadingSpaces(s)..];
  }

  /** Trailing whitespace is invisible to `rstrip()`. */
  lemma TrimEndSpaces(s: string, post: string)
    requires AllSpaces(post)
    ensures TrimEnd(s + post) == TrimEnd(s)
  {
    TrailingSpacesUnique(post, |post|);
    TrailingSpacesConcat(s, post);
    assert (s + post)[..|s| - TrailingSpaces(s)] == s[..|s| - TrailingSpaces(s)];
  }

  /** Trailing whitespace is invisible to `strip()`. */
  lemma StripSpacesAfter(s: string, post: string)
    requires AllSpaces(post)
    ensures Strip(s + post) == Strip(s)
  {
    var l := LeadingSpaces(s);
    LeadingSpacesConcat(s, post);
    if l < |s| {
      assert TrimStart(s + post) == TrimStart(s) + post;
      TrimEndSpaces(TrimStart(s), post);
    } else {
      LeadingSpacesUnique(post, |post|);
    }
  }

  /** Whitespace around a string is invisible to `strip()`: `"  RED "` strips to `"RED"`. */
  lemma StripPadding(pre: string, s: string, post: string)
    requires AllSpaces(pre) && AllSpaces(post)
    ensures Strip(pre + s + post) == Strip(s)
  {
    assert pre + s + post == pre + (s + post);
    TrimStartSpaces(pre, s + post);
    StripSpacesAfter(s, post);
  }

  /** `c.lower()` for the ASCII capital letters; every other character is left as is. */
  function LowerChar(c: char): char
  {
    if 'A' <= c <= 'Z' then (c as int - 'A' as int + 'a' as int) as char else c
  }

  /** `s.lower()`, character by character. */
  function Lower(s: string): (r: string)
    ensures |r| == |s|
    ensures forall k :: 0 <= k < |s| ==> r[k] == LowerChar(s[k])
  {
    if s == [] then [] else [LowerChar(s[0])] + Lower(s[1..])
  }

  predicate IsDigit(c: char)
  {
    '0' <= c <= '9'
  }

  function DigitChar(d: int): (c: char)
    requires 0 <= d < 10
    ensures IsDigit(c)
  {
    ('0' as int + d) as char
  }

  /** Decimal digits of `n`, most significant first, with no leading zero. */
  function NatToString(n: nat): (r: string)
    ensures |r| > 0 && forall k :: 0 <= k < |r| ==> IsDigit(r[k])
    ensures r[0] == '0' ==> n == 0
  {
    if n < 10 then [DigitChar(n)] else NatToString(n / 10) + [DigitChar(n % 10)]
  }

  /** The number a string of decimal digits denotes: the reference that
      `NatToString` is checked against. */
  function DigitsValue(s: string): nat
    requires forall k :: 0 <= k < |s| ==> IsDigit(s[k])
  {
    if s == [] then 0
    else
      assert IsDigit(s[|s| - 1]);
      DigitsValue(s[..|s| - 1]) * 10 + (s[|s| - 1] as int - '0' as int)
  }

  lemma {:induction false} NatToStringValue(n: nat)
    ensures DigitsValue(NatToString(n)) == n
  {
    if n >= 10 {
      var r := NatToString(n);
      assert r[..|r| - 1] == NatToString(n / 10);
      NatToStringValue(n / 10);
    }
  }

  /** `str(n)` for an integer `n`: a minus sign for negative numbers, then the digits. */
  function IntToString(n: int): (r: string)
    ensures |r| > 0 && (n < 0 <==> r[0] == '-')
    ensures n >= 0 ==> forall k :: 0 <= k < |r| ==> IsDigit(r[k])
    ensures n < 0 ==> forall k :: 1 <= k < |r| ==> IsDigit(r[k])
  {
    if n < 0 then "-" + NatToString(-n) else NatToString(n)
  }

  /** Different integers print differently. */
  lemma IntToStringInjective(a: int, b: int)
    requires IntToString(a) == IntToString(b)
    ensures a == b
  {
    if a < 0 {
      assert NatToString(-a) == IntToString(a)[1..] == IntToString(b)[1..] == NatToString(-b);
      NatToStringValue(-a);
      NatToStringValue(-b);
    } else {
      NatToStringValue(a);
      NatToStringValue(b);
    }
  }

  /** `"\n".join(lines)`. */
  function JoinLines(lines: seq<string>): string
  {
    if |lines| == 0 then "" else if |lines| == 1 then lines[0] else lines[0] + "\n" + JoinLines(lines[1..])
  }

  /** `s.split("\n")`: the pieces between line breaks, always at least one. */
  function SplitLines(s: string): (r: seq<string>)
    ensures |r| >= 1
  {
    if s == [] then [""]
    else
      var rest := SplitLines(s[1..]);
      if s[0] == '\n' then [""] + rest else [[s[0]] + rest[0]] + rest[1..]
  }

  lemma {:induction false} SplitLinesPrefix(a: string, t: string)
    requires '\n' !in a
    ensures SplitLines(a + t) == [a + SplitLines(t)[0]] + SplitLines(t)[1..]
    decreases |a|
  {
    if a != [] {
      assert (a + t)[0] == a[0] && a[0] != '\n';
      assert '\n' !in a[1..];
      assert (a + t)[1..] == a[1..] + t;
      SplitLinesPrefix(a[1..], t);
      assert [a[0]] + (a[1..] + SplitLines(t)[0]) == a + SplitLines(t)[0];
    } else {
      assert a + t == t && a + SplitLines(t)[0] == SplitLines(t)[0];
    }
  }

  /** Splitting undoes joining, as long as no line holds a line break. */
  lemma {:induction false} SplitJoinLines(lines: seq<string>)
    requires |lines| >= 1
    requires forall i :: 0 <= i < |lines| ==> '\n' !in lines[i]
    ensures SplitLines(JoinLines(lines)) == lines
  {
    if |lines| == 1 {
      SplitLinesPrefix(lines[0], "");
      assert lines[0] + "" == lines[0];
    } else {
      var rest := JoinLines(lines[1..]);
      assert lines[0] + "\n" + rest == lines[0] + ("\n" + rest);
      SplitLinesPrefix(lines[0], "\n" + rest);
      assert ("\n" + rest)[0] == '\n' && ("\n" + rest)[1..] == rest;
      assert SplitLines("\n" + rest) == [""] + SplitLines(rest);
      SplitJoinLines(lines[1..]);
      assert JoinLines(lines) == lines[0] + ("\n" + rest);
      assert SplitLines("\n" + rest)[0] == "" && SplitLines("\n" + rest)[1..] == lines[1..];
      assert lines[0] + "" == lines[0];
      assert lines == [lines[0]] + lines[1..];
    }
  }

  /** No piece that `split("\n")` returns holds a line break. */
  lemma {:induction false} SplitLinesNoBreak(s: string)
    ensures forall i :: 0 <= i < |SplitLines(s)| ==> '\n' !in SplitLines(s)[i]
  {
    if s != [] {
      SplitLinesNoBreak(s[1..]);
    }
  }

  /** Joining what `split("\n")` returns gives back the string that was split. */
  lemma {:induction false} JoinSplitLines(s: string)
    ensures JoinLines(SplitLines(s)) == s
  {
    if s != [] {
      var rest := SplitLines(s[1..]);
      JoinSplitLines(s[1..]);
      if s[0] == '\n' {
        assert SplitLines(s) == [""] + rest;
        assert JoinLines(SplitLines(s)) == "" + "\n" + JoinLines(rest);
        assert s == [s[0]] + s[1..];
      } else {
        JoinLinesFirst([s[0]], rest[0], rest[1..]);
        assert rest == [rest[0]] + rest[1..];
        assert s == [s[0]] + s[1..];
      }
    }
  }

  /** Text put in front of the first line of a join goes in front of the whole. */
  lemma JoinLinesFirst(x: string, y: string, tail: seq<string>)
    ensures JoinLines([x + y] + tail) == x + JoinLines([y] + tail)
  {
    if tail != [] {
      assert ([x + y] + tail)[1..] == tail;
      assert ([y] + tail)[1..] == tail;
    } else {
      assert [x + y] + tail == [x + y];
      assert [y] + tail == [y];
    }
  }
}
