/**
 * String operations the Python source relies on, defined over seq<char>:
 * str.split with a one-character separator, "sep".join, the last segment of
 * a split, ASCII lower-casing, str.replace and rstrip.
 */
module Text {

  /** Number of occurrences of c in s. */
  function Count(s: string, c: char): nat
  {
    if s == [] then 0 else (if s[0] == c then 1 else 0) + Count(s[1..], c)
  }

  /** Python's s.split(sep) for a one-character separator: never empty, empty pieces kept. */
  function Split(s: string, sep: char): (parts: seq<string>)
    ensures |parts| >= 1
  {
    if s == [] then [""]
    else
      var rest := Split(s[1..], sep);
      if s[0] == sep then [""] + rest else [[s[0]] + rest[0]] + rest[1..]
  }

  /** Python's sep.join(parts) for a one-character separator. */
  function Join(parts: seq<string>, sep: char): string
  {
    if parts == [] then ""
    else if |parts| == 1 then parts[0]
    else parts[0] + [sep] + Join(parts[1..], sep)
  }

  /** Python's sep.join(parts) for a separator of any length. */
  function JoinBy(parts: seq<string>, sep: string): string
  {
    if parts == [] then ""
    else if |parts| == 1 then parts[0]
    else parts[0] + sep + JoinBy(parts[1..], sep)
  }

  /** Python's s.split(sep)[-1]: the text after the last separator, or s itself. */
  function LastSegment(s: string, sep: char): string
  {
    var parts := Split(s, sep);
    parts[|parts| - 1]
  }

  lemma {:induction false} SplitPieces(s: string, sep: char)
    ensures |Split(s, sep)| == Count(s, sep) + 1
    ensures forall i :: 0 <= i < |Split(s, sep)| ==> sep !in Split(s, sep)[i]
  {
    if s != [] {
      SplitPieces(s[1..], sep);
    }
  }

  /** Joining the pieces of a split with the same separator gives back the original text. */
  lemma {:induction false} JoinSplit(s: string, sep: char)
    ensures Join(Split(s, sep), sep) == s
  {
    if s != [] {
      JoinSplit(s[1..], sep);
      var rest := Split(s[1..], sep);
      if s[0] == sep {
        assert Split(s, sep) == [""] + rest;
        assert Join([""] + rest, sep) == "" + [sep] + Join(rest, sep);
      } else {
        var p := [s[0]] + rest[0];
        if |rest| == 1 {
          assert Split(s, sep) == [p];
        } else {
          assert ([p] + rest[1..])[1..] == rest[1..];
          assert Join(rest, sep) == rest[0] + [sep] + Join(rest[1..], sep);
        }
      }
    }
  }

  /** Splitting a join of separator-free pieces gives back the pieces. */
  lemma {:induction false} SplitJoin(parts: seq<string>, sep: char)
    requires |parts| >= 1
    requires forall i :: 0 <= i < |parts| ==> sep !in parts[i]
    ensures Split(Join(parts, sep), sep) == parts
  {
    if |parts| == 1 {
      SplitNoSep(parts[0], sep);
    } else {
      SplitJoin(parts[1..], sep);
      SplitPrefix(parts[0], Join(parts[1..], sep), sep);
      assert [parts[0]] + parts[1..] == parts;
    }
  }

  lemma {:induction false} SplitNoSep(s: string, sep: char)
    requires sep !in s
    ensures Split(s, sep) == [s]
  {
    if s != [] {
      assert sep !in s[1..] by {
        forall i | 0 <= i < |s[1..]| ensures s[1..][i] != sep { assert s[1..][i] == s[i + 1]; }
      }
      SplitNoSep(s[1..], sep);
      assert [s[0]] + s[1..] == s;
    }
  }

  lemma {:induction false} CountPositive(s: string, c: char)
    requires c in s
    ensures Count(s, c) > 0
  {
    if s[0] != c {
      assert c in s[1..] by {
        var i :| 0 <= i < |s| && s[i] == c;
        assert s[1..][i - 1] == c;
      }
      CountPositive(s[1..], c);
    }
  }

  /** Splitting p + sep + t, where p has no separator, yields p followed by the pieces of t. */
  lemma {:induction false} SplitPrefix(p: string, t: string, sep: char)
    requires sep !in p
    ensures Split(p + [sep] + t, sep) == [p] + Split(t, sep)
  {
    if p == [] {
      assert p + [sep] + t == [sep] + t;
      assert ([sep] + t)[1..] == t;
    } else {
      assert (p + [sep] + t)[1..] == p[1..] + [sep] + t;
      SplitPrefix(p[1..], t, sep);
      assert [p[0]] + p[1..] == p;
    }
  }

  /** The last segment carries no separator and is a suffix of s; if s holds a separator, one precedes it. */
  lemma LastSegmentShape(s: string, sep: char)
    ensures var r := LastSegment(s, sep);
      sep !in r && |r| <= |s| && s[|s| - |r|..] == r &&
      (sep in s ==> |r| < |s| && s[|s| - |r| - 1] == sep) &&
      (sep !in s ==> r == s)
  {
    SplitPieces(s, sep);
    JoinSplit(s, sep);
    var parts := Split(s, sep);
    JoinLast(parts, sep);
    if sep !in s {
      SplitNoSep(s, sep);
    } else {
      CountPositive(s, sep);
    }
  }

  lemma {:induction false} JoinLast(parts: seq<string>, sep: char)
    requires |parts| >= 1
    ensures var j := Join(parts, sep); var r := parts[|parts| - 1];
      |r| <= |j| && j[|j| - |r|..] == r &&
      (|parts| > 1 ==> |r| < |j| && j[|j| - |r| - 1] == sep)
  {
    if |parts| > 1 {
      JoinLast(parts[1..], sep);
    }
  }

  /** A separator splits a text into the pieces before it and the pieces after it. */
  lemma {:induction false} SplitConcat(x: string, t: string, sep: char)
    ensures Split(x + [sep] + t, sep) == Split(x, sep) + Split(t, sep)
  {
    if x == [] {
      assert x + [sep] + t == [sep] + t;
      assert ([sep] + t)[1..] == t;
    } else {
      assert (x + [sep] + t)[1..] == x[1..] + [sep] + t;
      SplitConcat(x[1..], t, sep);
    }
  }

  /** The last segment of x + sep + t is t when t holds no separator. */
  lemma LastSegmentConcat(x: string, t: string, sep: char)
    requires sep !in t
    ensures LastSegment(x + [sep] + t, sep) == t
  {
    SplitConcat(x, t, sep);
    SplitNoSep(t, sep);
  }

  /** The last segment of a text without separator is the text itself. */
  lemma LastSegmentNoSep(s: string, sep: char)
    requires sep !in s
    ensures LastSegment(s, sep) == s
  {
    SplitNoSep(s, sep);
  }

  /** ASCII lower-casing of one character. */
  function LowerChar(c: char): char
  {
    if 'A' <= c <= 'Z' then (c as int + 32) as char else c
  }

  /** Python's s.lower() restricted to ASCII letters. */
  function Lower(s: string): (r: string)
    ensures |r| == |s|
    ensures forall i :: 0 <= i < |s| ==> r[i] == LowerChar(s[i])
  {
    if s == [] then [] else [LowerChar(s[0])] + Lower(s[1..])
  }

  /** Python's s.replace(pat, rep): leftmost, non-overlapping occurrences. */
  function ReplaceAll(s: string, pat: string, rep: string): string
    requires |pat| > 0
  {
    if |s| < |pat| then s
    else if pat <= s then rep + ReplaceAll(s[|pat|..], pat, rep)
    else [s[0]] + ReplaceAll(s[1..], pat, rep)
  }

  /** pat occurs somewhere in s: Python's `pat in s`. */
  predicate Occurs(pat: string, s: string)
  {
    exists i :: 0 <= i <= |s| - |pat| && pat <= s[i..]
  }

  /** A pattern holding a character the text lacks does not occur in it. */
  lemma OccursMissingChar(s: string, pat: string, c: char)
    requires c in pat && c !in s
    ensures !Occurs(pat, s)
  {
    forall i | 0 <= i <= |s| - |pat|
      ensures !(pat <= s[i..])
    {
      PrefixKeepsChar(pat, s[i..], c);
    }
  }

  /** A character of a prefix is a character of the whole. */
  lemma PrefixKeepsChar(p: string, t: string, c: char)
    ensures c in p && p <= t ==> c in t
  {
    if c in p && p <= t {
      var k :| 0 <= k < |p| && p[k] == c;
      assert t[k] == c;
    }
  }

  /** A pattern found at position i occurs. */
  lemma OccursAt(s: string, pat: string, i: nat)
    requires i + |pat| <= |s| && s[i..i + |pat|] == pat
    ensures Occurs(pat, s)
  {
    assert pat <= s[i..];
  }

  /** A text without an occurrence of the pattern is left unchanged by replace. */
  lemma {:induction false} ReplaceAllAbsent(s: string, pat: string, rep: string)
    requires |pat| > 0 && !Occurs(pat, s)
    ensures ReplaceAll(s, pat, rep) == s
  {
    if |s| >= |pat| {
      assert s[0..] == s;
      assert !(pat <= s);
      ReplaceAllAbsent(s[1..], pat, rep);
    }
  }

  /** A text that starts with the pattern has the replacement first, then the rest replaced. */
  lemma ReplaceAllLeading(pat: string, x: string, rep: string)
    requires |pat| > 0
    ensures ReplaceAll(pat + x, pat, rep) == rep + ReplaceAll(x, pat, rep)
  {
    assert pat <= pat + x;
    assert (pat + x)[|pat|..] == x;
  }

  /**
   * Replacing in a + b replaces in b only, when a holds no occurrence and none can
   * straddle the boundary: either a's last character is not in the pattern, or b starts
   * with the pattern's first character and that character occurs in the pattern only first.
   */
  lemma {:induction false} ReplaceAllConcat(a: string, b: string, pat: string, rep: string)
    requires |pat| > 0 && !Occurs(pat, a)
    requires (a == [] || a[|a| - 1] !in pat) || (|b| > 0 && b[0] == pat[0] && pat[0] !in pat[1..])
    ensures ReplaceAll(a + b, pat, rep) == a + ReplaceAll(b, pat, rep)
  {
    if a == [] {
      assert a + b == b;
    } else {
      var s := a + b;
      if |s| < |pat| {
        assert ReplaceAll(b, pat, rep) == b;
      } else {
        NoMatchAtStart(a, b, pat);
        assert ReplaceAll(s, pat, rep) == [s[0]] + ReplaceAll(s[1..], pat, rep);
        assert s[1..] == a[1..] + b;
        OccursTail(pat, a);
        assert a[1..] == [] || a[1..][|a[1..]| - 1] == a[|a| - 1];
        ReplaceAllConcat(a[1..], b, pat, rep);
        var r := ReplaceAll(b, pat, rep);
        assert s[0] == a[0] && [a[0]] + a[1..] == a;
        assert [a[0]] + (a[1..] + r) == a + r;
      }
    }
  }

  /** Under the conditions of ReplaceAllConcat, a + b does not start with the pattern. */
  lemma NoMatchAtStart(a: string, b: string, pat: string)
    requires |pat| > 0 && !Occurs(pat, a) && a != [] && |a + b| >= |pat|
    requires a[|a| - 1] !in pat || (|b| > 0 && b[0] == pat[0] && pat[0] !in pat[1..])
    ensures !(pat <= a + b)
  {
    var s := a + b;
    if |pat| <= |a| {
      assert a[0..] == a;
      assert !(pat <= a);
      assert s[..|pat|] == a[..|pat|];
    } else if a[|a| - 1] !in pat {
      assert s[|a| - 1] == a[|a| - 1];
      assert pat[|a| - 1] != s[|a| - 1];
    } else {
      assert pat[1..][|a| - 1] == pat[|a|];
      assert pat[|a|] != s[|a|];
    }
  }

  /** A text without an occurrence of the pattern has none after its first character either. */
  lemma OccursTail(pat: string, a: string)
    requires a != [] && !Occurs(pat, a)
    ensures !Occurs(pat, a[1..])
  {
    forall i | 0 <= i <= |a[1..]| - |pat|
      ensures !(pat <= a[1..][i..])
    {
      assert a[1..][i..] == a[i + 1..];
    }
  }

  /** Python's s.rstrip(c): every trailing c removed. */
  function StripTrailing(s: string, c: char): (r: string)
    ensures |r| <= |s| && r == s[..|r|]
    ensures r == [] || r[|r| - 1] != c
    ensures forall i :: |r| <= i < |s| ==> s[i] == c
  {
    if s == [] || s[|s| - 1] != c then s else StripTrailing(s[..|s| - 1], c)
  }

  /** The decimal digit character of 0 <= d < 10. */
  function DigitChar(d: nat): (c: char)
    requires d < 10
    ensures '0' <= c <= '9'
  {
    ('0' as int + d) as char
  }

  /** Python's str(n) for a natural number: its decimal digits, most significant first. */
  function Decimal(n: nat): (r: string)
    ensures |r| > 0 && forall i :: 0 <= i < |r| ==> '0' <= r[i] <= '9'
  {
    if n < 10 then [DigitChar(n)] else Decimal(n / 10) + [DigitChar(n % 10)]
  }

  /** The value of a string of decimal digits. */
  function DecimalValue(s: string): nat
    requires forall i :: 0 <= i < |s| ==> '0' <= s[i] <= '9'
  {
    if s == [] then 0 else DecimalValue(s[..|s| - 1]) * 10 + (s[|s| - 1] as int - '0' as int)
  }

  /** Reading back the decimal rendering of n gives n. */
  lemma {:induction false} DecimalRoundTrip(n: nat)
    ensures DecimalValue(Decimal(n)) == n
  {
    if n >= 10 {
      DecimalRoundTrip(n / 10);
      var r := Decimal(n);
      assert r[..|r| - 1] == Decimal(n / 10);
    }
  }

  /** Python's str(i) for any integer: a leading '-' for negative values. */
  function IntText(i: int): (r: string)
    ensures |r| > 0
    ensures i >= 0 ==> r == Decimal(i)
    ensures i < 0 ==> r == "-" + Decimal(-i)
  {
    if i < 0 then "-" + Decimal(-i) else Decimal(i)
  }

  /**
   * Python's str.isspace for one character: the 29 code points of Unicode's whitespace
   * (bidirectional class WS, B or S, or general category Zs), which str.strip() removes.
   */
  predicate IsSpace(c: char)
  {
    ('\t' <= c <= '\r') || ('\U{001C}' <= c <= ' ') || c == '\U{0085}' || c == '\U{00A0}' || c == '\U{1680}' ||
    ('\U{2000}' <= c <= '\U{200A}') || c == '\U{2028}' || c == '\U{2029}' || c == '\U{202F}' || c == '\U{205F}' ||
    c == '\U{3000}'
  }

  /** str.strip(): leading and trailing whitespace removed. */
  function Strip(s: string): (r: string)
    ensures |r| <= |s|
    ensures r == [] <==> forall i :: 0 <= i < |s| ==> IsSpace(s[i])
    decreases |s|
  {
    if s == [] then s
    else if IsSpace(s[0]) then Strip(s[1..])
    else if IsSpace(s[|s| - 1]) then Strip(s[..|s| - 1])
    else s
  }

}
