/** String primitives with the JavaScript meaning the application relies on:
    substring search (`includes`, `indexOf`), prefix test (`startsWith`),
    first-occurrence replacement (`replace` with a string pattern),
    splitting on a separator (`split`), joining, and the decimal rendering
    of an integral number inside a template literal. */
module Text {
  import opened Wrappers

  // ---------------------------------------------------------------------------
  // Prefixes and substrings
  // ---------------------------------------------------------------------------

  /** `s.startsWith(p)` */
  predicate StartsWith(s: string, p: string) {
    |p| <= |s| && s[..|p|] == p
  }

  /** `s.endsWith(p)` */
  predicate EndsWith(s: string, p: string) {
    |p| <= |s| && s[|s| - |p|..] == p
  }

  lemma PrefixOfConcat(a: string, b: string)
    ensures StartsWith(a + b, a)
  {
    assert (a + b)[..|a|] == a;
  }

  lemma SuffixOfConcat(a: string, b: string)
    ensures EndsWith(a + b, b)
  {
    assert (a + b)[|a|..] == b;
  }

  lemma StartsWithTransitive(s: string, p: string, q: string)
    requires StartsWith(s, p) && StartsWith(p, q)
    ensures StartsWith(s, q)
  {
    assert s[..|q|] == s[..|p|][..|q|];
  }

  lemma StartsWithIndex(s: string, p: string, i: int)
    requires StartsWith(s, p) && 0 <= i < |p|
    ensures s[i] == p[i]
  {
    assert s[..|p|][i] == p[i];
  }

  lemma StartsWithAt(s: string, p: string, k: int, i: int)
    requires 0 <= k <= |s| && StartsWith(s[k..], p) && 0 <= i < |p|
    ensures s[k + i] == p[i]
  {
    StartsWithIndex(s[k..], p, i);
  }

  /** `s.includes(t)`: t occurs in s at some position (the empty string
      occurs everywhere). Defined by scanning s from the left. */
  predicate Contains(s: string, t: string)
    decreases |s|
  {
    StartsWith(s, t) || (|s| > 0 && Contains(s[1..], t))
  }

  /** The positional reading of Contains: some suffix of s starts with t. */
  ghost predicate OccursAt(s: string, t: string, i: int) {
    0 <= i <= |s| && StartsWith(s[i..], t)
  }

  lemma {:induction false} ContainsAt(s: string, t: string, i: int)
    requires OccursAt(s, t, i)
    ensures Contains(s, t)
    decreases i
  {
    if i > 0 {
      assert s[1..][i - 1..] == s[i..];
      ContainsAt(s[1..], t, i - 1);
    }
  }

  /** The scanning definition agrees with the positional one, both ways. */
  lemma {:induction false} ContainsIffOccurs(s: string, t: string)
    ensures Contains(s, t) <==> exists i :: OccursAt(s, t, i)
    decreases |s|
  {
    if Contains(s, t) {
      if StartsWith(s, t) {
        assert OccursAt(s, t, 0);
      } else {
        ContainsIffOccurs(s[1..], t);
        var j :| OccursAt(s[1..], t, j);
        assert s[1..][j..] == s[j + 1..];
        assert OccursAt(s, t, j + 1);
      }
    }
    if exists i :: OccursAt(s, t, i) {
      var i :| OccursAt(s, t, i);
      ContainsAt(s, t, i);
    }
  }

  lemma OccursAtOf(s: string, t: string) returns (i: int)
    requires Contains(s, t)
    ensures OccursAt(s, t, i)
  {
    ContainsIffOccurs(s, t);
    i :| OccursAt(s, t, i);
  }

  lemma ContainsSelf(s: string)
    ensures Contains(s, s)
  {
    assert OccursAt(s, s, 0);
    ContainsAt(s, s, 0);
  }

  /** Text found in b is still found after anything is put in front of b. */
  lemma ContainsPrepend(a: string, b: string, t: string)
    requires Contains(b, t)
    ensures Contains(a + b, t)
  {
    var i := OccursAtOf(b, t);
    assert (a + b)[|a| + i..] == b[i..];
    ContainsAt(a + b, t, |a| + i);
  }

  /** Text found in a is still found after anything is put behind a. */
  lemma ContainsAppend(a: string, b: string, t: string)
    requires Contains(a, t)
    ensures Contains(a + b, t)
  {
    var i := OccursAtOf(a, t);
    assert (a + b)[i..][..|t|] == a[i..][..|t|];
    ContainsAt(a + b, t, i);
  }

  /** Containment is transitive: a substring of a substring is a substring. */
  lemma ContainsTransitive(s: string, u: string, t: string)
    requires Contains(s, u) && Contains(u, t)
    ensures Contains(s, t)
  {
    var i := OccursAtOf(s, u);
    var j := OccursAtOf(u, t);
    forall k | 0 <= k < |t|
      ensures s[i + j..][k] == t[k]
    {
      assert s[i..][j + k] == u[j + k];
      assert u[j..][k] == t[k];
    }
    assert s[i + j..][..|t|] == t;
    ContainsAt(s, t, i + j);
  }

  // ---------------------------------------------------------------------------
  // First occurrence and replacement
  // ---------------------------------------------------------------------------

  /** `s.indexOf(pat)`, with `None` for -1. */
  function IndexOf(s: string, pat: string): (r: Option<nat>)
    ensures r.Some? ==> OccursAt(s, pat, r.value)
    ensures r.Some? ==> forall j :: 0 <= j < r.value ==> !StartsWith(s[j..], pat)
    ensures r.None? <==> !Contains(s, pat)
    decreases |s|
  {
    if StartsWith(s, pat) then Some(0)
    else if |s| == 0 then None
    else
      match IndexOf(s[1..], pat)
      case None => None
      case Some(i) =>
        assert s[1..][i..] == s[i + 1..];
        assert forall j :: 1 <= j <= i ==> s[1..][j - 1..] == s[j..];
        Some(i + 1)
  }

  /** `s.replace(pat, rep)` for a plain-string pattern: only the first
      occurrence is replaced; without one, s comes back unchanged. */
  function ReplaceFirst(s: string, pat: string, rep: string): (r: string)
    ensures !Contains(s, pat) ==> r == s
    ensures StartsWith(s, pat) ==> r == rep + s[|pat|..]
    ensures Contains(s, pat) ==> |r| == |s| - |pat| + |rep|
  {
    match IndexOf(s, pat)
    case None => s
    case Some(i) => s[..i] + rep + s[i + |pat|..]
  }

  // ---------------------------------------------------------------------------
  // Join and split
  // ---------------------------------------------------------------------------

  /** `parts.join(sep)` */
  function Join(parts: seq<string>, sep: string): string
    decreases |parts|
  {
    if |parts| == 0 then ""
    else if |parts| == 1 then parts[0]
    else parts[0] + sep + Join(parts[1..], sep)
  }

  lemma JoinStartsWith(parts: seq<string>, sep: string)
    requires |parts| > 0
    ensures StartsWith(Join(parts, sep), parts[0])
  {
    if |parts| > 1 {
      assert Join(parts, sep)[..|parts[0]|] == parts[0];
    }
  }

  /** Every part is found in the joined text. */
  lemma {:induction false} JoinContainsPart(parts: seq<string>, sep: string, k: int)
    requires 0 <= k < |parts|
    ensures Contains(Join(parts, sep), parts[k])
    decreases k
  {
    if k == 0 {
      JoinStartsWith(parts, sep);
      ContainsAt(Join(parts, sep), parts[0], 0);
    } else {
      JoinContainsPart(parts[1..], sep, k - 1);
      ContainsPrepend(parts[0] + sep, Join(parts[1..], sep), parts[k]);
    }
  }

  /** Two neighbouring parts are found together, with the separator between them. */
  lemma {:induction false} JoinContainsAdjacent(parts: seq<string>, sep: string, k: int)
    requires 0 <= k && k + 1 < |parts|
    ensures Contains(Join(parts, sep), parts[k] + sep + parts[k + 1])
    decreases k
  {
    var rest := Join(parts[1..], sep);
    if k == 0 {
      JoinStartsWith(parts[1..], sep);
      var tail := rest[|parts[1]|..];
      assert rest == parts[1] + tail;
      assert Join(parts, sep) == (parts[0] + sep + parts[1]) + tail;
      ContainsSelf(parts[0] + sep + parts[1]);
      ContainsAppend(parts[0] + sep + parts[1], tail, parts[0] + sep + parts[1]);
    } else {
      JoinContainsAdjacent(parts[1..], sep, k - 1);
      ContainsPrepend(parts[0] + sep, rest, parts[k] + sep + parts[k + 1]);
    }
  }

  /** Joining six parts writes the separator between each neighbouring pair. */
  lemma JoinSix(a: string, b: string, c: string, d: string, e: string, f: string, sep: string)
    ensures Join([a, b, c, d, e, f], sep) == a + sep + (b + sep + (c + sep + (d + sep + (e + sep + f))))
  {
    assert Join([f], sep) == f;
    assert [e, f][1..] == [f];
    assert Join([e, f], sep) == e + sep + f;
    assert [d, e, f][1..] == [e, f];
    assert Join([d, e, f], sep) == d + sep + Join([e, f], sep);
    assert [c, d, e, f][1..] == [d, e, f];
    assert Join([c, d, e, f], sep) == c + sep + Join([d, e, f], sep);
    assert [b, c, d, e, f][1..] == [c, d, e, f];
    assert Join([b, c, d, e, f], sep) == b + sep + Join([c, d, e, f], sep);
    assert [a, b, c, d, e, f][1..] == [b, c, d, e, f];
  }

  /** Number of occurrences of c in s. */
  function Count(s: string, c: char): nat
    decreases |s|
  {
    if |s| == 0 then 0 else (if s[0] == c then 1 else 0) + Count(s[1..], c)
  }

  /** `s.split('\n')`: the pieces between newlines, always at least one. */
  function SplitLines(s: string): (r: seq<string>)
    ensures |r| == Count(s, '\n') + 1
    ensures forall i :: 0 <= i < |r| ==> '\n' !in r[i]
    decreases |s|
  {
    if |s| == 0 then [""]
    else
      var rest := SplitLines(s[1..]);
      if s[0] == '\n' then [""] + rest
      else [[s[0]] + rest[0]] + rest[1..]
  }

  /** Joining the pieces with newlines gives back the text. */
  lemma {:induction false} SplitLinesJoin(s: string)
    ensures Join(SplitLines(s), "\n") == s
    decreases |s|
  {
    if |s| > 0 {
      var rest := SplitLines(s[1..]);
      SplitLinesJoin(s[1..]);
      if s[0] == '\n' {
        assert ([""] + rest)[1..] == rest;
      } else {
        var r := [[s[0]] + rest[0]] + rest[1..];
        if |rest| == 1 {
          assert Join(r, "\n") == [s[0]] + rest[0];
        } else {
          assert r[1..] == rest[1..];
          assert Join(r, "\n") == [s[0]] + (rest[0] + "\n" + Join(rest[1..], "\n"));
        }
      }
    }
  }

  lemma {:induction false} SplitLinesOfLine(a: string)
    requires '\n' !in a
    ensures SplitLines(a) == [a]
    decreases |a|
  {
    if |a| > 0 {
      assert '\n' !in a[1..] by {
        forall j | 0 <= j < |a[1..]| ensures a[1..][j] != '\n' {
          assert a[1..][j] == a[j + 1];
        }
      }
      SplitLinesOfLine(a[1..]);
      assert [a[0]] + a[1..] == a;
    }
  }

  lemma {:induction false} SplitLinesOfLineThen(a: string, rest: string)
    requires '\n' !in a
    ensures SplitLines(a + "\n" + rest) == [a] + SplitLines(rest)
    decreases |a|
  {
    var s := a + "\n" + rest;
    if |a| == 0 {
      assert s[1..] == rest;
    } else {
      assert '\n' !in a[1..] by {
        forall j | 0 <= j < |a[1..]| ensures a[1..][j] != '\n' {
          assert a[1..][j] == a[j + 1];
        }
      }
      assert s[1..] == a[1..] + "\n" + rest;
      SplitLinesOfLineThen(a[1..], rest);
      assert [a[0]] + a[1..] == a;
    }
  }

  /** Splitting newline-free lines joined by newlines gives back the lines. */
  lemma {:induction false} JoinSplitLines(lines: seq<string>)
    requires |lines| > 0
    requires forall i :: 0 <= i < |lines| ==> '\n' !in lines[i]
    ensures SplitLines(Join(lines, "\n")) == lines
    decreases |lines|
  {
    if |lines| == 1 {
      SplitLinesOfLine(lines[0]);
    } else {
      JoinSplitLines(lines[1..]);
      SplitLinesOfLineThen(lines[0], Join(lines[1..], "\n"));
      assert [lines[0]] + lines[1..] == lines;
    }
  }

  // ---------------------------------------------------------------------------
  // Decimal digits
  // ---------------------------------------------------------------------------

  /** The regular-expression class `\d`: ASCII digits only. */
  predicate IsDigit(c: char) {
    '0' <= c <= '9'
  }

  predicate AllDigits(s: string) {
    forall i :: 0 <= i < |s| ==> IsDigit(s[i])
  }

  function DigitChar(d: nat): (c: char)
    requires d < 10
    ensures IsDigit(c)
  {
    ['0', '1', '2', '3', '4', '5', '6', '7', '8', '9'][d]
  }

  function DigitValue(c: char): (d: nat)
    requires IsDigit(c)
    ensures d < 10
  {
    (c as int - '0' as int) as nat
  }

  /** Decimal spelling of a natural number, most significant digit first. */
  function NatToDecimal(n: nat): (r: string)
    ensures |r| > 0 && AllDigits(r)
    ensures r[0] == '0' ==> n == 0
    decreases n
  {
    if n < 10 then [DigitChar(n)] else NatToDecimal(n / 10) + [DigitChar(n % 10)]
  }

  /** Value of a string of decimal digits. */
  function DecimalValue(s: string): nat
    requires AllDigits(s)
    decreases |s|
  {
    if |s| == 0 then 0 else DecimalValue(s[..|s| - 1]) * 10 + DigitValue(s[|s| - 1])
  }

  lemma {:induction false} NatDecimalRoundTrip(n: nat)
    ensures DecimalValue(NatToDecimal(n)) == n
    decreases n
  {
    var r := NatToDecimal(n);
    if n >= 10 {
      NatDecimalRoundTrip(n / 10);
      assert r[..|r| - 1] == NatToDecimal(n / 10);
    }
  }

  /** `${n}` for an integral JavaScript number: its decimal spelling, with a
      leading minus sign when negative. */
  function IntToDecimal(n: int): (r: string)
  {
    if n < 0 then "-" + NatToDecimal(-n) else NatToDecimal(n)
  }

  /** Reading a decimal spelling back: optional minus sign, then digits. */
  function ParseDecimal(s: string): Option<int> {
    if |s| > 1 && s[0] == '-' && AllDigits(s[1..]) then Some(-(DecimalValue(s[1..]) as int))
    else if |s| > 0 && AllDigits(s) then Some(DecimalValue(s))
    else None
  }

  /** The decimal spelling loses nothing: it reads back as the same number,
      so two different numbers are never interpolated as the same text. */
  lemma IntDecimalRoundTrip(n: int)
    ensures ParseDecimal(IntToDecimal(n)) == Some(n)
  {
    if n < 0 {
      var d := NatToDecimal(-n);
      NatDecimalRoundTrip(-n);
      var s := "-" + d;
      assert IntToDecimal(n) == s;
      assert |s| > 1 && s[0] == '-';
      assert s[1..] == d;
      assert AllDigits(s[1..]);
      assert ParseDecimal(s) == Some(-(DecimalValue(d) as int));
    } else {
      var d := NatToDecimal(n);
      NatDecimalRoundTrip(n);
      assert IntToDecimal(n) == d;
      assert IsDigit(d[0]);
      assert !(|d| > 1 && d[0] == '-');
      assert ParseDecimal(d) == Some(DecimalValue(d) as int);
    }
  }

  lemma IntToDecimalInjective(m: int, n: int)
    ensures IntToDecimal(m) == IntToDecimal(n) ==> m == n
  {
    IntDecimalRoundTrip(m);
    IntDecimalRoundTrip(n);
  }
}
