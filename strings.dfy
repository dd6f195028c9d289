/**
 * The parts of Python's `str` that the publish pipeline relies on: splitting on a
 * separator, stripping, prefix and substring search, ASCII case mapping, decimal
 * rendering and the code-point order used by `sorted`.
 */
module Strings {

  // ---------------------------------------------------------------------------
  // split / join

  /** `s.split(sep)` for a one-character separator: every piece between separators, in order. */
  function Split(s: string, sep: char): (r: seq<string>)
    ensures |r| >= 1
    ensures forall i :: 0 <= i < |r| ==> sep !in r[i]
    decreases |s|
  {
    if |s| == 0 then [""]
    else
      var rest := Split(s[1..], sep);
      if s[0] == sep then [""] + rest
      else [[s[0]] + rest[0]] + rest[1..]
  }

  /** `sep.join(pieces)`. */
  function Join(pieces: seq<string>, sep: string): string
    decreases |pieces|
  {
    if |pieces| == 0 then ""
    else if |pieces| == 1 then pieces[0]
    else pieces[0] + sep + Join(pieces[1..], sep)
  }

  /** Joining the pieces of a split gives back the text that was split. */
  lemma {:induction false} JoinSplit(s: string, sep: char)
    ensures Join(Split(s, sep), [sep]) == s
    decreases |s|
  {
    if |s| > 0 {
      var rest := Split(s[1..], sep);
      JoinSplit(s[1..], sep);
      assert s == [s[0]] + s[1..];
      if s[0] == sep {
        assert Split(s, sep) == [""] + rest;
      } else {
        var r := Split(s, sep);
        assert r == [[s[0]] + rest[0]] + rest[1..];
        if |rest| == 1 {
          assert Join(rest, [sep]) == rest[0];
        } else {
          assert Join(rest, [sep]) == rest[0] + [sep] + Join(rest[1..], [sep]);
          assert r[1..] == rest[1..];
        }
      }
    }
  }

  /** Splitting a join of separator-free pieces gives back the pieces. */
  lemma {:induction false} SplitJoin(pieces: seq<string>, sep: char)
    requires |pieces| >= 1
    requires forall i :: 0 <= i < |pieces| ==> sep !in pieces[i]
    ensures Split(Join(pieces, [sep]), sep) == pieces
    decreases |pieces|, |pieces[0]|
  {
    var p := pieces[0];
    if |p| == 0 {
      if |pieces| > 1 {
        SplitJoin(pieces[1..], sep);
        var j := Join(pieces, [sep]);
        assert j == [sep] + Join(pieces[1..], [sep]);
        assert j[1..] == Join(pieces[1..], [sep]);
        assert pieces == [""] + pieces[1..];
      }
    } else {
      var shorter := [p[1..]] + pieces[1..];
      assert sep !in p[1..] by {
        forall k | 0 <= k < |p[1..]| ensures p[1..][k] != sep { assert p[1..][k] == p[k + 1]; }
      }
      SplitJoin(shorter, sep);
      var j := Join(pieces, [sep]);
      var js := Join(shorter, [sep]);
      if |pieces| == 1 {
        assert j == p && js == p[1..];
      } else {
        assert j == p + [sep] + Join(pieces[1..], [sep]);
        assert js == p[1..] + [sep] + Join(pieces[1..], [sep]);
      }
      assert j == [p[0]] + js;
      assert j[1..] == js;
      assert j[0] == p[0] && p[0] != sep;
      var rest := Split(js, sep);
      assert rest == shorter;
      assert [p[0]] + p[1..] == p;
      assert [[p[0]] + rest[0]] + rest[1..] == pieces;
    }
  }

  // ---------------------------------------------------------------------------
  // strip

  /** The characters Python's `str.isspace` accepts, which `str.strip()` removes. */
  const Whitespace: set<char> := {
    ' ', '\t', '\n', '\r', '\U{0B}', '\U{0C}', '\U{1C}', '\U{1D}', '\U{1E}', '\U{1F}',
    '\U{85}', '\U{A0}', '\U{1680}', '\U{2000}', '\U{2001}', '\U{2002}', '\U{2003}',
    '\U{2004}', '\U{2005}', '\U{2006}', '\U{2007}', '\U{2008}', '\U{2009}', '\U{200A}',
    '\U{2028}', '\U{2029}', '\U{202F}', '\U{205F}', '\U{3000}'
  }

  /** `s.lstrip(chars)`: the suffix of `s` left after dropping leading members of `chars`. */
  function TrimStart(s: string, chars: set<char>): (r: string)
    ensures |r| <= |s| && r == s[|s| - |r|..]
    ensures |r| > 0 ==> r[0] !in chars
    ensures forall i :: 0 <= i < |s| - |r| ==> s[i] in chars
    decreases |s|
  {
    if |s| > 0 && s[0] in chars then TrimStart(s[1..], chars) else s
  }

  /** `s.rstrip(chars)`: the prefix of `s` left after dropping trailing members of `chars`. */
  function TrimEnd(s: string, chars: set<char>): (r: string)
    ensures |r| <= |s| && r == s[..|r|]
    ensures |r| > 0 ==> r[|r| - 1] !in chars
    ensures forall i :: |r| <= i < |s| ==> s[i] in chars
    decreases |s|
  {
    if |s| > 0 && s[|s| - 1] in chars then TrimEnd(s[..|s| - 1], chars) else s
  }

  /** `s.strip(chars)`. */
  function StripChars(s: string, chars: set<char>): string {
    TrimEnd(TrimStart(s, chars), chars)
  }

  /** `s.strip()`. */
  function Strip(s: string): string {
    StripChars(s, Whitespace)
  }

  // ---------------------------------------------------------------------------
  // prefixes and substrings

  /** `s.startswith(p)`. */
  predicate StartsWith(s: string, p: string) {
    |p| <= |s| && s[..|p|] == p
  }

  /** `sub` occurs in `s` starting at index `i`. */
  predicate OccursAt(s: string, sub: string, i: int) {
    0 <= i && i + |sub| <= |s| && s[i..i + |sub|] == sub
  }

  /** `s.find(sub, start)`: the lowest index at or after `start` where `sub` occurs, or -1. */
  function IndexOf(s: string, sub: string, start: nat): (r: int)
    ensures r == -1 || (start <= r && OccursAt(s, sub, r))
    ensures r == -1 ==> forall i :: start <= i ==> !OccursAt(s, sub, i)
    ensures r != -1 ==> forall i :: start <= i < r ==> !OccursAt(s, sub, i)
    decreases |s| - start
  {
    if start + |sub| > |s| then -1
    else if s[start..start + |sub|] == sub then start
    else IndexOf(s, sub, start + 1)
  }

  /** `sub in s`. */
  predicate Contains(s: string, sub: string) {
    IndexOf(s, sub, 0) != -1
  }

  /** `sub in s` holds exactly when `sub` occurs somewhere in `s`. */
  lemma ContainsOccurs(s: string, sub: string)
    ensures Contains(s, sub) <==> exists i :: OccursAt(s, sub, i)
  {
  }

  // ---------------------------------------------------------------------------
  // case mapping (ASCII letters only)

  function LowerChar(c: char): char {
    if 'A' <= c <= 'Z' then (c as int + 32) as char else c
  }

  function UpperChar(c: char): char {
    if 'a' <= c <= 'z' then (c as int - 32) as char else c
  }

  /** `s.lower()` on ASCII letters. */
  function Lower(s: string): (r: string)
    ensures |r| == |s| && forall i :: 0 <= i < |s| ==> r[i] == LowerChar(s[i])
  {
    seq(|s|, i requires 0 <= i < |s| => LowerChar(s[i]))
  }

  /** `s.upper()` on ASCII letters. */
  function Upper(s: string): (r: string)
    ensures |r| == |s| && forall i :: 0 <= i < |s| ==> r[i] == UpperChar(s[i])
  {
    seq(|s|, i requires 0 <= i < |s| => UpperChar(s[i]))
  }

  // ---------------------------------------------------------------------------
  // decimal rendering

  predicate IsDigit(c: char) { '0' <= c <= '9' }

  /** `str(n)` for a non-negative integer. */
  function NatToString(n: nat): (r: string)
    ensures |r| >= 1 && forall i :: 0 <= i < |r| ==> IsDigit(r[i])
    ensures r[0] == '0' ==> n == 0
  {
    if n < 10 then [('0' as int + n) as char]
    else NatToString(n / 10) + [('0' as int + n % 10) as char]
  }

  /** `int(s)` for a string of decimal digits. */
  function ParseNat(s: string): nat
    requires forall i :: 0 <= i < |s| ==> IsDigit(s[i])
  {
    if |s| == 0 then 0
    else
      var last := s[|s| - 1];
      assert IsDigit(last);
      ParseNat(s[..|s| - 1]) * 10 + (last as int - '0' as int)
  }

  /** Rendering a count and reading it back gives the count. */
  lemma {:induction false} ParseNatToString(n: nat)
    ensures ParseNat(NatToString(n)) == n
  {
    if n >= 10 {
      var r := NatToString(n);
      assert r[..|r| - 1] == NatToString(n / 10);
      ParseNatToString(n / 10);
    }
  }

  // ---------------------------------------------------------------------------
  // ordering (Python compares strings code point by code point)

  /** `a < b` on Python strings. */
  predicate Less(a: string, b: string)
    decreases |a|
  {
    if |a| == 0 then |b| > 0
    else if |b| == 0 then false
    else if a[0] == b[0] then Less(a[1..], b[1..])
    else a[0] < b[0]
  }

  lemma {:induction false} LessIrreflexive(a: string)
    ensures !Less(a, a)
    decreases |a|
  {
    if |a| > 0 { LessIrreflexive(a[1..]); }
  }

  lemma {:induction false} LessTransitive(a: string, b: string, c: string)
    requires Less(a, b) && Less(b, c)
    ensures Less(a, c)
    decreases |a|
  {
    if |a| > 0 && a[0] == b[0] && b[0] == c[0] {
      LessTransitive(a[1..], b[1..], c[1..]);
    }
  }

  lemma {:induction false} LessTotal(a: string, b: string)
    requires a != b
    ensures Less(a, b) || Less(b, a)
    decreases |a|
  {
    if |a| > 0 && |b| > 0 && a[0] == b[0] {
      assert a == [a[0]] + a[1..] && b == [b[0]] + b[1..];
      LessTotal(a[1..], b[1..]);
    }
  }

  lemma {:induction false} LessAsymmetric(a: string, b: string)
    requires Less(a, b)
    ensures !Less(b, a)
    decreases |a|
  {
    if |a| > 0 && a[0] == b[0] {
      LessAsymmetric(a[1..], b[1..]);
    }
  }

  /** Sorted ascending with no duplicates: what `sorted(set(...))` returns. */
  ghost predicate StrictlySorted(s: seq<string>) {
    forall i, j :: 0 <= i < j < |s| ==> Less(s[i], s[j])
  }

  /** Places `x` in a strictly sorted list, keeping it strictly sorted. */
  function InsertSorted(s: seq<string>, x: string): (r: seq<string>)
    requires StrictlySorted(s)
    ensures StrictlySorted(r)
    ensures forall y :: y in r <==> y in s || y == x
    decreases |s|
  {
    if |s| == 0 then [x]
    else if x == s[0] then s
    else if Less(x, s[0]) then
      assert StrictlySorted([x] + s) by {
        forall i, j | 0 <= i < j < |[x] + s| ensures Less(([x] + s)[i], ([x] + s)[j]) {
          if i == 0 && j > 1 { LessTransitive(x, s[0], s[j - 1]); }
        }
      }
      [x] + s
    else
      var tail := InsertSorted(s[1..], x);
      LessTotal(x, s[0]);
      assert forall y | y in tail :: Less(s[0], y) by {
        forall y | y in tail ensures Less(s[0], y) {
          if y != x {
            var k :| 0 <= k < |s[1..]| && s[1..][k] == y;
            assert s[k + 1] == y;
          }
        }
      }
      var r := [s[0]] + tail;
      assert StrictlySorted(r) by {
        forall i, j | 0 <= i < j < |r| ensures Less(r[i], r[j]) {
          if i == 0 { assert r[j] in tail; } else { assert r[i] == tail[i - 1] && r[j] == tail[j - 1]; }
        }
      }
      assert s == [s[0]] + s[1..];
      r
  }

  /** A strictly sorted list has no duplicates, so its length is the size of its set. */
  lemma {:induction false} StrictlySortedCard(s: seq<string>)
    requires StrictlySorted(s)
    ensures |(set y | y in s)| == |s|
    decreases |s|
  {
    if |s| > 0 {
      var rest := s[1..];
      StrictlySortedCard(rest);
      assert (set y | y in s) == {s[0]} + (set y | y in rest) by {
        assert s == [s[0]] + rest;
      }
      assert s[0] !in rest by {
        if s[0] in rest {
          var k :| 0 <= k < |rest| && rest[k] == s[0];
          assert Less(s[0], s[k + 1]);
          LessIrreflexive(s[0]);
        }
      }
    }
  }

  /** `sorted(xs)` for a Python set of strings. */
  method SortedFromSet(xs: set<string>) returns (r: seq<string>)
    ensures StrictlySorted(r)
    ensures (set y | y in r) == xs
    ensures forall y :: y in r <==> y in xs
    ensures |r| == |xs|
  {
    r := [];
    var rest := xs;
    while rest != {}
      invariant StrictlySorted(r)
      invariant (set y | y in r) + rest == xs
      invariant (set y | y in r) !! rest
      decreases rest
    {
      var x :| x in rest;
      r := InsertSorted(r, x);
      rest := rest - {x};
    }
    forall y ensures y in r <==> y in xs {
      assert y in r <==> y in (set y | y in r);
    }
    StrictlySortedCard(r);
  }
}
