/** String helpers shared by the Python backend and the TypeScript frontend:
    the two runtimes' whitespace classes, stripping, ASCII upper-casing,
    character removal, and splitting / joining on a separator. */
module Text {
  import Seqs

  /** Characters for which Python's `str.isspace()` holds, the set `str.strip()` removes. */
  predicate IsPySpace(c: char) {
    ('\t' <= c <= '\r') || ('\U{1C}' <= c <= '\U{1F}') || c == ' '
    || c == '\U{85}' || c == '\U{A0}' || c == '\U{1680}'
    || ('\U{2000}' <= c <= '\U{200A}') || c == '\U{2028}' || c == '\U{2029}'
    || c == '\U{202F}' || c == '\U{205F}' || c == '\U{3000}'
  }

  /** WhiteSpace and LineTerminator of ECMAScript, the set `String.prototype.trim` removes. */
  predicate IsJsSpace(c: char) {
    ('\t' <= c <= '\r') || c == ' ' || c == '\U{A0}' || c == '\U{1680}'
    || ('\U{2000}' <= c <= '\U{200A}') || c == '\U{2028}' || c == '\U{2029}'
    || c == '\U{202F}' || c == '\U{205F}' || c == '\U{3000}' || c == '\U{FEFF}'
  }

  /** Neither end of `s` is a character of the class `ws`. */
  predicate Trimmed(s: string, ws: char -> bool) {
    |s| == 0 || (!ws(s[0]) && !ws(s[|s| - 1]))
  }

  /** `s` without its leading run of `ws` characters. */
  function TrimStart(s: string, ws: char -> bool): (r: string)
    ensures |r| <= |s| && r == s[|s| - |r|..]
    ensures |r| == 0 || !ws(r[0])
    ensures forall i :: 0 <= i < |s| - |r| ==> ws(s[i])
  {
    if |s| > 0 && ws(s[0]) then
      var t := TrimStart(s[1..], ws);
      assert forall i :: 1 <= i < |s| - |t| ==> s[i] == s[1..][i - 1];
      t
    else s
  }

  /** `s` without its trailing run of `ws` characters. */
  function TrimEnd(s: string, ws: char -> bool): (r: string)
    ensures |r| <= |s| && r == s[..|r|]
    ensures |r| == 0 || !ws(r[|r| - 1])
    ensures forall i :: |r| <= i < |s| ==> ws(s[i])
  {
    if |s| > 0 && ws(s[|s| - 1]) then
      var t := TrimEnd(s[..|s| - 1], ws);
      assert forall i :: |t| <= i < |s| - 1 ==> s[i] == s[..|s| - 1][i];
      t
    else s
  }

  /** `r` is `s` with a run of `ws` characters taken off each end. */
  predicate Inner(r: string, s: string, ws: char -> bool) {
    exists a, b :: 0 <= a <= b <= |s| && r == s[a..b]
                   && (forall i :: 0 <= i < a ==> ws(s[i]))
                   && (forall i :: b <= i < |s| ==> ws(s[i]))
  }

  /** Removes `ws` characters from both ends (Python `strip()`, JavaScript `trim()`):
      the result is the stretch of `s` between a leading and a trailing run of
      `ws` characters, and begins and ends with a character outside `ws`. */
  function Strip(s: string, ws: char -> bool): (r: string)
    ensures Trimmed(r, ws)
    ensures Inner(r, s, ws)
    ensures Trimmed(s, ws) ==> r == s
    ensures forall c :: c in r ==> c in s
    ensures (forall i :: 0 <= i < |s| ==> ws(s[i])) ==> r == ""
  {
    var t := TrimStart(s, ws);
    var r := TrimEnd(t, ws);
    assert Inner(r, s, ws) by {
      var a := |s| - |t|;
      SliceOfSuffix(s, t, r, a);
      StripShape(s, ws, t, r, a);
    }
    assert forall c :: c in r ==> c in t;
    assert |r| > 0 ==> r[0] == t[0];
    r
  }

  /** A piece `r` cut from the front of the suffix `t` of `s` is the slice
      `s[a..a + |r|]`. */
  lemma SliceOfSuffix(s: string, t: string, r: string, a: nat)
    requires a <= |s| && t == s[a..]
    requires |r| <= |t| && r == t[..|r|]
    ensures a + |r| <= |s| && r == s[a..a + |r|]
    ensures forall i :: a + |r| <= i < |s| ==> s[i] == t[i - a]
  {
  }

  /** The slice `r` of `s` is surrounded by `ws` characters only. */
  lemma StripShape(s: string, ws: char -> bool, t: string, r: string, a: nat)
    requires a + |r| <= |s| && r == s[a..a + |r|] && |t| == |s| - a
    requires forall i :: 0 <= i < a ==> ws(s[i])
    requires forall i :: |r| <= i < |t| ==> ws(t[i])
    requires forall i :: a + |r| <= i < |s| ==> s[i] == t[i - a]
    ensures Inner(r, s, ws)
  {
    var b := a + |r|;
    forall i | b <= i < |s|
      ensures ws(s[i])
    {
      assert s[i] == t[i - a];
    }
  }

  /** Python `str.upper()` restricted to ASCII letters: each lower-case ASCII
      letter becomes the same letter in upper case, every other character stays. */
  function UpperAscii(s: string): (r: string)
    ensures |r| == |s|
    ensures forall i :: 0 <= i < |r| ==> !('a' <= r[i] <= 'z')
    ensures forall i :: 0 <= i < |s| && !('a' <= s[i] <= 'z') ==> r[i] == s[i]
    ensures forall i :: 0 <= i < |s| && 'a' <= s[i] <= 'z' ==>
              'A' <= r[i] <= 'Z' && r[i] as int - 'A' as int == s[i] as int - 'a' as int
  {
    seq(|s|, i requires 0 <= i < |s| => if 'a' <= s[i] <= 'z' then (s[i] as int - 32) as char else s[i])
  }

  /** `s` with every character of `cs` removed (chained `str.replace(c, "")`).
      `WithoutKeepsOrder` and `WithoutCounts` state which characters remain and
      in what order. */
  function Without(s: string, cs: set<char>): (r: string)
    ensures forall i :: 0 <= i < |r| ==> r[i] !in cs
    ensures (forall i :: 0 <= i < |s| ==> s[i] !in cs) ==> r == s
  {
    if |s| == 0 then ""
    else (if s[0] in cs then "" else [s[0]]) + Without(s[1..], cs)
  }

  /** The characters that remain keep their order. */
  lemma {:induction false} WithoutKeepsOrder(s: string, cs: set<char>)
    ensures Seqs.Subsequence(Without(s, cs), s)
  {
    if |s| > 0 {
      WithoutKeepsOrder(s[1..], cs);
      var rest := Without(s[1..], cs);
      if s[0] in cs {
        assert Without(s, cs) == rest;
        assert |rest| > 0 ==> rest[0] != s[0];
      } else {
        assert Without(s, cs) == [s[0]] + rest;
        assert ([s[0]] + rest)[1..] == rest;
      }
    }
  }

  /** Every character outside `cs` remains exactly as often as `s` holds it,
      and none of `cs` does. */
  lemma {:induction false} WithoutCounts(s: string, cs: set<char>)
    ensures forall c :: multiset(Without(s, cs))[c] == if c in cs then 0 else multiset(s)[c]
  {
    if |s| > 0 {
      WithoutCounts(s[1..], cs);
      assert s == [s[0]] + s[1..];
    }
  }

  /** Removal looks at one character at a time. */
  lemma WithoutCons(c: char, s: string, cs: set<char>)
    ensures Without([c] + s, cs) == (if c in cs then "" else [c]) + Without(s, cs)
  {
    assert ([c] + s)[0] == c && ([c] + s)[1..] == s;
  }

  /** The pieces of `s` between occurrences of `sep` (JavaScript `split` with a
      one-character separator): one more piece than there are separators. */
  function Split(s: string, sep: char): (r: seq<string>)
    ensures |r| >= 1
    ensures forall i :: 0 <= i < |r| ==> sep !in r[i]
    ensures forall i, c :: 0 <= i < |r| && c in r[i] ==> c in s
  {
    if |s| == 0 then [""]
    else
      var rest := Split(s[1..], sep);
      assert forall c :: c in s[1..] ==> c in s;
      if s[0] == sep then
        assert forall i :: 1 <= i < |rest| + 1 ==> ([""] + rest)[i] == rest[i - 1];
        [""] + rest
      else
        var r := [[s[0]] + rest[0]] + rest[1..];
        assert forall i :: 1 <= i < |r| ==> r[i] == rest[i];
        r
  }

  /** The pieces of `xs` with `sep` between neighbours (JavaScript `join`). */
  function Join(xs: seq<string>, sep: char): string {
    if |xs| == 0 then ""
    else if |xs| == 1 then xs[0]
    else xs[0] + [sep] + Join(xs[1..], sep)
  }

  /** Joining the pieces puts the separators back: `Split` loses nothing. */
  lemma {:induction false} JoinSplit(s: string, sep: char)
    ensures Join(Split(s, sep), sep) == s
  {
    if |s| > 0 {
      var rest := Split(s[1..], sep);
      JoinSplit(s[1..], sep);
      if s[0] == sep {
        assert Split(s, sep) == [""] + rest;
        assert Join([""] + rest, sep) == "" + [sep] + Join(rest, sep) by {
          assert ([""] + rest)[1..] == rest;
        }
        assert s == [s[0]] + s[1..];
      } else {
        var r := [[s[0]] + rest[0]] + rest[1..];
        assert Split(s, sep) == r;
        if |rest| == 1 {
          assert Join(r, sep) == [s[0]] + rest[0];
        } else {
          assert r[1..] == rest[1..];
          assert Join(r, sep) == [s[0]] + rest[0] + [sep] + Join(rest[1..], sep);
          assert Join(rest, sep) == rest[0] + [sep] + Join(rest[1..], sep);
        }
        assert s == [s[0]] + s[1..];
      }
    }
  }

  /** A separator-free piece splits to itself. */
  lemma {:induction false} SplitPiece(a: string, sep: char)
    requires sep !in a
    ensures Split(a, sep) == [a]
  {
    if |a| > 0 {
      SplitPiece(a[1..], sep);
      assert [a[0]] + a[1..] == a;
    }
  }

  /** A separator-free piece followed by the separator splits off as the first piece. */
  lemma {:induction false} SplitCons(a: string, sep: char, rest: string)
    requires sep !in a
    ensures Split(a + [sep] + rest, sep) == [a] + Split(rest, sep)
  {
    var s := a + [sep] + rest;
    if |a| == 0 {
      assert s[0] == sep && s[1..] == rest;
    } else {
      assert s[0] == a[0];
      assert s[1..] == a[1..] + [sep] + rest;
      SplitCons(a[1..], sep, rest);
      assert [a[0]] + a[1..] == a;
    }
  }

  /** Splitting separator-free pieces joined by the separator gives the pieces back. */
  lemma {:induction false} SplitJoin(xs: seq<string>, sep: char)
    requires |xs| >= 1
    requires forall i :: 0 <= i < |xs| ==> sep !in xs[i]
    ensures Split(Join(xs, sep), sep) == xs
  {
    if |xs| == 1 {
      SplitPiece(xs[0], sep);
    } else {
      SplitJoin(xs[1..], sep);
      SplitCons(xs[0], sep, Join(xs[1..], sep));
      assert [xs[0]] + xs[1..] == xs;
    }
  }
}
