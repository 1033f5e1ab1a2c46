/** The handful of Python `str` operations the core relies on, with their
    Python semantics written out: `str.isspace`, `strip`, `split()`, `in`,
    `endswith`, `replace`, ASCII `lower`, and decimal `str(int)`. */
module Text {

  /** Python's `str.isspace()` for one character (the whitespace set that
      `str.strip()`, `str.split()` and the regular-expression class `\s` use). */
  predicate IsSpace(c: char) {
    ('\t' <= c <= '\r') || ('\U{1C}' <= c <= ' ') || c == '\U{85}' || c == '\U{A0}'
    || c == '\U{1680}' || ('\U{2000}' <= c <= '\U{200A}') || c == '\U{2028}' || c == '\U{2029}'
    || c == '\U{202F}' || c == '\U{205F}' || c == '\U{3000}'
  }

  predicate AllSpace(s: string) {
    forall i :: 0 <= i < |s| ==> IsSpace(s[i])
  }

  /** A piece of a whitespace run is whitespace. */
  lemma AllSpaceShorter(s: string, lo: nat, mid: nat, hi: nat)
    requires lo <= mid <= hi <= |s| && AllSpace(s[lo..hi])
    ensures AllSpace(s[lo..mid])
  {
    forall i | 0 <= i < mid - lo ensures IsSpace(s[lo..mid][i]) {
      assert s[lo..mid][i] == s[lo..hi][i];
    }
  }

  /** `s.lstrip()`: drop leading whitespace. */
  function LStrip(s: string): (r: string)
    ensures |r| <= |s| && r == s[|s| - |r|..]
    ensures AllSpace(s[..|s| - |r|])
    ensures r == [] || !IsSpace(r[0])
  {
    if s == [] || !IsSpace(s[0]) then s
    else
      var t := s[1..];
      var r := LStrip(t);
      var dropped := s[..|s| - |r|];
      assert AllSpace(dropped) by {
        forall i | 0 <= i < |dropped| ensures IsSpace(dropped[i]) {
          if i > 0 {
            assert dropped[i] == t[..|t| - |r|][i - 1];
          }
        }
      }
      r
  }

  /** `s.rstrip()`: drop trailing whitespace. */
  function RStrip(s: string): (r: string)
    ensures |r| <= |s| && r == s[..|r|]
    ensures AllSpace(s[|r|..])
    ensures r == [] || !IsSpace(r[|r| - 1])
  {
    if s == [] || !IsSpace(s[|s| - 1]) then s
    else
      var p := s[..|s| - 1];
      var r := RStrip(p);
      assert AllSpace(s[|r|..]) by {
        forall i | 0 <= i < |s| - |r| ensures IsSpace(s[|r|..][i]) {
          if i < |p| - |r| {
            assert s[|r|..][i] == p[|r|..][i];
          }
        }
      }
      r
  }

  /** `s.strip()`. */
  function Strip(s: string): string {
    RStrip(LStrip(s))
  }

  /** A string strips to the empty string exactly when it is all whitespace. */
  lemma StripEmptyIffAllSpace(s: string)
    ensures Strip(s) == [] <==> AllSpace(s)
  {
    var l := LStrip(s);
    if Strip(s) == [] {
      assert l[0..] == l;
      assert l == [];
      assert s[..|s|] == s;
    } else {
      assert l != [];
      assert l[0] == s[|s| - |l|];
    }
  }

  /** `needle` occurs in `hay` starting at index `i`. */
  predicate OccursAt(hay: string, needle: string, i: int) {
    0 <= i && i + |needle| <= |hay| && hay[i..i + |needle|] == needle
  }

  /** The stripped string is a contiguous piece of the original. */
  lemma StripIsInfix(s: string)
    ensures exists i :: OccursAt(s, Strip(s), i)
  {
    var l := LStrip(s);
    var r := RStrip(l);
    var i := |s| - |l|;
    assert s[i..i + |r|] == l[..|r|];
    assert OccursAt(s, Strip(s), i);
  }

  /** Length of the longest prefix of `s` without whitespace. */
  function WordLength(s: string): (n: nat)
    ensures n <= |s|
    ensures forall i :: 0 <= i < n ==> !IsSpace(s[i])
    ensures n == |s| || IsSpace(s[n])
  {
    if s == [] || IsSpace(s[0]) then 0 else 1 + WordLength(s[1..])
  }

  /** `s.split()` with no separator: the maximal runs of non-whitespace. */
  function Split(s: string): (words: seq<string>)
    decreases |s|
  {
    var t := LStrip(s);
    if t == [] then []
    else
      var n := WordLength(t);
      [t[..n]] + Split(t[n..])
  }

  function TotalLength(ws: seq<string>): nat {
    if ws == [] then 0 else |ws[0]| + TotalLength(ws[1..])
  }

  /** A word of `s.split()`: non-empty and free of whitespace. */
  predicate IsWord(w: string) {
    w != [] && forall j :: 0 <= j < |w| ==> !IsSpace(w[j])
  }

  /** Every word of `s.split()` is non-empty and whitespace-free, and the words
      together are no longer than `s`. */
  lemma {:induction false} SplitWords(s: string)
    ensures forall i :: 0 <= i < |Split(s)| ==> IsWord(Split(s)[i])
    ensures TotalLength(Split(s)) <= |s|
    decreases |s|
  {
    var t := LStrip(s);
    if t != [] {
      var n := WordLength(t);
      var rest := Split(t[n..]);
      SplitWords(t[n..]);
      assert IsWord(t[..n]);
      assert Split(s) == [t[..n]] + rest;
      assert TotalLength(Split(s)) == n + TotalLength(rest);
    }
  }

  lemma PrefixIsOccurrenceAtZero(hay: string, needle: string)
    ensures needle <= hay <==> OccursAt(hay, needle, 0)
  {
    if OccursAt(hay, needle, 0) {
      assert hay[..|needle|] == needle;
    }
  }

  /** Python's `needle in hay` for strings. */
  function Contains(hay: string, needle: string): (r: bool)
    ensures r <==> exists i :: OccursAt(hay, needle, i)
    decreases |hay|
  {
    if needle <= hay then
      assert OccursAt(hay, needle, 0);
      true
    else if hay == [] then false
    else
      var tail := hay[1..];
      var r := Contains(tail, needle);
      if r then
        var i :| OccursAt(tail, needle, i);
        assert hay[i + 1..i + 1 + |needle|] == tail[i..i + |needle|];
        assert OccursAt(hay, needle, i + 1);
        true
      else
        assert forall i :: OccursAt(hay, needle, i) ==> i >= 1 && OccursAt(tail, needle, i - 1) by {
          PrefixIsOccurrenceAtZero(hay, needle);
          forall i | OccursAt(hay, needle, i) ensures i >= 1 && OccursAt(tail, needle, i - 1) {
            assert tail[i - 1..i - 1 + |needle|] == hay[i..i + |needle|];
          }
        }
        false
  }

  /** `s.endswith(suffix)`. */
  predicate EndsWith(s: string, suffix: string) {
    |suffix| <= |s| && s[|s| - |suffix|..] == suffix
  }

  /** `s.replace(pat, rep)`: every non-overlapping occurrence of `pat`,
      scanning left to right, replaced by `rep`. */
  function Replace(s: string, pat: string, rep: string): string
    requires pat != []
    decreases |s|
  {
    if |s| < |pat| then s
    else if pat <= s then rep + Replace(s[|pat|..], pat, rep)
    else [s[0]] + Replace(s[1..], pat, rep)
  }

  /** Replacing one character `c` by a string without `c` leaves no `c`, and
      adds no character that is neither in `s` nor in `rep`. */
  lemma {:induction false} ReplaceCharSpec(s: string, c: char, rep: string, d: char)
    requires c !in rep
    ensures c !in Replace(s, [c], rep)
    ensures d in Replace(s, [c], rep) ==> d in rep || (d in s && d != c)
    decreases |s|
  {
    if |s| >= 1 {
      ReplaceCharSpec(s[1..], c, rep, d);
      if [c] <= s {
        assert s[0] == c;
      } else {
        assert s[0] != c;
      }
      assert forall x :: x in s[1..] ==> x in s;
    }
  }

  /** Python's `str.lower()` restricted to ASCII letters. */
  function LowerChar(c: char): char {
    if 'A' <= c <= 'Z' then (c as int + 32) as char else c
  }

  function Lower(s: string): (r: string)
    ensures |r| == |s| && forall i :: 0 <= i < |s| ==> r[i] == LowerChar(s[i])
  {
    if s == [] then [] else [LowerChar(s[0])] + Lower(s[1..])
  }

  /** `str(n)` for a non-negative integer. */
  function NatToString(n: nat): (r: string)
    ensures r != [] && forall i :: 0 <= i < |r| ==> '0' <= r[i] <= '9'
    // The decimal digits read back as `n`, with no leading zero.
    ensures DecimalValue(r) == n
    ensures r[0] == '0' ==> r == "0"
  {
    if n < 10 then
      assert [Digit(n)][..0] == [];
      [Digit(n)]
    else
      var r := NatToString(n / 10) + [Digit(n % 10)];
      assert r[..|r| - 1] == NatToString(n / 10);
      r
  }

  /** The number a string of decimal digits denotes. */
  function DecimalValue(s: string): int {
    if s == [] then 0 else 10 * DecimalValue(s[..|s| - 1]) + (s[|s| - 1] as int - '0' as int)
  }

  function Digit(d: nat): (c: char)
    requires d < 10
    ensures '0' <= c <= '9' && c as int - '0' as int == d
  {
    ['0', '1', '2', '3', '4', '5', '6', '7', '8', '9'][d]
  }

  /** `os.path.basename`: what follows the last '/'. */
  function Basename(path: string): (r: string)
    ensures '/' !in r
    ensures EndsWith(path, r)
  {
    if path == [] then []
    else if path[|path| - 1] == '/' then []
    else
      var r := Basename(path[..|path| - 1]);
      assert path[|path| - |r| - 1..] == path[..|path| - 1][|path| - 1 - |r|..] + [path[|path| - 1]];
      r + [path[|path| - 1]]
  }

  /** POSIX `os.path.join(a, b)`: an absolute `b` replaces `a`; otherwise a
      '/' is inserted unless `a` is empty or already ends with one. */
  function JoinPath(a: string, b: string): string {
    if |b| > 0 && b[0] == '/' then b
    else if a == [] || a[|a| - 1] == '/' then a + b
    else a + "/" + b
  }

}
