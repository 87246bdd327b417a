/**
 * The parts of Python's `str`, `os.path` and sequence semantics that the
 * previewer relies on: whitespace, case mapping, `strip`, `split`,
 * `' '.join`, `os.path.splitext`/`basename` (POSIX flavour), slicing and
 * indexing with negative positions, and `str(int)`.
 */
module PyStr {
  import opened Wrappers

  /** The characters for which Python's `str.isspace()` holds. */
  predicate IsSpace(c: char) {
    || c == ' '
    || ('\t' <= c <= '\r')
    || ('\U{1C}' <= c <= '\U{1F}')
    || c == '\U{85}' || c == '\U{A0}' || c == '\U{1680}'
    || ('\U{2000}' <= c <= '\U{200A}')
    || c == '\U{2028}' || c == '\U{2029}' || c == '\U{202F}' || c == '\U{205F}' || c == '\U{3000}'
  }

  /** A non-empty run of non-whitespace characters: one element of `str.split()`. */
  predicate IsWord(w: string) {
    |w| > 0 && forall i :: 0 <= i < |w| ==> !IsSpace(w[i])
  }

  // ---------------------------------------------------------------- case

  function LowerChar(c: char): char {
    if 'A' <= c <= 'Z' then (c as int + 32) as char else c
  }

  function UpperChar(c: char): char {
    if 'a' <= c <= 'z' then (c as int - 32) as char else c
  }

  /** `s.lower()` on the ASCII letters. */
  function Lower(s: string): (r: string)
    ensures |r| == |s|
    ensures forall i :: 0 <= i < |s| ==> r[i] == LowerChar(s[i])
  {
    seq(|s|, i requires 0 <= i < |s| => LowerChar(s[i]))
  }

  /** `s.upper()` on the ASCII letters. */
  function Upper(s: string): (r: string)
    ensures |r| == |s|
    ensures forall i :: 0 <= i < |s| ==> r[i] == UpperChar(s[i])
  {
    seq(|s|, i requires 0 <= i < |s| => UpperChar(s[i]))
  }

  /** Lower-casing is idempotent. */
  lemma LowerTwice(s: string)
    ensures Lower(Lower(s)) == Lower(s)
  {
    assert forall i :: 0 <= i < |s| ==> LowerChar(LowerChar(s[i])) == LowerChar(s[i]);
  }

  // ------------------------------------------------------------- strip

  /** Number of leading whitespace characters. */
  function LeadingSpace(s: string): (k: nat)
    ensures k <= |s|
    ensures forall i :: 0 <= i < k ==> IsSpace(s[i])
    ensures k < |s| ==> !IsSpace(s[k])
  {
    if s == [] || !IsSpace(s[0]) then 0 else 1 + LeadingSpace(s[1..])
  }

  /** Number of trailing whitespace characters. */
  function TrailingSpace(s: string): (k: nat)
    ensures k <= |s|
    ensures forall i :: |s| - k <= i < |s| ==> IsSpace(s[i])
    ensures k < |s| ==> !IsSpace(s[|s| - 1 - k])
  {
    if s == [] || !IsSpace(s[|s| - 1]) then 0 else 1 + TrailingSpace(s[..|s| - 1])
  }

  /** `s.strip()`: the infix of `s` without leading and trailing whitespace. */
  function Strip(s: string): (r: string)
    ensures r == [] <==> forall i :: 0 <= i < |s| ==> IsSpace(s[i])
    ensures r != [] ==> !IsSpace(r[0]) && !IsSpace(r[|r| - 1])
    ensures LeadingSpace(s) + |r| <= |s| && r == s[LeadingSpace(s)..LeadingSpace(s) + |r|]
    ensures forall i :: LeadingSpace(s) + |r| <= i < |s| ==> IsSpace(s[i])
  {
    var lo := LeadingSpace(s);
    var t := s[lo..];
    var n := TrailingSpace(t);
    assert t[..|t| - n] == s[lo..lo + |t| - n];
    assert forall i :: lo + |t| - n <= i < |s| ==> s[i] == t[i - lo];
    t[..|t| - n]
  }

  // ------------------------------------------------------------- split

  /** Length of the leading run of non-whitespace characters. */
  function WordLen(s: string): (k: nat)
    ensures k <= |s|
    ensures forall i :: 0 <= i < k ==> !IsSpace(s[i])
    ensures k < |s| ==> IsSpace(s[k])
  {
    if s == [] || IsSpace(s[0]) then 0 else 1 + WordLen(s[1..])
  }

  /** `s.split()` with no separator: the maximal runs of non-whitespace characters. */
  function Split(s: string): (r: seq<string>)
    ensures forall i :: 0 <= i < |r| ==> IsWord(r[i])
    decreases |s|
  {
    if s == [] then []
    else if IsSpace(s[0]) then Split(s[1..])
    else
      var k := WordLen(s);
      [s[..k]] + Split(s[k..])
  }

  /** `' '.join(ws)`. */
  function Join(ws: seq<string>): string {
    if |ws| == 0 then ""
    else if |ws| == 1 then ws[0]
    else ws[0] + " " + Join(ws[1..])
  }

  /** A string that splits into no words is all whitespace, and conversely. */
  lemma {:induction false} SplitEmpty(s: string)
    ensures Split(s) == [] <==> forall i :: 0 <= i < |s| ==> IsSpace(s[i])
    decreases |s|
  {
    if s != [] && IsSpace(s[0]) {
      SplitEmpty(s[1..]);
      assert forall i :: 1 <= i < |s| ==> s[i] == s[1..][i - 1];
    }
  }

  lemma {:induction false} WordLenOfWord(w: string, rest: string)
    requires IsWord(w)
    requires rest == [] || IsSpace(rest[0])
    ensures WordLen(w + rest) == |w|
    decreases |w|
  {
    if |w| > 1 {
      assert (w + rest)[1..] == w[1..] + rest;
      WordLenOfWord(w[1..], rest);
    } else {
      assert (w + rest)[1..] == rest;
    }
  }

  /** Splitting a word followed by whitespace (or nothing) yields that word first. */
  lemma SplitWordThen(w: string, rest: string)
    requires IsWord(w)
    requires rest == [] || IsSpace(rest[0])
    ensures Split(w + rest) == [w] + Split(rest)
  {
    WordLenOfWord(w, rest);
    var s := w + rest;
    assert s[..|w|] == w;
    assert s[|w|..] == rest;
  }

  /** `' '.join` followed by `split()` gives back the words: `split` undoes `join`. */
  lemma {:induction false} SplitJoin(ws: seq<string>)
    requires forall i :: 0 <= i < |ws| ==> IsWord(ws[i])
    ensures Split(Join(ws)) == ws
    decreases |ws|
  {
    if |ws| == 0 {
    } else if |ws| == 1 {
      SplitWordThen(ws[0], "");
      assert ws[0] + "" == ws[0];
    } else {
      var rest := " " + Join(ws[1..]);
      assert Join(ws) == ws[0] + rest;
      SplitWordThen(ws[0], rest);
      assert rest[1..] == Join(ws[1..]);
      SplitJoin(ws[1..]);
      assert [ws[0]] + ws[1..] == ws;
    }
  }

  /** Stripping does not change the words of a string. */
  lemma SplitStripNonEmpty(s: string)
    requires Strip(s) != []
    ensures Split(Strip(s)) != []
  {
    var t := Strip(s);
    assert !IsSpace(t[0]);
  }

  // ------------------------------------------------------------ os.path

  /** `s.rfind(c)`: the last index of `c` in `s`, or -1. */
  function RFind(s: string, c: char): (r: int)
    ensures -1 <= r < |s|
    ensures r >= 0 ==> s[r] == c
    ensures forall i :: r < i < |s| ==> s[i] != c
  {
    LastBefore(s, c, |s|)
  }

  /** The last index below `n` of `c` in `s`, or -1. */
  function LastBefore(s: string, c: char, n: nat): (r: int)
    requires n <= |s|
    ensures -1 <= r < n
    ensures r >= 0 ==> s[r] == c
    ensures forall i :: r < i < n ==> s[i] != c
  {
    if n == 0 then -1
    else if s[n - 1] == c then n - 1
    else LastBefore(s, c, n - 1)
  }

  /**
   * The extension part of POSIX `os.path.splitext(p)`: from the last dot
   * after the last '/', provided the file name has a non-dot character
   * before that dot (so ".bashrc" has no extension); otherwise "".
   */
  function Ext(p: string): (r: string)
    ensures r == [] || (r[0] == '.' && |r| <= |p| && r == p[|p| - |r|..])
    ensures forall i :: 0 <= i < |r| ==> r[i] != '/'
    ensures forall i :: 1 <= i < |r| ==> r[i] != '.'
  {
    var sepIndex := RFind(p, '/');
    var dotIndex := RFind(p, '.');
    if dotIndex > sepIndex && HasStem(p, sepIndex + 1, dotIndex) then
      p[dotIndex..]
    else
      ""
  }

  /** Some character of `p` at a position from `lo` up to `hi` is not a dot. */
  predicate HasStem(p: string, lo: int, hi: int) {
    exists k :: lo <= k < hi && 0 <= k < |p| && p[k] != '.'
  }

  /** Whether there is a stem does not depend on case. */
  lemma StemLower(p: string, lo: int, hi: int)
    ensures HasStem(Lower(p), lo, hi) == HasStem(p, lo, hi)
  {
    if HasStem(p, lo, hi) {
      var k :| lo <= k < hi && 0 <= k < |p| && p[k] != '.';
      assert Lower(p)[k] == LowerChar(p[k]);
    }
    if HasStem(Lower(p), lo, hi) {
      var k :| lo <= k < hi && 0 <= k < |p| && Lower(p)[k] != '.';
      assert Lower(p)[k] == LowerChar(p[k]);
    }
  }

  /** Whether there is a stem, looked for in a suffix of `p`. */
  lemma StemSuffix(p: string, start: nat, lo: int, hi: int)
    requires start <= |p| && start <= lo && hi <= |p|
    ensures HasStem(p[start..], lo - start, hi - start) == HasStem(p, lo, hi)
  {
    var t := p[start..];
    if HasStem(p, lo, hi) {
      var k :| lo <= k < hi && 0 <= k < |p| && p[k] != '.';
      assert t[k - start] == p[k];
    }
    if HasStem(t, lo - start, hi - start) {
      var k :| lo - start <= k < hi - start && 0 <= k < |t| && t[k] != '.';
      assert t[k] == p[k + start];
    }
  }

  /** POSIX `os.path.basename(p)`: everything after the last '/'. */
  function Basename(p: string): (r: string)
    ensures forall i :: 0 <= i < |r| ==> r[i] != '/'
    ensures |r| <= |p| && r == p[|p| - |r|..]
  {
    p[RFind(p, '/') + 1..]
  }

  /** The last `c` in a suffix of `s` is the last `c` in `s`, if it falls in the suffix. */
  lemma RFindSuffix(s: string, start: nat, c: char)
    requires start <= |s|
    ensures RFind(s[start..], c) == if RFind(s, c) >= start then RFind(s, c) - start else -1
  {
    var r, r' := RFind(s, c), RFind(s[start..], c);
    if r' >= 0 {
      assert s[start + r'] == c;
    }
    if r >= start {
      assert s[start..][r - start] == c;
    }
  }

  /** `os.path.splitext(os.path.basename(p))[1]` is `os.path.splitext(p)[1]`. */
  lemma ExtOfBasename(p: string)
    ensures Ext(Basename(p)) == Ext(p)
  {
    ExtAfterSeparator(p, RFind(p, '/') + 1);
  }

  /** Dropping everything up to the last '/' keeps the extension. */
  lemma ExtAfterSeparator(p: string, start: nat)
    requires start == RFind(p, '/') + 1
    ensures Ext(p[start..]) == Ext(p)
  {
    var b, d := p[start..], RFind(p, '.');
    RFindSuffix(p, start, '/');
    RFindSuffix(p, start, '.');
    assert RFind(b, '/') == -1;
    if d >= start {
      assert RFind(b, '.') == d - start;
      StemSuffix(p, start, start, d);
      assert HasStem(b, 0, d - start) == HasStem(p, start, d);
      SliceOfSlice(p, start, d - start);
      assert b[d - start..] == p[d..];
    } else {
      assert RFind(b, '.') == -1;
    }
  }

  lemma SliceOfSlice(p: string, a: nat, b: nat)
    requires a + b <= |p|
    ensures p[a..][b..] == p[a + b..]
  {
  }

  lemma RFindLower(p: string, c: char)
    requires c == '.' || c == '/'
    ensures RFind(Lower(p), c) == RFind(p, c)
  {
    assert forall i :: 0 <= i < |p| ==> (Lower(p)[i] == c <==> p[i] == c);
  }

  /** Lower-casing a path and then taking its extension is the same as lower-casing its extension. */
  lemma ExtLower(p: string)
    ensures Ext(Lower(p)) == Lower(Ext(p))
  {
    RFindLower(p, '.');
    RFindLower(p, '/');
    var s, d := RFind(p, '/'), RFind(p, '.');
    StemLower(p, s + 1, d);
    if d > s && HasStem(p, s + 1, d) {
      assert Lower(p)[d..] == Lower(p[d..]);
    }
  }

  /**
   * A name is split at its last dot: a file name whose part before the dot
   * has a character other than a dot gets the extension after that dot
   * ("x.PDF" has ".PDF").
   */
  lemma ExtAfterDot(stem: string, ext: string)
    requires '.' !in ext && '/' !in ext
    requires HasStem(stem, RFind(stem, '/') + 1, |stem|)
    ensures Ext(stem + "." + ext) == "." + ext
  {
    var p := stem + "." + ext;
    assert p[|stem|] == '.';
    assert forall i :: |stem| < i < |p| ==> p[i] == ext[i - |stem| - 1];
    assert RFind(p, '.') == |stem|;
    var a, b := RFind(stem, '/'), RFind(p, '/');
    assert forall i :: 0 <= i < |stem| ==> p[i] == stem[i];
    assert b == a;
    var k :| a + 1 <= k < |stem| && 0 <= k < |stem| && stem[k] != '.';
    assert p[k] != '.';
    assert HasStem(p, a + 1, |stem|);
    assert p[|stem|..] == "." + ext;
  }

  /** A name made of leading dots and then a dotless word, like ".bashrc", has no extension. */
  lemma DotfileHasNoExt(dots: string, name: string)
    requires dots != [] && forall i :: 0 <= i < |dots| ==> dots[i] == '.'
    requires '.' !in name && '/' !in name
    ensures Ext(dots + name) == ""
  {
    var p := dots + name;
    assert forall i :: |dots| <= i < |p| ==> p[i] == name[i - |dots|] && p[i] != '.' && p[i] != '/';
    assert forall i :: 0 <= i < |dots| ==> p[i] == dots[i];
    assert p[|dots| - 1] == dots[|dots| - 1] == '.';
    assert RFind(p, '.') == |dots| - 1;
    assert RFind(p, '/') == -1;
    assert !HasStem(p, 0, |dots| - 1);
  }

  // ------------------------------------------------- indexing and slicing

  /** Where Python's `s[i]` lands on a sequence of length `n`, or None for an IndexError. */
  function PyIndex(n: nat, i: int): (r: Option<nat>)
    ensures r.Some? <==> -(n as int) <= i < n
    ensures r.Some? ==> r.value < n && (r.value == i || r.value == i + n)
  {
    if 0 <= i < n then Some(i)
    else if -(n as int) <= i < 0 then Some(i + n)
    else None
  }

  /** A slice bound `i` of Python's `s[a:b]`, normalised against length `n`. */
  function SliceBound(i: int, n: nat): (r: nat)
    ensures r <= n
    ensures 0 <= i <= n ==> r == i
  {
    if i < 0 then (if i + n < 0 then 0 else i + n)
    else if i > n then n
    else i
  }

  /** Python's `s[a:b]`, including negative and out-of-range bounds. */
  function PySlice<T>(s: seq<T>, a: int, b: int): (r: seq<T>)
    ensures 0 <= a <= b <= |s| ==> r == s[a..b]
    ensures |r| <= |s|
    ensures 0 <= b <= a ==> r == []
  {
    var lo, hi := SliceBound(a, |s|), SliceBound(b, |s|);
    if lo < hi then s[lo..hi] else []
  }

  // ---------------------------------------------------------- str(int)

  function DigitChar(d: nat): char
    requires d < 10
  {
    "0123456789"[d]
  }

  /** `str(n)` for a natural number. */
  function NatToString(n: nat): (r: string)
    ensures |r| > 0
    ensures forall i :: 0 <= i < |r| ==> '0' <= r[i] <= '9'
  {
    if n < 10 then [DigitChar(n)] else NatToString(n / 10) + [DigitChar(n % 10)]
  }

  /** `str(n)` for any integer. */
  function IntToString(n: int): string {
    if n < 0 then "-" + NatToString(-n) else NatToString(n)
  }

  // ------------------------------------------------------- substring test

  /** `sub` occurs in `s` starting at position `i`. */
  predicate OccursAt(s: string, sub: string, i: int) {
    0 <= i <= |s| - |sub| && s[i..i + |sub|] == sub
  }

  /** `sub in s` for strings: `sub` occurs in `s` at some position. */
  predicate Contains(s: string, sub: string) {
    exists i :: 0 <= i <= |s| - |sub| && OccursAt(s, sub, i)
  }

  /** A string that lacks one of the characters of `sub` does not contain `sub`. */
  lemma MissingCharNotContained(s: string, sub: string, c: char)
    requires c in sub && c !in s
    ensures !Contains(s, sub)
  {
  }
}
