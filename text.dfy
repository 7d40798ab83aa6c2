/**
 * The string operations of Python that the services rely on, written out over
 * `seq<char>`: character classes (`str.isspace`, `\d`, `\w`), case mapping
 * (`lower`, `upper`, `title`), `in`, `startswith`, `strip`, `split`, `join`,
 * `replace`, `str(int)` and a vocabulary scan. Case mapping covers the ASCII
 * letters; the whitespace class is Python's full `str.isspace` set.
 */
module Text {
  import opened Wrappers

  // ---------------------------------------------------------------------------
  // Character classes
  // ---------------------------------------------------------------------------

  /** Python's `str.isspace()`, which is also what `\s`, `strip()` and `split()` use. */
  predicate IsSpace(c: char) {
    || c == ' '
    || ('\t' <= c <= '\r')
    || ('\U{001C}' <= c <= '\U{001F}')
    || c == '\U{0085}' || c == '\U{00A0}' || c == '\U{1680}'
    || ('\U{2000}' <= c <= '\U{200A}')
    || c == '\U{2028}' || c == '\U{2029}' || c == '\U{202F}' || c == '\U{205F}'
    || c == '\U{3000}'
  }

  predicate IsDigit(c: char) { '0' <= c <= '9' }
  predicate IsUpperLetter(c: char) { 'A' <= c <= 'Z' }
  predicate IsLowerLetter(c: char) { 'a' <= c <= 'z' }
  predicate IsLetter(c: char) { IsUpperLetter(c) || IsLowerLetter(c) }

  /** The regex class `\w`: letters, digits and the underscore. */
  predicate IsWordChar(c: char) { IsLetter(c) || IsDigit(c) || c == '_' }

  // ---------------------------------------------------------------------------
  // Case mapping
  // ---------------------------------------------------------------------------

  function LowerChar(c: char): (d: char)
    ensures !IsUpperLetter(d)
    ensures IsLetter(c) <==> IsLetter(d)
  {
    if IsUpperLetter(c) then (c as int + 32) as char else c
  }

  function UpperChar(c: char): (d: char)
    ensures !IsLowerLetter(d)
    ensures IsLetter(c) <==> IsLetter(d)
    ensures LowerChar(d) == LowerChar(c)
  {
    if IsLowerLetter(c) then (c as int - 32) as char else c
  }

  /** `s.lower()` */
  function Lower(s: string): (r: string)
    ensures |r| == |s|
    ensures forall i :: 0 <= i < |s| ==> r[i] == LowerChar(s[i])
  {
    seq(|s|, i requires 0 <= i < |s| => LowerChar(s[i]))
  }

  /** `s.upper()` */
  function Upper(s: string): (r: string)
    ensures |r| == |s|
    ensures forall i :: 0 <= i < |s| ==> r[i] == UpperChar(s[i])
  {
    seq(|s|, i requires 0 <= i < |s| => UpperChar(s[i]))
  }

  /**
   * `s.title()`: a letter is upper-cased when the character before it is not a
   * letter and lower-cased otherwise; other characters are kept.
   */
  function Title(s: string): string {
    TitleAfter(s, false)
  }

  function TitleAfter(s: string, afterLetter: bool): (r: string)
    ensures |r| == |s|
  {
    if s == [] then []
    else
      var c := if !IsLetter(s[0]) then s[0] else if afterLetter then LowerChar(s[0]) else UpperChar(s[0]);
      [c] + TitleAfter(s[1..], IsLetter(s[0]))
  }

  /** Title-casing only changes case: lower-casing undoes it. */
  lemma {:induction false} LowerTitleAfter(s: string, afterLetter: bool)
    ensures Lower(TitleAfter(s, afterLetter)) == Lower(s)
  {
    if s != [] {
      LowerTitleAfter(s[1..], IsLetter(s[0]));
      assert Lower(s) == [LowerChar(s[0])] + Lower(s[1..]);
      var t := TitleAfter(s, afterLetter);
      assert t[1..] == TitleAfter(s[1..], IsLetter(s[0]));
      assert Lower(t) == [LowerChar(t[0])] + Lower(t[1..]);
    }
  }

  lemma LowerTitle(s: string)
    ensures Lower(Title(s)) == Lower(s)
  {
    LowerTitleAfter(s, false);
  }

  /** Distinct lower-case strings have distinct title forms. */
  lemma TitleInjectiveOnLower(a: string, b: string)
    requires Lower(a) == a && Lower(b) == b && a != b
    ensures Title(a) != Title(b)
  {
    LowerTitle(a);
    LowerTitle(b);
  }

  lemma LowerIdempotent(s: string)
    ensures Lower(Lower(s)) == Lower(s)
  {
  }

  /** Upper-casing only changes case, so distinct lower-case strings stay distinct. */
  lemma UpperInjectiveOnLower(a: string, b: string)
    requires Lower(a) == a && Lower(b) == b && a != b
    ensures Upper(a) != Upper(b)
  {
    assert Lower(Upper(a)) == a;
    assert Lower(Upper(b)) == b;
  }

  // ---------------------------------------------------------------------------
  // Searching
  // ---------------------------------------------------------------------------

  /** The literal `lit` occurs in `s` starting at position `i`. */
  predicate StartsAt(s: string, i: nat, lit: string) {
    i + |lit| <= |s| && s[i..i + |lit|] == lit
  }

  /** Python's `w in s` for strings. */
  predicate IsSubstring(w: string, s: string) {
    exists i: nat :: i <= |s| && StartsAt(s, i, w)
  }

  lemma SliceIsSubstring(s: string, i: nat, j: nat)
    requires i <= j <= |s|
    ensures IsSubstring(s[i..j], s)
  {
    assert StartsAt(s, i, s[i..j]);
  }

  /** The first and last characters of a non-empty slice. */
  lemma SliceEnds(s: string, i: nat, j: nat)
    requires i < j <= |s|
    ensures |s[i..j]| == j - i && s[i..j][0] == s[i] && s[i..j][j - i - 1] == s[j - 1]
  {
  }

  /** `s.startswith(p)` */
  predicate StartsWith(s: string, p: string) {
    |p| <= |s| && s[..|p|] == p
  }

  /** `s.endswith(p)` */
  predicate EndsWith(s: string, p: string) {
    |p| <= |s| && s[|s| - |p|..] == p
  }

  /** The first index of `c` in `s` (`s.find(c)`, with `None` for -1). */
  function IndexOf(s: string, c: char): (r: Option<nat>)
    ensures r.None? <==> c !in s
    ensures r.Some? ==> r.value < |s| && s[r.value] == c && c !in s[..r.value]
  {
    if s == [] then None
    else if s[0] == c then Some(0)
    else
      match IndexOf(s[1..], c)
      case None => None
      case Some(i) =>
        assert s[1..][..i] == s[1..i + 1];
        Some(i + 1)
  }

  /** The last index of `c` in `s` (`s.rfind(c)`, with `None` for -1). */
  function LastIndexOf(s: string, c: char): (r: Option<nat>)
    ensures r.None? <==> c !in s
    ensures r.Some? ==> r.value < |s| && s[r.value] == c && c !in s[r.value + 1..]
  {
    if s == [] then None
    else if s[|s| - 1] == c then Some(|s| - 1)
    else
      var r := LastIndexOf(s[..|s| - 1], c);
      if r.Some? then
        assert s[r.value + 1..] == s[..|s| - 1][r.value + 1..] + [s[|s| - 1]];
        r
      else r
  }

  /** A `c` with none after it is the last one. */
  lemma {:induction false} LastIndexOfAt(s: string, c: char, i: nat)
    requires i < |s| && s[i] == c && c !in s[i + 1..]
    ensures LastIndexOf(s, c) == Some(i)
  {
    if i < |s| - 1 {
      assert s[i + 1..][|s| - 2 - i] == s[|s| - 1];
      assert s[..|s| - 1][i + 1..] == s[i + 1..|s| - 1];
      LastIndexOfAt(s[..|s| - 1], c, i);
    }
  }

  /** The first index at which `w` occurs in `s` (`s.find(w)`, with `None` for -1). */
  function Find(s: string, w: string): (r: Option<nat>)
    ensures r.Some? ==> StartsAt(s, r.value, w)
    ensures r.Some? ==> forall j :: 0 <= j < r.value ==> !StartsAt(s, j, w)
    ensures r.None? ==> forall j :: 0 <= j <= |s| ==> !StartsAt(s, j, w)
  {
    FindFrom(s, w, 0)
  }

  function FindFrom(s: string, w: string, i: nat): (r: Option<nat>)
    requires i <= |s|
    ensures r.Some? ==> i <= r.value && StartsAt(s, r.value, w)
    ensures r.Some? ==> forall j :: i <= j < r.value ==> !StartsAt(s, j, w)
    ensures r.None? ==> forall j :: i <= j <= |s| ==> !StartsAt(s, j, w)
    decreases |s| - i
  {
    if StartsAt(s, i, w) then Some(i)
    else if i == |s| then None
    else FindFrom(s, w, i + 1)
  }

  lemma FindIsSubstring(s: string, w: string)
    ensures Find(s, w).Some? <==> IsSubstring(w, s)
  {
  }

  // ---------------------------------------------------------------------------
  // Stripping
  // ---------------------------------------------------------------------------

  /** Drop leading characters that satisfy `drop` (`s.lstrip(chars)`). */
  function LStripWhere(s: string, drop: char -> bool): (r: string)
    ensures |r| <= |s| && r == s[|s| - |r|..]
    ensures r != [] ==> !drop(r[0])
    ensures forall i :: 0 <= i < |s| - |r| ==> drop(s[i])
  {
    if s != [] && drop(s[0]) then
      var r := LStripWhere(s[1..], drop);
      assert s[1..][|s| - 1 - |r|..] == s[|s| - |r|..];
      assert forall i :: 1 <= i < |s| - |r| ==> s[i] == s[1..][i - 1];
      r
    else s
  }

  /** Drop trailing characters that satisfy `drop` (`s.rstrip(chars)`). */
  function RStripWhere(s: string, drop: char -> bool): (r: string)
    ensures |r| <= |s| && r == s[..|r|]
    ensures r != [] ==> !drop(r[|r| - 1])
    ensures forall i :: |r| <= i < |s| ==> drop(s[i])
  {
    if s != [] && drop(s[|s| - 1]) then
      var r := RStripWhere(s[..|s| - 1], drop);
      assert s[..|s| - 1][..|r|] == s[..|r|];
      assert forall i :: |r| <= i < |s| - 1 ==> s[i] == s[..|s| - 1][i];
      r
    else s
  }

  /** `s.strip()` */
  function Strip(s: string): (r: string)
    ensures |r| <= |s|
    ensures r != [] ==> !IsSpace(r[0]) && !IsSpace(r[|r| - 1])
  {
    LStripWhere(RStripWhere(s, IsSpace), IsSpace)
  }

  /** A stripped text occurs in the text. */
  lemma StripIsSubstring(s: string)
    ensures IsSubstring(Strip(s), s)
  {
    var t := RStripWhere(s, IsSpace);
    var r := LStripWhere(t, IsSpace);
    assert t[|t| - |r|..] == r;
    assert s[..|t|] == t;
    assert s[|t| - |r|..|t|] == r;
    assert StartsAt(s, |t| - |r|, r);
  }

  predicate IsSlash(c: char) { c == '/' }

  // ---------------------------------------------------------------------------
  // Splitting and joining
  // ---------------------------------------------------------------------------

  predicate IsNotSpace(c: char) { !IsSpace(c) }

  /** A string without whitespace. */
  predicate NoSpace(w: string) { forall j :: 0 <= j < |w| ==> IsNotSpace(w[j]) }

  /** `s.split()`: the maximal runs of non-whitespace characters, in order. */
  function Words(s: string): seq<string> { WordsFrom(s, 0) }

  /** The whitespace-separated words of `s[i..]`, scanning from a word start or a space. */
  function WordsFrom(s: string, i: nat): (ws: seq<string>)
    ensures forall k :: 0 <= k < |ws| ==> ws[k] != [] && NoSpace(ws[k])
    decreases |s| - i
  {
    if i >= |s| then []
    else if IsSpace(s[i]) then WordsFrom(s, i + 1)
    else
      var n := RunLength(s, i, IsNotSpace);
      assert n >= 1;
      assert NoSpace(s[i..i + n]);
      [s[i..i + n]] + WordsFrom(s, i + n)
  }

  /** `s.split(sep)` for a one-character separator. */
  function SplitOn(s: string, sep: char): (parts: seq<string>)
    ensures |parts| >= 1
    ensures forall k :: 0 <= k < |parts| ==> sep !in parts[k]
    decreases |s|
  {
    match IndexOf(s, sep)
    case None => [s]
    case Some(i) => [s[..i]] + SplitOn(s[i + 1..], sep)
  }

  /** `sep.join(parts)` */
  function JoinWith(sep: string, parts: seq<string>): string {
    if |parts| == 0 then ""
    else if |parts| == 1 then parts[0]
    else parts[0] + sep + JoinWith(sep, parts[1..])
  }

  /** A character in neither the separator nor any part is not in the joined string. */
  lemma {:induction false} JoinWithKeepsOut(sep: string, parts: seq<string>, c: char)
    requires c !in sep
    requires forall k :: 0 <= k < |parts| ==> c !in parts[k]
    ensures c !in JoinWith(sep, parts)
  {
    if |parts| > 1 {
      JoinWithKeepsOut(sep, parts[1..], c);
    }
  }

  /** Each line followed by the terminator `t`: the text a loop of `out += line + t` builds. */
  function Terminated(lines: seq<string>, t: char): (r: string)
    ensures |r| >= |lines|
  {
    if lines == [] then "" else lines[0] + [t] + Terminated(lines[1..], t)
  }

  lemma {:induction false} TerminatedSnoc(lines: seq<string>, line: string, t: char)
    ensures Terminated(lines + [line], t) == Terminated(lines, t) + line + [t]
  {
    if lines == [] {
      assert [line][1..] == [];
    } else {
      assert (lines + [line])[1..] == lines[1..] + [line];
      TerminatedSnoc(lines[1..], line, t);
    }
  }

  /** Terminated lines are the lines joined with the terminator, plus an empty last piece. */
  lemma {:induction false} TerminatedIsJoin(lines: seq<string>, t: char)
    ensures Terminated(lines, t) == JoinWith([t], lines + [""])
  {
    if lines != [] {
      assert (lines + [""])[1..] == lines[1..] + [""];
      TerminatedIsJoin(lines[1..], t);
    }
  }

  /** Splitting undoes joining when no part holds the separator. */
  lemma {:induction false} SplitJoin(parts: seq<string>, sep: char)
    requires |parts| >= 1
    requires forall k :: 0 <= k < |parts| ==> sep !in parts[k]
    ensures SplitOn(JoinWith([sep], parts), sep) == parts
  {
    var s := JoinWith([sep], parts);
    if |parts| == 1 {
      assert IndexOf(s, sep).None?;
    } else {
      var rest := JoinWith([sep], parts[1..]);
      assert s == parts[0] + [sep] + rest;
      assert s[|parts[0]|] == sep;
      assert s[..|parts[0]|] == parts[0];
      assert IndexOf(s, sep) == Some(|parts[0]|);
      assert s[|parts[0]| + 1..] == rest;
      SplitJoin(parts[1..], sep);
    }
  }

  /** Joining a part in front of at least one more part puts the separator between them. */
  lemma JoinCons(sep: string, a: string, rest: seq<string>)
    requires |rest| >= 1
    ensures JoinWith(sep, [a] + rest) == a + sep + JoinWith(sep, rest)
  {
    assert ([a] + rest)[0] == a && ([a] + rest)[1..] == rest;
  }

  /** Joining undoes splitting. */
  lemma {:induction false} JoinSplit(s: string, sep: char)
    ensures JoinWith([sep], SplitOn(s, sep)) == s
    decreases |s|
  {
    match IndexOf(s, sep)
    case None =>
    case Some(i) =>
      var tail := s[i + 1..];
      var rest := SplitOn(tail, sep);
      assert SplitOn(s, sep) == [s[..i]] + rest;
      JoinSplit(tail, sep);
      JoinCons([sep], s[..i], rest);
      assert s[..i] + [sep] + tail == s;
  }

  /** `s.replace(a, b)` for single characters. */
  function ReplaceChar(s: string, a: char, b: char): (r: string)
    ensures |r| == |s|
    ensures forall i :: 0 <= i < |s| ==> r[i] == (if s[i] == a then b else s[i])
  {
    seq(|s|, i requires 0 <= i < |s| => if s[i] == a then b else s[i])
  }

  /** `s.replace(c, '')` */
  function RemoveChar(s: string, c: char): (r: string)
    ensures c !in r
    ensures forall d :: d in r ==> d in s
  {
    if s == [] then []
    else (if s[0] == c then [] else [s[0]]) + RemoveChar(s[1..], c)
  }

  /** Python's doubling of a character inside a string (`s.replace('"', '""')`). */
  function DoubleChar(s: string, c: char): (r: string)
    ensures |r| >= |s|
  {
    if s == [] then []
    else (if s[0] == c then [c, c] else [s[0]]) + DoubleChar(s[1..], c)
  }

  lemma {:induction false} DoubleCharKeepsOut(s: string, c: char, d: char)
    requires d !in s && d != c
    ensures d !in DoubleChar(s, c)
  {
    if s != [] {
      DoubleCharKeepsOut(s[1..], c, d);
    }
  }

  /** The inverse of `DoubleChar`: every doubled `c` becomes one `c`. */
  function UndoubleChar(s: string, c: char): string
    decreases |s|
  {
    if |s| >= 2 && s[0] == c && s[1] == c then [c] + UndoubleChar(s[2..], c)
    else if s == [] then []
    else [s[0]] + UndoubleChar(s[1..], c)
  }

  lemma {:induction false} UndoubleDouble(s: string, c: char)
    ensures UndoubleChar(DoubleChar(s, c), c) == s
  {
    if s != [] {
      UndoubleDouble(s[1..], c);
      var d := DoubleChar(s, c);
      if s[0] == c {
        assert d == [c, c] + DoubleChar(s[1..], c);
        assert d[2..] == DoubleChar(s[1..], c);
      } else {
        assert d == [s[0]] + DoubleChar(s[1..], c);
        assert d[1..] == DoubleChar(s[1..], c);
      }
    }
  }

  /** In a doubled string every `c` is one of a pair, so the string can sit inside quotes. */
  lemma {:induction false} DoubledComeInPairs(s: string, c: char)
    ensures CountOf(DoubleChar(s, c), c) == 2 * CountOf(s, c)
  {
    if s != [] {
      DoubledComeInPairs(s[1..], c);
      CountOfAppend(if s[0] == c then [c, c] else [s[0]], DoubleChar(s[1..], c), c);
    }
  }

  function CountOf(s: string, c: char): nat {
    if s == [] then 0 else (if s[0] == c then 1 else 0) + CountOf(s[1..], c)
  }

  lemma {:induction false} CountOfAppend(a: string, b: string, c: char)
    ensures CountOf(a + b, c) == CountOf(a, c) + CountOf(b, c)
  {
    if a != [] {
      assert (a + b)[0] == a[0];
      assert (a + b)[1..] == a[1..] + b;
      CountOfAppend(a[1..], b, c);
    } else {
      assert a + b == b;
    }
  }

  // ---------------------------------------------------------------------------
  // Numbers
  // ---------------------------------------------------------------------------

  function DigitValue(c: char): nat
    requires IsDigit(c)
  {
    c as int - '0' as int
  }

  function DigitChar(d: nat): (c: char)
    requires d < 10
    ensures IsDigit(c) && DigitValue(c) == d
  {
    ('0' as int + d) as char
  }

  predicate AllDigits(s: string) {
    forall i :: 0 <= i < |s| ==> IsDigit(s[i])
  }

  /** `int(s)` / `float(s)` for a string of decimal digits. */
  function ParseNat(s: string): nat
    requires AllDigits(s)
  {
    if s == [] then 0 else ParseNat(s[..|s| - 1]) * 10 + DigitValue(s[|s| - 1])
  }

  lemma DigitsHaveNoSeparator(s: string, sep: char)
    requires AllDigits(s) && !IsDigit(sep)
    ensures sep !in s
  {
    assert forall i :: 0 <= i < |s| ==> s[i] != sep;
  }

  /** `str(n)` for a natural number. */
  function NatToString(n: nat): (s: string)
    ensures |s| >= 1 && AllDigits(s)
  {
    if n < 10 then [DigitChar(n)] else NatToString(n / 10) + [DigitChar(n % 10)]
  }

  /** Reading back a printed number gives the number. */
  lemma {:induction false} ParseNatToString(n: nat)
    ensures ParseNat(NatToString(n)) == n
  {
    var s := NatToString(n);
    if n >= 10 {
      ParseNatToString(n / 10);
      assert s[..|s| - 1] == NatToString(n / 10);
    }
  }

  // ---------------------------------------------------------------------------
  // Sequences
  // ---------------------------------------------------------------------------

  predicate NoDuplicates<T(==)>(xs: seq<T>) {
    forall i, j :: 0 <= i < j < |xs| ==> xs[i] != xs[j]
  }

  /** `xs` with later repetitions dropped (first occurrences kept, in order). */
  function Dedup<T(==)>(xs: seq<T>): (r: seq<T>)
    ensures NoDuplicates(r)
    ensures forall i :: 0 <= i < |r| ==> r[i] in xs
    ensures forall i :: 0 <= i < |xs| ==> xs[i] in r
  {
    if xs == [] then []
    else
      var rest := Dedup(xs[..|xs| - 1]);
      var last := xs[|xs| - 1];
      assert xs == xs[..|xs| - 1] + [last];
      if last in rest then rest else rest + [last]
  }

  lemma DedupMembership<T>(xs: seq<T>, x: T)
    ensures x in Dedup(xs) <==> x in xs
  {
    var r := Dedup(xs);
    if x in r {
      var i :| 0 <= i < |r| && r[i] == x;
    }
    if x in xs {
      var i :| 0 <= i < |xs| && xs[i] == x;
    }
  }

  function Min(a: int, b: int): int { if a < b then a else b }

  /** `xs[:n]`: the first `n` elements, or all of them when there are fewer. */
  function Prefix<T>(xs: seq<T>, n: nat): (r: seq<T>)
    ensures |r| == Min(n, |xs|) && r == xs[..|r|]
  {
    xs[..Min(n, |xs|)]
  }

  /** The index of the first element satisfying `p` (`next(i for i, x in enumerate(xs) if p(x))`). */
  function FirstWhere<T>(xs: seq<T>, p: T -> bool): (r: Option<nat>)
    ensures r.Some? ==> r.value < |xs| && p(xs[r.value]) && forall j :: 0 <= j < r.value ==> !p(xs[j])
    ensures r.None? ==> forall j :: 0 <= j < |xs| ==> !p(xs[j])
  {
    if xs == [] then None
    else if p(xs[0]) then Some(0)
    else match FirstWhere(xs[1..], p)
      case None => None
      case Some(k) => Some(k + 1)
  }

  /** An element satisfying `p` with none before it is the first. */
  lemma FirstWhereAt<T>(xs: seq<T>, p: T -> bool, i: nat)
    requires i < |xs| && p(xs[i])
    requires forall j :: 0 <= j < i ==> !p(xs[j])
    ensures FirstWhere(xs, p) == Some(i)
  {
  }

  /** The scan for the first element satisfying `p`, stopping there. */
  method FindFirst<T>(xs: seq<T>, p: T -> bool) returns (k: Option<nat>)
    ensures k == FirstWhere(xs, p)
  {
    for i := 0 to |xs|
      invariant forall j :: 0 <= j < i ==> !p(xs[j])
    {
      if p(xs[i]) {
        FirstWhereAt(xs, p, i);
        return Some(i);
      }
    }
    return None;
  }

  /** Apply `f` to every element (a Python list comprehension). */
  function MapSeq<A, B>(f: A -> B, xs: seq<A>): (r: seq<B>)
    ensures |r| == |xs|
    ensures forall i :: 0 <= i < |xs| ==> r[i] == f(xs[i])
  {
    seq(|xs|, i requires 0 <= i < |xs| => f(xs[i]))
  }

  /** The positions of `xs` whose element satisfies `p`. */
  ghost function Positions<T>(xs: seq<T>, p: T -> bool): set<nat> {
    set k: nat | k < |xs| && p(xs[k])
  }

  /** Extending a sequence by one element adds its position exactly when it satisfies `p`. */
  lemma PositionsSnoc<T>(xs: seq<T>, p: T -> bool)
    requires xs != []
    ensures |Positions(xs, p)| == |Positions(xs[..|xs| - 1], p)| + (if p(xs[|xs| - 1]) then 1 else 0)
  {
    var n := |xs| - 1;
    var before := Positions(xs[..n], p);
    assert forall k :: 0 <= k < n ==> xs[..n][k] == xs[k];
    if p(xs[n]) {
      assert Positions(xs, p) == before + {n};
      assert n !in before;
    } else {
      assert Positions(xs, p) == before;
    }
  }

  /** The image of an element is in the mapped sequence. */
  lemma MapSeqHas<A, B>(f: A -> B, xs: seq<A>, x: A)
    requires x in xs
    ensures f(x) in MapSeq(f, xs)
  {
    var k :| 0 <= k < |xs| && xs[k] == x;
    assert MapSeq(f, xs)[k] == f(x);
  }

  lemma MapSeqAppend<A, B>(f: A -> B, xs: seq<A>, ys: seq<A>)
    ensures MapSeq(f, xs + ys) == MapSeq(f, xs) + MapSeq(f, ys)
  {
  }

  /** The number of characters from position `i` on that satisfy `p`, without a gap. */
  function RunLength(s: string, i: nat, p: char -> bool): (n: nat)
    ensures i + n <= |s| || (i > |s| && n == 0)
    ensures forall k :: i <= k < i + n ==> p(s[k])
    ensures i + n < |s| ==> !p(s[i + n])
    decreases |s| - i
  {
    if i < |s| && p(s[i]) then 1 + RunLength(s, i + 1, p) else 0
  }

  // ---------------------------------------------------------------------------
  // Vocabulary scans
  // ---------------------------------------------------------------------------

  /**
   * The entries of `vocab` that occur in `text`, in vocabulary order:
   * `[w for w in vocab if w in text]`.
   */
  function Hits(vocab: seq<string>, text: string): seq<string> {
    if vocab == [] then []
    else (if IsSubstring(vocab[0], text) then [vocab[0]] else []) + Hits(vocab[1..], text)
  }

  /** The scan distributes over a split vocabulary: earlier entries come first. */
  lemma {:induction false} HitsAppend(v1: seq<string>, v2: seq<string>, text: string)
    ensures Hits(v1 + v2, text) == Hits(v1, text) + Hits(v2, text)
  {
    if v1 != [] {
      assert (v1 + v2)[0] == v1[0];
      assert (v1 + v2)[1..] == v1[1..] + v2;
      HitsAppend(v1[1..], v2, text);
    } else {
      assert v1 + v2 == v2;
    }
  }

  /** Extending the scanned prefix by one entry. */
  lemma HitsSnoc(vocab: seq<string>, i: nat, text: string)
    requires i < |vocab|
    ensures Hits(vocab[..i + 1], text)
         == Hits(vocab[..i], text) + (if IsSubstring(vocab[i], text) then [vocab[i]] else [])
  {
    assert vocab[..i + 1] == vocab[..i] + [vocab[i]];
    HitsAppend(vocab[..i], [vocab[i]], text);
  }

  /** An entry is a hit exactly when it is in the vocabulary and occurs in the text. */
  lemma {:induction false} HitsMembership(vocab: seq<string>, text: string, w: string)
    ensures w in Hits(vocab, text) <==> w in vocab && IsSubstring(w, text)
  {
    if vocab != [] {
      HitsMembership(vocab[1..], text, w);
      assert vocab == [vocab[0]] + vocab[1..];
    }
  }

  /** A vocabulary without repetitions yields hits without repetitions. */
  lemma {:induction false} HitsNoDuplicates(vocab: seq<string>, text: string)
    requires NoDuplicates(vocab)
    ensures NoDuplicates(Hits(vocab, text))
  {
    if vocab != [] {
      HitsNoDuplicates(vocab[1..], text);
      if IsSubstring(vocab[0], text) {
        HitsMembership(vocab[1..], text, vocab[0]);
        assert vocab[0] !in vocab[1..];
      }
    }
  }

  /** A transformed hit is exactly a transformed vocabulary entry that occurs in the text. */
  lemma MapHitsMembership(f: string -> string, vocab: seq<string>, text: string, w: string)
    ensures w in MapSeq(f, Hits(vocab, text))
        <==> exists k :: 0 <= k < |vocab| && IsSubstring(vocab[k], text) && w == f(vocab[k])
  {
    var h := Hits(vocab, text);
    var m := MapSeq(f, h);
    if w in m {
      var i :| 0 <= i < |m| && m[i] == w;
      HitsMembership(vocab, text, h[i]);
      var k :| 0 <= k < |vocab| && vocab[k] == h[i];
    }
    if exists k :: 0 <= k < |vocab| && IsSubstring(vocab[k], text) && w == f(vocab[k]) {
      var k :| 0 <= k < |vocab| && IsSubstring(vocab[k], text) && w == f(vocab[k]);
      HitsMembership(vocab, text, vocab[k]);
      var i :| 0 <= i < |h| && h[i] == vocab[k];
      assert m[i] == w;
    }
  }

  /** Hits keep the vocabulary's order: of two hits, the earlier comes from an earlier entry. */
  lemma {:induction false} HitsInVocabularyOrder(vocab: seq<string>, text: string, a: nat, b: nat)
    requires a < b < |Hits(vocab, text)|
    ensures exists ka, kb :: 0 <= ka < kb < |vocab| && vocab[ka] == Hits(vocab, text)[a]
                                                   && vocab[kb] == Hits(vocab, text)[b]
  {
    var ka, kb := HitsOrderWitness(vocab, text, a, b);
  }

  /** The two vocabulary positions behind hits `a` and `b`, found by walking the vocabulary. */
  lemma {:induction false} HitsOrderWitness(vocab: seq<string>, text: string, a: nat, b: nat)
    returns (ka: nat, kb: nat)
    requires a < b < |Hits(vocab, text)|
    ensures ka < kb < |vocab| && vocab[ka] == Hits(vocab, text)[a] && vocab[kb] == Hits(vocab, text)[b]
  {
    var h := Hits(vocab, text);
    var rest := vocab[1..];
    var t := Hits(rest, text);
    var head: seq<string> := if IsSubstring(vocab[0], text) then [vocab[0]] else [];
    assert h == head + t;
    if head != [] && a == 0 {
      assert h[b] == t[b - 1];
      HitsMembership(rest, text, h[b]);
      var k :| 0 <= k < |rest| && rest[k] == h[b];
      assert vocab[k + 1] == rest[k];
      ka, kb := 0, k + 1;
    } else {
      var d := |head|;
      assert h[a] == t[a - d] && h[b] == t[b - d];
      var ra, rb := HitsOrderWitness(rest, text, a - d, b - d);
      assert vocab[ra + 1] == rest[ra] && vocab[rb + 1] == rest[rb];
      ka, kb := ra + 1, rb + 1;
    }
  }

  lemma {:induction false} HitsLength(vocab: seq<string>, text: string)
    ensures |Hits(vocab, text)| <= |vocab|
  {
    if vocab != [] {
      HitsLength(vocab[1..], text);
    }
  }
}
