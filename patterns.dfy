/**
 * Hand-written scanners for the fixed regular expressions of the resume parser
 * and the scorer. Each `...At(s, i)` function says what Python's `re` engine
 * finds when it tries the pattern at position `i` (following its greedy,
 * backtracking choice order), and `FirstMatch` is "the first element of
 * `re.findall`": the match at the smallest position where one exists.
 */
module Patterns {
  import opened Wrappers
  import opened Text

  // ---------------------------------------------------------------------------
  // The leftmost match
  // ---------------------------------------------------------------------------

  /** The result of `at` at the smallest position `k` in `i..n` where it matches. */
  function FirstMatch<T>(n: nat, at: nat -> Option<T>, i: nat): (r: Option<T>)
    ensures r.Some? ==> exists k :: i <= k <= n && at(k) == r && forall j :: i <= j < k ==> at(j).None?
    ensures r.None? ==> forall j :: i <= j <= n ==> at(j).None?
    decreases n - i
  {
    if i > n then None
    else if at(i).Some? then at(i)
    else FirstMatch(n, at, i + 1)
  }

  /** Without a match anywhere from `i` on, there is no first match. */
  lemma FirstMatchNone<T>(n: nat, at: nat -> Option<T>, i: nat)
    requires forall j :: i <= j <= n ==> at(j).None?
    ensures FirstMatch(n, at, i).None?
  {
  }

  /** A match at position `k`, with none before it, is the first match. */
  lemma {:induction false} FirstMatchAt<T>(n: nat, at: nat -> Option<T>, i: nat, k: nat)
    requires i <= k <= n && at(k).Some?
    requires forall j :: i <= j < k ==> at(j).None?
    ensures FirstMatch(n, at, i) == at(k)
    decreases k - i
  {
    if i < k {
      FirstMatchAt(n, at, i + 1, k);
    }
  }

  /**
   * A list of patterns tried in order, each with `re.findall`: the first match
   * of the first pattern `q` in `p..count-1` that has one.
   */
  function FirstPattern<T>(n: nat, scans: nat -> nat -> Option<T>, count: nat, p: nat): (r: Option<T>)
    ensures r.Some? ==> exists q :: p <= q < count && FirstMatch(n, scans(q), 0) == r
                                 && forall q' :: p <= q' < q ==> FirstMatch(n, scans(q'), 0).None?
    ensures r.None? ==> forall q :: p <= q < count ==> FirstMatch(n, scans(q), 0).None?
    decreases count - p
  {
    if p >= count then None
    else
      var m := FirstMatch(n, scans(p), 0);
      if m.Some? then m else FirstPattern(n, scans, count, p + 1)
  }

  function DigitRun(s: string, i: nat): nat { RunLength(s, i, IsDigit) }
  function SpaceRun(s: string, i: nat): nat { RunLength(s, i, IsSpace) }

  /** `n` digits start at position `p`. */
  predicate DigitsAt(s: string, p: nat, n: nat) {
    p + n <= |s| && forall k :: p <= k < p + n ==> IsDigit(s[k])
  }

  /** The value of the maximal digit run at `i`, when there is one. */
  function NumberAt(s: string, i: nat): (v: Option<nat>)
    ensures v.Some? <==> DigitRun(s, i) >= 1
  {
    var n := DigitRun(s, i);
    if n == 0 then None
    else
      assert AllDigits(s[i..i + n]);
      Some(ParseNat(s[i..i + n]))
  }

  // ---------------------------------------------------------------------------
  // Years of experience: services/resume_parser.py:123-127 and
  // services/candidate_scorer.py:351-355 (both applied to lower-cased text)
  // ---------------------------------------------------------------------------

  /** After a digit run ending at `k`: `\+?\s*years?`; the position after it. */
  function AfterYearWord(s: string, k: nat): Option<nat> {
    var k1 := if k < |s| && s[k] == '+' then k + 1 else k;
    var k2 := k1 + SpaceRun(s, k1);
    if StartsAt(s, k2, "year") then
      Some(k2 + 4 + (if k2 + 4 < |s| && s[k2 + 4] == 's' then 1 else 0))
    else None
  }

  /** `\s+(?:of\s+)?experience` at `k`. */
  predicate OfExperienceAt(s: string, k: nat) {
    var w := SpaceRun(s, k);
    w >= 1 &&
    var k4 := k + w;
    if StartsAt(s, k4, "of") && SpaceRun(s, k4 + 2) >= 1
    then StartsAt(s, k4 + 2 + SpaceRun(s, k4 + 2), "experience")
    else StartsAt(s, k4, "experience")
  }

  /** `(\d+)\+?\s*years?\s+(?:of\s+)?experience` tried at `i`; the group's value. */
  function YearsOfExperienceAt(s: string, i: nat): (r: Option<nat>)
    ensures r.Some? ==> exists d: nat :: d <= |s| && NumberAt(s, d) == r
  {
    var n := DigitRun(s, i);
    if n >= 1 && match AfterYearWord(s, i + n) { case Some(k) => OfExperienceAt(s, k) case None => false }
    then NumberAt(s, i) else None
  }

  /** `<w1>\s+<w2>\s+(\d+)\s+years?` tried at `i` (`minimum of N years`, `at least N years`). */
  function PhraseNumberYearsAt(s: string, i: nat, w1: string, w2: string): (r: Option<nat>)
    ensures r.Some? ==> exists d: nat :: d <= |s| && NumberAt(s, d) == r
  {
    if !StartsAt(s, i, w1) then None
    else
      var a := i + |w1|;
      var b := a + SpaceRun(s, a);
      if b == a || !StartsAt(s, b, w2) then None
      else
        var c := b + |w2|;
        var d := c + SpaceRun(s, c);
        var e := d + DigitRun(s, d);
        if d == c || e == d || SpaceRun(s, e) == 0 || !StartsAt(s, e + SpaceRun(s, e), "year") then None
        else NumberAt(s, d)
  }

  /** `experience[:\s]+(\d+)\+?\s*years?` tried at `i`. */
  function ExperienceColonYearsAt(s: string, i: nat): (r: Option<nat>)
    ensures r.Some? ==> exists d: nat :: d <= |s| && NumberAt(s, d) == r
  {
    if !StartsAt(s, i, "experience") then None
    else
      var a := i + 10;
      var d := a + RunLength(s, a, c => c == ':' || IsSpace(c));
      var e := d + DigitRun(s, d);
      if d == a || e == d || AfterYearWord(s, e).None? then None
      else NumberAt(s, d)
  }

  /** `(\d+)\+?\s*years?\s+in` tried at `i`. */
  function YearsInAt(s: string, i: nat): (r: Option<nat>)
    ensures r.Some? ==> exists d: nat :: d <= |s| && NumberAt(s, d) == r
  {
    var n := DigitRun(s, i);
    if n >= 1 && match AfterYearWord(s, i + n) {
                   case Some(k) => SpaceRun(s, k) >= 1 && StartsAt(s, k + SpaceRun(s, k), "in")
                   case None => false }
    then NumberAt(s, i) else None
  }

  /** The required-years patterns of the scorer, in their order (0, 1, 2). */
  function RequiredYearsPatternAt(p: nat, s: string, i: nat): (r: Option<nat>)
    ensures r.Some? ==> exists d: nat :: d <= |s| && NumberAt(s, d) == r
  {
    if p == 0 then YearsOfExperienceAt(s, i)
    else if p == 1 then PhraseNumberYearsAt(s, i, "minimum", "of")
    else PhraseNumberYearsAt(s, i, "at", "least")
  }

  /** The experience-years patterns of the resume parser, in their order (0, 1, 2). */
  function ResumeYearsPatternAt(p: nat, s: string, i: nat): (r: Option<nat>)
    ensures r.Some? ==> exists d: nat :: d <= |s| && NumberAt(s, d) == r
  {
    if p == 0 then YearsOfExperienceAt(s, i)
    else if p == 1 then ExperienceColonYearsAt(s, i)
    else YearsInAt(s, i)
  }

  // ---------------------------------------------------------------------------
  // Keywords: services/candidate_scorer.py:316-317, `\b\w{4,}\b`
  // ---------------------------------------------------------------------------

  predicate AllWordChars(w: string) { forall j :: 0 <= j < |w| ==> IsWordChar(w[j]) }

  /**
   * `re.findall(r'\b\w{4,}\b', s[i..])` when `i` is 0 or follows a non-word
   * character: the maximal runs of word characters that are four or more long.
   */
  function LongWordsFrom(s: string, i: nat): (ws: seq<string>)
    ensures forall k :: 0 <= k < |ws| ==> |ws[k]| >= 4 && AllWordChars(ws[k])
    decreases |s| - i
  {
    if i >= |s| then []
    else if !IsWordChar(s[i]) then LongWordsFrom(s, i + 1)
    else
      var n := RunLength(s, i, IsWordChar);
      assert AllWordChars(s[i..i + n]);
      (if n >= 4 then [s[i..i + n]] else []) + LongWordsFrom(s, i + n)
  }

  // ---------------------------------------------------------------------------
  // Email: services/resume_parser.py:53
  // `\b[A-Za-z0-9._%+-]+@[A-Za-z0-9.-]+\.[A-Z|a-z]{2,}\b`
  // ---------------------------------------------------------------------------

  predicate IsLocalChar(c: char) { IsLetter(c) || IsDigit(c) || c == '.' || c == '_' || c == '%' || c == '+' || c == '-' }
  predicate IsDomainChar(c: char) { IsLetter(c) || IsDigit(c) || c == '.' || c == '-' }
  predicate IsTldChar(c: char) { IsLetter(c) || c == '|' }

  predicate WordCharAt(s: string, i: int) { 0 <= i < |s| && IsWordChar(s[i]) }

  /** `\b` at position `i`. */
  predicate Boundary(s: string, i: int) { WordCharAt(s, i - 1) != WordCharAt(s, i) }

  /** `[A-Z|a-z]{2,}\b` from `b`, trying `t` characters first and then fewer. */
  function TldEnd(s: string, b: nat, t: nat): (q: Option<nat>)
    requires b + t <= |s|
    requires forall k :: b <= k < b + t ==> IsTldChar(s[k])
    ensures q.Some? ==> b + 2 <= q.value <= b + t && Boundary(s, q.value)
  {
    if t < 2 then None
    else if Boundary(s, b + t) then Some(b + t)
    else TldEnd(s, b, t - 1)
  }

  /** `[A-Za-z0-9.-]+\.` then the top-level part, trying the longest domain first. */
  function DomainEnd(s: string, start: nat, m: nat): (q: Option<nat>)
    requires start + m <= |s|
    requires forall k :: start <= k < start + m ==> IsDomainChar(s[k])
    ensures q.Some? ==> start + 4 <= q.value <= |s|
    ensures q.Some? ==> exists d :: start < d < q.value - 2 && s[d] == '.'
                         && (forall k :: start <= k < d ==> IsDomainChar(s[k]))
                         && (forall k :: d < k < q.value ==> IsTldChar(s[k]))
    ensures q.Some? ==> Boundary(s, q.value)
  {
    if m == 0 then None
    else
      var d := start + m;
      var tld := if d < |s| && s[d] == '.' then TldEnd(s, d + 1, RunLength(s, d + 1, IsTldChar)) else None;
      if tld.Some? then tld else DomainEnd(s, start, m - 1)
  }

  /** Where a match of the email pattern tried at position `i` ends. */
  function EmailEnd(s: string, i: nat): (q: Option<nat>)
    ensures q.Some? ==> i < q.value <= |s|
  {
    if !Boundary(s, i) then None
    else
      var at := i + RunLength(s, i, IsLocalChar);
      if at == i || at >= |s| || s[at] != '@' then None
      else DomainEnd(s, at + 1, RunLength(s, at + 1, IsDomainChar))
  }

  /** The email pattern tried at position `i`; the matched text. */
  function EmailAt(s: string, i: nat): (r: Option<string>)
    ensures r.Some? ==> exists q :: i < q <= |s| && r.value == s[i..q]
  {
    match EmailEnd(s, i)
    case None => None
    case Some(q) => Some(s[i..q])
  }

  /** Exactly one '@', with a non-empty part before it and a '.' after it. */
  predicate IsAddressShaped(e: string) {
    exists at :: 0 < at < |e| && e[at] == '@'
                 && (forall k :: 0 <= k < |e| && k != at ==> e[k] != '@')
                 && (exists d :: at < d < |e| && e[d] == '.')
  }

  /** The shape of a slice, read off the positions of the whole text. */
  lemma SliceShape(s: string, i: nat, at: nat, q: nat)
    requires i < at < q <= |s| && s[at] == '@'
    requires forall k :: i <= k < q && k != at ==> s[k] != '@'
    requires exists d :: at < d < q && s[d] == '.'
    ensures IsAddressShaped(s[i..q])
  {
    var e := s[i..q];
    var d :| at < d < q && s[d] == '.';
    assert e[at - i] == '@' && e[d - i] == '.';
    forall k | 0 <= k < |e| && k != at - i
      ensures e[k] != '@'
    {
      assert e[k] == s[i + k];
    }
  }

  /** The positions of the '@', of the last dot and of the end of an email match at `i`. */
  lemma EmailParts(s: string, i: nat) returns (at: nat, d: nat, q: nat)
    requires EmailAt(s, i).Some?
    ensures i < at < d < q <= |s| && EmailAt(s, i).value == s[i..q]
    ensures s[at] == '@' && s[d] == '.'
    ensures forall k :: i <= k < at ==> IsLocalChar(s[k])
    ensures forall k :: at + 1 <= k < d ==> IsDomainChar(s[k])
    ensures forall k :: d < k < q ==> IsTldChar(s[k])
  {
    var end := EmailEnd(s, i);
    assert end.Some?;
    q := end.value;
    at := i + RunLength(s, i, IsLocalChar);
    assert at > i && at < |s| && s[at] == '@';
    var m := RunLength(s, at + 1, IsDomainChar);
    assert end == DomainEnd(s, at + 1, m);
    d :| at + 1 < d < q - 2 && s[d] == '.'
         && (forall k :: at + 1 <= k < d ==> IsDomainChar(s[k]))
         && (forall k :: d < k < q ==> IsTldChar(s[k]));
  }

  lemma EmailShape(s: string, i: nat)
    requires EmailAt(s, i).Some?
    ensures IsAddressShaped(EmailAt(s, i).value)
  {
    var at, d, q := EmailParts(s, i);
    OnlyOneAt(s, i, at, d, q);
    SliceShape(s, i, at, q);
  }

  /** Local, domain and top-level-domain characters are never '@'. */
  lemma OnlyOneAt(s: string, i: nat, at: nat, d: nat, q: nat)
    requires i <= at < d < q <= |s|
    requires forall k :: i <= k < at ==> IsLocalChar(s[k])
    requires forall k :: at + 1 <= k < d ==> IsDomainChar(s[k])
    requires s[d] == '.'
    requires forall k :: d < k < q ==> IsTldChar(s[k])
    ensures forall k :: i <= k < q && k != at ==> s[k] != '@'
  {
  }

  // ---------------------------------------------------------------------------
  // Phone: services/resume_parser.py:59-63
  // ---------------------------------------------------------------------------

  predicate IsPhoneSeparator(c: char) { c == '-' || c == '.' || IsSpace(c) }

  /** `([0-9]{3})\)?[-.\s]?([0-9]{3})[-.\s]?([0-9]{4})` at `p`; the three groups joined. */
  function PhoneGroupsAt(s: string, p: nat): (r: Option<string>)
    ensures r.Some? ==> |r.value| == 10 && AllDigits(r.value)
  {
    if !DigitsAt(s, p, 3) then None
    else
      var q1 := p + 3 + (if p + 3 < |s| && s[p + 3] == ')' then 1 else 0);
      var q2 := q1 + (if q1 < |s| && IsPhoneSeparator(s[q1]) then 1 else 0);
      if !DigitsAt(s, q2, 3) then None
      else
        var q3 := q2 + 3 + (if q2 + 3 < |s| && IsPhoneSeparator(s[q2 + 3]) then 1 else 0);
        if !DigitsAt(s, q3, 4) then None
        else Some(s[p..p + 3] + s[q2..q2 + 3] + s[q3..q3 + 4])
  }

  /** `\s*\(?` from `k`, then the groups. */
  function PhoneAfterPrefix(s: string, k: nat): Option<string> {
    var k1 := k + SpaceRun(s, k);
    var k2 := k1 + (if k1 < |s| && s[k1] == '(' then 1 else 0);
    PhoneGroupsAt(s, k2)
  }

  /**
   * `\+?1?\s*\(?([0-9]{3})\)?[-.\s]?([0-9]{3})[-.\s]?([0-9]{4})` tried at `i`:
   * an optional `+`, then a `1` that is taken when the rest still matches and
   * otherwise left to be the first digit of the groups.
   */
  function GroupedPhoneAt(s: string, i: nat): (r: Option<string>)
    ensures r.Some? ==> |r.value| == 10 && AllDigits(r.value)
  {
    var j := if i < |s| && s[i] == '+' then i + 1 else i;
    if j < |s| && s[j] == '1' then
      var taken := PhoneAfterPrefix(s, j + 1);
      if taken.Some? then taken else PhoneAfterPrefix(s, j)
    else PhoneAfterPrefix(s, j)
  }

  /** `\b\d{10}\b` tried at `i`. */
  function TenDigitsAt(s: string, i: nat): Option<string> {
    if Boundary(s, i) && DigitsAt(s, i, 10) && Boundary(s, i + 10) then Some(s[i..i + 10]) else None
  }

  /** `\d{8,12}` at `b`, as many digits as there are up to 12; the end position. */
  function LongNumberEnd(s: string, b: nat): (e: Option<nat>)
    ensures e.Some? ==> b + 8 <= e.value <= |s| && DigitsAt(s, b, e.value - b)
  {
    var m := DigitRun(s, b);
    if m >= 8 then Some(b + (if m < 12 then m else 12)) else None
  }

  /** `\d{1,3}\s?\d{8,12}` after a `+` at `i`, with `n1` country-code digits and then fewer. */
  function IntlEnd(s: string, i: nat, n1: nat): (e: Option<nat>)
    requires n1 <= DigitRun(s, i + 1)
    ensures e.Some? ==> i + 10 <= e.value <= |s|
  {
    if n1 == 0 then None
    else
      var a := i + 1 + n1;
      var spaced := if a < |s| && IsSpace(s[a]) then LongNumberEnd(s, a + 1) else None;
      if spaced.Some? then spaced
      else
        var unspaced := LongNumberEnd(s, a);
        if unspaced.Some? then unspaced else IntlEnd(s, i, n1 - 1)
  }

  /** `\+\d{1,3}\s?\d{8,12}` tried at `i`; the matched text. */
  function IntlPhoneAt(s: string, i: nat): (r: Option<string>)
    ensures r.Some? ==> |r.value| >= 10 && r.value[0] == '+'
  {
    if i < |s| && s[i] == '+' then
      var l := DigitRun(s, i + 1);
      match IntlEnd(s, i, if l < 3 then l else 3)
      case None => None
      case Some(e) => Some(s[i..e])
    else None
  }

  /** The phone patterns in their order (0, 1, 2). */
  function PhonePatternAt(p: nat, s: string, i: nat): (r: Option<string>)
    ensures r.Some? ==> (|r.value| == 10 && AllDigits(r.value)) || (|r.value| >= 10 && r.value[0] == '+')
  {
    if p == 0 then GroupedPhoneAt(s, i)
    else if p == 1 then TenDigitsAt(s, i)
    else IntlPhoneAt(s, i)
  }

  /** Phone pattern `p` as a function of the position, for `FirstMatch`. */
  function PhoneScan(s: string, p: nat): nat -> Option<string> { (i: nat) => PhonePatternAt(p, s, i) }
  function PhoneScans(s: string): nat -> nat -> Option<string> { (p: nat) => PhoneScan(s, p) }

  /** The resume parser's years pattern `p` as a function of the position. */
  function ResumeYearsScan(s: string, p: nat): nat -> Option<nat> { (i: nat) => ResumeYearsPatternAt(p, s, i) }
  function ResumeYearsScans(s: string): nat -> nat -> Option<nat> { (p: nat) => ResumeYearsScan(s, p) }

  /** The scorer's required-years pattern `p` as a function of the position. */
  function RequiredYearsScan(s: string, p: nat): nat -> Option<nat> { (i: nat) => RequiredYearsPatternAt(p, s, i) }
  function RequiredYearsScans(s: string): nat -> nat -> Option<nat> { (p: nat) => RequiredYearsScan(s, p) }

  /** The email pattern as a function of the position. */
  function EmailScan(s: string): nat -> Option<string> { (i: nat) => EmailAt(s, i) }

  /** Wherever ten bare digits match, the grouped pattern matches too. */
  lemma TenDigitsImpliesGrouped(s: string, i: nat)
    requires TenDigitsAt(s, i).Some?
    ensures GroupedPhoneAt(s, i).Some?
  {
    assert IsDigit(s[i]) && IsDigit(s[i + 3]) && IsDigit(s[i + 6]);
    assert SpaceRun(s, i) == 0;
    assert PhoneGroupsAt(s, i).Some?;
  }

  /** Where the grouped pattern fails, so does the ten-digit pattern. */
  lemma TenDigitsNeedGrouped(s: string, i: nat)
    requires GroupedPhoneAt(s, i).None?
    ensures TenDigitsAt(s, i).None?
  {
    if TenDigitsAt(s, i).Some? {
      TenDigitsImpliesGrouped(s, i);
    }
  }

  /**
   * The second phone pattern is dead code: it is tried only when the first has
   * no match, and then it has none either.
   */
  lemma TenDigitsNeverReached(s: string)
    requires FirstMatch(|s|, PhoneScan(s, 0), 0).None?
    ensures FirstMatch(|s|, PhoneScan(s, 1), 0).None?
  {
    var grouped, bare := PhoneScan(s, 0), PhoneScan(s, 1);
    forall k | 0 <= k <= |s| ensures bare(k).None? {
      assert grouped(k) == GroupedPhoneAt(s, k);
      TenDigitsNeedGrouped(s, k);
      assert bare(k) == TenDigitsAt(s, k);
    }
    FirstMatchNone(|s|, bare, 0);
  }
}
