/**
 * The field extractor of services/resume_parser.py: from the text of a resume
 * it picks a name and a summary by scanning lines, skills, degrees,
 * certifications and languages by fixed-vocabulary substring scans, and an
 * email, a phone number and years of experience with fixed regular
 * expressions (the scanners of module Patterns).
 *
 * Each extractor is a method shaped like the source (a loop that appends, or a
 * scan that returns early) and is proved equal to a specification function;
 * the lemmas state what those functions promise.
 */
module ResumeParser {
  import opened Wrappers
  import opened Text
  import opened Patterns

  // ---------------------------------------------------------------------------
  // Vocabularies
  // ---------------------------------------------------------------------------

  const TechnicalSkills: seq<string> := [
    "python", "java", "javascript", "c++", "c#", "ruby", "php", "swift", "kotlin",
    "react", "angular", "vue", "node.js", "django", "flask", "spring",
    "sql", "nosql", "mongodb", "postgresql", "mysql", "redis",
    "aws", "azure", "gcp", "docker", "kubernetes", "jenkins", "git",
    "machine learning", "deep learning", "ai", "data science", "tensorflow", "pytorch",
    "html", "css", "rest api", "graphql", "microservices", "agile", "scrum",
    "linux", "unix", "windows server", "networking", "security", "devops"
  ]

  const SoftSkills: seq<string> := [
    "leadership", "communication", "teamwork", "problem solving",
    "critical thinking", "project management", "collaboration", "adaptability"
  ]

  const AllSkills: seq<string> := TechnicalSkills + SoftSkills

  const Degrees: seq<string> := [
    "phd", "ph.d", "doctorate", "master", "mba", "bachelor", "associate",
    "b.s", "b.a", "m.s", "m.a", "b.tech", "m.tech"
  ]

  const CommonCertifications: seq<string> := [
    "aws certified", "azure certified", "google cloud certified",
    "pmp", "cissp", "comptia", "ccna", "ccnp",
    "certified scrum master", "csm", "cka", "ckad",
    "tensorflow developer", "oracle certified"
  ]

  const SpokenLanguages: seq<string> := [
    "english", "spanish", "french", "german", "chinese", "japanese",
    "korean", "arabic", "hindi", "portuguese", "russian", "italian"
  ]

  const SummaryKeywords: seq<string> := ["summary", "profile", "objective", "about"]

  // ---------------------------------------------------------------------------
  // The parsed record
  // ---------------------------------------------------------------------------

  /** An education entry; `field` is absent in entries the scorer back-fills. */
  datatype Degree = Degree(degree: string, field: Option<string>)

  /** The ten keys of the record `parse_resume` returns. */
  datatype ParsedResume = ParsedResume(
    rawText: string,
    name: Option<string>,
    email: Option<string>,
    phone: Option<string>,
    skills: seq<string>,
    education: seq<Degree>,
    experienceYears: Option<real>,
    certifications: seq<string>,
    languages: seq<string>,
    summary: string)

  /** `text.strip().split('\n')` */
  function Lines(text: string): seq<string> { SplitOn(Strip(text), '\n') }

  // ---------------------------------------------------------------------------
  // Name
  // ---------------------------------------------------------------------------

  /** A stripped line that can be a name: non-empty, short, and not an address. */
  predicate IsNameLine(line: string) { line != "" && |line| < 50 && '@' !in line }

  /** A line that, once stripped, can be a name. */
  predicate IsNameSource(line: string) { IsNameLine(Strip(line)) }

  /** The first line of `lines` that, once stripped, can be a name. */
  function FirstNameLine(lines: seq<string>): (r: Option<string>)
    ensures r.Some? ==> exists k :: 0 <= k < |lines| && r.value == Strip(lines[k]) && IsNameLine(r.value)
                             && forall j :: 0 <= j < k ==> !IsNameLine(Strip(lines[j]))
    ensures r.None? ==> forall k :: 0 <= k < |lines| ==> !IsNameLine(Strip(lines[k]))
  {
    match FirstWhere(lines, IsNameSource)
    case Some(k) => Some(Strip(lines[k]))
    case None => None
  }

  /** The name is looked for among the first five lines only. */
  function NameOf(text: string): Option<string> { FirstNameLine(Prefix(Lines(text), 5)) }

  method ExtractName(text: string) returns (name: Option<string>)
    ensures name == NameOf(text)
  {
    var lines := Prefix(Lines(text), 5);
    var k := FindFirst(lines, IsNameSource);
    name := if k.Some? then Some(Strip(lines[k.value])) else None;
  }

  // ---------------------------------------------------------------------------
  // Email
  // ---------------------------------------------------------------------------

  /** The leftmost match of the email pattern in the original text. */
  function ExtractEmail(text: string): (r: Option<string>)
    ensures r.Some? ==> exists i :: 0 <= i <= |text| && EmailAt(text, i) == r
                             && forall j :: 0 <= j < i ==> EmailAt(text, j).None?
    ensures r.None? ==> forall i :: 0 <= i <= |text| ==> EmailAt(text, i).None?
  {
    var r := FirstMatch(|text|, EmailScan(text), 0);
    assert forall i :: EmailScan(text)(i) == EmailAt(text, i);
    r
  }

  /** An extracted email is shaped like an address. */
  lemma ExtractedEmailShape(text: string)
    requires ExtractEmail(text).Some?
    ensures IsAddressShaped(ExtractEmail(text).value)
  {
    var e := ExtractEmail(text).value;
    var i :| 0 <= i <= |text| && EmailAt(text, i) == Some(e);
    EmailShape(text, i);
  }

  /** An extracted email occurs in the text as it was written. */
  lemma ExtractedEmailOccurs(text: string)
    requires ExtractEmail(text).Some?
    ensures IsSubstring(ExtractEmail(text).value, text)
  {
    var e := ExtractEmail(text).value;
    var i: nat :| i <= |text| && EmailAt(text, i) == Some(e);
    var q :| i < q <= |text| && e == text[i..q];
    SliceIsSubstring(text, i, q);
  }

  // ---------------------------------------------------------------------------
  // Phone
  // ---------------------------------------------------------------------------

  /** The first match of the first of the three phone patterns that matches. */
  function PhoneOf(text: string): Option<string> { FirstPattern(|text|, PhoneScans(text), 3, 0) }

  method ExtractPhone(text: string) returns (phone: Option<string>)
    ensures phone == PhoneOf(text)
  {
    for p := 0 to 3
      invariant FirstPattern(|text|, PhoneScans(text), 3, p) == PhoneOf(text)
    {
      var matches := FirstMatch(|text|, PhoneScan(text, p), 0);
      if matches.Some? {
        return matches;
      }
    }
    return None;
  }

  /**
   * The phone found is the grouped pattern's first match, or else the
   * international pattern's: the bare ten-digit pattern never decides it.
   */
  lemma PhoneOfSkipsTenDigits(text: string)
    ensures var grouped := FirstMatch(|text|, PhoneScan(text, 0), 0);
            PhoneOf(text) == if grouped.Some? then grouped else FirstMatch(|text|, PhoneScan(text, 2), 0)
  {
    if FirstMatch(|text|, PhoneScan(text, 0), 0).None? {
      TenDigitsNeverReached(text);
    }
  }

  /**
   * A phone number found is either ten digits (the three groups joined) or a
   * `+` followed by the country code and at least eight more digits.
   */
  lemma PhoneOfShape(text: string)
    requires PhoneOf(text).Some?
    ensures var v := PhoneOf(text).value;
            (|v| == 10 && AllDigits(v)) || (|v| >= 10 && v[0] == '+')
  {
    var r := PhoneOf(text);
    var q :| 0 <= q < 3 && FirstMatch(|text|, PhoneScans(text)(q), 0) == r;
    var scan := PhoneScan(text, q);
    assert PhoneScans(text)(q) == scan;
    var k :| 0 <= k <= |text| && scan(k) == r;
    assert scan(k) == PhonePatternAt(q, text, k);
  }

  // ---------------------------------------------------------------------------
  // Vocabulary scans
  // ---------------------------------------------------------------------------

  /** `list(set(...))` of the title-cased skills found in the lower-cased text. */
  function SkillsOf(text: string): seq<string> {
    Dedup(MapSeq(Title, Hits(AllSkills, Lower(text))))
  }

  method ExtractSkills(text: string) returns (skills: seq<string>)
    ensures skills == SkillsOf(text)
  {
    var lower := Lower(text);
    var found: seq<string> := [];
    for i := 0 to |AllSkills|
      invariant found == MapSeq(Title, Hits(AllSkills[..i], lower))
    {
      HitsSnoc(AllSkills, i, lower);
      MapSeqAppend(Title, Hits(AllSkills[..i], lower),
                   if IsSubstring(AllSkills[i], lower) then [AllSkills[i]] else []);
      if IsSubstring(AllSkills[i], lower) {
        found := found + [Title(AllSkills[i])];
      }
    }
    assert AllSkills[..|AllSkills|] == AllSkills;
    skills := Dedup(found);
  }

  /**
   * The skills are exactly the title-cased vocabulary entries that occur in the
   * lower-cased text, each once.
   */
  lemma SkillsOfMeaning(text: string, w: string)
    ensures NoDuplicates(SkillsOf(text))
    ensures w in SkillsOf(text)
        <==> exists k :: 0 <= k < |AllSkills| && IsSubstring(AllSkills[k], Lower(text)) && w == Title(AllSkills[k])
  {
    DedupMembership(MapSeq(Title, Hits(AllSkills, Lower(text))), w);
    MapHitsMembership(Title, AllSkills, Lower(text), w);
  }

  /** `{'degree': KEYWORD.upper(), 'field': 'Not specified'}` */
  function DegreeEntry(keyword: string): Degree { Degree(Upper(keyword), Some("Not specified")) }

  function EducationOf(text: string): seq<Degree> {
    MapSeq(DegreeEntry, Hits(Degrees, Lower(text)))
  }

  /** Of two education records, the earlier comes from an earlier degree keyword. */
  lemma EducationInOrder(text: string, a: nat, b: nat)
    requires a < b < |EducationOf(text)|
    ensures exists ka, kb :: 0 <= ka < kb < |Degrees| && EducationOf(text)[a] == DegreeEntry(Degrees[ka])
                                                    && EducationOf(text)[b] == DegreeEntry(Degrees[kb])
  {
    var h := Hits(Degrees, Lower(text));
    var ka, kb := HitsOrderWitness(Degrees, Lower(text), a, b);
    assert EducationOf(text)[a] == DegreeEntry(h[a]) && EducationOf(text)[b] == DegreeEntry(h[b]);
  }

  method ExtractEducation(text: string) returns (education: seq<Degree>)
    ensures education == EducationOf(text)
  {
    var lower := Lower(text);
    education := [];
    for i := 0 to |Degrees|
      invariant education == MapSeq(DegreeEntry, Hits(Degrees[..i], lower))
    {
      HitsSnoc(Degrees, i, lower);
      MapSeqAppend(DegreeEntry, Hits(Degrees[..i], lower),
                   if IsSubstring(Degrees[i], lower) then [Degrees[i]] else []);
      if IsSubstring(Degrees[i], lower) {
        education := education + [Degree(Upper(Degrees[i]), Some("Not specified"))];
      }
    }
    assert Degrees[..|Degrees|] == Degrees;
  }

  /** The degree keywords are distinct and lower-case. */
  lemma DegreesDistinctLowerCase()
    ensures NoDuplicates(Degrees)
    ensures forall k :: 0 <= k < |Degrees| ==> Lower(Degrees[k]) == Degrees[k]
  {
  }

  /**
   * The education list holds one entry per degree keyword found in the
   * lower-cased text, no two alike, each with the upper-cased keyword and the
   * field 'Not specified'.
   */
  lemma EducationOfMeaning(text: string, e: Degree)
    ensures NoDuplicates(EducationOf(text))
    ensures e in EducationOf(text)
        <==> exists k :: 0 <= k < |Degrees| && IsSubstring(Degrees[k], Lower(text))
                      && e == Degree(Upper(Degrees[k]), Some("Not specified"))
  {
    var h := Hits(Degrees, Lower(text));
    var r := EducationOf(text);
    DegreesDistinctLowerCase();
    HitsNoDuplicates(Degrees, Lower(text));
    forall a, b | 0 <= a < b < |r|
      ensures r[a] != r[b]
    {
      HitsMembership(Degrees, Lower(text), h[a]);
      HitsMembership(Degrees, Lower(text), h[b]);
      UpperInjectiveOnLower(h[a], h[b]);
    }
    if e in r {
      var i :| 0 <= i < |r| && r[i] == e;
      HitsMembership(Degrees, Lower(text), h[i]);
    }
    if exists k :: 0 <= k < |Degrees| && IsSubstring(Degrees[k], Lower(text))
                && e == Degree(Upper(Degrees[k]), Some("Not specified")) {
      var k :| 0 <= k < |Degrees| && IsSubstring(Degrees[k], Lower(text))
               && e == Degree(Upper(Degrees[k]), Some("Not specified"));
      HitsMembership(Degrees, Lower(text), Degrees[k]);
      var i :| 0 <= i < |h| && h[i] == Degrees[k];
      assert r[i] == e;
    }
  }

  function CertificationsOf(text: string): seq<string> {
    MapSeq(Title, Hits(CommonCertifications, Lower(text)))
  }

  method ExtractCertifications(text: string) returns (certs: seq<string>)
    ensures certs == CertificationsOf(text)
  {
    var lower := Lower(text);
    certs := [];
    for i := 0 to |CommonCertifications|
      invariant certs == MapSeq(Title, Hits(CommonCertifications[..i], lower))
    {
      HitsSnoc(CommonCertifications, i, lower);
      MapSeqAppend(Title, Hits(CommonCertifications[..i], lower),
                   if IsSubstring(CommonCertifications[i], lower) then [CommonCertifications[i]] else []);
      if IsSubstring(CommonCertifications[i], lower) {
        certs := certs + [Title(CommonCertifications[i])];
      }
    }
    assert CommonCertifications[..|CommonCertifications|] == CommonCertifications;
  }

  function LanguagesOf(text: string): seq<string> {
    MapSeq(Title, Hits(SpokenLanguages, Lower(text)))
  }

  method ExtractLanguages(text: string) returns (languages: seq<string>)
    ensures languages == LanguagesOf(text)
  {
    var lower := Lower(text);
    languages := [];
    for i := 0 to |SpokenLanguages|
      invariant languages == MapSeq(Title, Hits(SpokenLanguages[..i], lower))
    {
      HitsSnoc(SpokenLanguages, i, lower);
      MapSeqAppend(Title, Hits(SpokenLanguages[..i], lower),
                   if IsSubstring(SpokenLanguages[i], lower) then [SpokenLanguages[i]] else []);
      if IsSubstring(SpokenLanguages[i], lower) {
        languages := languages + [Title(SpokenLanguages[i])];
      }
    }
    assert SpokenLanguages[..|SpokenLanguages|] == SpokenLanguages;
  }

  /**
   * A title-cased scan (certifications, languages) yields exactly the
   * title-cased entries that occur in the text.
   */
  lemma TitledHitsMeaning(vocab: seq<string>, text: string, w: string)
    ensures w in MapSeq(Title, Hits(vocab, text))
        <==> exists k :: 0 <= k < |vocab| && IsSubstring(vocab[k], text) && w == Title(vocab[k])
  {
    MapHitsMembership(Title, vocab, text, w);
  }

  /** Of two results of a title-cased scan, the earlier comes from an earlier vocabulary entry. */
  lemma TitledHitsInOrder(vocab: seq<string>, text: string, a: nat, b: nat)
    requires a < b < |MapSeq(Title, Hits(vocab, text))|
    ensures var r := MapSeq(Title, Hits(vocab, text));
            exists ka, kb :: 0 <= ka < kb < |vocab| && r[a] == Title(vocab[ka]) && r[b] == Title(vocab[kb])
  {
    var h := Hits(vocab, text);
    var r := MapSeq(Title, h);
    HitsInVocabularyOrder(vocab, text, a, b);
    var ka, kb :| 0 <= ka < kb < |vocab| && vocab[ka] == h[a] && vocab[kb] == h[b];
    assert r[a] == Title(vocab[ka]) && r[b] == Title(vocab[kb]);
  }

  // ---------------------------------------------------------------------------
  // Years of experience
  // ---------------------------------------------------------------------------

  /** `float(matches[0])` of the first years pattern that matches the lower-cased text. */
  function YearsOf(text: string): Option<real> {
    var s := Lower(text);
    match FirstPattern(|s|, ResumeYearsScans(s), 3, 0)
    case Some(n) => Some(n as real)
    case None => None
  }

  method ExtractExperienceYears(text: string) returns (years: Option<real>)
    ensures years == YearsOf(text)
  {
    var s := Lower(text);
    for p := 0 to 3
      invariant FirstPattern(|s|, ResumeYearsScans(s), 3, p) == FirstPattern(|s|, ResumeYearsScans(s), 3, 0)
    {
      var matches := FirstMatch(|s|, ResumeYearsScan(s, p), 0);
      if matches.Some? {
        return Some(matches.value as real);
      }
    }
    return None;
  }

  /** A years pattern's first match is the value of a digit run of the scanned text. */
  lemma FoundYearsAreNumber(s: string)
    requires FirstPattern(|s|, ResumeYearsScans(s), 3, 0).Some?
    ensures exists d: nat :: d <= |s| && NumberAt(s, d) == FirstPattern(|s|, ResumeYearsScans(s), 3, 0)
  {
    var r := FirstPattern(|s|, ResumeYearsScans(s), 3, 0);
    var q :| 0 <= q < 3 && FirstMatch(|s|, ResumeYearsScans(s)(q), 0) == r;
    var scan := ResumeYearsScan(s, q);
    assert ResumeYearsScans(s)(q) == scan;
    var k :| 0 <= k <= |s| && scan(k) == r;
    assert scan(k) == ResumeYearsPatternAt(q, s, k);
    var d: nat :| d <= |s| && NumberAt(s, d) == ResumeYearsPatternAt(q, s, k);
  }

  /**
   * Years found are the value of a digit run of the lower-cased text; none are
   * found exactly when no pattern matches.
   */
  lemma YearsOfMeaning(text: string)
    ensures var s := Lower(text);
            YearsOf(text).None? <==> forall q :: 0 <= q < 3 ==> FirstMatch(|s|, ResumeYearsScans(s)(q), 0).None?
    ensures var s := Lower(text);
            YearsOf(text).Some? ==> exists d: nat :: d <= |s| && NumberAt(s, d).Some?
                                                  && YearsOf(text).value == NumberAt(s, d).value as real
  {
    var s := Lower(text);
    if FirstPattern(|s|, ResumeYearsScans(s), 3, 0).Some? {
      FoundYearsAreNumber(s);
    }
  }

  // ---------------------------------------------------------------------------
  // Summary
  // ---------------------------------------------------------------------------

  /** A line that opens a summary section. */
  predicate IsSummaryHeader(line: string) { Hits(SummaryKeywords, Lower(line)) != [] }

  predicate IsLongLine(line: string) { |line| > 50 }

  /** `[l.strip() for l in lines if l.strip()]` */
  function NonBlankStripped(lines: seq<string>): seq<string> {
    if lines == [] then []
    else (if Strip(lines[0]) != "" then [Strip(lines[0])] else []) + NonBlankStripped(lines[1..])
  }

  /**
   * The lines after the first header line, up to four of them, stripped and
   * space-joined; without a header, the first long line among the first ten.
   */
  function SummaryOf(text: string): string { SummaryFrom(Lines(text)) }

  function SummaryFrom(lines: seq<string>): string {
    match FirstWhere(lines, IsSummaryHeader)
    case Some(h) => HeaderSummary(lines, h)
    case None => LongLineSummary(lines)
  }

  /** Up to four lines after the header at `h`, stripped, without blanks, space-joined. */
  function HeaderSummary(lines: seq<string>, h: nat): string
    requires h < |lines|
  {
    JoinWith(" ", NonBlankStripped(lines[h + 1..Min(h + 5, |lines|)]))
  }

  /** The first line longer than 50 characters among the first ten, stripped. */
  function LongLineSummary(lines: seq<string>): string {
    match FirstWhere(Prefix(lines, 10), IsLongLine)
    case Some(k) => Strip(lines[k])
    case None => "No summary available"
  }

  method ExtractSummary(text: string) returns (summary: string)
    ensures summary == SummaryOf(text)
  {
    summary := SummaryScan(Lines(text));
  }

  method SummaryScan(lines: seq<string>) returns (summary: string)
    ensures summary == SummaryFrom(lines)
  {
    var header := FindFirst(lines, IsSummaryHeader);
    if header.Some? {
      var i := header.value;
      var following := lines[i + 1..Min(i + 5, |lines|)];
      return JoinWith(" ", NonBlankStripped(following));
    }
    var first := Prefix(lines, 10);
    var long := FindFirst(first, IsLongLine);
    if long.Some? {
      return Strip(first[long.value]);
    }
    return "No summary available";
  }

  /** A character of a stripped line is a character of the line. */
  lemma StripKeepsOut(line: string, c: char)
    requires c !in line
    ensures c !in Strip(line)
  {
    var t := RStripWhere(line, IsSpace);
    assert forall k :: 0 <= k < |t| ==> t[k] == line[k];
    var r := LStripWhere(t, IsSpace);
    assert forall k :: 0 <= k < |r| ==> r[k] == t[|t| - |r| + k];
    assert Strip(line) == r;
  }

  lemma {:induction false} NonBlankStrippedKeepsOut(lines: seq<string>, c: char)
    requires forall k :: 0 <= k < |lines| ==> c !in lines[k]
    ensures forall k :: 0 <= k < |NonBlankStripped(lines)| ==> c !in NonBlankStripped(lines)[k]
  {
    if lines != [] {
      StripKeepsOut(lines[0], c);
      NonBlankStrippedKeepsOut(lines[1..], c);
    }
  }

  /** The joined lines after a header have no newline when the lines have none. */
  lemma HeaderSummaryKeepsOut(lines: seq<string>, h: nat)
    requires h < |lines|
    requires forall k :: 0 <= k < |lines| ==> '\n' !in lines[k]
    ensures '\n' !in HeaderSummary(lines, h)
  {
    var following := lines[h + 1..Min(h + 5, |lines|)];
    assert forall k :: 0 <= k < |following| ==> following[k] == lines[h + 1 + k];
    NonBlankStrippedKeepsOut(following, '\n');
    JoinWithKeepsOut(" ", NonBlankStripped(following), '\n');
  }

  /** The long-line fallback has no newline when the lines have none. */
  lemma LongLineSummaryKeepsOut(lines: seq<string>)
    requires forall k :: 0 <= k < |lines| ==> '\n' !in lines[k]
    ensures '\n' !in LongLineSummary(lines)
  {
    match FirstWhere(Prefix(lines, 10), IsLongLine)
    case Some(k) =>
      StripKeepsOut(lines[k], '\n');
    case None =>
  }

  /** A summary built from lines without a newline has none either. */
  lemma SummaryFromKeepsOut(lines: seq<string>)
    requires forall k :: 0 <= k < |lines| ==> '\n' !in lines[k]
    ensures '\n' !in SummaryFrom(lines)
  {
    match FirstWhere(lines, IsSummaryHeader)
    case Some(h) =>
      HeaderSummaryKeepsOut(lines, h);
    case None =>
      LongLineSummaryKeepsOut(lines);
  }

  /** The summary is always a single line. */
  lemma SummaryIsOneLine(text: string)
    ensures '\n' !in SummaryOf(text)
  {
    SummaryFromKeepsOut(Lines(text));
  }

  // ---------------------------------------------------------------------------
  // The record
  // ---------------------------------------------------------------------------

  function ResumeOf(text: string): ParsedResume {
    ParsedResume(text, NameOf(text), ExtractEmail(text), PhoneOf(text), SkillsOf(text),
                 EducationOf(text), YearsOf(text), CertificationsOf(text), LanguagesOf(text),
                 SummaryOf(text))
  }

  /**
   * Empty text gives only the error; any other text gives the full record,
   * whose fields are the extractors' results and whose raw text is the input.
   */
  method ParseResume(text: string) returns (r: Result<ParsedResume>)
    ensures r.Failure? <==> text == ""
    ensures r.Failure? ==> r.error == "Could not extract text from resume"
    ensures r.Success? ==> r.value == ResumeOf(text) && r.value.rawText == text
  {
    if text == "" {
      return Failure("Could not extract text from resume");
    }
    var name := ExtractName(text);
    var email := ExtractEmail(text);
    var phone := ExtractPhone(text);
    var skills := ExtractSkills(text);
    var education := ExtractEducation(text);
    var years := ExtractExperienceYears(text);
    var certs := ExtractCertifications(text);
    var languages := ExtractLanguages(text);
    var summary := ExtractSummary(text);
    return Success(ParsedResume(text, name, email, phone, skills, education, years, certs, languages, summary));
  }
}
