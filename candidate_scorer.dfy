/**
 * The candidate scoring engine of services/candidate_scorer.py. A candidate
 * record, a job description and optional AI-supplied metrics give seven
 * dimension scores, a weighted total with fixed penalties and bonuses, a
 * clamped final score, a letter grade and ordered feedback.
 *
 * Scores are exact reals; the source's `round(x, 2)` on the reported values
 * is not modelled.
 */
module CandidateScorer {
  import opened Wrappers
  import opened Text
  import opened Patterns
  import opened ResumeParser

  // ---------------------------------------------------------------------------
  // Inputs
  // ---------------------------------------------------------------------------

  /**
   * The `extracted_data` map of an AI analysis. A missing list is the empty
   * list and a missing number is `None`, as `.get` reads them.
   */
  datatype ExtractedData = ExtractedData(
    skills: seq<string>,
    yearsOfExperience: Option<real>,
    educationLevel: Option<string>,
    skillsMatchScore: Option<real>,
    relevanceScore: Option<real>,
    technicalDepthScore: Option<real>,
    cultureFitScore: Option<real>,
    missingMustHaves: seq<string>,
    aiGeneratedProbability: Option<real>)

  /** The AI data used when there is none: every key missing. */
  const NoData := ExtractedData([], None, None, None, None, None, None, [], None)

  /**
   * A non-empty AI analysis map. `scoreAdjustment` is `None` when the key is
   * missing or its value does not convert to a number.
   */
  datatype AIAnalysis = AIAnalysis(
    extractedData: Option<ExtractedData>,
    scoreAdjustment: Option<real>,
    pros: seq<string>,
    cons: seq<string>,
    summary: string)

  /** The fields of the candidate record the scorer reads or updates. */
  datatype CandidateInfo = CandidateInfo(
    rawText: string,
    name: Option<string>,
    candidateName: Option<string>,
    email: Option<string>,
    candidateEmail: Option<string>,
    phone: Option<string>,
    candidatePhone: Option<string>,
    skills: seq<string>,
    experienceYears: Option<real>,
    education: seq<Degree>,
    certifications: seq<string>,
    fileUrl: string,
    parsingFailed: bool,
    status: Option<string>,
    id: Option<string>)

  /** One value per scoring dimension; also the shape of the weight table. */
  datatype Dimensions = Dimensions(
    skillsMatch: real,
    experience: real,
    education: real,
    relevance: real,
    technicalDepth: real,
    cultureFit: real,
    keywords: real)

  datatype Grade = A | B | C | D | F {
    function Letter(): string {
      match this
      case A => "A" case B => "B" case C => "C" case D => "D" case F => "F"
    }
    /** Better grades rank higher. */
    function Rank(): nat {
      match this
      case A => 4 case B => 3 case C => 2 case D => 1 case F => 0
    }
  }

  datatype AIInsights = AIInsights(pros: seq<string>, cons: seq<string>, summary: string, adjustment: real)

  /** The result record; `rank` is set only by the ranking step. */
  datatype ScoreResult = ScoreResult(
    totalScore: real,
    breakdown: Dimensions,
    feedback: seq<string>,
    grade: Grade,
    candidateName: string,
    candidateEmail: string,
    candidatePhone: string,
    fileUrl: string,
    parsingFailed: bool,
    status: string,
    aiAnalysis: Option<AIInsights>,
    id: Option<string>,
    rank: Option<nat>)

  function RealMin(a: real, b: real): real { if a < b then a else b }

  predicate InPercentRange(x: real) { 0.0 <= x <= 100.0 }

  predicate AllInPercentRange(d: Dimensions) {
    InPercentRange(d.skillsMatch) && InPercentRange(d.experience) && InPercentRange(d.education)
    && InPercentRange(d.relevance) && InPercentRange(d.technicalDepth)
    && InPercentRange(d.cultureFit) && InPercentRange(d.keywords)
  }

  // ---------------------------------------------------------------------------
  // Weights
  // ---------------------------------------------------------------------------

  const Weights := Dimensions(0.25, 0.15, 0.10, 0.25, 0.15, 0.05, 0.05)

  /** `sum(scores[key] * weights[key] for key in scores)` */
  function WeightedTotal(d: Dimensions): real {
    d.skillsMatch * Weights.skillsMatch + d.experience * Weights.experience
    + d.education * Weights.education + d.relevance * Weights.relevance
    + d.technicalDepth * Weights.technicalDepth + d.cultureFit * Weights.cultureFit
    + d.keywords * Weights.keywords
  }

  lemma WeightsSumToOne()
    ensures Weights.skillsMatch + Weights.experience + Weights.education + Weights.relevance
          + Weights.technicalDepth + Weights.cultureFit + Weights.keywords == 1.0
  {
  }

  /** The weighted total is a convex combination: it lies between the least and the greatest dimension. */
  lemma WeightedTotalBetween(d: Dimensions, lo: real, hi: real)
    requires lo <= d.skillsMatch <= hi && lo <= d.experience <= hi && lo <= d.education <= hi
    requires lo <= d.relevance <= hi && lo <= d.technicalDepth <= hi
    requires lo <= d.cultureFit <= hi && lo <= d.keywords <= hi
    ensures lo <= WeightedTotal(d) <= hi
  {
    WeightsSumToOne();
  }

  // ---------------------------------------------------------------------------
  // Skills: _score_skills
  // ---------------------------------------------------------------------------

  /** The abbreviation table, in its dictionary order. */
  const Variations: seq<(string, seq<string>)> := [
    ("js", ["javascript"]), ("ts", ["typescript"]), ("py", ["python"]), ("cpp", ["c++"]),
    ("c#", ["csharp", "c sharp"]), ("ml", ["machine learning"]), ("ai", ["artificial intelligence"]),
    ("dl", ["deep learning"]), ("fe", ["frontend", "front-end"]), ("be", ["backend", "back-end"]),
    ("fs", ["fullstack", "full-stack"]), ("react", ["reactjs", "react.js"]),
    ("node", ["nodejs", "node.js"]), ("vue", ["vuejs", "vue.js"])
  ]

  /** The lower-cased skill is an abbreviation one of whose spellings occurs in the description. */
  predicate VariationMatch(skill: string, jd: string) {
    exists e :: 0 <= e < |Variations| && Variations[e].0 == skill
           && exists v :: 0 <= v < |Variations[e].1| && IsSubstring(Variations[e].1[v], jd)
  }

  /** The lower-cased skill is a spelling whose abbreviation is a whole word of the description. */
  predicate AbbreviationMatch(skill: string, jd: string) {
    exists e :: 0 <= e < |Variations| && skill in Variations[e].1 && Variations[e].0 in Words(jd)
  }

  /** A skill counts as matched against the lower-cased description. */
  predicate SkillMatches(skill: string, jd: string) {
    var k := Lower(skill);
    IsSubstring(k, jd) || VariationMatch(k, jd) || AbbreviationMatch(k, jd)
  }

  /** `matched_skills`: the matching skills in their order, repetitions kept. */
  function MatchedSkills(skills: seq<string>, jd: string): (r: seq<string>)
    ensures |r| <= |skills|
  {
    if skills == [] then []
    else
      var last := skills[|skills| - 1];
      MatchedSkills(skills[..|skills| - 1], jd) + (if SkillMatches(last, jd) then [last] else [])
  }

  lemma {:induction false} MatchedSkillsMeaning(skills: seq<string>, jd: string)
    ensures |MatchedSkills(skills, jd)| <= |skills|
    ensures forall k :: 0 <= k < |MatchedSkills(skills, jd)| ==>
              MatchedSkills(skills, jd)[k] in skills && SkillMatches(MatchedSkills(skills, jd)[k], jd)
  {
    if skills != [] {
      var init := skills[..|skills| - 1];
      MatchedSkillsMeaning(init, jd);
      assert forall x :: x in init ==> x in skills;
    }
  }

  /** Every candidate skill that matches is among the matched skills. */
  lemma {:induction false} MatchedSkillsComplete(skills: seq<string>, jd: string, s: string)
    requires s in skills && SkillMatches(s, jd)
    ensures s in MatchedSkills(skills, jd)
  {
    var init := skills[..|skills| - 1];
    if s != skills[|skills| - 1] {
      var k :| 0 <= k < |skills| && skills[k] == s;
      assert init[k] == s;
      MatchedSkillsComplete(init, jd, s);
    }
  }

  /** The number of matches is the number of positions whose skill matches, repeats included. */
  lemma {:induction false} MatchedSkillsCount(skills: seq<string>, jd: string)
    ensures |MatchedSkills(skills, jd)| == |Positions(skills, s => SkillMatches(s, jd))|
  {
    if skills == [] {
      assert Positions(skills, s => SkillMatches(s, jd)) == {};
    } else {
      MatchedSkillsCount(skills[..|skills| - 1], jd);
      PositionsSnoc(skills, s => SkillMatches(s, jd));
    }
  }

  /**
   * The score for `matched` matches among `total` skills: ten points a match up
   * to 100, and five more (still at most 100) when most skills match.
   */
  function SkillScore(total: nat, matched: nat): (r: real)
    requires matched <= total
    ensures InPercentRange(r)
    ensures r == 0.0 <==> matched == 0
  {
    if total == 0 || matched == 0 then 0.0
    else
      var count := RealMin(matched as real * 10.0, 100.0);
      if (matched as real) / (total as real) > 0.5 then RealMin(count + 5.0, 100.0) else count
  }

  /** More matches among the same skills never lower the score. */
  lemma SkillScoreMonotone(total: nat, m1: nat, m2: nat)
    requires m1 <= m2 <= total
    ensures SkillScore(total, m1) <= SkillScore(total, m2)
  {
    if m1 > 0 {
      var t := total as real;
      assert (m1 as real) / t <= (m2 as real) / t by {
        assert (m1 as real) / t * t == m1 as real;
        assert (m2 as real) / t * t == m2 as real;
      }
    }
  }

  method ScoreSkills(skills: seq<string>, jd: string) returns (score: real)
    ensures score == SkillScore(|skills|, |MatchedSkills(skills, Lower(jd))|)
  {
    MatchedSkillsMeaning(skills, Lower(jd));
    if skills == [] {
      return 0.0;
    }
    var jdLower := Lower(jd);
    var matched: seq<string> := [];
    for i := 0 to |skills|
      invariant matched == MatchedSkills(skills[..i], jdLower)
    {
      assert skills[..i + 1][..i] == skills[..i];
      var skill := Lower(skills[i]);
      if IsSubstring(skill, jdLower) {
        matched := matched + [skills[i]];
      } else if VariationMatch(skill, jdLower) {
        matched := matched + [skills[i]];
      } else if AbbreviationMatch(skill, jdLower) {
        matched := matched + [skills[i]];
      }
    }
    assert skills[..|skills|] == skills;
    if matched == [] {
      return 0.0;
    }
    var countScore := RealMin(|matched| as real * 10.0, 100.0);
    if (|matched| as real) / (|skills| as real) > 0.5 {
      countScore := RealMin(countScore + 5.0, 100.0);
    }
    return countScore;
  }

  // ---------------------------------------------------------------------------
  // Experience: _score_experience, _extract_required_years
  // ---------------------------------------------------------------------------

  /** `float(matches[0])` of the first required-years pattern that matches the lower-cased description. */
  function RequiredYears(jd: string): (r: Option<real>)
    ensures r.Some? ==> r.value >= 0.0
  {
    var s := Lower(jd);
    match FirstPattern(|s|, RequiredYearsScans(s), 3, 0)
    case Some(n) => Some(n as real)
    case None => None
  }

  /** A required figure found is the value of a digit run of the lower-cased description. */
  lemma RequiredYearsAreNumber(jd: string)
    requires RequiredYears(jd).Some?
    ensures var s := Lower(jd);
            exists d: nat :: d <= |s| && NumberAt(s, d).Some? && RequiredYears(jd).value == NumberAt(s, d).value as real
  {
    var s := Lower(jd);
    var r := FirstPattern(|s|, RequiredYearsScans(s), 3, 0);
    var q :| 0 <= q < 3 && FirstMatch(|s|, RequiredYearsScans(s)(q), 0) == r;
    var k :| 0 <= k <= |s| && RequiredYearsScan(s, q)(k) == r;
    assert RequiredYearsPatternAt(q, s, k) == r;
  }

  /** The experience score for `years` against an optional required figure. */
  function ExperienceBand(years: real, required: Option<real>): (r: real)
    ensures InPercentRange(r)
  {
    match required
    case None =>
      if years < 1.0 then 30.0
      else if years < 2.0 then 50.0
      else if years < 4.0 then 70.0
      else if years < 7.0 then 85.0
      else 100.0
    case Some(req) =>
      if years >= req then
        if years >= req + 3.0 then 100.0
        else if years >= req + 1.0 then 100.0
        else 95.0
      else if years >= req * 0.75 then 75.0
      else if years >= req * 0.5 then 50.0
      else 20.0
  }

  function ScoreExperience(years: Option<real>, jd: string): (r: real)
    ensures InPercentRange(r)
    ensures years.None? ==> r == 50.0
  {
    match years
    case None => 50.0
    case Some(y) => ExperienceBand(y, RequiredYears(jd))
  }

  /**
   * Against a required figure `R`: `R + 1` years or more score 100, `R` up to
   * `R + 1` score 95, and less than `R` scores at most 75.
   */
  lemma ExperienceAgainstRequired(years: real, req: real)
    requires req >= 0.0
    ensures years >= req + 1.0 ==> ExperienceBand(years, Some(req)) == 100.0
    ensures req <= years < req + 1.0 ==> ExperienceBand(years, Some(req)) == 95.0
    ensures years < req ==> ExperienceBand(years, Some(req)) <= 75.0
  {
  }

  /** More years never lower the experience score. */
  lemma ExperienceMonotone(y1: real, y2: real, required: Option<real>)
    requires y1 <= y2
    requires required.Some? ==> required.value >= 0.0
    ensures ExperienceBand(y1, required) <= ExperienceBand(y2, required)
  {
  }

  // ---------------------------------------------------------------------------
  // Education: _score_education
  // ---------------------------------------------------------------------------

  /** Some record's lower-cased degree contains one of `keys`. */
  predicate HasDegree(education: seq<Degree>, keys: seq<string>) {
    exists e, k :: 0 <= e < |education| && 0 <= k < |keys| && IsSubstring(keys[k], Lower(education[e].degree))
  }

  /** The lower-cased description contains one of `keys`. */
  predicate Mentions(jd: string, keys: seq<string>) {
    exists k :: 0 <= k < |keys| && IsSubstring(keys[k], Lower(jd))
  }

  function ScoreEducation(education: seq<Degree>, jd: string): (r: real)
    ensures education == [] <==> r == 50.0
    ensures 50.0 <= r <= 100.0
  {
    if education == [] then 50.0
    else
      var phd := HasDegree(education, ["phd"]);
      var masters := HasDegree(education, ["master", "mba"]);
      var bachelors := HasDegree(education, ["bachelor", "b."]);
      if Mentions(jd, ["phd", "doctorate"]) then
        if phd then 100.0 else if masters then 80.0 else 60.0
      else if Mentions(jd, ["master", "mba"]) then
        if masters then 100.0 else if phd then 90.0 else 70.0
      else if Mentions(jd, ["bachelor", "degree"]) then
        if bachelors || masters || phd then 100.0 else 60.0
      else if phd then 100.0
      else if masters then 90.0
      else if bachelors then 80.0
      else 70.0
  }

  lemma HasDegreeAppend(education: seq<Degree>, e: Degree, keys: seq<string>)
    requires HasDegree(education, keys)
    ensures HasDegree(education + [e], keys)
  {
    var i, k :| 0 <= i < |education| && 0 <= k < |keys| && IsSubstring(keys[k], Lower(education[i].degree));
    assert (education + [e])[i] == education[i];
  }

  /** Another education record never lowers the education score. */
  lemma EducationMonotone(education: seq<Degree>, e: Degree, jd: string)
    ensures ScoreEducation(education, jd) <= ScoreEducation(education + [e], jd)
  {
    if education != [] {
      if HasDegree(education, ["phd"]) { HasDegreeAppend(education, e, ["phd"]); }
      if HasDegree(education, ["master", "mba"]) { HasDegreeAppend(education, e, ["master", "mba"]); }
      if HasDegree(education, ["bachelor", "b."]) { HasDegreeAppend(education, e, ["bachelor", "b."]); }
    }
  }

  // ---------------------------------------------------------------------------
  // Keywords: _score_keywords
  // ---------------------------------------------------------------------------

  const CommonWords: set<string> :=
    {"will", "work", "with", "have", "this", "that", "from", "they", "been", "were", "your", "their"}

  /** The distinct words of four or more word characters, less the common words. */
  function KeywordSet(s: string): set<string> {
    (set w | w in LongWordsFrom(s, 0)) - CommonWords
  }

  lemma IntersectionSize(a: set<string>, b: set<string>)
    ensures |a * b| <= |a|
  {
    assert a == (a * b) + (a - b);
    assert (a * b) !! (a - b);
  }

  /** The keyword score for the keyword sets of the description and of the resume. */
  function KeywordScore(job: set<string>, found: set<string>): (r: real)
    ensures InPercentRange(r)
    ensures job == {} ==> r == 50.0
    ensures job != {} && job <= found ==> r == 100.0
    ensures job != {} && job * found == {} ==> r == 0.0
  {
    if job == {} then 50.0
    else
      IntersectionSize(job, found);
      assert job <= found ==> job * found == job;
      RealMin(100.0, (|job * found| as real) / (|job| as real) * 150.0)
  }

  /** More shared keywords never lower the keyword score. */
  lemma KeywordScoreMonotone(job: set<string>, found: set<string>, more: set<string>)
    requires found <= more
    ensures KeywordScore(job, found) <= KeywordScore(job, more)
  {
    if job != {} {
      IntersectionSize(job, found);
      IntersectionSize(job, more);
      assert job * found <= job * more;
      SubsetSize(job * found, job * more);
      var j := |job| as real;
      assert (|job * found| as real) / j <= (|job * more| as real) / j by {
        assert (|job * found| as real) / j * j == |job * found| as real;
        assert (|job * more| as real) / j * j == |job * more| as real;
      }
    }
  }

  lemma SubsetSize(a: set<string>, b: set<string>)
    requires a <= b
    ensures |a| <= |b|
  {
    assert b == a + (b - a);
  }

  function ScoreKeywords(resume: string, jd: string): real {
    KeywordScore(KeywordSet(Lower(jd)), KeywordSet(Lower(resume)))
  }

  // ---------------------------------------------------------------------------
  // Certifications: _score_certifications
  // ---------------------------------------------------------------------------

  predicate AnyCertificationMentioned(certifications: seq<string>, jd: string) {
    exists c :: 0 <= c < |certifications| && IsSubstring(Lower(certifications[c]), Lower(jd))
  }

  function ScoreCertifications(certifications: seq<string>, jd: string): (r: real)
    ensures certifications == [] ==> r == 50.0
    ensures certifications != [] ==> (r == 100.0 <==> AnyCertificationMentioned(certifications, jd))
    ensures certifications != [] ==> 75.0 <= r
  {
    if certifications == [] then 50.0
    else if AnyCertificationMentioned(certifications, jd) then 100.0
    else 75.0
  }

  /** Another certification never lowers the certification score. */
  lemma CertificationsMonotone(certifications: seq<string>, c: string, jd: string)
    ensures ScoreCertifications(certifications, jd) <= ScoreCertifications(certifications + [c], jd)
  {
    if AnyCertificationMentioned(certifications, jd) {
      var i :| 0 <= i < |certifications| && IsSubstring(Lower(certifications[i]), Lower(jd));
      assert (certifications + [c])[i] == certifications[i];
    }
  }

  // ---------------------------------------------------------------------------
  // Grade: _get_grade
  // ---------------------------------------------------------------------------

  function GradeOf(score: real): (g: Grade)
    ensures g == A <==> score >= 90.0
    ensures g == F <==> score < 60.0
  {
    if score >= 90.0 then A
    else if score >= 80.0 then B
    else if score >= 70.0 then C
    else if score >= 60.0 then D
    else F
  }

  /** A higher score never gets a worse grade. */
  lemma GradeMonotone(s1: real, s2: real)
    requires s1 <= s2
    ensures GradeOf(s1).Rank() <= GradeOf(s2).Rank()
  {
  }

  // ---------------------------------------------------------------------------
  // Feedback: _generate_feedback
  // ---------------------------------------------------------------------------

  const Tick := "\U{2713} "
  const Bullet := "\U{2022} "
  const Warning := "\U{26A0} "

  /** One of three lines, by the bands 80 and 60. */
  function BandLine(score: real, strong: string, fair: string, weak: string): string {
    if score >= 80.0 then strong else if score >= 60.0 then fair else weak
  }

  const SkillsStrong := Tick + "Excellent skill match with job requirements"
  const SkillsFair := Bullet + "Good skill match, could improve in some areas"
  const SkillsWeak := Warning + "Limited skill match - consider additional training"
  const ExperienceStrong := Tick + "Strong experience level for this role"
  const ExperienceFair := Bullet + "Adequate experience, on track for this position"
  const ExperienceWeak := Warning + "May need more experience for this role"
  const EducationStrong := Tick + "Education requirements fully met"
  const EducationFair := Bullet + "Education level is acceptable"
  const EducationWeak := Warning + "Education may not fully meet requirements"

  function SkillsLine(score: real): string { BandLine(score, SkillsStrong, SkillsFair, SkillsWeak) }
  function ExperienceLine(score: real): string { BandLine(score, ExperienceStrong, ExperienceFair, ExperienceWeak) }
  function EducationLine(score: real): string { BandLine(score, EducationStrong, EducationFair, EducationWeak) }

  function CertificationsLine(certifications: seq<string>): string {
    Tick + "Has relevant certifications: " + JoinWith(", ", Prefix(certifications, 3))
  }

  function DiverseSkillsLine(count: nat): string {
    Tick + "Diverse skill set with " + NatToString(count) + " identified skills"
  }

  function FeedbackOf(scores: Dimensions, info: CandidateInfo): seq<string> {
    [SkillsLine(scores.skillsMatch), ExperienceLine(scores.experience), EducationLine(scores.education)]
    + (if info.certifications != [] then [CertificationsLine(info.certifications)] else [])
    + (if |info.skills| > 5 then [DiverseSkillsLine(|info.skills|)] else [])
  }

  /** One `if`/`elif`/`else` block of the feedback: the band's line appended. */
  method AppendBand(feedback: seq<string>, score: real, strong: string, fair: string, weak: string)
    returns (r: seq<string>)
    ensures r == feedback + [BandLine(score, strong, fair, weak)]
  {
    if score >= 80.0 {
      r := feedback + [strong];
    } else if score >= 60.0 {
      r := feedback + [fair];
    } else {
      r := feedback + [weak];
    }
  }

  method GenerateFeedback(scores: Dimensions, info: CandidateInfo) returns (feedback: seq<string>)
    ensures feedback == FeedbackOf(scores, info)
  {
    feedback := [];
    feedback := AppendBand(feedback, scores.skillsMatch, SkillsStrong, SkillsFair, SkillsWeak);
    feedback := AppendBand(feedback, scores.experience, ExperienceStrong, ExperienceFair, ExperienceWeak);
    feedback := AppendBand(feedback, scores.education, EducationStrong, EducationFair, EducationWeak);
    assert feedback == [SkillsLine(scores.skillsMatch), ExperienceLine(scores.experience), EducationLine(scores.education)];
    if info.certifications != [] {
      feedback := feedback + [CertificationsLine(info.certifications)];
    }
    if |info.skills| > 5 {
      feedback := feedback + [DiverseSkillsLine(|info.skills|)];
    }
  }

  /**
   * The three band lines come first, then the certifications line exactly when
   * there are certifications, then the skill-count line exactly when there are
   * more than five skills.
   */
  lemma FeedbackShape(scores: Dimensions, info: CandidateInfo)
    ensures var f := FeedbackOf(scores, info);
            |f| == 3 + (if info.certifications != [] then 1 else 0) + (if |info.skills| > 5 then 1 else 0)
            && f[..3] == [SkillsLine(scores.skillsMatch), ExperienceLine(scores.experience), EducationLine(scores.education)]
            && (info.certifications != [] ==> f[3] == CertificationsLine(info.certifications))
            && (|info.skills| > 5 ==> f[|f| - 1] == DiverseSkillsLine(|info.skills|))
  {
  }

  // ---------------------------------------------------------------------------
  // Fusion of the AI data into the candidate record
  // ---------------------------------------------------------------------------

  /** `[s.title() for s in set(lower(current)) | set(lower(extra))]` */
  function FuseSkills(current: seq<string>, extra: seq<string>): seq<string> {
    MapSeq(Title, Dedup(MapSeq(Lower, current + extra)))
  }

  /** No skill appears twice after fusion, even when the inputs differ only in case. */
  lemma FuseSkillsNoDuplicates(current: seq<string>, extra: seq<string>)
    ensures NoDuplicates(FuseSkills(current, extra))
  {
    var all := current + extra;
    var lowered := MapSeq(Lower, all);
    var d := Dedup(lowered);
    var r := FuseSkills(current, extra);
    forall i, j | 0 <= i < j < |r|
      ensures r[i] != r[j]
    {
      var ki :| 0 <= ki < |lowered| && lowered[ki] == d[i];
      var kj :| 0 <= kj < |lowered| && lowered[kj] == d[j];
      LowerIdempotent(all[ki]);
      LowerIdempotent(all[kj]);
      TitleInjectiveOnLower(d[i], d[j]);
    }
  }

  /** The fused skills are exactly the title-cased forms of the skills of either list. */
  lemma FuseSkillsMembership(current: seq<string>, extra: seq<string>, w: string)
    ensures w in FuseSkills(current, extra) <==> exists s :: s in current + extra && w == Title(Lower(s))
  {
    var all := current + extra;
    var lowered := MapSeq(Lower, all);
    var d := Dedup(lowered);
    var r := FuseSkills(current, extra);
    if w in r {
      var i :| 0 <= i < |r| && r[i] == w;
      var k :| 0 <= k < |lowered| && lowered[k] == d[i];
      assert all[k] in all && w == Title(Lower(all[k]));
    }
    if exists s :: s in all && w == Title(Lower(s)) {
      var s :| s in all && w == Title(Lower(s));
      MapSeqHas(Lower, all, s);
      DedupMembership(lowered, Lower(s));
      MapSeqHas(Title, d, Lower(s));
    }
  }

  /** Python's truthiness of an optional number: present and non-zero. */
  predicate IsTruthy(x: Option<real>) { x.Some? && x.value != 0.0 }

  /**
   * The AI data fills in the record: the skills are merged when the AI lists
   * some, the years are set when the record has none (or zero), and the
   * education becomes the AI's level when the record has none and the level
   * is given and not 'Unknown'.
   */
  function FuseWith(info: CandidateInfo, data: ExtractedData): CandidateInfo {
    var skills := if data.skills != [] then FuseSkills(info.skills, data.skills) else info.skills;
    var years := if data.yearsOfExperience.Some? && !IsTruthy(info.experienceYears)
                 then data.yearsOfExperience else info.experienceYears;
    var education :=
      if data.educationLevel.Some? && data.educationLevel.value != "" && data.educationLevel.value != "Unknown"
         && info.education == []
      then [Degree(data.educationLevel.value, None)] else info.education;
    info.(skills := skills, experienceYears := years, education := education)
  }

  function Fuse(info: CandidateInfo, ai: Option<AIAnalysis>): CandidateInfo {
    if ai.Some? && ai.value.extractedData.Some? then FuseWith(info, ai.value.extractedData.value) else info
  }

  /**
   * Fusion only fills gaps: years already given (and non-zero) and education
   * already given are kept, fusion without AI skills keeps the skills, and no
   * other field changes.
   */
  lemma FuseKeepsGivenFields(info: CandidateInfo, ai: Option<AIAnalysis>)
    ensures var f := Fuse(info, ai);
            (IsTruthy(info.experienceYears) ==> f.experienceYears == info.experienceYears)
            && (info.education != [] ==> f.education == info.education)
            && f.(skills := info.skills, experienceYears := info.experienceYears, education := info.education) == info
    ensures ai.None? ==> Fuse(info, ai) == info
  {
  }

  /** The AI data used for scoring: the extracted data, or nothing. */
  function DataOf(ai: Option<AIAnalysis>): ExtractedData {
    if ai.Some? && ai.value.extractedData.Some? then ai.value.extractedData.value else NoData
  }

  // ---------------------------------------------------------------------------
  // score_candidate
  // ---------------------------------------------------------------------------

  /** `min(8n, 30)`, applied only when the list of missing must-haves is non-empty. */
  function MissingPenalty(n: nat): (p: real)
    ensures 0.0 <= p <= 30.0
    ensures n == 0 <==> p == 0.0
  {
    if n == 0 then 0.0 else RealMin(n as real * 8.0, 30.0)
  }

  /** `max(0.0, min(100.0, x))` */
  function Clamp(x: real): (r: real)
    ensures InPercentRange(r)
    ensures InPercentRange(x) ==> r == x
  {
    if x > 100.0 then 100.0 else if x < 0.0 then 0.0 else x
  }

  /** The total before clamping: weighted sum, penalties, unicorn bonus and adjustment. */
  function AdjustedTotal(d: Dimensions, missing: nat, aiProbability: real, adjustment: real): real {
    WeightedTotal(d) - MissingPenalty(missing)
    - (if d.relevance < 40.0 then 15.0 else 0.0)
    - (if aiProbability > 85.0 then 10.0 else 0.0)
    + (if d.relevance > 90.0 && d.technicalDepth > 90.0 then 5.0 else 0.0)
    + adjustment
  }

  /** The adjustment added to the total: the analysis's numeric `score_adjustment`, if any. */
  function AdjustmentOf(ai: Option<AIAnalysis>): Option<real> {
    if ai.Some? then ai.value.scoreAdjustment else None
  }

  /** The seven dimension scores of a fused record. */
  function DimensionsOf(fused: CandidateInfo, jd: string, data: ExtractedData): Dimensions {
    var jdLower := Lower(jd);
    MatchedSkillsMeaning(fused.skills, jdLower);
    var base := SkillScore(|fused.skills|, |MatchedSkills(fused.skills, jdLower)|);
    var skills := if data.skillsMatchScore.Some? then data.skillsMatchScore.value * 0.8 + base * 0.2 else base;
    Dimensions(skills, ScoreExperience(fused.experienceYears, jd), ScoreEducation(fused.education, jd),
               data.relevanceScore.GetOr(50.0), data.technicalDepthScore.GetOr(50.0),
               data.cultureFitScore.GetOr(50.0), ScoreKeywords(fused.rawText, jd))
  }

  const ParsingFailedLine := Warning + "Resume parsing failed - Manual review required"

  function MissingSkillsLine(missing: seq<string>): string {
    Warning + "Missing Critical Skills: " + JoinWith(", ", Prefix(missing, 3))
  }

  /** `int(ai_prob)` truncates the probability, which is above 75 here. */
  function SuspicionLine(aiProbability: real): string
    requires aiProbability > 75.0
  {
    Warning + "High likelihood of AI-generated answers (" + NatToString(aiProbability.Floor as nat) + "%)"
  }

  function FinalFeedback(d: Dimensions, fused: CandidateInfo, missing: seq<string>, aiProbability: real): seq<string> {
    if fused.parsingFailed then [ParsingFailedLine]
    else
      (if missing != [] then [MissingSkillsLine(missing)] else [])
      + FeedbackOf(d, fused)
      + (if aiProbability > 75.0 then [SuspicionLine(aiProbability)] else [])
  }

  /** `x or y or fallback` on optional strings. */
  function OrElse(x: Option<string>, fallback: string): string {
    if x.Some? && x.value != "" then x.value else fallback
  }

  function InsightsOf(ai: Option<AIAnalysis>): Option<AIInsights> {
    match ai
    case None => None
    case Some(a) => Some(AIInsights(a.pros, a.cons, a.summary, a.scoreAdjustment.GetOr(0.0)))
  }

  /** The result of scoring a candidate. */
  function ScoreOf(info: CandidateInfo, jd: string, ai: Option<AIAnalysis>): (r: ScoreResult)
    ensures InPercentRange(r.totalScore)
    ensures r.grade == GradeOf(r.totalScore)
  {
    var fused := Fuse(info, ai);
    var data := DataOf(ai);
    var d := DimensionsOf(fused, jd, data);
    var total := Clamp(AdjustedTotal(d, |data.missingMustHaves|, data.aiGeneratedProbability.GetOr(0.0),
                                     AdjustmentOf(ai).GetOr(0.0)));
    ScoreResult(
      total, d,
      FinalFeedback(d, fused, data.missingMustHaves, data.aiGeneratedProbability.GetOr(0.0)),
      GradeOf(total),
      OrElse(fused.name, OrElse(fused.candidateName, "Unknown")),
      OrElse(fused.email, OrElse(fused.candidateEmail, "N/A")),
      OrElse(fused.phone, OrElse(fused.candidatePhone, "N/A")),
      fused.fileUrl, fused.parsingFailed, fused.status.GetOr("applied"),
      InsightsOf(ai), fused.id, None)
  }

  /** The weighted total, then each penalty and bonus in turn, then the clamp. */
  method AccumulateTotal(scores: Dimensions, missing: seq<string>, aiProbability: real, adjustment: Option<real>)
    returns (total: real)
    ensures total == Clamp(AdjustedTotal(scores, |missing|, aiProbability, adjustment.GetOr(0.0)))
  {
    total := WeightedTotal(scores);
    if missing != [] {
      total := total - RealMin(|missing| as real * 8.0, 30.0);
    }
    if scores.relevance < 40.0 {
      total := total - 15.0;
    }
    if aiProbability > 85.0 {
      total := total - 10.0;
    }
    if scores.relevance > 90.0 && scores.technicalDepth > 90.0 {
      total := total + 5.0;
    }
    if adjustment.Some? {
      total := total + adjustment.value;
    }
    total := if total > 100.0 then 100.0 else if total < 0.0 then 0.0 else total;
  }

  /** The manual-review line alone, or the generated feedback with the missing-skills and suspicion lines. */
  method AssembleFeedback(scores: Dimensions, fused: CandidateInfo, missing: seq<string>, aiProbability: real)
    returns (feedback: seq<string>)
    ensures feedback == FinalFeedback(scores, fused, missing, aiProbability)
  {
    if fused.parsingFailed {
      feedback := [ParsingFailedLine];
    } else {
      feedback := GenerateFeedback(scores, fused);
      if missing != [] {
        feedback := [MissingSkillsLine(missing)] + feedback;
      }
      if aiProbability > 75.0 {
        feedback := feedback + [SuspicionLine(aiProbability)];
      }
    }
  }

  /**
   * Scores a candidate; also returns the record as updated by the AI data
   * (the source updates the caller's record in place).
   */
  method ScoreCandidate(info: CandidateInfo, jd: string, jobTitle: string, ai: Option<AIAnalysis>)
    returns (result: ScoreResult, fused: CandidateInfo)
    ensures result == ScoreOf(info, jd, ai)
    ensures fused == Fuse(info, ai)
  {
    fused := info;
    var data := NoData;
    if ai.Some? && ai.value.extractedData.Some? {
      data := ai.value.extractedData.value;
      fused := FuseWith(fused, data);
    }
    var baseSkills := ScoreSkills(fused.skills, jd);
    var skillsScore := baseSkills;
    if data.skillsMatchScore.Some? {
      skillsScore := data.skillsMatchScore.value * 0.8 + baseSkills * 0.2;
    }
    var relevance := data.relevanceScore.GetOr(50.0);
    var depth := data.technicalDepthScore.GetOr(50.0);
    var scores := Dimensions(skillsScore, ScoreExperience(fused.experienceYears, jd),
                             ScoreEducation(fused.education, jd), relevance, depth,
                             data.cultureFitScore.GetOr(50.0), ScoreKeywords(fused.rawText, jd));
    assert fused == Fuse(info, ai) && data == DataOf(ai);
    assert scores == DimensionsOf(fused, jd, data);
    var missing := data.missingMustHaves;
    var aiProbability := data.aiGeneratedProbability.GetOr(0.0);
    var total := AccumulateTotal(scores, missing, aiProbability, AdjustmentOf(ai));
    var feedback := AssembleFeedback(scores, fused, missing, aiProbability);
    result := ScoreResult(
      total, scores, feedback, GradeOf(total),
      OrElse(fused.name, OrElse(fused.candidateName, "Unknown")),
      OrElse(fused.email, OrElse(fused.candidateEmail, "N/A")),
      OrElse(fused.phone, OrElse(fused.candidatePhone, "N/A")),
      fused.fileUrl, fused.parsingFailed, fused.status.GetOr("applied"),
      InsightsOf(ai), fused.id, None);
  }

  // ---------------------------------------------------------------------------
  // Properties of the score
  // ---------------------------------------------------------------------------

  /** Every dimension lies in 0..100 when the AI's own scores do. */
  lemma DimensionsInRange(fused: CandidateInfo, jd: string, data: ExtractedData)
    requires data.skillsMatchScore.Some? ==> InPercentRange(data.skillsMatchScore.value)
    requires data.relevanceScore.Some? ==> InPercentRange(data.relevanceScore.value)
    requires data.technicalDepthScore.Some? ==> InPercentRange(data.technicalDepthScore.value)
    requires data.cultureFitScore.Some? ==> InPercentRange(data.cultureFitScore.value)
    ensures AllInPercentRange(DimensionsOf(fused, jd, data))
  {
  }

  /**
   * The skills dimension is `0.8·ai + 0.2·keyword` when the AI gives a skills
   * score, and the keyword score otherwise.
   */
  lemma SkillsBlend(info: CandidateInfo, jd: string, ai: Option<AIAnalysis>)
    ensures var fused := Fuse(info, ai);
            var data := DataOf(ai);
            var base := SkillScore(|fused.skills|, |MatchedSkills(fused.skills, Lower(jd))|);
            ScoreOf(info, jd, ai).breakdown.skillsMatch
              == if data.skillsMatchScore.Some? then 0.8 * data.skillsMatchScore.value + 0.2 * base else base
  {
    MatchedSkillsMeaning(Fuse(info, ai).skills, Lower(jd));
  }

  /**
   * Without AI data no penalty, bonus or adjustment applies: the total is the
   * plain weighted total, with relevance, depth and culture fit at 50.
   */
  lemma NoAIMeansPlainTotal(info: CandidateInfo, jd: string)
    ensures var r := ScoreOf(info, jd, None);
            r.breakdown.relevance == 50.0 && r.breakdown.technicalDepth == 50.0 && r.breakdown.cultureFit == 50.0
            && r.totalScore == WeightedTotal(r.breakdown)
  {
    var d := DimensionsOf(info, jd, NoData);
    DimensionsInRange(info, jd, NoData);
    WeightedTotalBetween(d, 0.0, 100.0);
  }

  /**
   * Penalties and the bonus: with everything else fixed, the unclamped total
   * moves by exactly the stated amount for missing must-haves, a high AI
   * probability and the adjustment; and in each of the three relevance cases
   * (below 40, the 90/90 bonus, neither) the total is written out in full.
   */
  lemma PenaltiesAndBonus(d: Dimensions, missing: nat, aiProbability: real, adjustment: real)
    ensures missing > 0 ==> AdjustedTotal(d, missing, aiProbability, adjustment)
                            == AdjustedTotal(d, 0, aiProbability, adjustment) - RealMin(8.0 * missing as real, 30.0)
    ensures aiProbability > 85.0 ==> AdjustedTotal(d, missing, aiProbability, adjustment)
                                     == AdjustedTotal(d, missing, 0.0, adjustment) - 10.0
    ensures AdjustedTotal(d, missing, aiProbability, adjustment)
            == AdjustedTotal(d, missing, aiProbability, 0.0) + adjustment
    ensures d.relevance < 40.0 ==>
              AdjustedTotal(d, missing, aiProbability, adjustment)
              == WeightedTotal(d) - MissingPenalty(missing) - 15.0
                 - (if aiProbability > 85.0 then 10.0 else 0.0) + adjustment
    ensures d.relevance > 90.0 && d.technicalDepth > 90.0 ==>
              AdjustedTotal(d, missing, aiProbability, adjustment)
              == WeightedTotal(d) - MissingPenalty(missing)
                 - (if aiProbability > 85.0 then 10.0 else 0.0) + 5.0 + adjustment
    ensures 40.0 <= d.relevance && !(d.relevance > 90.0 && d.technicalDepth > 90.0) ==>
              AdjustedTotal(d, missing, aiProbability, adjustment)
              == WeightedTotal(d) - MissingPenalty(missing)
                 - (if aiProbability > 85.0 then 10.0 else 0.0) + adjustment
  {
  }

  /**
   * Feedback is the single manual-review line for a failed parse; otherwise the
   * missing-skills line comes first when must-haves are missing, the
   * AI-suspicion line comes last when the probability is above 75, and the
   * generated feedback sits between them.
   */
  lemma FinalFeedbackShape(d: Dimensions, fused: CandidateInfo, missing: seq<string>, prob: real)
    ensures var f := FinalFeedback(d, fused, missing, prob);
            (fused.parsingFailed ==> f == [ParsingFailedLine])
            && (!fused.parsingFailed ==>
                  (missing != [] ==> f[0] == MissingSkillsLine(missing))
                  && (prob > 75.0 ==> f[|f| - 1] == SuspicionLine(prob))
                  && exists pre, post :: |pre| <= 1 && |post| <= 1 && f == pre + FeedbackOf(d, fused) + post)
  {
    if !fused.parsingFailed {
      var pre := if missing != [] then [MissingSkillsLine(missing)] else [];
      var post := if prob > 75.0 then [SuspicionLine(prob)] else [];
      assert FinalFeedback(d, fused, missing, prob) == pre + FeedbackOf(d, fused) + post;
    }
  }

  lemma FeedbackOrder(info: CandidateInfo, jd: string, ai: Option<AIAnalysis>)
    ensures var r := ScoreOf(info, jd, ai);
            var fused := Fuse(info, ai);
            var data := DataOf(ai);
            var prob := data.aiGeneratedProbability.GetOr(0.0);
            (fused.parsingFailed ==> r.feedback == [ParsingFailedLine])
            && (!fused.parsingFailed ==>
                  (data.missingMustHaves != [] ==> r.feedback[0] == MissingSkillsLine(data.missingMustHaves))
                  && (prob > 75.0 ==> r.feedback[|r.feedback| - 1] == SuspicionLine(prob))
                  && exists pre, post :: |pre| <= 1 && |post| <= 1
                       && r.feedback == pre + FeedbackOf(r.breakdown, fused) + post)
  {
    var fused := Fuse(info, ai);
    var data := DataOf(ai);
    var prob := data.aiGeneratedProbability.GetOr(0.0);
    var d := DimensionsOf(fused, jd, data);
    var r := ScoreOf(info, jd, ai);
    assert r.breakdown == d && r.feedback == FinalFeedback(d, fused, data.missingMustHaves, prob);
    FinalFeedbackShape(d, fused, data.missingMustHaves, prob);
  }
}
