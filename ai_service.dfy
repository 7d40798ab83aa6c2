/**
 * The AI-independent parts of services/ai_service.py: the keyword picker, the
 * template question generator used when no AI answer is available, the
 * cleanup and defaulting of an AI question list, the code-fence stripping
 * before JSON decoding, and the prompt's question-type instruction.
 *
 * JSON decoding is not modelled: a decoded question list is an input.
 */
module AIService {
  import opened Wrappers
  import opened Text

  // ---------------------------------------------------------------------------
  // extract_keywords
  // ---------------------------------------------------------------------------

  const CommonSkills: seq<string> := [
    "python", "javascript", "java", "react", "node", "sql", "aws", "docker",
    "kubernetes", "machine learning", "data analysis", "project management",
    "communication", "leadership", "agile", "scrum", "git", "api", "rest",
    "html", "css", "typescript", "angular", "vue", "mongodb", "postgresql",
    "excel", "salesforce", "marketing", "sales", "customer service",
    "c++", "c#", ".net", "azure", "gcp", "devops", "ci/cd", "testing"
  ]

  const NoKeywords: seq<string> := ["relevant skills"]

  /** The first ten skills of the list found in the lower-cased text, or the placeholder. */
  function ExtractKeywords(text: string): (r: seq<string>)
    ensures 1 <= |r| <= 10
  {
    var found := Hits(CommonSkills, Lower(text));
    if found != [] then Prefix(found, 10) else NoKeywords
  }

  /**
   * When some skill of the list occurs in the lower-cased text, the keywords
   * are such skills, in list order, at most ten of them; otherwise they are
   * the placeholder alone.
   */
  lemma ExtractKeywordsMeaning(text: string)
    ensures var found := Hits(CommonSkills, Lower(text));
            var r := ExtractKeywords(text);
            (found == [] ==> r == NoKeywords)
            && (found != [] ==>
                  |r| == Min(|found|, 10) && r == found[..|r|]
                  && forall k :: 0 <= k < |r| ==> r[k] in CommonSkills && IsSubstring(r[k], Lower(text)))
  {
    var found := Hits(CommonSkills, Lower(text));
    var r := ExtractKeywords(text);
    if found != [] {
      forall k | 0 <= k < |r| ensures r[k] in CommonSkills && IsSubstring(r[k], Lower(text)) {
        assert r[k] == found[k];
        HitsMembership(CommonSkills, Lower(text), found[k]);
      }
    }
  }

  /** Of two keywords, the earlier one comes earlier in the skill list. */
  lemma ExtractKeywordsInListOrder(text: string, a: nat, b: nat)
    requires Hits(CommonSkills, Lower(text)) != []
    requires a < b < |ExtractKeywords(text)|
    ensures exists ka, kb :: 0 <= ka < kb < |CommonSkills| && CommonSkills[ka] == ExtractKeywords(text)[a]
                                                          && CommonSkills[kb] == ExtractKeywords(text)[b]
  {
    HitsInVocabularyOrder(CommonSkills, Lower(text), a, b);
  }

  // ---------------------------------------------------------------------------
  // generate_questions_fallback
  // ---------------------------------------------------------------------------

  datatype Template = Template(question: string, category: string, difficulty: string)

  datatype FallbackQuestion = FallbackQuestion(
    question: string, category: string, difficulty: string, id: nat, expectedSkills: seq<string>)

  // The fixed question texts of the fallback templates.
  const TechnicalChallenge: string := "Walk me through a challenging technical problem you solved recently."
  const TechnicalVersionControl: string := "Describe your experience with version control and collaborative development."
  const ExperienceWith: string := "Can you describe your experience with "
  const LearningFor: string := "How would you approach learning a new technology required for this "
  const ProficientFor: string := "What tools and technologies are you most proficient in that relate to this "
  const HiredAs: string := "If you were hired as "
  const FirstPriorities: string := ", what would be your first priorities?"
  const DefaultTopic: string := "the technologies mentioned in the job description"
  const BehavioralDeadline: string := "Tell me about a time when you had to meet a tight deadline. How did you handle it?"
  const BehavioralTeamMember: string := "Describe a situation where you had to work with a difficult team member."
  const BehavioralInitiative: string := "Give an example of a time you took initiative on a project."
  const BehavioralFailure: string := "Tell me about a failure you experienced and what you learned from it."
  const BehavioralChange: string := "Describe a time when you had to adapt to a significant change at work."
  const SituationalDisagree: string := "How would you handle a situation where you disagree with your manager's decision?"
  const SituationalDeadline: string := "What would you do if you realized you couldn't complete a task by the deadline?"
  const SituationalPrioritize: string := "How would you prioritize multiple urgent tasks?"
  const SituationalColleague: string := "If a colleague asked for help but you were busy with your own work, how would you handle it?"

  function TechnicalTemplates(keywords: seq<string>, jobTitle: string): (r: seq<Template>)
    ensures |r| == 5
    ensures r[0].category == r[1].category == r[2].category == r[3].category == r[4].category == "technical"
  {
    var topic := if keywords != [] then keywords[0] else DefaultTopic;
    [Template(ExperienceWith + topic + "?", "technical", "medium"),
     Template(TechnicalChallenge, "technical", "hard"),
     Template(LearningFor + jobTitle + " role?", "technical", "easy"),
     Template(TechnicalVersionControl, "technical", "medium"),
     Template(ProficientFor + jobTitle + " position?", "technical", "easy")]
  }

  const BehavioralTemplates: seq<Template> := [
    Template(BehavioralDeadline, "behavioral", "medium"),
    Template(BehavioralTeamMember, "behavioral", "medium"),
    Template(BehavioralInitiative, "behavioral", "easy"),
    Template(BehavioralFailure, "behavioral", "hard"),
    Template(BehavioralChange, "behavioral", "medium")
  ]

  function SituationalTemplates(jobTitle: string): (r: seq<Template>)
    ensures |r| == 5
    ensures r[0].category == r[1].category == r[2].category == r[3].category == r[4].category == "situational"
  {
    [Template(HiredAs + jobTitle + FirstPriorities, "situational", "medium"),
     Template(SituationalDisagree, "situational", "medium"),
     Template(SituationalDeadline, "situational", "easy"),
     Template(SituationalPrioritize, "situational", "hard"),
     Template(SituationalColleague, "situational", "easy")]
  }

  lemma BehavioralTemplatesShape()
    ensures |BehavioralTemplates| == 5
    ensures var b := BehavioralTemplates;
            b[0].category == b[1].category == b[2].category == b[3].category == b[4].category == "behavioral"
  {
  }

  /** The fifteen templates for a question type: one list three times, or the three lists in turn. */
  function BaseTemplates(questionTypes: string, keywords: seq<string>, jobTitle: string): (r: seq<Template>)
    ensures |r| == 15
  {
    var technical := TechnicalTemplates(keywords, jobTitle);
    var situational := SituationalTemplates(jobTitle);
    BehavioralTemplatesShape();
    if questionTypes == "technical" then technical + technical + technical
    else if questionTypes == "behavioral" then BehavioralTemplates + BehavioralTemplates + BehavioralTemplates
    else if questionTypes == "situational" then situational + situational + situational
    else technical + BehavioralTemplates + situational
  }

  function Max(a: int, b: int): int { if a > b then a else b }

  /** Python's `xs[:n]`, where a negative `n` drops that many elements from the end. */
  function PyPrefix<T>(xs: seq<T>, n: int): (r: seq<T>)
    ensures n >= 0 ==> |r| == Min(n, |xs|)
    ensures n < 0 ==> |r| == Max(0, |xs| + n)
    ensures r == xs[..|r|]
  {
    if n >= 0 then Prefix(xs, n) else xs[..Max(0, |xs| + n)]
  }

  /** The questions the fallback generator returns. */
  function FallbackQuestions(jobDescription: string, jobTitle: string, numQuestions: int, questionTypes: string)
    : (r: seq<FallbackQuestion>)
    ensures numQuestions >= 0 ==> |r| == Min(numQuestions, 15)
    ensures forall i :: 0 <= i < |r| ==> r[i].id == i + 1
    ensures forall i :: 0 <= i < |r| ==> r[i].expectedSkills == Prefix(ExtractKeywords(jobDescription), 3)
  {
    var keywords := ExtractKeywords(jobDescription);
    var skills := if keywords != [] then Prefix(keywords, 3) else [];
    Instantiated(PyPrefix(BaseTemplates(questionTypes, keywords, jobTitle), numQuestions), skills)
  }

  /** Each template as a question with its 1-based position as id and the given skills. */
  function Instantiated(base: seq<Template>, skills: seq<string>): (r: seq<FallbackQuestion>)
    ensures |r| == |base|
    ensures forall i :: 0 <= i < |r| ==> r[i].id == i + 1 && r[i].expectedSkills == skills
  {
    seq(|base|, i requires 0 <= i < |base| =>
      FallbackQuestion(base[i].question, base[i].category, base[i].difficulty, i + 1, skills))
  }

  method InstantiateTemplates(base: seq<Template>, skills: seq<string>) returns (questions: seq<FallbackQuestion>)
    ensures questions == Instantiated(base, skills)
  {
    questions := [];
    for i := 0 to |base|
      invariant |questions| == i
      invariant forall k :: 0 <= k < i ==>
        questions[k] == FallbackQuestion(base[k].question, base[k].category, base[k].difficulty, k + 1, skills)
    {
      questions := questions + [FallbackQuestion(base[i].question, base[i].category, base[i].difficulty, i + 1, skills)];
    }
  }

  method GenerateQuestionsFallback(jobDescription: string, jobTitle: string, numQuestions: int, questionTypes: string)
    returns (questions: seq<FallbackQuestion>)
    ensures questions == FallbackQuestions(jobDescription, jobTitle, numQuestions, questionTypes)
  {
    var keywords := ExtractKeywords(jobDescription);
    var base := PyPrefix(BaseTemplates(questionTypes, keywords, jobTitle), numQuestions);
    var skills := if keywords != [] then Prefix(keywords, 3) else [];
    questions := InstantiateTemplates(base, skills);
  }

  /** Every template of a three-times list has that list's category. */
  lemma TripledCategory(ts: seq<Template>, category: string)
    requires |ts| == 5
    requires ts[0].category == ts[1].category == ts[2].category == ts[3].category == ts[4].category == category
    ensures forall i :: 0 <= i < 15 ==> (ts + ts + ts)[i].category == category
  {
    forall i | 0 <= i < 15 ensures (ts + ts + ts)[i].category == category {
      if i < 5 { assert (ts + ts + ts)[i] == ts[i]; }
      else if i < 10 { assert (ts + ts + ts)[i] == ts[i - 5]; }
      else { assert (ts + ts + ts)[i] == ts[i - 10]; }
    }
  }

  /** The category of the question at position `i` (0-based) in a fallback of the given type. */
  function ExpectedCategory(questionTypes: string, i: nat): string {
    if questionTypes == "technical" || questionTypes == "behavioral" || questionTypes == "situational"
    then questionTypes
    else if i < 5 then "technical"
    else if i < 10 then "behavioral"
    else "situational"
  }

  /**
   * A technical, behavioral or situational request yields questions of that
   * category only; any other type yields five of each, in that order.
   */
  lemma FallbackCategories(jobDescription: string, jobTitle: string, numQuestions: int, questionTypes: string)
    ensures var r := FallbackQuestions(jobDescription, jobTitle, numQuestions, questionTypes);
            forall i :: 0 <= i < |r| ==> r[i].category == ExpectedCategory(questionTypes, i)
  {
    var keywords := ExtractKeywords(jobDescription);
    var technical := TechnicalTemplates(keywords, jobTitle);
    var situational := SituationalTemplates(jobTitle);
    var all := BaseTemplates(questionTypes, keywords, jobTitle);
    BehavioralTemplatesShape();
    if questionTypes == "technical" {
      TripledCategory(technical, "technical");
    } else if questionTypes == "behavioral" {
      TripledCategory(BehavioralTemplates, "behavioral");
    } else if questionTypes == "situational" {
      TripledCategory(situational, "situational");
    } else {
      forall i | 0 <= i < 15 ensures all[i].category == ExpectedCategory(questionTypes, i) {
        if i < 5 { assert all[i] == technical[i]; }
        else if i < 10 { assert all[i] == BehavioralTemplates[i - 5]; }
        else { assert all[i] == situational[i - 10]; }
      }
    }
    var r := FallbackQuestions(jobDescription, jobTitle, numQuestions, questionTypes);
    var base := PyPrefix(all, numQuestions);
    forall i | 0 <= i < |r| ensures r[i].category == ExpectedCategory(questionTypes, i) {
      assert r[i].category == base[i].category && base[i] == all[i];
    }
  }

  // ---------------------------------------------------------------------------
  // parse_ai_response
  // ---------------------------------------------------------------------------

  /** `s[len(p):]` when `s` starts with `p`. */
  function DropPrefix(s: string, p: string): (r: string)
    ensures StartsWith(s, p) ==> s == p + r
    ensures !StartsWith(s, p) ==> r == s
  {
    if StartsWith(s, p) then s[|p|..] else s
  }

  /** `s[:-len(p)]` when `s` ends with `p`. */
  function DropSuffix(s: string, p: string): (r: string)
    ensures EndsWith(s, p) ==> s == r + p
    ensures !EndsWith(s, p) ==> r == s
  {
    if EndsWith(s, p) then s[..|s| - |p|] else s
  }

  /** `s[start:last + 1]` when both positions were found and the slice is non-empty; otherwise `s`. */
  function SpanBetween(s: string, start: Option<nat>, last: Option<nat>): (r: string)
    requires start.Some? ==> start.value < |s|
    requires last.Some? ==> last.value < |s|
    ensures |r| <= |s|
  {
    if start.Some? && last.Some? && last.value + 1 > start.value then s[start.value..last.value + 1]
    else s
  }

  /** From the first '[' through the last ']', when both occur in that order; otherwise all of `s`. */
  function BracketSpan(s: string): (r: string)
    ensures |r| <= |s|
  {
    SpanBetween(s, IndexOf(s, '['), LastIndexOf(s, ']'))
  }

  /** The slice between two found positions occurs in the text. */
  lemma SpanBetweenIsSubstring(s: string, start: Option<nat>, last: Option<nat>)
    requires start.Some? ==> start.value < |s|
    requires last.Some? ==> last.value < |s|
    ensures IsSubstring(SpanBetween(s, start, last), s)
  {
    if start.Some? && last.Some? && last.value + 1 > start.value {
      SliceIsSubstring(s, start.value, last.value + 1);
    } else {
      assert StartsAt(s, 0, s);
    }
  }

  /** The kept span occurs in the text. */
  lemma BracketSpanIsSubstring(s: string)
    ensures IsSubstring(BracketSpan(s), s)
  {
    SpanBetweenIsSubstring(s, IndexOf(s, '['), LastIndexOf(s, ']'));
  }

  /** The slice between a '[' and a later ']' starts and ends with them. */
  lemma SpanBetweenShape(s: string, start: nat, last: nat)
    requires start < last < |s| && s[start] == '[' && s[last] == ']'
    ensures var r := SpanBetween(s, Some(start), Some(last));
            |r| >= 2 && r[0] == '[' && r[|r| - 1] == ']'
  {
    SliceEnds(s, start, last + 1);
  }

  /**
   * When a '[' precedes the last ']', the span is the slice from the first '['
   * through the last ']', so it starts with '[' and ends with ']'.
   */
  lemma BracketSpanShape(s: string)
    requires IndexOf(s, '[').Some? && LastIndexOf(s, ']').Some?
    requires IndexOf(s, '[').value < LastIndexOf(s, ']').value
    ensures BracketSpan(s) == s[IndexOf(s, '[').value..LastIndexOf(s, ']').value + 1]
    ensures var r := BracketSpan(s);
            |r| >= 2 && r[0] == '[' && r[|r| - 1] == ']'
  {
    SpanBetweenShape(s, IndexOf(s, '[').value, LastIndexOf(s, ']').value);
  }

  /** The text `parse_ai_response` hands to the JSON decoder. */
  function CleanedResponse(content: string): string {
    BracketSpan(Strip(DropSuffix(DropPrefix(DropPrefix(content, "```json"), "```"), "```")))
  }

  method CleanResponse(content: string) returns (cleaned: string)
    ensures cleaned == CleanedResponse(content)
  {
    cleaned := content;
    if StartsWith(cleaned, "```json") {
      cleaned := cleaned[7..];
    }
    assert cleaned == DropPrefix(content, "```json");
    ghost var step1 := cleaned;
    if StartsWith(cleaned, "```") {
      cleaned := cleaned[3..];
    }
    assert cleaned == DropPrefix(step1, "```");
    ghost var step2 := cleaned;
    if EndsWith(cleaned, "```") {
      cleaned := cleaned[..|cleaned| - 3];
    }
    assert cleaned == DropSuffix(step2, "```");
    cleaned := Strip(cleaned);
    cleaned := SpanOfBrackets(cleaned);
  }

  method SpanOfBrackets(s: string) returns (r: string)
    ensures r == BracketSpan(s)
  {
    r := s;
    var start := IndexOf(s, '[');
    var last := LastIndexOf(s, ']');
    if start.Some? && last.Some? && last.value + 1 > start.value {
      r := s[start.value..last.value + 1];
    }
  }

  /** Text that opens with `[` and closes with `]` is its own bracket span. */
  lemma BracketSpanOfArray(body: string)
    requires |body| >= 2 && body[0] == '[' && body[|body| - 1] == ']'
    ensures BracketSpan(body) == body
  {
    assert IndexOf(body, '[') == Some(0);
    assert LastIndexOf(body, ']') == Some(|body| - 1);
    assert body[0..|body|] == body;
  }

  /** A fenced, already trimmed JSON array comes back unchanged. */
  lemma CleanFencedArray(body: string)
    requires |body| >= 2 && body[0] == '[' && body[|body| - 1] == ']'
    requires Strip(body) == body
    ensures CleanedResponse("```json" + body + "```") == body
    ensures CleanedResponse(body) == body
  {
    var s := "```json" + body + "```";
    var tail := body + "```";
    assert StartsWith(s, "```json") && s[7..] == tail;
    assert tail[0] == '[';
    assert !StartsWith(tail, "```");
    assert EndsWith(tail, "```") && tail[..|body|] == body;
    assert DropSuffix(DropPrefix(DropPrefix(s, "```json"), "```"), "```") == body;
    assert !StartsWith(body, "```json") && !StartsWith(body, "```") && !EndsWith(body, "```");
    assert DropSuffix(DropPrefix(DropPrefix(body, "```json"), "```"), "```") == body;
    BracketSpanOfArray(body);
  }


  /** A question map after decoding; every value is optional, as a key may be missing. */
  datatype ParsedQuestion = ParsedQuestion(
    question: Option<string>,
    category: Option<string>,
    difficulty: Option<string>,
    expectedSkills: Option<seq<string>>,
    id: Option<int>,
    evaluationCriteria: Option<string>)

  /** The defaults for the question at position `i`; a map without a question is left alone. */
  function WithDefaults(q: ParsedQuestion, i: nat): ParsedQuestion {
    if q.question.None? then q
    else q.(category := Some(q.category.GetOr("general")),
            difficulty := Some(q.difficulty.GetOr("medium")),
            expectedSkills := Some(q.expectedSkills.GetOr([])),
            id := Some(i + 1))
  }

  function Normalized(questions: seq<ParsedQuestion>): (r: seq<ParsedQuestion>)
    ensures |r| == |questions|
  {
    seq(|questions|, i requires 0 <= i < |questions| => WithDefaults(questions[i], i))
  }

  method NormalizeQuestions(questions: seq<ParsedQuestion>) returns (result: seq<ParsedQuestion>)
    ensures result == Normalized(questions)
  {
    result := questions;
    for i := 0 to |result|
      invariant |result| == |questions|
      invariant forall k :: 0 <= k < i ==> result[k] == WithDefaults(questions[k], k)
      invariant forall k :: i <= k < |result| ==> result[k] == questions[k]
    {
      var q := result[i];
      if q.question.Some? {
        if q.category.None? {
          q := q.(category := Some("general"));
        }
        if q.difficulty.None? {
          q := q.(difficulty := Some("medium"));
        }
        if q.expectedSkills.None? {
          q := q.(expectedSkills := Some([]));
        }
        q := q.(id := Some(i + 1));
        result := result[i := q];
      }
    }
  }

  /**
   * A question gets the three defaults only where its keys are missing and
   * its 1-based position as id; a map without a question is unchanged.
   */
  lemma NormalizedMeaning(questions: seq<ParsedQuestion>, i: nat)
    requires i < |questions|
    ensures var q := questions[i];
            var r := Normalized(questions)[i];
            (q.question.None? ==> r == q)
            && (q.question.Some? ==>
                  r.question == q.question && r.evaluationCriteria == q.evaluationCriteria
                  && r.category.Some? && r.difficulty.Some? && r.expectedSkills.Some?
                  && (q.category.Some? ==> r.category == q.category)
                  && (q.difficulty.Some? ==> r.difficulty == q.difficulty)
                  && (q.expectedSkills.Some? ==> r.expectedSkills == q.expectedSkills)
                  && r.id == Some(i + 1))
  {
  }

  /** Normalizing twice is normalizing once. */
  lemma NormalizedIdempotent(questions: seq<ParsedQuestion>)
    ensures Normalized(Normalized(questions)) == Normalized(questions)
  {
    var once := Normalized(questions);
    forall i | 0 <= i < |once| ensures Normalized(once)[i] == once[i] {
      assert WithDefaults(once[i], i) == once[i];
    }
  }

  // ---------------------------------------------------------------------------
  // _parse_json_response
  // ---------------------------------------------------------------------------

  /** `s.split(sep)[1]`: the text between the first and the second occurrence of `sep`. */
  function SecondPiece(s: string, sep: string): string
    requires Find(s, sep).Some?
  {
    var after := s[Find(s, sep).value + |sep|..];
    match Find(after, sep)
    case Some(j) => after[..j]
    case None => after
  }

  /** `s.split(sep)[0]`: the text before the first occurrence of `sep`. */
  function FirstPiece(s: string, sep: string): string {
    match Find(s, sep)
    case Some(j) => s[..j]
    case None => s
  }

  /** The fenced content, or the whole text when there is no fence. */
  function FenceContent(content: string): string {
    if Find(content, "```json").Some? then FirstPiece(SecondPiece(content, "```json"), "```")
    else if Find(content, "```").Some? then FirstPiece(SecondPiece(content, "```"), "```")
    else content
  }

  /** The text `_parse_json_response` hands to the JSON decoder. */
  function JsonPayload(content: string): string {
    Strip(FenceContent(content))
  }

  /** The analysis returned when decoding fails. */
  datatype FallbackAnalysis = FallbackAnalysis(pros: seq<string>, cons: seq<string>, summary: string)

  function ParseFailure(content: string): FallbackAnalysis {
    FallbackAnalysis(["Could not parse AI response"], ["Could not parse AI response"],
                     "Raw output: " + Prefix(FenceContent(content), 100) + "...")
  }

  /** No occurrence of a backtick-led literal starts inside a text without backticks. */
  lemma NoTickLiteralIn(body: string, rest: string, w: string, j: nat)
    requires '`' !in body && |w| > 0 && w[0] == '`' && j < |body|
    ensures !StartsAt(body + rest, j, w)
  {
    assert (body + rest)[j] != '`' by {
      assert (body + rest)[j] == body[j] && body[j] in body;
    }
    if j + |w| <= |body + rest| {
      assert (body + rest)[j..j + |w|][0] == (body + rest)[j];
    }
  }

  /** A fence whose body holds no backtick yields the stripped body. */
  lemma FenceContentUnwraps(body: string)
    requires '`' !in body
    ensures JsonPayload("```json" + body + "```") == Strip(body)
  {
    var s := "```json" + body + "```";
    assert StartsAt(s, 0, "```json");
    assert Find(s, "```json") == Some(0);
    var after := s[7..];
    assert after == body + "```";
    forall j | 0 <= j <= |after| ensures !StartsAt(after, j, "```json") {
      if j < |body| { NoTickLiteralIn(body, "```", "```json", j); }
    }
    assert SecondPiece(s, "```json") == after;
    forall j | 0 <= j < |body| ensures !StartsAt(after, j, "```") {
      NoTickLiteralIn(body, "```", "```", j);
    }
    assert StartsAt(after, |body|, "```");
    assert Find(after, "```") == Some(|body|);
    assert after[..|body|] == body;
  }

  /** A "```json" fence is also a "```" fence. */
  lemma JsonFenceIsFence(content: string)
    ensures Find(content, "```json").Some? ==> Find(content, "```").Some?
  {
    if Find(content, "```json").Some? {
      var i := Find(content, "```json").value;
      assert content[i..i + 3] == content[i..i + 7][..3];
      assert StartsAt(content, i, "```");
    }
  }

  /** Without any fence the whole text, stripped, is decoded. */
  lemma NoFenceIsWholeText(content: string)
    requires Find(content, "```").None?
    ensures JsonPayload(content) == Strip(content)
  {
    JsonFenceIsFence(content);
  }

  // ---------------------------------------------------------------------------
  // build_prompt
  // ---------------------------------------------------------------------------

  const TechnicalInstruction := "Focus strictly on technical skills, coding challenges, system design, and specific technologies mentioned in the job description."
  const BehavioralInstruction := "Focus strictly on behavioral questions using the STAR method (Situation, Task, Action, Result) to assess soft skills and past experiences."
  const SituationalInstruction := "Focus strictly on hypothetical scenarios and situational judgment tests relevant to the role."
  const MixedInstruction := "Include a balanced mix of technical (40%), behavioral (30%), and situational (30%) questions."

  datatype Instruction = TechnicalFocus | BehavioralFocus | SituationalFocus | Mix {
    function Text(): string {
      match this
      case TechnicalFocus => TechnicalInstruction
      case BehavioralFocus => BehavioralInstruction
      case SituationalFocus => SituationalInstruction
      case Mix => MixedInstruction
    }
  }

  /** The prompt's instruction for a question type; every other type asks for the mix. */
  function TypeInstruction(questionTypes: string): (r: Instruction)
    ensures r == Mix <==> ExpectedCategory(questionTypes, 0) != questionTypes
  {
    if questionTypes == "technical" then TechnicalFocus
    else if questionTypes == "behavioral" then BehavioralFocus
    else if questionTypes == "situational" then SituationalFocus
    else Mix
  }
}
