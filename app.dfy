/**
 * The request-independent logic of app.py: the upload-extension check, the
 * CSV export body, the download file names, and the shaping of the payload
 * sent to the Zapier webhook. Requests, responses and the webhook call are
 * not part of this model; the request's JSON fields are inputs.
 */
module App {
  import opened Wrappers
  import opened Text
  import opened AIService

  // ---------------------------------------------------------------------------
  // allowed_file
  // ---------------------------------------------------------------------------

  const AllowedExtensions: set<string> := {"pdf", "docx", "txt"}

  /** `'.' in f and f.rsplit('.', 1)[1].lower() in ALLOWED_EXTENSIONS` */
  function AllowedFile(filename: string): (ok: bool)
    ensures '.' !in filename ==> !ok
  {
    match LastIndexOf(filename, '.')
    case None => false
    case Some(i) => Lower(filename[i + 1..]) in AllowedExtensions
  }

  /** With a dot at `i` and none after it, the file is allowed exactly when its extension is, in any case. */
  lemma AllowedFileMeaning(filename: string, i: nat)
    requires i < |filename| && filename[i] == '.' && '.' !in filename[i + 1..]
    ensures AllowedFile(filename) <==> Lower(filename[i + 1..]) in AllowedExtensions
  {
    LastIndexOfAt(filename, '.', i);
  }

  /** Only the part after the last dot counts. */
  lemma AllowedFileExamples()
    ensures AllowedFile("resume.PDF")
    ensures !AllowedFile("notes.txt.exe")
  {
    var a := "resume.PDF";
    assert a[7..] == "PDF";
    assert Lower("PDF") == "pdf";
    AllowedFileMeaning(a, 6);
    var b := "notes.txt.exe";
    assert b[10..] == "exe";
    AllowedFileMeaning(b, 9);
  }

  // ---------------------------------------------------------------------------
  // export_csv and the download names
  // ---------------------------------------------------------------------------

  /**
   * The CSV header line, written as three literals: the verifier then sees, piece
   * by piece, that the header holds no newline.
   */
  const CsvHeader := "Number,Question," + "Category,Difficulty," + "Expected Skills"

  function QuestionText(q: ParsedQuestion): string { q.question.GetOr("") }
  function CategoryOf(q: ParsedQuestion): string { q.category.GetOr("general") }
  function DifficultyOf(q: ParsedQuestion): string { q.difficulty.GetOr("medium") }
  function SkillsOf(q: ParsedQuestion): seq<string> { q.expectedSkills.GetOr([]) }

  /** Row `number` of the CSV, without its line end. */
  function CsvRow(number: nat, q: ParsedQuestion): string {
    NatToString(number) + ",\"" + DoubleChar(QuestionText(q), '"') + "\"," + CategoryOf(q) + ","
    + DifficultyOf(q) + ",\"" + JoinWith("; ", SkillsOf(q)) + "\""
  }

  function CsvRows(questions: seq<ParsedQuestion>): (rows: seq<string>)
    ensures |rows| == |questions|
  {
    seq(|questions|, k requires 0 <= k < |questions| => CsvRow(k + 1, questions[k]))
  }

  /** The header and one row per question, each ending in a newline. */
  function CsvBody(questions: seq<ParsedQuestion>): string {
    Terminated([CsvHeader] + CsvRows(questions), '\n')
  }

  /** The CSV body, or the error for an empty question list. */
  method ExportCsv(questions: seq<ParsedQuestion>) returns (r: Result<string>)
    ensures questions == [] <==> r.Failure?
    ensures r.Failure? ==> r.error == "No questions provided"
    ensures r.Success? ==> r.value == CsvBody(questions)
  {
    if questions == [] {
      return Failure("No questions provided");
    }
    var csv := CsvHeader + "\n";
    ghost var lines := [CsvHeader];
    assert Terminated(lines, '\n') == csv;
    ghost var rows := CsvRows(questions);
    for i := 0 to |questions|
      invariant lines == [CsvHeader] + rows[..i]
      invariant csv == Terminated(lines, '\n')
    {
      var row := CsvRow(i + 1, questions[i]);
      assert row == rows[i];
      TerminatedSnoc(lines, row, '\n');
      csv := csv + row + "\n";
      lines := lines + [row];
      assert rows[..i + 1] == rows[..i] + [row];
    }
    assert rows[..|questions|] == rows;
    return Success(csv);
  }

  /** No field of the question spans lines. */
  predicate SingleLine(q: ParsedQuestion) {
    '\n' !in QuestionText(q) && '\n' !in CategoryOf(q) && '\n' !in DifficultyOf(q)
    && forall k :: 0 <= k < |SkillsOf(q)| ==> '\n' !in SkillsOf(q)[k]
  }

  lemma CsvRowIsOneLine(number: nat, q: ParsedQuestion)
    requires SingleLine(q)
    ensures '\n' !in CsvRow(number, q)
  {
    DigitsHaveNoSeparator(NatToString(number), '\n');
    DoubleCharKeepsOut(QuestionText(q), '"', '\n');
    JoinWithKeepsOut("; ", SkillsOf(q), '\n');
  }

  /**
   * When no field spans lines, the CSV splits into the header, one row per
   * question in order, and the empty text after the last newline.
   */
  lemma CsvLines(questions: seq<ParsedQuestion>)
    requires forall k :: 0 <= k < |questions| ==> SingleLine(questions[k])
    ensures SplitOn(CsvBody(questions), '\n') == [CsvHeader] + CsvRows(questions) + [""]
  {
    var rows := CsvRows(questions);
    forall k | 0 <= k < |rows| ensures '\n' !in rows[k] {
      CsvRowIsOneLine(k + 1, questions[k]);
    }
    var parts := [CsvHeader] + rows + [""];
    forall k | 0 <= k < |parts| ensures '\n' !in parts[k] {
      if 0 < k < |parts| - 1 {
        assert parts[k] == rows[k - 1];
      }
    }
    TerminatedIsJoin([CsvHeader] + CsvRows(questions), '\n');
    SplitJoin(parts, '\n');
  }

  /** The quoted question field of a row reads back as the question. */
  lemma CsvQuestionFieldDecodes(q: ParsedQuestion)
    ensures UndoubleChar(DoubleChar(QuestionText(q), '"'), '"') == QuestionText(q)
    ensures CountOf(DoubleChar(QuestionText(q), '"'), '"') % 2 == 0
  {
    UndoubleDouble(QuestionText(q), '"');
    DoubledComeInPairs(QuestionText(q), '"');
  }

  /** `interview-questions-<title with spaces as dashes>.<ext>` */
  function DownloadName(jobTitle: Option<string>, extension: string): (name: string)
    ensures ' ' !in extension ==> ' ' !in name
  {
    var title := ReplaceChar(jobTitle.GetOr("Interview Questions"), ' ', '-');
    assert forall k :: 0 <= k < |title| ==> title[k] != ' ';
    "interview-questions-" + title + "." + extension
  }

  /** Only the spaces change: the name has the title's length and every other character. */
  lemma DownloadNameKeepsTitle(title: string, extension: string)
    ensures var name := DownloadName(Some(title), extension);
            |name| == 20 + |title| + 1 + |extension|
            && forall k :: 0 <= k < |title| ==> name[20 + k] == (if title[k] == ' ' then '-' else title[k])
  {
  }

  // ---------------------------------------------------------------------------
  // send_to_zapier: the payload
  // ---------------------------------------------------------------------------

  /** The request fields; a missing or null list is empty. */
  datatype ZapierRequest = ZapierRequest(
    questions: seq<ParsedQuestion>,
    jobTitle: Option<string>,
    webhookUrl: Option<string>,
    formType: Option<string>,
    companyName: Option<string>)

  datatype StandardField = StandardField(field: string, kind: string, required: bool)

  const StandardFields: seq<StandardField> := [
    StandardField("Full Name", "text", true),
    StandardField("Email Address", "email", true),
    StandardField("Phone Number", "phone", true),
    StandardField("Resume/CV Link", "url", false),
    StandardField("LinkedIn Profile", "url", false),
    StandardField("Years of Experience", "number", true),
    StandardField("Current/Previous Company", "text", false),
    StandardField("Expected Salary", "text", false),
    StandardField("Availability to Start", "text", true)
  ]

  /** One entry of the payload's question list. */
  datatype PayloadQuestion =
    | FormQuestion(number: nat, question: string, category: string, difficulty: string, fieldType: string)
    | SheetQuestion(number: nat, question: string, category: string, difficulty: string, expectedSkills: string)

  datatype ZapierPayload =
    | ApplicationForm(formTitle: string, companyName: string, jobTitle: string, timestamp: string,
                      totalQuestions: nat, standardFields: seq<StandardField>,
                      entries: seq<PayloadQuestion>, questionsText: string, slots: seq<string>)
    | Sheets(jobTitle: string, timestamp: string, totalQuestions: nat,
             entries: seq<PayloadQuestion>, questionsText: string, slots: seq<string>)
  {
    /** The `action` field. */
    function Action(): string {
      if ApplicationForm? then "create_application_form" else "save_to_sheets"
    }
  }

  /** `question_1` … `question_10`: the first ten question texts, then empty fields. */
  function Slots(questions: seq<ParsedQuestion>): (slots: seq<string>)
    ensures |slots| == 10
  {
    seq(10, k requires 0 <= k < 10 => if k < |questions| then QuestionText(questions[k]) else "")
  }

  function FormLine(number: nat, q: ParsedQuestion): string {
    "Q" + NatToString(number) + ". [" + Upper(CategoryOf(q)) + "] " + QuestionText(q)
  }

  function SheetLine(number: nat, q: ParsedQuestion): string {
    NatToString(number) + ". " + QuestionText(q)
  }

  function FormEntries(questions: seq<ParsedQuestion>): (r: seq<PayloadQuestion>) {
    seq(|questions|, k requires 0 <= k < |questions| =>
      FormQuestion(k + 1, QuestionText(questions[k]), CategoryOf(questions[k]), DifficultyOf(questions[k]), "paragraph"))
  }

  function SheetEntries(questions: seq<ParsedQuestion>): (r: seq<PayloadQuestion>) {
    seq(|questions|, k requires 0 <= k < |questions| =>
      SheetQuestion(k + 1, QuestionText(questions[k]), CategoryOf(questions[k]), DifficultyOf(questions[k]),
                    JoinWith(", ", SkillsOf(questions[k]))))
  }

  function FormLines(questions: seq<ParsedQuestion>): seq<string> {
    seq(|questions|, k requires 0 <= k < |questions| => FormLine(k + 1, questions[k]))
  }

  function SheetLines(questions: seq<ParsedQuestion>): seq<string> {
    seq(|questions|, k requires 0 <= k < |questions| => SheetLine(k + 1, questions[k]))
  }

  /** The payload for a valid request. */
  function PayloadOf(req: ZapierRequest, timestamp: string): ZapierPayload {
    var title := req.jobTitle.GetOr("Job Application");
    var qs := req.questions;
    if req.formType.GetOr("sheets") == "application_form" then
      ApplicationForm("Job Application - " + title, req.companyName.GetOr(""), title, timestamp, |qs|,
                      StandardFields, FormEntries(qs), JoinWith("\n\n", FormLines(qs)), Slots(qs))
    else
      Sheets(title, timestamp, |qs|, SheetEntries(qs), JoinWith("\n", SheetLines(qs)), Slots(qs))
  }

  /** The payload, or the first failed check: no questions, then no webhook URL. */
  function ZapierPayloadOf(req: ZapierRequest, timestamp: string): (r: Result<ZapierPayload>)
    ensures req.questions == [] ==> r == Failure("No questions provided")
    ensures req.questions != [] && (req.webhookUrl.None? || req.webhookUrl.value == "")
            ==> r == Failure("Zapier webhook URL is required")
    ensures r.Success? ==> r.value == PayloadOf(req, timestamp)
  {
    if req.questions == [] then Failure("No questions provided")
    else if req.webhookUrl.None? || req.webhookUrl.value == "" then Failure("Zapier webhook URL is required")
    else Success(PayloadOf(req, timestamp))
  }

  /** The payload counts every question and fills exactly the first ten slots. */
  lemma PayloadSlots(req: ZapierRequest, timestamp: string)
    ensures var p := PayloadOf(req, timestamp);
            p.totalQuestions == |req.questions| && |p.slots| == 10
            && (forall k :: 0 <= k < 10 && k < |req.questions| ==> p.slots[k] == QuestionText(req.questions[k]))
            && (forall k :: |req.questions| <= k < 10 ==> p.slots[k] == "")
            && |p.entries| == |req.questions|
            && forall k :: 0 <= k < |p.entries| ==> p.entries[k].number == k + 1
  {
  }

  /** With single-line questions, the sheets text splits back into one numbered line per question. */
  lemma SheetsTextLines(questions: seq<ParsedQuestion>)
    requires questions != []
    requires forall k :: 0 <= k < |questions| ==> '\n' !in QuestionText(questions[k])
    ensures SplitOn(JoinWith("\n", SheetLines(questions)), '\n') == SheetLines(questions)
  {
    var lines := SheetLines(questions);
    forall k | 0 <= k < |lines| ensures '\n' !in lines[k] {
      DigitsHaveNoSeparator(NatToString(k + 1), '\n');
    }
    SplitJoin(lines, '\n');
  }

  /**
   * The request handler's one pass over the questions: the numbered entries and
   * text lines of the chosen form, and the ten question slots.
   */
  method ShapeQuestions(questions: seq<ParsedQuestion>, form: bool)
    returns (entries: seq<PayloadQuestion>, parts: seq<string>, slots: seq<string>)
    ensures entries == (if form then FormEntries(questions) else SheetEntries(questions))
    ensures parts == (if form then FormLines(questions) else SheetLines(questions))
    ensures slots == Slots(questions)
  {
    slots := ["", "", "", "", "", "", "", "", "", ""];
    entries := [];
    parts := [];
    for i := 0 to |questions|
      invariant |slots| == 10 && |entries| == i && |parts| == i
      invariant forall k :: 0 <= k < 10 ==> slots[k] == (if k < i then QuestionText(questions[k]) else "")
      invariant entries == (if form then FormEntries(questions) else SheetEntries(questions))[..i]
      invariant parts == (if form then FormLines(questions) else SheetLines(questions))[..i]
    {
      var q := questions[i];
      var text := q.question.GetOr("");
      var category := q.category.GetOr("general");
      var entry, line;
      if form {
        entry := FormQuestion(i + 1, text, category, q.difficulty.GetOr("medium"), "paragraph");
        line := "Q" + NatToString(i + 1) + ". [" + Upper(category) + "] " + text;
        assert entry == FormEntries(questions)[i] && line == FormLines(questions)[i];
      } else {
        entry := SheetQuestion(i + 1, text, category, q.difficulty.GetOr("medium"),
                               JoinWith(", ", q.expectedSkills.GetOr([])));
        line := NatToString(i + 1) + ". " + text;
        assert entry == SheetEntries(questions)[i] && line == SheetLines(questions)[i];
      }
      entries := entries + [entry];
      parts := parts + [line];
      if i + 1 <= 10 {
        slots := slots[i := text];
      }
    }
  }

  /** The payload, built as the request handler builds it: the checks, then one pass over the questions. */
  method ShapeZapierPayload(req: ZapierRequest, timestamp: string) returns (r: Result<ZapierPayload>)
    ensures r == ZapierPayloadOf(req, timestamp)
  {
    var questions := req.questions;
    if questions == [] {
      return Failure("No questions provided");
    }
    if req.webhookUrl.None? || req.webhookUrl.value == "" {
      return Failure("Zapier webhook URL is required");
    }
    var title := req.jobTitle.GetOr("Job Application");
    var form := req.formType.GetOr("sheets") == "application_form";
    var entries, parts, slots := ShapeQuestions(questions, form);
    if form {
      return Success(ApplicationForm("Job Application - " + title, req.companyName.GetOr(""), title, timestamp,
                                     |questions|, StandardFields, entries, JoinWith("\n\n", parts), slots));
    } else {
      return Success(Sheets(title, timestamp, |questions|, entries, JoinWith("\n", parts), slots));
    }
  }
}
