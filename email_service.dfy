/**
 * `EmailService` (services/email_service.py): which messages are handed to
 * SMTP, to whom, with which subject and which values filled into the
 * template. The SMTP session is an input (`delivered`: whether the server
 * accepted the message); the HTML around the filled-in values is not part
 * of this model.
 */
module EmailService {
  import opened Wrappers
  import opened Text

  /** The settings read from the environment when the service is created. */
  datatype EmailConfig = EmailConfig(
    senderEmail: Option<string>,
    senderPassword: Option<string>,
    senderName: string,
    adminEmail: Option<string>)

  /** A present, non-empty string (Python truthiness). */
  predicate Truthy(s: Option<string>) { s.Some? && s.value != "" }

  /** `bool(sender_email and sender_password)` */
  predicate Enabled(c: EmailConfig) { Truthy(c.senderEmail) && Truthy(c.senderPassword) }

  /** The values each template interpolates. */
  datatype Body =
    | Confirmation(candidateName: string, senderName: string)
    | Rejection(candidateName: string, senderName: string)
    | Invitation(candidateName: string, title: string, dateDisplay: Option<string>, durationMinutes: int,
                 interviewType: string, meetingLink: Option<string>, gcalLink: string, senderName: string)
    | AdminAlert(headerColor: string, headerText: string, name: string, email: string, phone: string,
                 skillsHtml: string, resumeLink: Option<string>)

  datatype Message = Message(to: string, subject: string, body: Body)

  /**
   * `send_email`: the result is true exactly when the service is enabled and
   * the server accepted the message; a disabled service attempts nothing.
   */
  function SendEmail(c: EmailConfig, msg: Message, delivered: bool): (ok: bool)
    ensures ok <==> Enabled(c) && delivered
    ensures !Enabled(c) ==> !ok
  {
    if !Enabled(c) then false else delivered
  }

  /** The whole of a `send_*` call: a guarded-out message is never sent. */
  function Sent(c: EmailConfig, msg: Option<Message>, delivered: bool): (ok: bool)
    ensures ok <==> msg.Some? && Enabled(c) && delivered
  {
    match msg
    case None => false
    case Some(m) => SendEmail(c, m, delivered)
  }

  /** `send_candidate_confirmation`: nothing without a recipient. */
  function ConfirmationMessage(c: EmailConfig, candidateEmail: Option<string>, candidateName: string): (r: Option<Message>)
    ensures r.Some? <==> Truthy(candidateEmail)
    ensures r.Some? ==> r.value.to == candidateEmail.value && r.value.body.Confirmation?
  {
    if !Truthy(candidateEmail) then None
    else Some(Message(candidateEmail.value, "Application Received - Next Steps", Confirmation(candidateName, c.senderName)))
  }

  /** `send_rejection_email`: nothing without a recipient. */
  function RejectionMessage(c: EmailConfig, candidateEmail: Option<string>, candidateName: string): (r: Option<Message>)
    ensures r.Some? <==> Truthy(candidateEmail)
    ensures r.Some? ==> r.value.to == candidateEmail.value && r.value.body.Rejection?
  {
    if !Truthy(candidateEmail) then None
    else Some(Message(candidateEmail.value, "Update on your application", Rejection(candidateName, c.senderName)))
  }

  /** The keys of `interview_details` the invitation reads; `duration` is already an integer. */
  datatype InterviewDetails = InterviewDetails(
    title: Option<string>,
    duration: Option<int>,
    interviewType: Option<string>,
    dateDisplay: Option<string>,
    gcalLink: Option<string>,
    meetingLink: Option<string>)

  /** `send_interview_invitation`: nothing without a recipient; missing details take their defaults. */
  function InvitationMessage(c: EmailConfig, candidateEmail: Option<string>, candidateName: string,
                             d: InterviewDetails): (r: Option<Message>)
    ensures r.Some? <==> Truthy(candidateEmail)
    ensures r.Some? ==> r.value.subject == "Interview Invitation: " + d.title.GetOr("Interview")
    ensures r.Some? ==> r.value.body.Invitation? && r.value.body.durationMinutes == d.duration.GetOr(30)
                        && r.value.body.gcalLink == d.gcalLink.GetOr("#")
                        && (r.value.body.meetingLink.Some? <==> Truthy(d.meetingLink))
  {
    if !Truthy(candidateEmail) then None
    else
      var title := d.title.GetOr("Interview");
      var meeting := if Truthy(d.meetingLink) then d.meetingLink else None;
      Some(Message(candidateEmail.value, "Interview Invitation: " + title,
                   Invitation(candidateName, title, d.dateDisplay, d.duration.GetOr(30),
                              d.interviewType.GetOr("Video Call"), meeting, d.gcalLink.GetOr("#"), c.senderName)))
  }

  // ---------------------------------------------------------------------------
  // send_admin_notification
  // ---------------------------------------------------------------------------

  /** The candidate record as the notification reads it: its string fields, score and skills. */
  datatype CandidateData = CandidateData(fields: map<string, string>, totalScore: Option<real>, skills: seq<string>)

  function Field(data: CandidateData, key: string): Option<string> {
    if key in data.fields then Some(data.fields[key]) else None
  }

  /** `data.get(first) or data.get(second) or default` */
  function FirstTruthy(data: CandidateData, first: string, second: string, default: string): (r: string)
    ensures Truthy(Field(data, first)) ==> r == data.fields[first]
    ensures !Truthy(Field(data, first)) && Truthy(Field(data, second)) ==> r == data.fields[second]
    ensures !Truthy(Field(data, first)) && !Truthy(Field(data, second)) ==> r == default
  {
    var a := Field(data, first);
    var b := Field(data, second);
    if Truthy(a) then a.value else if Truthy(b) then b.value else default
  }

  function NameOf(data: CandidateData): string { FirstTruthy(data, "candidate_name", "name", "Unknown") }
  function EmailOf(data: CandidateData): string { FirstTruthy(data, "candidate_email", "email", "N/A") }
  function PhoneOf(data: CandidateData): string { FirstTruthy(data, "candidate_phone", "phone", "N/A") }

  /** A shown name, email or phone is never empty. */
  lemma ContactFieldsNonEmpty(data: CandidateData)
    ensures NameOf(data) != "" && EmailOf(data) != "" && PhoneOf(data) != ""
  {
  }

  /**
   * The resume link: `resume_url` when truthy, else `file_url` when truthy,
   * else whatever `resume_url` held. A link not starting with "http" is
   * joined to a present base URL with exactly one slash between them.
   */
  function ResumeLink(data: CandidateData, baseUrl: Option<string>): (r: Option<string>)
  {
    var resume := Field(data, "resume_url");
    var fileUrl := Field(data, "file_url");
    var link := if !Truthy(resume) && Truthy(fileUrl) then fileUrl else resume;
    if Truthy(link) && !StartsWith(link.value, "http") && Truthy(baseUrl) then
      Some(RStripWhere(baseUrl.value, IsSlash) + "/" + LStripWhere(link.value, IsSlash))
    else link
  }

  /** The link chosen before joining: `resume_url` wins over `file_url`. */
  lemma ResumeLinkPrefersResumeUrl(data: CandidateData, baseUrl: Option<string>)
    requires Truthy(Field(data, "resume_url")) && StartsWith(data.fields["resume_url"], "http")
    ensures ResumeLink(data, baseUrl) == Field(data, "resume_url")
  {
  }

  lemma ResumeLinkFallsBackToFileUrl(data: CandidateData)
    requires !Truthy(Field(data, "resume_url")) && Truthy(Field(data, "file_url"))
    ensures ResumeLink(data, None) == Field(data, "file_url")
  {
  }

  /** A full URL is kept unchanged, whatever the base. */
  lemma ResumeLinkKeepsFullUrl(data: CandidateData, baseUrl: Option<string>, link: string)
    requires Truthy(Field(data, "resume_url")) || Truthy(Field(data, "file_url"))
    requires link == (if Truthy(Field(data, "resume_url")) then data.fields["resume_url"] else data.fields["file_url"])
    requires StartsWith(link, "http")
    ensures ResumeLink(data, baseUrl) == Some(link)
  {
  }

  /**
   * A relative link with a base: the base without its trailing slashes, one
   * slash, and the path without its leading slashes.
   */
  lemma ResumeLinkJoinsOneSlash(data: CandidateData, base: string, link: string)
    requires Truthy(Field(data, "resume_url")) || Truthy(Field(data, "file_url"))
    requires link == (if Truthy(Field(data, "resume_url")) then data.fields["resume_url"] else data.fields["file_url"])
    requires !StartsWith(link, "http") && base != ""
    ensures var r := ResumeLink(data, Some(base));
            r.Some? && exists b, p :: r.value == b + "/" + p
                                      && (b == [] || b[|b| - 1] != '/') && (p == [] || p[0] != '/')
                                      && StartsWith(base, b) && EndsWith(link, p)
                                      && (forall k :: |b| <= k < |base| ==> base[k] == '/')
                                      && (forall k :: 0 <= k < |link| - |p| ==> link[k] == '/')
  {
    var b := RStripWhere(base, IsSlash);
    var p := LStripWhere(link, IsSlash);
    assert base[..|b|] == b;
    assert link[|link| - |p|..] == p;
    var r := ResumeLink(data, Some(base));
    assert r.Some? && r.value == b + "/" + p;
    assert (b == [] || b[|b| - 1] != '/') && (p == [] || p[0] != '/');
    assert StartsWith(base, b) && EndsWith(link, p);
    assert forall k :: |b| <= k < |base| ==> base[k] == '/';
    assert forall k :: 0 <= k < |link| - |p| ==> link[k] == '/';
  }

  /** The subject line the score selects. */
  datatype Subject = HighScoreAlert | NewCandidate

  /** `score > 70`, with a missing score read as 0. */
  function SubjectFor(data: CandidateData): (s: Subject)
    ensures s == HighScoreAlert <==> data.totalScore.GetOr(0.0) > 70.0
  {
    if data.totalScore.GetOr(0.0) > 70.0 then HighScoreAlert else NewCandidate
  }

  /** U+1F525 (fire) as its UTF-8 bytes read back as Windows-1252 characters, as the source file holds it. */
  const AlertMark := "\U{00F0}\U{0178}\U{201D}\U{00A5}"

  /** The subject text; `scoreText` is the score as Python renders it. */
  function SubjectText(s: Subject, name: string, scoreText: string): (r: string)
    ensures s == HighScoreAlert ==> StartsWith(r, AlertMark + " HIGH SCORE ALERT: " + name)
    ensures s == NewCandidate ==> StartsWith(r, "New Candidate: " + name)
  {
    match s
    case HighScoreAlert =>
      var r := AlertMark + " HIGH SCORE ALERT: " + name + " (" + scoreText + "/100)";
      assert r[..|AlertMark + " HIGH SCORE ALERT: " + name|] == AlertMark + " HIGH SCORE ALERT: " + name;
      r
    case NewCandidate =>
      var r := "New Candidate: " + name + " (Score: " + scoreText + "/100)";
      assert r[..|"New Candidate: " + name|] == "New Candidate: " + name;
      r
  }

  function HeaderColor(s: Subject): string {
    if s == HighScoreAlert then "#d32f2f" else "#2c3e50"
  }

  function HeaderText(s: Subject): string {
    if s == HighScoreAlert then "High Potential Candidate Detected!" else "New Application Received"
  }

  /** One `<li>` element per skill, in order. */
  function ListItems(skills: seq<string>): string {
    if skills == [] then "" else "<li>" + skills[0] + "</li>" + ListItems(skills[1..])
  }

  /** The items of a concatenation are the items of each part, in order. */
  lemma {:induction false} ListItemsAppend(a: seq<string>, b: seq<string>)
    ensures ListItems(a + b) == ListItems(a) + ListItems(b)
  {
    if a == [] {
      assert a + b == b;
    } else {
      assert (a + b)[0] == a[0];
      assert (a + b)[1..] == a[1..] + b;
      ListItemsAppend(a[1..], b);
    }
  }

  /** Every skill appears as its own list item. */
  lemma {:induction false} ListItemsShowEverySkill(skills: seq<string>, k: nat)
    requires k < |skills|
    ensures IsSubstring("<li>" + skills[k] + "</li>", ListItems(skills))
  {
    var item := "<li>" + skills[k] + "</li>";
    ListItemsAppend(skills[..k], skills[k..]);
    assert skills == skills[..k] + skills[k..];
    var before := ListItems(skills[..k]);
    assert skills[k..][0] == skills[k] && skills[k..][1..] == skills[k + 1..];
    var whole := before + (item + ListItems(skills[k + 1..]));
    assert whole[|before|..|before| + |item|] == item;
    assert StartsAt(whole, |before|, item);
  }

  /** The skills list as the notification builds it, one item at a time. */
  method SkillsHtml(skills: seq<string>) returns (html: string)
    ensures html == "<ul>" + ListItems(skills) + "</ul>"
  {
    html := "<ul>";
    for i := 0 to |skills|
      invariant html == "<ul>" + ListItems(skills[..i])
    {
      var item := "<li>" + skills[i] + "</li>";
      assert [skills[i]][1..] == [];
      assert ListItems([skills[i]]) == item;
      ListItemsAppend(skills[..i], [skills[i]]);
      assert skills[..i + 1] == skills[..i] + [skills[i]];
      html := html + item;
    }
    assert skills[..|skills|] == skills;
    html := html + "</ul>";
  }

  /** `send_admin_notification`: nothing without an admin address, else the alert for the admin. */
  function AdminMessage(c: EmailConfig, data: CandidateData, baseUrl: Option<string>, scoreText: string): (r: Option<Message>)
    ensures r.Some? <==> Truthy(c.adminEmail)
    ensures r.Some? ==> r.value.to == c.adminEmail.value
    ensures r.Some? ==> r.value.subject == SubjectText(SubjectFor(data), NameOf(data), scoreText)
    ensures r.Some? ==> r.value.body.AdminAlert? && r.value.body.resumeLink == ResumeLink(data, baseUrl)
                        && r.value.body.skillsHtml == "<ul>" + ListItems(data.skills) + "</ul>"
  {
    if !Truthy(c.adminEmail) then None
    else
      var s := SubjectFor(data);
      Some(Message(c.adminEmail.value, SubjectText(s, NameOf(data), scoreText),
                   AdminAlert(HeaderColor(s), HeaderText(s), NameOf(data), EmailOf(data), PhoneOf(data),
                              "<ul>" + ListItems(data.skills) + "</ul>", ResumeLink(data, baseUrl))))
  }

  /** The notification as the service assembles it: the link resolved step by step, the skills list by its loop. */
  method BuildAdminMessage(c: EmailConfig, data: CandidateData, baseUrl: Option<string>, scoreText: string)
    returns (r: Option<Message>)
    ensures r == AdminMessage(c, data, baseUrl, scoreText)
  {
    if !Truthy(c.adminEmail) {
      return None;
    }
    var link := Field(data, "resume_url");
    var fileUrl := Field(data, "file_url");
    if !Truthy(link) && Truthy(fileUrl) {
      link := fileUrl;
    }
    if Truthy(link) && !StartsWith(link.value, "http") {
      if Truthy(baseUrl) {
        var base := RStripWhere(baseUrl.value, IsSlash);
        var path := LStripWhere(link.value, IsSlash);
        link := Some(base + "/" + path);
      }
    }
    var s := SubjectFor(data);
    var skills := SkillsHtml(data.skills);
    r := Some(Message(c.adminEmail.value, SubjectText(s, NameOf(data), scoreText),
                      AdminAlert(HeaderColor(s), HeaderText(s), NameOf(data), EmailOf(data), PhoneOf(data),
                                 skills, link)));
  }

  /** No email leaves a disabled service, and no notification leaves one without an admin address. */
  lemma NothingSentWhenGuarded(c: EmailConfig, data: CandidateData, baseUrl: Option<string>, scoreText: string,
                               delivered: bool)
    requires !Enabled(c) || !Truthy(c.adminEmail)
    ensures !Sent(c, AdminMessage(c, data, baseUrl, scoreText), delivered)
  {
  }
}
