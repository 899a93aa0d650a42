/**
 * The Intern document (models/Intern.ts): its enumerations, the defaults
 * the schema fills in, the trim/lowercase normalisation of `username` and
 * `email`, and the hook that stamps `updatedAt` on every `updateOne`.
 */
module InternModel {
  import opened Wrappers
  import opened Documents

  // ---------------------------------------------------------------------
  // Enumerations. Each one has the name the schema stores and a parser
  // that accepts exactly those names.
  // ---------------------------------------------------------------------

  /** `verificationStatus` (models/Intern.ts:51-55). */
  datatype VerificationStatus = Pending | Verified | Rejected

  function VerificationStatusName(v: VerificationStatus): string
  {
    match v
    case Pending => "pending"
    case Verified => "verified"
    case Rejected => "rejected"
  }

  function ParseVerificationStatus(s: string): (r: Option<VerificationStatus>)
    ensures forall v :: r == Some(v) <==> VerificationStatusName(v) == s
  {
    if s == "pending" then Some(VerificationStatus.Pending)
    else if s == "verified" then Some(VerificationStatus.Verified)
    else if s == "rejected" then Some(VerificationStatus.Rejected)
    else None
  }

  /** `appliedInternships[].status` (models/Intern.ts:83-87). */
  datatype ApplicationStatus =
    | Pending | Shortlisted | InterviewScheduled | Selected | Accepted | Declined | Rejected

  function ApplicationStatusName(v: ApplicationStatus): string
  {
    match v
    case Pending => "pending"
    case Shortlisted => "shortlisted"
    case InterviewScheduled => "interview_scheduled"
    case Selected => "selected"
    case Accepted => "accepted"
    case Declined => "declined"
    case Rejected => "rejected"
  }

  function ParseApplicationStatus(s: string): (r: Option<ApplicationStatus>)
    ensures forall v :: r == Some(v) <==> ApplicationStatusName(v) == s
  {
    if s == "pending" then Some(ApplicationStatus.Pending)
    else if s == "shortlisted" then Some(ApplicationStatus.Shortlisted)
    else if s == "interview_scheduled" then Some(ApplicationStatus.InterviewScheduled)
    else if s == "selected" then Some(ApplicationStatus.Selected)
    else if s == "accepted" then Some(ApplicationStatus.Accepted)
    else if s == "declined" then Some(ApplicationStatus.Declined)
    else if s == "rejected" then Some(ApplicationStatus.Rejected)
    else None
  }

  /** `assignedTeams[].status` (models/Intern.ts:122-126). */
  datatype AssignmentStatus = Active | Completed | Inactive

  function AssignmentStatusName(v: AssignmentStatus): string
  {
    match v
    case Active => "active"
    case Completed => "completed"
    case Inactive => "inactive"
  }

  function ParseAssignmentStatus(s: string): (r: Option<AssignmentStatus>)
    ensures forall v :: r == Some(v) <==> AssignmentStatusName(v) == s
  {
    if s == "active" then Some(AssignmentStatus.Active)
    else if s == "completed" then Some(AssignmentStatus.Completed)
    else if s == "inactive" then Some(AssignmentStatus.Inactive)
    else None
  }

  /** `weeklyReports[].status` (models/Intern.ts:143-147). */
  datatype ReportStatus = Pending | Active | Submitted | Reviewed

  function ReportStatusName(v: ReportStatus): string
  {
    match v
    case Pending => "pending"
    case Active => "active"
    case Submitted => "submitted"
    case Reviewed => "reviewed"
  }

  function ParseReportStatus(s: string): (r: Option<ReportStatus>)
    ensures forall v :: r == Some(v) <==> ReportStatusName(v) == s
  {
    if s == "pending" then Some(ReportStatus.Pending)
    else if s == "active" then Some(ReportStatus.Active)
    else if s == "submitted" then Some(ReportStatus.Submitted)
    else if s == "reviewed" then Some(ReportStatus.Reviewed)
    else None
  }

  /** `feedback[].type` (models/Intern.ts:154-157); it has no default. */
  datatype FeedbackType = MentorFeedback | PanelistEvaluation | AdminReview | SelfEvaluation | PeerReview

  function FeedbackTypeName(v: FeedbackType): string
  {
    match v
    case MentorFeedback => "mentor_feedback"
    case PanelistEvaluation => "panelist_evaluation"
    case AdminReview => "admin_review"
    case SelfEvaluation => "self_evaluation"
    case PeerReview => "peer_review"
  }

  function ParseFeedbackType(s: string): (r: Option<FeedbackType>)
    ensures forall v :: r == Some(v) <==> FeedbackTypeName(v) == s
  {
    if s == "mentor_feedback" then Some(MentorFeedback)
    else if s == "panelist_evaluation" then Some(PanelistEvaluation)
    else if s == "admin_review" then Some(AdminReview)
    else if s == "self_evaluation" then Some(SelfEvaluation)
    else if s == "peer_review" then Some(PeerReview)
    else None
  }

  /** `demoStatus` (models/Intern.ts:171-175). */
  datatype DemoStatus = NotScheduled | Scheduled | Completed | Cancelled

  function DemoStatusName(v: DemoStatus): string
  {
    match v
    case NotScheduled => "not_scheduled"
    case Scheduled => "scheduled"
    case Completed => "completed"
    case Cancelled => "cancelled"
  }

  function ParseDemoStatus(s: string): (r: Option<DemoStatus>)
    ensures forall v :: r == Some(v) <==> DemoStatusName(v) == s
  {
    if s == "not_scheduled" then Some(DemoStatus.NotScheduled)
    else if s == "scheduled" then Some(DemoStatus.Scheduled)
    else if s == "completed" then Some(DemoStatus.Completed)
    else if s == "cancelled" then Some(DemoStatus.Cancelled)
    else None
  }

  /** `preferences.theme` (models/Intern.ts:182-186). */
  datatype Theme = Light | Dark | System

  function ThemeName(v: Theme): string
  {
    match v
    case Light => "light"
    case Dark => "dark"
    case System => "system"
  }

  function ParseTheme(s: string): (r: Option<Theme>)
    ensures forall v :: r == Some(v) <==> ThemeName(v) == s
  {
    if s == "light" then Some(Light)
    else if s == "dark" then Some(Dark)
    else if s == "system" then Some(System)
    else None
  }

  /** `notifications[].type` (models/Intern.ts:207-210); it has no default. */
  datatype NotificationType =
    | ApplicationUpdate | TeamAssignment | FeedbackReceived | DemoScheduled | ReportDue | General

  function NotificationTypeName(v: NotificationType): string
  {
    match v
    case ApplicationUpdate => "application_update"
    case TeamAssignment => "team_assignment"
    case FeedbackReceived => "feedback_received"
    case DemoScheduled => "demo_scheduled"
    case ReportDue => "report_due"
    case General => "general"
  }

  function ParseNotificationType(s: string): (r: Option<NotificationType>)
    ensures forall v :: r == Some(v) <==> NotificationTypeName(v) == s
  {
    if s == "application_update" then Some(ApplicationUpdate)
    else if s == "team_assignment" then Some(TeamAssignment)
    else if s == "feedback_received" then Some(FeedbackReceived)
    else if s == "demo_scheduled" then Some(DemoScheduled)
    else if s == "report_due" then Some(ReportDue)
    else if s == "general" then Some(General)
    else None
  }

  // ---------------------------------------------------------------------
  // Normalisation of strings: `trim: true` and `lowercase: true`.
  // ---------------------------------------------------------------------

  /** The white space and line terminators that String.prototype.trim removes. */
  const SpaceChars: set<char> := {
    ' ', '\t', '\n', '\r', '\U{B}', '\U{C}', '\U{A0}', '\U{1680}', '\U{2028}', '\U{2029}',
    '\U{202F}', '\U{205F}', '\U{3000}', '\U{FEFF}'
  }

  predicate IsSpace(c: char)
  {
    c in SpaceChars || '\U{2000}' <= c <= '\U{200A}'
  }

  predicate IsUpper(c: char)
  {
    'A' <= c <= 'Z'
  }

  /** The first index at or after `i` that does not hold white space (or |s|). */
  function SkipSpace(s: string, i: nat): (k: nat)
    requires i <= |s|
    ensures i <= k <= |s|
    ensures forall m :: i <= m < k ==> IsSpace(s[m])
    ensures k < |s| ==> !IsSpace(s[k])
    decreases |s| - i
  {
    if i < |s| && IsSpace(s[i]) then SkipSpace(s, i + 1) else i
  }

  /** Walking back from `j`, but not past `lo`: the end of the last character that is not white space. */
  function SkipSpaceBack(s: string, lo: nat, j: nat): (k: nat)
    requires lo <= j <= |s|
    ensures lo <= k <= j
    ensures forall m :: k <= m < j ==> IsSpace(s[m])
    ensures k > lo ==> !IsSpace(s[k - 1])
    decreases j
  {
    if j > lo && IsSpace(s[j - 1]) then SkipSpaceBack(s, lo, j - 1) else j
  }

  /**
   * String.prototype.trim: what is left once the white space at both ends
   * is removed. Neither end of the result is white space.
   */
  function Trim(s: string): (r: string)
    ensures |r| <= |s|
    ensures r == [] || (!IsSpace(r[0]) && !IsSpace(r[|r| - 1]))
  {
    var i := SkipSpace(s, 0);
    var k := SkipSpaceBack(s, i, |s|);
    s[i..k]
  }

  /** What Trim removes is white space, and only at the two ends: the leading run and the trailing run. */
  lemma TrimRemovesOnlySpace(s: string)
    ensures var i := SkipSpace(s, 0);
      && i + |Trim(s)| <= |s|
      && Trim(s) == s[i..i + |Trim(s)|]
      && (forall m :: 0 <= m < i ==> IsSpace(s[m]))
      && (forall m :: i + |Trim(s)| <= m < |s| ==> IsSpace(s[m]))
  {
    var i := SkipSpace(s, 0);
    var k := SkipSpaceBack(s, i, |s|);
    assert Trim(s) == s[i..k];
  }

  /** Lower-cases the ASCII letters A-Z; white space stays white space. */
  function LowerChar(c: char): (r: char)
    ensures !IsUpper(r)
    ensures IsUpper(c) ==> r as int == c as int + 32
    ensures !IsUpper(c) ==> r == c
    ensures IsSpace(r) == IsSpace(c)
  {
    if IsUpper(c) then (c as int + 32) as char else c
  }

  /** String.prototype.toLowerCase, restricted to ASCII letters. */
  function Lower(s: string): (r: string)
    ensures |r| == |s|
    ensures forall i :: 0 <= i < |s| ==> r[i] == LowerChar(s[i])
  {
    seq(|s|, i requires 0 <= i < |s| => LowerChar(s[i]))
  }

  /** What `lowercase: true` with `trim: true` stores for an email. */
  function NormalizeEmail(s: string): (r: string)
    ensures r == [] || (!IsSpace(r[0]) && !IsSpace(r[|r| - 1]))
    ensures forall i :: 0 <= i < |r| ==> !IsUpper(r[i])
  {
    Lower(Trim(s))
  }

  lemma {:induction false} SkipSpaceLower(s: string, i: nat)
    requires i <= |s|
    ensures SkipSpace(Lower(s), i) == SkipSpace(s, i)
    decreases |s| - i
  {
    if i < |s| && IsSpace(s[i]) {
      SkipSpaceLower(s, i + 1);
    }
  }

  lemma {:induction false} SkipSpaceBackLower(s: string, lo: nat, j: nat)
    requires lo <= j <= |s|
    ensures SkipSpaceBack(Lower(s), lo, j) == SkipSpaceBack(s, lo, j)
    decreases j
  {
    if j > lo && IsSpace(s[j - 1]) {
      SkipSpaceBackLower(s, lo, j - 1);
    }
  }

  /** Trimming and lower-casing commute, so the order the setters run in does not matter. */
  lemma TrimLowerCommute(s: string)
    ensures Trim(Lower(s)) == Lower(Trim(s))
  {
    var i := SkipSpace(s, 0);
    SkipSpaceLower(s, 0);
    SkipSpaceBackLower(s, i, |s|);
    var k := SkipSpaceBack(s, i, |s|);
    LowerSlice(s, i, k);
  }

  /** Lower-casing a slice gives the slice of the lower-cased string. */
  lemma LowerSlice(s: string, i: nat, k: nat)
    requires i <= k <= |s|
    ensures Lower(s)[i..k] == Lower(s[i..k])
  {
  }

  lemma TrimIdempotent(s: string)
    ensures Trim(Trim(s)) == Trim(s)
  {
    var r := Trim(s);
    if r != [] {
      assert SkipSpace(r, 0) == 0;
      assert SkipSpaceBack(r, 0, |r|) == |r|;
      assert r[0..|r|] == r;
    }
  }

  /** Storing an already stored email again leaves it as it is. */
  lemma NormalizeEmailIdempotent(s: string)
    ensures NormalizeEmail(NormalizeEmail(s)) == NormalizeEmail(s)
  {
    var t := Trim(s);
    TrimLowerCommute(Lower(t));
    TrimLowerCommute(t);
    TrimIdempotent(s);
    assert Lower(Lower(t)) == Lower(t);
  }

  // ---------------------------------------------------------------------
  // Sub-documents. Fields the schema only stores are kept together in an
  // `…Info` value that passes through unchanged; fields with an enum or a
  // default are explicit.
  // ---------------------------------------------------------------------

  datatype ValidationError = Required(path: string) | NotInEnum(path: string, value: string)

  /** `applicationData` (models/Intern.ts:91-98). */
  datatype ApplicationData = ApplicationData(
    coverLetter: Option<string>, whyInterestedReason: Option<string>,
    relevantExperience: Option<string>, expectedOutcome: Option<string>,
    availableStartDate: Option<string>, additionalComments: Option<string>)

  /** `userProfileSnapshot` (models/Intern.ts:99-113). */
  datatype ProfileSnapshot = ProfileSnapshot(
    fullName: Option<string>, email: Option<string>, phone: Option<string>,
    university: Option<string>, degree: Option<string>, major: Option<string>,
    graduationYear: Option<string>, skills: Option<string>, resumeFile: Option<string>,
    gpa: Option<string>, portfolioLinks: seq<string>, internshipGoals: Option<string>,
    previousExperience: Option<string>)

  /** The stored-as-given fields of `appliedInternships[]` (models/Intern.ts:78-114). */
  datatype ApplicationInfo = ApplicationInfo(
    internshipId: Option<string>, companyName: Option<string>, position: Option<string>,
    appliedDate: Option<int>, interviewDate: Option<int>, notes: Option<string>,
    respondedDate: Option<int>, applicationData: ApplicationData,
    userProfileSnapshot: ProfileSnapshot)

  datatype AppliedInternshipInput = AppliedInternshipInput(info: ApplicationInfo, status: Option<string>)
  datatype AppliedInternship = AppliedInternship(info: ApplicationInfo, status: ApplicationStatus)

  function NewAppliedInternship(input: AppliedInternshipInput): (r: Result<AppliedInternship, ValidationError>)
    ensures r.Ok? ==> r.value.info == input.info
    ensures input.status.None? ==> r.Ok? && r.value.status == ApplicationStatus.Pending
    ensures r.Ok? <==> ValidName(input.status, ApplicationStatusName)
    ensures input.status.Some? && r.Ok? ==> ApplicationStatusName(r.value.status) == input.status.value
  {
    match input.status
    case None => Ok(AppliedInternship(input.info, ApplicationStatus.Pending))
    case Some(s) =>
      match ParseApplicationStatus(s)
      case Some(v) => Ok(AppliedInternship(input.info, v))
      case None => Err(NotInEnum("appliedInternships.status", s))
  }

  /** The stored-as-given fields of `assignedTeams[]` (models/Intern.ts:117-127). */
  datatype AssignmentInfo = AssignmentInfo(
    teamId: Option<string>, teamName: Option<string>, projectTitle: Option<string>,
    assignedDate: Option<int>)

  datatype AssignedTeamInput = AssignedTeamInput(info: AssignmentInfo, status: Option<string>)
  datatype AssignedTeam = AssignedTeam(info: AssignmentInfo, status: AssignmentStatus)

  function NewAssignedTeam(input: AssignedTeamInput): (r: Result<AssignedTeam, ValidationError>)
    ensures r.Ok? ==> r.value.info == input.info
    ensures input.status.None? ==> r.Ok? && r.value.status == AssignmentStatus.Active
    ensures r.Ok? <==> ValidName(input.status, AssignmentStatusName)
    ensures input.status.Some? && r.Ok? ==> AssignmentStatusName(r.value.status) == input.status.value
  {
    match input.status
    case None => Ok(AssignedTeam(input.info, AssignmentStatus.Active))
    case Some(s) =>
      match ParseAssignmentStatus(s)
      case Some(v) => Ok(AssignedTeam(input.info, v))
      case None => Err(NotInEnum("assignedTeams.status", s))
  }

  /** The stored-as-given fields of `weeklyReports[]` (models/Intern.ts:133-148). */
  datatype ReportInfo = ReportInfo(
    weekNumber: Option<int>, startDate: Option<int>, endDate: Option<int>,
    hoursWorked: Option<int>, tasksCompleted: Option<string>, challengesFaced: Option<string>,
    nextWeekGoals: Option<string>, mentorFeedback: Option<string>, submittedDate: Option<int>)

  datatype WeeklyReportInput = WeeklyReportInput(info: ReportInfo, status: Option<string>)
  datatype WeeklyReport = WeeklyReport(info: ReportInfo, status: ReportStatus)

  function NewWeeklyReport(input: WeeklyReportInput): (r: Result<WeeklyReport, ValidationError>)
    ensures r.Ok? ==> r.value.info == input.info
    ensures input.status.None? ==> r.Ok? && r.value.status == ReportStatus.Pending
    ensures r.Ok? <==> ValidName(input.status, ReportStatusName)
    ensures input.status.Some? && r.Ok? ==> ReportStatusName(r.value.status) == input.status.value
  {
    match input.status
    case None => Ok(WeeklyReport(input.info, ReportStatus.Pending))
    case Some(s) =>
      match ParseReportStatus(s)
      case Some(v) => Ok(WeeklyReport(input.info, v))
      case None => Err(NotInEnum("weeklyReports.status", s))
  }

  /** The stored-as-given fields of `feedback[]` (models/Intern.ts:150-162). */
  datatype FeedbackInfo = FeedbackInfo(
    fromUserId: Option<string>, fromUserName: Option<string>, fromUserRole: Option<string>,
    rating: Option<int>, comments: Option<string>, dateGiven: Option<int>,
    relatedToWeek: Option<int>)

  datatype FeedbackInput = FeedbackInput(info: FeedbackInfo, kind: Option<string>)
  datatype Feedback = Feedback(info: FeedbackInfo, kind: Option<FeedbackType>)

  /** An absent `type` stays absent: the enum has no default. */
  function NewFeedback(input: FeedbackInput): (r: Result<Feedback, ValidationError>)
    ensures r.Ok? ==> r.value.info == input.info
    ensures input.kind.None? ==> r.Ok? && r.value.kind.None?
    ensures r.Ok? <==> ValidName(input.kind, FeedbackTypeName)
    ensures input.kind.Some? && r.Ok? ==>
      r.value.kind.Some? && FeedbackTypeName(r.value.kind.value) == input.kind.value
  {
    match input.kind
    case None => Ok(Feedback(input.info, None))
    case Some(s) =>
      match ParseFeedbackType(s)
      case Some(v) => Ok(Feedback(input.info, Some(v)))
      case None => Err(NotInEnum("feedback.type", s))
  }

  /** The stored-as-given fields of `notifications[]` (models/Intern.ts:206-222). */
  datatype NotificationInfo = NotificationInfo(
    title: Option<string>, message: Option<string>, relatedId: Option<string>)

  datatype NotificationInput = NotificationInput(
    info: NotificationInfo, kind: Option<string>, read: Option<bool>, createdAt: Option<int>)
  datatype Notification = Notification(
    info: NotificationInfo, kind: Option<NotificationType>, read: bool, createdAt: int)

  /** `read` defaults to false and `createdAt` to the time of creation, `now`. */
  function NewNotification(input: NotificationInput, now: int): (r: Result<Notification, ValidationError>)
    ensures r.Ok? ==> r.value.info == input.info
    ensures r.Ok? ==> r.value.read == (input.read == Some(true))
    ensures r.Ok? && input.createdAt.None? ==> r.value.createdAt == now
    ensures r.Ok? && input.createdAt.Some? ==> r.value.createdAt == input.createdAt.value
    ensures r.Ok? <==> ValidName(input.kind, NotificationTypeName)
    ensures r.Ok? && input.kind.Some? ==>
      r.value.kind.Some? && NotificationTypeName(r.value.kind.value) == input.kind.value
  {
    var read := match input.read case Some(b) => b case None => false;
    var createdAt := match input.createdAt case Some(t) => t case None => now;
    match input.kind
    case None => Ok(Notification(input.info, None, read, createdAt))
    case Some(s) =>
      match ParseNotificationType(s)
      case Some(v) => Ok(Notification(input.info, Some(v), read, createdAt))
      case None => Err(NotInEnum("notifications.type", s))
  }

  /** `preferences` (models/Intern.ts:181-203). */
  datatype PreferencesInput = PreferencesInput(
    theme: Option<string>, emailNotifications: Option<bool>, weeklyReportReminders: Option<bool>,
    teamChatNotifications: Option<bool>, feedbackNotifications: Option<bool>)

  datatype Preferences = Preferences(
    theme: Theme, emailNotifications: bool, weeklyReportReminders: bool,
    teamChatNotifications: bool, feedbackNotifications: bool)

  /** An absent flag is on; an absent theme is light. */
  function NewPreferences(input: PreferencesInput): (r: Result<Preferences, ValidationError>)
    ensures r.Ok? <==> ValidName(input.theme, ThemeName)
    ensures r.Ok? && input.theme.None? ==> r.value.theme == Light
    ensures r.Ok? && input.theme.Some? ==> ThemeName(r.value.theme) == input.theme.value
    ensures r.Ok? ==>
      && r.value.emailNotifications == (input.emailNotifications != Some(false))
      && r.value.weeklyReportReminders == (input.weeklyReportReminders != Some(false))
      && r.value.teamChatNotifications == (input.teamChatNotifications != Some(false))
      && r.value.feedbackNotifications == (input.feedbackNotifications != Some(false))
  {
    var theme :=
      match input.theme
      case None => Some(Light)
      case Some(s) => ParseTheme(s);
    match theme
    case None => Err(NotInEnum("preferences.theme", input.theme.value))
    case Some(t) =>
      Ok(Preferences(t, OnUnlessOff(input.emailNotifications), OnUnlessOff(input.weeklyReportReminders),
                     OnUnlessOff(input.teamChatNotifications), OnUnlessOff(input.feedbackNotifications)))
  }

  function OnUnlessOff(b: Option<bool>): bool
  {
    match b
    case Some(v) => v
    case None => true
  }

  /**
   * Builds every element of `s` with `make`; fails with the first element's
   * error when one of them fails.
   */
  function BuildAll<A, B>(s: seq<A>, make: A -> Result<B, ValidationError>): (r: Result<seq<B>, ValidationError>)
    ensures r.Ok? <==> forall i :: 0 <= i < |s| ==> make(s[i]).Ok?
    ensures r.Ok? ==> |r.value| == |s| && forall i :: 0 <= i < |s| ==> r.value[i] == make(s[i]).value
  {
    if s == [] then Ok([])
    else
      match make(s[0])
      case Err(e) => Err(e)
      case Ok(b) =>
        match BuildAll(s[1..], make)
        case Err(e) => Err(e)
        case Ok(rest) =>
          assert forall i :: 1 <= i < |s| ==> s[i] == s[1..][i - 1];
          Ok([b] + rest)
  }

  // ---------------------------------------------------------------------
  // The Intern document. The schema's paths are grouped into a few
  // records here (profile, progress, demo); the paths themselves are the
  // schema's.
  // ---------------------------------------------------------------------

  /** An optional enum path holds no value, or one of the enum's names. */
  ghost predicate ValidName<E(!new)>(s: Option<string>, name: E -> string)
  {
    s.None? || exists v :: name(v) == s.value
  }

  /** The free-form profile, academic and document paths (models/Intern.ts:40-72). */
  datatype Profile = Profile(
    fullName: Option<string>, phone: Option<string>, skills: Option<string>, bio: Option<string>,
    profileImage: Option<string>, dob: Option<string>,
    university: Option<string>, degree: Option<string>, major: Option<string>,
    graduationYear: Option<string>, gpa: Option<string>,
    internshipGoals: Option<string>, previousExperience: Option<string>, portfolioLinks: seq<string>,
    resumeFile: Option<string>, idDocumentFile: Option<string>, transcriptFiles: seq<string>)

  /** Applications, team assignments, reports and feedback (models/Intern.ts:77-162, 178-179). */
  datatype ProgressInput = ProgressInput(
    appliedInternships: seq<AppliedInternshipInput>, assignedTeams: seq<AssignedTeamInput>,
    employees: seq<string>, weeklyReports: seq<WeeklyReportInput>, feedback: seq<FeedbackInput>,
    assignments: seq<string>)

  datatype Progress = Progress(
    appliedInternships: seq<AppliedInternship>, assignedTeams: seq<AssignedTeam>,
    employees: seq<string>, weeklyReports: seq<WeeklyReport>, feedback: seq<Feedback>,
    assignments: seq<string>)

  ghost predicate ProgressAcceptable(p: ProgressInput)
  {
    && (forall i :: 0 <= i < |p.appliedInternships| ==>
          ValidName(p.appliedInternships[i].status, ApplicationStatusName))
    && (forall i :: 0 <= i < |p.assignedTeams| ==>
          ValidName(p.assignedTeams[i].status, AssignmentStatusName))
    && (forall i :: 0 <= i < |p.weeklyReports| ==>
          ValidName(p.weeklyReports[i].status, ReportStatusName))
    && (forall i :: 0 <= i < |p.feedback| ==>
          ValidName(p.feedback[i].kind, FeedbackTypeName))
  }

  /** Every array element gets its own defaults and enum check. */
  function NewProgress(p: ProgressInput): (r: Result<Progress, ValidationError>)
    ensures r.Ok? <==> ProgressAcceptable(p)
    ensures r.Ok? ==>
      && |r.value.appliedInternships| == |p.appliedInternships|
      && (forall i :: 0 <= i < |p.appliedInternships| ==>
            r.value.appliedInternships[i] == NewAppliedInternship(p.appliedInternships[i]).value)
      && |r.value.assignedTeams| == |p.assignedTeams|
      && (forall i :: 0 <= i < |p.assignedTeams| ==>
            r.value.assignedTeams[i] == NewAssignedTeam(p.assignedTeams[i]).value)
      && |r.value.weeklyReports| == |p.weeklyReports|
      && (forall i :: 0 <= i < |p.weeklyReports| ==>
            r.value.weeklyReports[i] == NewWeeklyReport(p.weeklyReports[i]).value)
      && |r.value.feedback| == |p.feedback|
      && (forall i :: 0 <= i < |p.feedback| ==>
            r.value.feedback[i] == NewFeedback(p.feedback[i]).value)
      && r.value.employees == p.employees && r.value.assignments == p.assignments
  {
    match BuildAll(p.appliedInternships, NewAppliedInternship)
    case Err(e) => Err(e)
    case Ok(applied) =>
      match BuildAll(p.assignedTeams, NewAssignedTeam)
      case Err(e) => Err(e)
      case Ok(teams) =>
        match BuildAll(p.weeklyReports, NewWeeklyReport)
        case Err(e) => Err(e)
        case Ok(reports) =>
          match BuildAll(p.feedback, NewFeedback)
          case Err(e) => Err(e)
          case Ok(feedback) => Ok(Progress(applied, teams, p.employees, reports, feedback, p.assignments))
  }

  /** Demo presentation tracking (models/Intern.ts:165-175). */
  datatype DemoInput = DemoInput(
    scheduled: Option<bool>, date: Option<int>, materials: Option<string>, status: Option<string>)

  datatype Demo = Demo(scheduled: bool, date: Option<int>, materials: Option<string>, status: DemoStatus)

  /** `demoScheduled` defaults to false and `demoStatus` to "not_scheduled". */
  function NewDemo(d: DemoInput): (r: Result<Demo, ValidationError>)
    ensures r.Ok? <==> ValidName(d.status, DemoStatusName)
    ensures r.Ok? ==> r.value.scheduled == (d.scheduled == Some(true))
    ensures r.Ok? ==> r.value.date == d.date && r.value.materials == d.materials
    ensures r.Ok? && d.status.None? ==> r.value.status == DemoStatus.NotScheduled
    ensures r.Ok? && d.status.Some? ==> DemoStatusName(r.value.status) == d.status.value
  {
    var scheduled := match d.scheduled case Some(b) => b case None => false;
    match d.status
    case None => Ok(Demo(scheduled, d.date, d.materials, DemoStatus.NotScheduled))
    case Some(s) =>
      match ParseDemoStatus(s)
      case Some(v) => Ok(Demo(scheduled, d.date, d.materials, v))
      case None => Err(NotInEnum("demoStatus", s))
  }

  /** `verificationStatus` defaults to "pending". */
  function NewVerificationStatus(s: Option<string>): (r: Result<VerificationStatus, ValidationError>)
    ensures r.Ok? <==> ValidName(s, VerificationStatusName)
    ensures s.None? ==> r == Ok(VerificationStatus.Pending)
    ensures s.Some? && r.Ok? ==> VerificationStatusName(r.value) == s.value
  {
    match s
    case None => Ok(VerificationStatus.Pending)
    case Some(v) =>
      match ParseVerificationStatus(v)
      case Some(status) => Ok(status)
      case None => Err(NotInEnum("verificationStatus", v))
  }

  /** Every notification gets its defaults; `now` is the time of creation. */
  function NewNotifications(ns: seq<NotificationInput>, now: int): (r: Result<seq<Notification>, ValidationError>)
    ensures r.Ok? <==> forall i :: 0 <= i < |ns| ==> ValidName(ns[i].kind, NotificationTypeName)
    ensures r.Ok? ==> |r.value| == |ns| && forall i :: 0 <= i < |ns| ==> r.value[i] == NewNotification(ns[i], now).value
  {
    BuildAll(ns, n => NewNotification(n, now))
  }

  /** What a caller hands to `new Intern(...)`; an absent array is empty. */
  datatype InternInput = InternInput(
    username: Option<string>, email: Option<string>, password: Option<string>,
    role: Option<string>,
    organizationName: Option<string>, organizationId: Option<string>,
    profile: Profile,
    teams: seq<ObjectId>,
    profileSubmissionCount: Option<int>,
    verificationStatus: Option<string>,
    progress: ProgressInput,
    demo: DemoInput,
    preferences: PreferencesInput,
    notifications: seq<NotificationInput>,
    isActive: Option<bool>, lastLoginDate: Option<int>,
    createdAt: Option<int>, updatedAt: Option<int>)

  /** A stored Intern document (models/Intern.ts:6-240). */
  datatype Intern = Intern(
    username: string, email: string, password: string,
    role: string,
    organizationName: string, organizationId: Option<string>,
    profile: Profile,
    teams: seq<ObjectId>,
    profileSubmissionCount: int,
    verificationStatus: VerificationStatus,
    progress: Progress,
    demo: Demo,
    preferences: Preferences,
    notifications: seq<Notification>,
    isActive: bool, lastLoginDate: Option<int>,
    createdAt: int, updatedAt: int)

  /** The only role the schema admits. */
  const InternRole := "intern"

  /** A required string is missing when absent or empty after its setters ran. */
  predicate Missing(s: Option<string>)
  {
    s.None? || s.value == ""
  }

  /** Every path of an input passes the schema's validators. */
  ghost predicate Acceptable(input: InternInput)
  {
    && !Missing(StoredUsername(input))
    && !Missing(StoredEmail(input))
    && !Missing(input.password)
    && (input.role.None? || input.role.value == InternRole)
    && ValidName(input.verificationStatus, VerificationStatusName)
    && ValidName(input.demo.status, DemoStatusName)
    && ValidName(input.preferences.theme, ThemeName)
    && ProgressAcceptable(input.progress)
    && (forall i :: 0 <= i < |input.notifications| ==>
          ValidName(input.notifications[i].kind, NotificationTypeName))
  }

  /** `username` after its `trim` setter, already in the form the setter leaves. */
  function StoredUsername(input: InternInput): (r: Option<string>)
    ensures r.Some? <==> input.username.Some?
    ensures r.Some? ==> |r.value| <= |input.username.value| && Trim(r.value) == r.value
  {
    match input.username
    case None => None
    case Some(v) => TrimIdempotent(v); Some(Trim(v))
  }

  /** `email` after its `trim` and `lowercase` setters, already in the form they leave. */
  function StoredEmail(input: InternInput): (r: Option<string>)
    ensures r.Some? <==> input.email.Some?
    ensures r.Some? ==> NormalizeEmail(r.value) == r.value
  {
    match input.email
    case None => None
    case Some(v) => NormalizeEmailIdempotent(v); Some(NormalizeEmail(v))
  }

  function OrElse<T>(o: Option<T>, default: T): T
  {
    match o
    case Some(v) => v
    case None => default
  }

  /**
   * `new Intern(input)` followed by validation: setters normalise
   * `username` and `email`, absent paths take their schema defaults, and
   * a missing required path or a value outside an enum is an error.
   * `now` stands for Date.now.
   */
  function NewIntern(input: InternInput, now: int): (r: Result<Intern, ValidationError>)
    ensures r.Ok? ==> r.value.role == InternRole
    ensures r.Ok? ==> StoredUsername(input) == Some(r.value.username) && r.value.username != []
    ensures r.Ok? ==> StoredEmail(input) == Some(r.value.email) && r.value.email != []
    ensures r.Ok? ==> r.value.profile == input.profile && r.value.teams == input.teams
    ensures r.Ok? && input.verificationStatus.Some? ==>
      VerificationStatusName(r.value.verificationStatus) == input.verificationStatus.value
    ensures r.Ok? ==> input.password == Some(r.value.password)
    ensures r.Ok? ==> r.value.organizationName == OrElse(input.organizationName, "none")
    ensures r.Ok? ==> r.value.organizationId == input.organizationId
    ensures r.Ok? ==> r.value.profileSubmissionCount == OrElse(input.profileSubmissionCount, 0)
    ensures r.Ok? && input.verificationStatus.None? ==> r.value.verificationStatus == VerificationStatus.Pending
    ensures r.Ok? ==> NewProgress(input.progress) == Ok(r.value.progress)
    ensures r.Ok? ==> NewDemo(input.demo) == Ok(r.value.demo)
    ensures r.Ok? ==> NewPreferences(input.preferences) == Ok(r.value.preferences)
    ensures r.Ok? ==> NewNotifications(input.notifications, now) == Ok(r.value.notifications)
    ensures r.Ok? ==> r.value.isActive == OrElse(input.isActive, true) && r.value.lastLoginDate == input.lastLoginDate
    ensures r.Ok? ==> r.value.createdAt == OrElse(input.createdAt, now) && r.value.updatedAt == OrElse(input.updatedAt, now)
  {
    var username := StoredUsername(input);
    var email := StoredEmail(input);
    if Missing(username) then Err(Required("username"))
    else if Missing(email) then Err(Required("email"))
    else if Missing(input.password) then Err(Required("password"))
    else if input.role.Some? && input.role.value != InternRole then Err(NotInEnum("role", input.role.value))
    else
      match NewVerificationStatus(input.verificationStatus)
      case Err(e) => Err(e)
      case Ok(verification) =>
        match NewProgress(input.progress)
        case Err(e) => Err(e)
        case Ok(progress) =>
          match NewDemo(input.demo)
          case Err(e) => Err(e)
          case Ok(demo) =>
            match NewPreferences(input.preferences)
            case Err(e) => Err(e)
            case Ok(preferences) =>
              match NewNotifications(input.notifications, now)
              case Err(e) => Err(e)
              case Ok(notifications) =>
                Ok(Intern(
                  username.value, email.value, input.password.value, InternRole,
                  OrElse(input.organizationName, "none"), input.organizationId,
                  input.profile, input.teams,
                  OrElse(input.profileSubmissionCount, 0), verification,
                  progress, demo, preferences, notifications,
                  OrElse(input.isActive, true), input.lastLoginDate,
                  OrElse(input.createdAt, now), OrElse(input.updatedAt, now)))
  }

  /** Creation succeeds exactly when every path passes its validator. */
  lemma NewInternAccepts(input: InternInput, now: int)
    ensures NewIntern(input, now).Ok? <==> Acceptable(input)
  {
    var parts :=
      && NewVerificationStatus(input.verificationStatus).Ok?
      && NewProgress(input.progress).Ok?
      && NewDemo(input.demo).Ok?
      && NewPreferences(input.preferences).Ok?
      && NewNotifications(input.notifications, now).Ok?;
    var account :=
      && !Missing(StoredUsername(input))
      && !Missing(StoredEmail(input))
      && !Missing(input.password)
      && (input.role.None? || input.role.value == InternRole);
    assert NewIntern(input, now).Ok? <==> account && parts by {
      NewInternSteps(input, now);
    }
  }

  /** The checks NewIntern runs, in order; creation fails as soon as one does. */
  lemma NewInternSteps(input: InternInput, now: int)
    ensures NewIntern(input, now).Ok? <==>
      && !Missing(StoredUsername(input))
      && !Missing(StoredEmail(input))
      && !Missing(input.password)
      && (input.role.None? || input.role.value == InternRole)
      && NewVerificationStatus(input.verificationStatus).Ok?
      && NewProgress(input.progress).Ok?
      && NewDemo(input.demo).Ok?
      && NewPreferences(input.preferences).Ok?
      && NewNotifications(input.notifications, now).Ok?
  {
  }

  /** A stored username has no surrounding white space; a stored email has no upper-case letter either. */
  lemma NewInternNormalised(input: InternInput, now: int)
    requires NewIntern(input, now).Ok?
    ensures var u := NewIntern(input, now).value.username;
      u != [] && !IsSpace(u[0]) && !IsSpace(u[|u| - 1])
    ensures var e := NewIntern(input, now).value.email;
      && e != [] && !IsSpace(e[0]) && !IsSpace(e[|e| - 1])
      && forall i :: 0 <= i < |e| ==> !IsUpper(e[i])
  {
    var r := NewIntern(input, now).value;
    assert r.username == Trim(input.username.value);
    assert r.email == NormalizeEmail(input.email.value);
  }

  /** An input that sets only the required paths. */
  function MinimalInput(username: string, email: string, password: string): InternInput
  {
    InternInput(
      Some(username), Some(email), Some(password), None, None, None,
      Profile(None, None, None, None, None, None, None, None, None, None, None, None, None, [], None, None, []),
      [], None, None,
      ProgressInput([], [], [], [], [], []),
      DemoInput(None, None, None, None),
      PreferencesInput(None, None, None, None, None),
      [], None, None, None, None)
  }

  /** The schema defaults of a new intern. */
  lemma NewInternDefaults(username: string, email: string, password: string, now: int)
    requires Trim(username) != [] && NormalizeEmail(email) != [] && password != []
    ensures var r := NewIntern(MinimalInput(username, email, password), now);
      && r.Ok?
      && r.value.role == "intern"
      && r.value.organizationName == "none"
      && r.value.organizationId == None
      && r.value.profileSubmissionCount == 0
      && r.value.verificationStatus == VerificationStatus.Pending
      && r.value.teams == []
      && r.value.demo.scheduled == false
      && r.value.demo.status == DemoStatus.NotScheduled
      && r.value.preferences == Preferences(Light, true, true, true, true)
      && r.value.isActive
      && r.value.createdAt == now && r.value.updatedAt == now
  {
    var input := MinimalInput(username, email, password);
    assert NewVerificationStatus(input.verificationStatus) == Ok(VerificationStatus.Pending);
    assert NewProgress(input.progress) == Ok(Progress([], [], [], [], [], []));
    assert NewDemo(input.demo) == Ok(Demo(false, None, None, DemoStatus.NotScheduled));
    assert NewPreferences(input.preferences) == Ok(Preferences(Light, true, true, true, true));
    assert NewNotifications(input.notifications, now) == Ok([]);
    NewInternSteps(input, now);
  }

  // ---------------------------------------------------------------------
  // Updates and the `pre("updateOne")` hook.
  // ---------------------------------------------------------------------

  /**
   * Applies the `$set` part of an update to an intern, for its string,
   * number, boolean and date paths. The `trim` and `lowercase` setters run
   * on the new values, no validator runs and the save hook does not, so a
   * new password is stored as given. The schema is not strict, so the
   * `immutable` flag on `role` does not strip a `role` key: the update sets
   * it like any other path. A value of the wrong kind for its path is not
   * applied, where Mongoose would cast it.
   */
  function ApplyUpdate(doc: Intern, update: map<string, Value>): (r: Intern)
    ensures r.role == OrElse(StrAt(update, "role"), doc.role)
    ensures StrAt(update, "username").Some? ==> r.username == Trim(StrAt(update, "username").value)
    ensures StrAt(update, "username").None? ==> r.username == doc.username
    ensures StrAt(update, "email").Some? ==> r.email == NormalizeEmail(StrAt(update, "email").value)
    ensures StrAt(update, "email").None? ==> r.email == doc.email
    ensures r.password == OrElse(StrAt(update, "password"), doc.password)
    ensures r.organizationName == OrElse(StrAt(update, "organizationName"), doc.organizationName)
    ensures r.profileSubmissionCount == OrElse(NumAt(update, "profileSubmissionCount"), doc.profileSubmissionCount)
    ensures r.isActive == OrElse(BoolAt(update, "isActive"), doc.isActive)
    ensures r.createdAt == OrElse(DateAt(update, "createdAt"), doc.createdAt)
    ensures r.updatedAt == OrElse(DateAt(update, "updatedAt"), doc.updatedAt)
    ensures IsNullAt(update, "organizationId") ==> r.organizationId == None
    ensures StrAt(update, "organizationId").Some? ==> r.organizationId == StrAt(update, "organizationId")
    ensures !IsNullAt(update, "organizationId") && StrAt(update, "organizationId").None? ==> r.organizationId == doc.organizationId
    ensures StatusAt(update).Some? ==> r.verificationStatus == StatusAt(update).value
    ensures StatusAt(update).None? ==> r.verificationStatus == doc.verificationStatus
    ensures IsNullAt(update, "lastLoginDate") ==> r.lastLoginDate == None
    ensures DateAt(update, "lastLoginDate").Some? ==> r.lastLoginDate == DateAt(update, "lastLoginDate")
    ensures !IsNullAt(update, "lastLoginDate") && DateAt(update, "lastLoginDate").None? ==> r.lastLoginDate == doc.lastLoginDate
    ensures r.teams == doc.teams && r.profile == doc.profile && r.progress == doc.progress
    ensures r.demo == doc.demo && r.preferences == doc.preferences && r.notifications == doc.notifications
  {
    UpdateActivity(UpdateOrganization(UpdateAccount(doc, update), update), update)
  }

  /** The account paths: username and email through their setters, the password and role as given. */
  function UpdateAccount(doc: Intern, update: map<string, Value>): (r: Intern)
    ensures StrAt(update, "username").Some? ==> r.username == Trim(StrAt(update, "username").value)
    ensures StrAt(update, "username").None? ==> r.username == doc.username
    ensures StrAt(update, "email").Some? ==> r.email == NormalizeEmail(StrAt(update, "email").value)
    ensures StrAt(update, "email").None? ==> r.email == doc.email
    ensures r == doc.(username := r.username, email := r.email, password := OrElse(StrAt(update, "password"), doc.password),
                      role := OrElse(StrAt(update, "role"), doc.role))
  {
    var username := match StrAt(update, "username") case Some(u) => Trim(u) case None => doc.username;
    var email := match StrAt(update, "email") case Some(e) => NormalizeEmail(e) case None => doc.email;
    doc.(username := username, email := email, password := OrElse(StrAt(update, "password"), doc.password),
         role := OrElse(StrAt(update, "role"), doc.role))
  }

  /** The organization and verification paths; an explicit null clears organizationId. */
  function UpdateOrganization(doc: Intern, update: map<string, Value>): (r: Intern)
    ensures r == doc.(organizationName := OrElse(StrAt(update, "organizationName"), doc.organizationName),
                      organizationId := r.organizationId,
                      profileSubmissionCount := OrElse(NumAt(update, "profileSubmissionCount"), doc.profileSubmissionCount),
                      verificationStatus := OrElse(StatusAt(update), doc.verificationStatus))
    ensures IsNullAt(update, "organizationId") ==> r.organizationId == None
    ensures StrAt(update, "organizationId").Some? ==> r.organizationId == StrAt(update, "organizationId")
    ensures !IsNullAt(update, "organizationId") && StrAt(update, "organizationId").None? ==> r.organizationId == doc.organizationId
  {
    var organizationId :=
      if IsNullAt(update, "organizationId") then None
      else match StrAt(update, "organizationId") case Some(id) => Some(id) case None => doc.organizationId;
    var status := OrElse(StatusAt(update), doc.verificationStatus);
    doc.(organizationName := OrElse(StrAt(update, "organizationName"), doc.organizationName),
         organizationId := organizationId,
         profileSubmissionCount := OrElse(NumAt(update, "profileSubmissionCount"), doc.profileSubmissionCount),
         verificationStatus := status)
  }

  /** The activity paths; an explicit null clears lastLoginDate. */
  function UpdateActivity(doc: Intern, update: map<string, Value>): (r: Intern)
    ensures r == doc.(isActive := OrElse(BoolAt(update, "isActive"), doc.isActive),
                      lastLoginDate := r.lastLoginDate,
                      createdAt := OrElse(DateAt(update, "createdAt"), doc.createdAt),
                      updatedAt := OrElse(DateAt(update, "updatedAt"), doc.updatedAt))
    ensures IsNullAt(update, "lastLoginDate") ==> r.lastLoginDate == None
    ensures DateAt(update, "lastLoginDate").Some? ==> r.lastLoginDate == DateAt(update, "lastLoginDate")
    ensures !IsNullAt(update, "lastLoginDate") && DateAt(update, "lastLoginDate").None? ==> r.lastLoginDate == doc.lastLoginDate
  {
    var lastLogin :=
      if IsNullAt(update, "lastLoginDate") then None
      else match DateAt(update, "lastLoginDate") case Some(d) => Some(d) case None => doc.lastLoginDate;
    doc.(isActive := OrElse(BoolAt(update, "isActive"), doc.isActive),
         lastLoginDate := lastLogin,
         createdAt := OrElse(DateAt(update, "createdAt"), doc.createdAt),
         updatedAt := OrElse(DateAt(update, "updatedAt"), doc.updatedAt))
  }

  /** A stored username is trimmed and a stored email normalised, as the setters leave them. */
  ghost predicate Normalised(doc: Intern)
  {
    Trim(doc.username) == doc.username && NormalizeEmail(doc.email) == doc.email
  }

  /** The setters also run on updates, so an update keeps username and email in stored form. */
  lemma UpdateKeepsNormalised(doc: Intern, update: map<string, Value>)
    requires Normalised(doc)
    ensures Normalised(ApplyUpdate(doc, update))
  {
    var r := ApplyUpdate(doc, update);
    if StrAt(update, "username").Some? {
      TrimIdempotent(StrAt(update, "username").value);
    }
    if StrAt(update, "email").Some? {
      NormalizeEmailIdempotent(StrAt(update, "email").value);
    }
  }

  /** The update sets `key` to an explicit null. */
  predicate IsNullAt(update: map<string, Value>, key: string)
  {
    key in update && update[key].Null?
  }

  /** The verification status an update names, when it names one of the schema's. */
  function StatusAt(update: map<string, Value>): Option<VerificationStatus>
  {
    match StrAt(update, "verificationStatus")
    case Some(name) => ParseVerificationStatus(name)
    case None => None
  }

  function StrAt(update: map<string, Value>, key: string): Option<string>
  {
    if key in update && update[key].Str? then Some(update[key].s) else None
  }

  function NumAt(update: map<string, Value>, key: string): Option<int>
  {
    if key in update && update[key].Num? then Some(update[key].n) else None
  }

  function BoolAt(update: map<string, Value>, key: string): Option<bool>
  {
    if key in update && update[key].Bool? then Some(update[key].b) else None
  }

  function DateAt(update: map<string, Value>, key: string): Option<int>
  {
    if key in update && update[key].Date? then Some(update[key].ms) else None
  }

  /** A pending `updateOne` on the Intern collection. */
  class UpdateOneQuery {
    var update: map<string, Value>

    constructor (update: map<string, Value>)
      ensures this.update == update
    {
      this.update := update;
    }

    /** The hook run before every `updateOne`: it stamps `updatedAt` with `now`. */
    method PreUpdateOne(now: int)
      modifies this
      ensures update == old(update)["updatedAt" := Date(now)]
    {
      update := update["updatedAt" := Date(now)];
    }
  }

  /**
   * Whatever an update sets, once the hook ran `updatedAt` is `now`, and the
   * hook changes no other path: the hooked update stores what the update
   * alone stores everywhere else.
   */
  lemma HookedUpdateStampsTime(doc: Intern, update: map<string, Value>, now: int)
    ensures ApplyUpdate(doc, update["updatedAt" := Date(now)]).updatedAt == now
    ensures ApplyUpdate(doc, update["updatedAt" := Date(now)]) == ApplyUpdate(doc, update).(updatedAt := now)
  {
    var hooked := update["updatedAt" := Date(now)];
    var stamp := Date(now);
    assert |"username"| != |"updatedAt"| && |"email"| != |"updatedAt"| && |"password"| != |"updatedAt"|;
    assert |"role"| != |"updatedAt"| && |"organizationName"| != |"updatedAt"|;
    assert |"organizationId"| != |"updatedAt"| && |"verificationStatus"| != |"updatedAt"|;
    assert |"profileSubmissionCount"| != |"updatedAt"| && |"isActive"| != |"updatedAt"|;
    assert |"lastLoginDate"| != |"updatedAt"| && "createdAt"[0] != "updatedAt"[0];
    OtherKeyKept(update, stamp, "username");
    OtherKeyKept(update, stamp, "email");
    OtherKeyKept(update, stamp, "password");
    OtherKeyKept(update, stamp, "role");
    var account := UpdateAccount(doc, update);
    assert UpdateAccount(doc, hooked) == account;
    OtherKeyKept(update, stamp, "organizationName");
    OtherKeyKept(update, stamp, "organizationId");
    OtherKeyKept(update, stamp, "verificationStatus");
    OtherKeyKept(update, stamp, "profileSubmissionCount");
    var organization := UpdateOrganization(account, update);
    assert UpdateOrganization(account, hooked) == organization;
    OtherKeyKept(update, stamp, "isActive");
    OtherKeyKept(update, stamp, "lastLoginDate");
    OtherKeyKept(update, stamp, "createdAt");
  }

  /** Setting `updatedAt` leaves what an update holds at every other key. */
  lemma OtherKeyKept(update: map<string, Value>, stamp: Value, key: string)
    requires key != "updatedAt"
    ensures StrAt(update["updatedAt" := stamp], key) == StrAt(update, key)
    ensures NumAt(update["updatedAt" := stamp], key) == NumAt(update, key)
    ensures BoolAt(update["updatedAt" := stamp], key) == BoolAt(update, key)
    ensures DateAt(update["updatedAt" := stamp], key) == DateAt(update, key)
    ensures IsNullAt(update["updatedAt" := stamp], key) == IsNullAt(update, key)
  {
  }
}
