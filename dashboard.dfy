/** The dashboard (src/components/Dashboard.tsx): on load it derives which
    onboarding steps are complete from four independent reads, shows the five
    newest alerts, and lets the user start a step (opening the wizard) and
    records the wizard's outcome. */
module Dashboard {
  import opened Wrappers
  import opened Types
  import opened Sequences
  import opened JsString
  import opened Backend
  import opened OnboardingWizard

  /** The `data` of the four reads made on load; `None` where the reply
      carried no data (no row, or an error, which the code does not look at). */
  datatype Snapshots = Snapshots(
    profile: Option<Profile>,
    complianceItems: Option<seq<ComplianceItem>>,
    reports: Option<seq<Report>>,
    teamMembers: Option<seq<TeamMember>>)

  /** The four reads when each of them succeeds. `.single()` on the profiles
      table yields no data when the user has no profile row. */
  function SnapshotsOf(db: Tables): (s: Snapshots)
    ensures s.profile == db.profile
    ensures ProfileStep in CompletedStepsOf(s) <==>
      db.profile.Some? && db.profile.value.companyName.Some? && db.profile.value.companyName.value != ""
    ensures AssessmentStep in CompletedStepsOf(s) <==> db.complianceItems != []
    ensures TemplatesStep in CompletedStepsOf(s) <==> db.reports != []
    ensures TeamStep in CompletedStepsOf(s) <==> db.teamMembers != []
  {
    Snapshots(db.profile, Some(db.complianceItems), Some(db.reports), Some(db.teamMembers))
  }

  /** `profile?.company_name` is truthy. */
  predicate HasCompanyName(profile: Option<Profile>) {
    profile.Some? && profile.value.companyName.Some? && Truthy(profile.value.companyName.value)
  }

  /** `rows?.length > 0`. */
  predicate HasRows<T>(rows: Option<seq<T>>) {
    rows.Some? && |rows.value| > 0
  }

  /** The four step ids are different strings. */
  lemma StepsDistinct()
    ensures NoDuplicates(Steps)
  {
    assert ProfileStep[0] == 'p' && AssessmentStep[0] == 'a' && TemplatesStep[0] == 't' && TeamStep[0] == 't';
    assert TemplatesStep[2] == 'm' && TeamStep[2] == 'a';
  }

  /** The completed steps derived on load. Each step is decided by its own
      read alone: the profile by a non-empty company name (a row without one
      does not count), the others by at least one row. The steps appear in
      the fixed step order, each at most once. */
  function CompletedStepsOf(s: Snapshots): (completed: seq<string>)
    ensures ProfileStep in completed <==>
      s.profile.Some? && s.profile.value.companyName.Some? && s.profile.value.companyName.value != ""
    ensures AssessmentStep in completed <==> s.complianceItems.Some? && s.complianceItems.value != []
    ensures TemplatesStep in completed <==> s.reports.Some? && s.reports.value != []
    ensures TeamStep in completed <==> s.teamMembers.Some? && s.teamMembers.value != []
    ensures NoDuplicates(completed)
    ensures IsSubsequence(completed, Steps)
  {
    var p, a, t, m := HasCompanyName(s.profile), HasRows(s.complianceItems), HasRows(s.reports), HasRows(s.teamMembers);
    var completed := Keep(p, ProfileStep) + Keep(a, AssessmentStep) + Keep(t, TemplatesStep) + Keep(m, TeamStep);
    StepsDistinct();
    FourKeptSteps(p, a, t, m, completed);
    completed
  }

  /** `[x]` when `keep` holds, else nothing: one conditional `push`. */
  function Keep(keep: bool, x: string): seq<string> {
    if keep then [x] else []
  }

  lemma FourKeptSteps(p: bool, a: bool, t: bool, m: bool, completed: seq<string>)
    requires NoDuplicates(Steps)
    requires completed == Keep(p, ProfileStep) + Keep(a, AssessmentStep) + Keep(t, TemplatesStep) + Keep(m, TeamStep)
    ensures IsSubsequence(completed, Steps)
    ensures NoDuplicates(completed)
    ensures (ProfileStep in completed <==> p) && (AssessmentStep in completed <==> a)
    ensures (TemplatesStep in completed <==> t) && (TeamStep in completed <==> m)
  {
    var team := Keep(m, TeamStep);
    var templates := Keep(t, TemplatesStep) + team;
    var assessment := Keep(a, AssessmentStep) + templates;
    assert completed == Keep(p, ProfileStep) + assessment;
    SubsequenceOptionalHead(m, TeamStep, [], []);
    assert team == Keep(m, TeamStep) + [];
    SubsequenceOptionalHead(t, TemplatesStep, team, [TeamStep]);
    SubsequenceOptionalHead(a, AssessmentStep, templates, [TemplatesStep, TeamStep]);
    SubsequenceOptionalHead(p, ProfileStep, assessment, [AssessmentStep, TemplatesStep, TeamStep]);
    assert [ProfileStep] + [AssessmentStep, TemplatesStep, TeamStep] == Steps;
    SubsequenceKeepsNoDuplicates(completed, Steps);
    forall x | x in completed ensures x in Steps {
      SubsequenceElements(completed, Steps, x);
    }
  }

  /** Changing one read does not change whether any other step is complete:
      completion is a union of four independent tests, not a sequential gate. */
  lemma StepIndependence(s: Snapshots, s': Snapshots)
    ensures s.profile == s'.profile ==>
      (ProfileStep in CompletedStepsOf(s) <==> ProfileStep in CompletedStepsOf(s'))
    ensures s.complianceItems == s'.complianceItems ==>
      (AssessmentStep in CompletedStepsOf(s) <==> AssessmentStep in CompletedStepsOf(s'))
    ensures s.reports == s'.reports ==>
      (TemplatesStep in CompletedStepsOf(s) <==> TemplatesStep in CompletedStepsOf(s'))
    ensures s.teamMembers == s'.teamMembers ==>
      (TeamStep in CompletedStepsOf(s) <==> TeamStep in CompletedStepsOf(s'))
  {
  }

  const NotificationLimit: nat := 5

  /** The notification query: the user's alerts, newest first, at most five.
      No alert left out is newer than an alert shown. */
  function RecentAlerts(alerts: seq<Alert>): (recent: seq<Alert>)
    ensures |recent| == if |alerts| < NotificationLimit then |alerts| else NotificationLimit
    ensures forall i, j :: 0 <= i < j < |recent| ==> recent[i].createdAt >= recent[j].createdAt
    ensures multiset(recent) <= multiset(alerts)
    ensures forall a, b :: a in multiset(alerts) - multiset(recent) && b in recent ==> b.createdAt >= a.createdAt
  {
    var sorted := AlertsNewestFirst(alerts);
    assert |sorted| == |alerts| by { assert |multiset(sorted)| == |multiset(alerts)|; }
    var recent := if |sorted| <= NotificationLimit then sorted else sorted[..NotificationLimit];
    assert sorted == recent + sorted[|recent|..];
    RecentAlertsAreNewest(sorted, recent, alerts);
    recent
  }

  lemma RecentAlertsAreNewest(sorted: seq<Alert>, recent: seq<Alert>, alerts: seq<Alert>)
    requires multiset(sorted) == multiset(alerts)
    requires forall i, j :: 0 <= i < j < |sorted| ==> sorted[i].createdAt >= sorted[j].createdAt
    requires |recent| <= |sorted| && sorted == recent + sorted[|recent|..]
    ensures multiset(recent) <= multiset(alerts)
    ensures forall a, b :: a in multiset(alerts) - multiset(recent) && b in recent ==> b.createdAt >= a.createdAt
  {
    var rest := sorted[|recent|..];
    assert multiset(sorted) == multiset(recent) + multiset(rest);
    forall a, b | a in multiset(alerts) - multiset(recent) && b in recent
      ensures b.createdAt >= a.createdAt
    {
      assert a in multiset(rest);
      var k :| 0 <= k < |rest| && rest[k] == a;
      var m :| 0 <= m < |recent| && recent[m] == b;
      assert sorted[m] == b && sorted[|recent| + k] == a;
    }
  }

  /** How the load went: all reads answered (steps, then the alerts' `data`),
      or an exception was thrown, before or after the steps were set. */
  datatype Fetch = Fetched(steps: Snapshots, alerts: Option<seq<Alert>>) | Threw(stepsRead: Option<Snapshots>)

  /** The dashboard component's onboarding state. */
  class DashboardState {
    var completedSteps: seq<string>
    var activeStep: Option<string>
    var isLoading: bool
    var notifications: seq<Alert>

    /** The completed steps never contain a step twice. */
    predicate Valid()
      reads this
    {
      NoDuplicates(completedSteps)
    }

    constructor()
      ensures Valid()
      ensures completedSteps == [] && activeStep == None && isLoading && notifications == []
    {
      completedSteps := [];
      activeStep := None;
      isLoading := true;
      notifications := [];
    }

    /** `fetchCompletedSteps`, run when the signed-in user changes. Without a
        user it returns at once, leaving even `isLoading` as it was. */
    method LoadProgress(user: Option<Id>, fetch: Fetch)
      requires Valid()
      modifies this
      ensures Valid()
      ensures user.None? ==> unchanged(this)
      ensures user.Some? ==> !isLoading && activeStep == old(activeStep)
      ensures user.Some? ==>
        completedSteps == (match fetch
        case Fetched(steps, _) => CompletedStepsOf(steps)
        case Threw(Some(steps)) => CompletedStepsOf(steps)
        case Threw(None) => old(completedSteps))
      ensures user.Some? ==> notifications == (if fetch.Fetched? then fetch.alerts.GetOr([]) else old(notifications))
    {
      if user.None? {
        return;
      }
      isLoading := true;
      match fetch {
        case Fetched(steps, alerts) =>
          completedSteps := CompletedStepsOf(steps);
          notifications := alerts.GetOr([]);
        case Threw(Some(steps)) =>
          completedSteps := CompletedStepsOf(steps);
        case Threw(None) =>
      }
      isLoading := false;
    }

    /** `handleStartStep`: a completed step is not started again; any other
        step becomes the active one. */
    method StartStep(stepId: string)
      requires Valid()
      modifies this
      ensures Valid()
      ensures stepId in old(completedSteps) ==> unchanged(this)
      ensures stepId !in old(completedSteps) ==> activeStep == Some(stepId)
      ensures completedSteps == old(completedSteps) && isLoading == old(isLoading)
      ensures notifications == old(notifications)
    {
      if stepId in completedSteps {
        return;
      }
      activeStep := Some(stepId);
    }

    /** `handleCompleteStep`: a success adds the step unless it is already
        there, keeping the earlier entries in order; a failure adds nothing.
        Either way the wizard closes. */
    method CompleteStep(stepId: string, success: bool)
      requires Valid()
      modifies this
      ensures Valid()
      ensures completedSteps == if success && stepId !in old(completedSteps)
                                then old(completedSteps) + [stepId] else old(completedSteps)
      ensures activeStep == None
      ensures isLoading == old(isLoading) && notifications == old(notifications)
    {
      if success && stepId !in completedSteps {
        assert NoDuplicates(completedSteps + [stepId]) by {
          var s := completedSteps + [stepId];
          forall i, j | 0 <= i < j < |s| ensures s[i] != s[j] {
            if j == |completedSteps| {
              assert s[i] == completedSteps[i];
            } else {
              assert s[i] == completedSteps[i] && s[j] == completedSteps[j];
            }
          }
        }
        completedSteps := completedSteps + [stepId];
      }
      activeStep := None;
    }

    /** The button of a step: disabled and labelled "Completed" iff the step
        is complete, otherwise "Start". */
    method StartButton(stepId: string) returns (disabled: bool, caption: string)
      ensures disabled <==> stepId in completedSteps
      ensures caption == (if stepId in completedSteps then "Completed" else "Start")
    {
      disabled := stepId in completedSteps;
      caption := if disabled then "Completed" else "Start";
    }

    /** The dot on the bell shows iff there is a notification. */
    method ShowsIndicator() returns (shown: bool)
      ensures shown <==> notifications != []
    {
      shown := |notifications| > 0;
    }

    /** The step whose wizard the modal shows: the active step, provided it is
        one of the four known steps. */
    method OpenWizard() returns (step: Option<string>)
      ensures step.Some? <==> activeStep.Some? && activeStep.value in Steps
      ensures step.Some? ==> step == activeStep
    {
      step := if activeStep.Some? && activeStep.value in Steps then activeStep else None;
    }
  }

  /** The replies of a load in which every read succeeds on the user's tables. */
  function FetchOf(db: Tables): (fetch: Fetch)
    ensures fetch.Fetched? && fetch.steps == SnapshotsOf(db) && fetch.alerts.Some?
    ensures |fetch.alerts.value| <= NotificationLimit
    ensures multiset(fetch.alerts.value) <= multiset(db.alerts)
  {
    Fetched(SnapshotsOf(db), Some(RecentAlerts(db.alerts)))
  }

  /** A load from the user's tables: the steps are derived from the tables,
      and the notifications are at most five alerts, newest first, none of
      them older than an alert left out. */
  method LoadFromTables(dash: DashboardState, userId: Id, db: Tables)
    requires dash.Valid()
    modifies dash
    ensures dash.Valid() && !dash.isLoading
    ensures dash.completedSteps == CompletedStepsOf(SnapshotsOf(db))
    ensures dash.notifications == RecentAlerts(db.alerts) && dash.activeStep == old(dash.activeStep)
    ensures |dash.notifications| <= NotificationLimit
    ensures forall i, j :: 0 <= i < j < |dash.notifications| ==>
      dash.notifications[i].createdAt >= dash.notifications[j].createdAt
    ensures forall a, b :: a in multiset(db.alerts) - multiset(dash.notifications) && b in dash.notifications ==>
      b.createdAt >= a.createdAt
  {
    dash.LoadProgress(Some(userId), FetchOf(db));
  }

  /** The wizard opened for the active step reports back through
      `onComplete`, which records the outcome for that step. Without a user
      nothing is reported and the dashboard is left alone. */
  method RunWizard(dash: DashboardState, wizard: Wizard, user: Option<Id>, now: Timestamp,
                   db: Tables, failure: Option<string>)
    returns (db': Tables)
    requires dash.Valid() && dash.activeStep == Some(wizard.stepId) && wizard.stepId in Steps
    modifies dash, wizard
    ensures dash.Valid()
    ensures user.None? ==>
      db' == db && dash.completedSteps == old(dash.completedSteps) && dash.activeStep == old(dash.activeStep)
      && wizard.error == Some(NoUserMessage)
    ensures user.Some? && failure.Some? ==>
      db' == db && dash.completedSteps == old(dash.completedSteps) && dash.activeStep == None
      && wizard.error == Some(SaveErrorMessage(failure.value))
    ensures user.Some? && failure.None? ==>
      db' == Perform(db, SubmissionFor(wizard.stepId, wizard.draft, user.value, now).value, now)
      && wizard.stepId in dash.completedSteps && dash.activeStep == None
    ensures user.Some? && failure.None? ==>
      dash.completedSteps == if wizard.stepId in old(dash.completedSteps) then old(dash.completedSteps)
                             else old(dash.completedSteps) + [wizard.stepId]
    ensures dash.notifications == old(dash.notifications) && dash.isLoading == old(dash.isLoading)
    ensures wizard.draft == old(wizard.draft)
  {
    var completion;
    db', completion := wizard.Submit(user, now, db, failure);
    if completion.Some? {
      dash.CompleteStep(wizard.stepId, completion.value);
    }
  }

  /** After a submission by a signed-in user the modal shows no wizard,
      whatever the outcome: a failed write closes the wizard too, so the
      error it set is never on screen and the draft is gone. */
  method SubmitThenRender(dash: DashboardState, wizard: Wizard, user: Option<Id>, now: Timestamp,
                          db: Tables, failure: Option<string>)
    returns (db': Tables, shown: Option<string>)
    requires dash.Valid() && dash.activeStep == Some(wizard.stepId) && wizard.stepId in Steps
    modifies dash, wizard
    ensures user.Some? ==> shown == None
    ensures user.Some? && failure.Some? ==> wizard.error == Some(SaveErrorMessage(failure.value))
    ensures user.None? ==> shown == Some(wizard.stepId) && wizard.error == Some(NoUserMessage)
  {
    db' := RunWizard(dash, wizard, user, now, db, failure);
    shown := dash.OpenWizard();
  }

  /** A successful write of a valid assessment, templates or team draft
      leaves rows that mark the step complete on the next load. */
  lemma SubmittedStepCompleteOnReload(stepId: string, d: Draft, userId: Id, now: Timestamp, db: Tables)
    requires stepId == AssessmentStep || stepId == TemplatesStep || stepId == TeamStep
    requires ValidateForm(stepId, d)
    ensures stepId in CompletedStepsOf(SnapshotsOf(Perform(db, SubmissionFor(stepId, d, userId, now).value, now)))
  {
    var db' := Perform(db, SubmissionFor(stepId, d, userId, now).value, now);
    if stepId == AssessmentStep {
      assert db' == AddComplianceItems(db, AssessmentItems(d.complianceNeeds, now + DueInMs));
    } else if stepId == TemplatesStep {
      assert db' == AddReports(db, TemplateReports(d.templates, now), now);
    } else {
      assert db' == AddTeamMembers(db, TeamMemberRows(d.teamMembers, now));
    }
  }

  /** After a successful profile write, the next load counts the profile
      step complete iff the company name typed was not whitespace only: the
      stored name is the trimmed one. */
  lemma ProfileCompleteOnReloadIff(d: Draft, userId: Id, now: Timestamp, db: Tables)
    ensures ProfileStep in CompletedStepsOf(SnapshotsOf(Perform(db, SubmissionFor(ProfileStep, d, userId, now).value, now)))
      <==> !AllWhitespace(d.companyName)
  {
    TrimEmptyIff(d.companyName);
  }

  /** A company name of spaces: the form accepts it and the dashboard
      records the step as complete, yet the next load finds it incomplete. */
  lemma WhitespaceProfileLostOnReload(userId: Id, now: Timestamp, db: Tables)
    ensures var d := EmptyDraft.(companyName := "  ", industry := "technology", region := "europe", size := "1-10");
      ValidateForm(ProfileStep, d) &&
      ProfileStep !in CompletedStepsOf(SnapshotsOf(Perform(db, SubmissionFor(ProfileStep, d, userId, now).value, now)))
  {
    var d := EmptyDraft.(companyName := "  ", industry := "technology", region := "europe", size := "1-10");
    WhitespaceCompanyNameStoredEmpty(userId, now);
    ProfileCompleteOnReloadIff(d, userId, now, db);
  }

  /** The templates step and report generation share the reports table, so
      generating any report marks the templates step complete on the next
      load. */
  lemma GeneratedReportCompletesTemplates(db: Tables, title: string, now: Timestamp)
    ensures TemplatesStep in CompletedStepsOf(SnapshotsOf(InsertReport(db, NewReport(title, ReportStatus.Pending, None), now).0))
  {
  }
}
