/** The onboarding wizard (src/components/OnboardingWizard.tsx): one form per
    onboarding step, a validator per step, the mapping from the draft to the
    rows written on submit, and the submit flow that reports success or
    failure to the dashboard through `onComplete`. */
module OnboardingWizard {
  import opened Wrappers
  import opened Types
  import opened Sequences
  import opened JsString
  import opened Backend

  /** The four step identifiers. The wizard receives its step as a plain
      string, so any other string can reach it too. */
  const ProfileStep: string := "profile"
  const AssessmentStep: string := "assessment"
  const TemplatesStep: string := "templates"
  const TeamStep: string := "team"
  const Steps: seq<string> := [ProfileStep, AssessmentStep, TemplatesStep, TeamStep]

  /** The options the forms offer. */
  const Regulations: seq<string> := ["GDPR", "CCPA", "HIPAA", "SOX", "ISO 27001"]
  const TemplateNames: seq<string> := ["Privacy Policy", "Data Processing Agreement", "Cookie Policy",
                                       "Terms of Service", "Data Breach Response Plan", "Security Policy"]
  const NewMemberRole: string := "member"

  /** Assessment items fall due thirty days after submission. */
  const DueInMs: int := 30 * 24 * 60 * 60 * 1000

  const NoUserMessage: string := "No authenticated user found"
  const DefaultSaveMessage: string := "Failed to save data. Please try again."

  datatype MemberDraft = MemberDraft(email: string, role: string)

  /** The form state shared by all four steps (`formData`). */
  datatype Draft = Draft(
    companyName: string,
    industry: string,
    region: string,
    size: string,
    complianceNeeds: seq<string>,
    teamMembers: seq<MemberDraft>,
    templates: seq<string>)

  const EmptyDraft: Draft := Draft("", "", "", "", [], [], [])

  datatype ProfileField = CompanyName | Industry | Region | Size

  /** `validateForm`. The strings are tested as typed, before trimming. */
  function ValidateForm(stepId: string, d: Draft): (valid: bool)
    ensures stepId == ProfileStep ==>
      (valid <==> d.companyName != "" && d.industry != "" && d.region != "" && d.size != "")
    ensures stepId == AssessmentStep ==> (valid <==> d.complianceNeeds != [])
    ensures stepId == TemplatesStep ==> (valid <==> d.templates != [])
    ensures stepId == TeamStep ==>
      (valid <==> d.teamMembers != [] && forall m :: m in d.teamMembers ==> '@' in m.email)
    ensures stepId !in Steps ==> !valid
  {
    if stepId == ProfileStep then
      Truthy(d.companyName) && Truthy(d.industry) && Truthy(d.region) && Truthy(d.size)
    else if stepId == AssessmentStep then |d.complianceNeeds| > 0
    else if stepId == TemplatesStep then |d.templates| > 0
    else if stepId == TeamStep then
      |d.teamMembers| > 0 &&
      forall i :: 0 <= i < |d.teamMembers| ==> Truthy(d.teamMembers[i].email) && '@' in d.teamMembers[i].email
    else false
  }

  /** The profile row upserted by the profile step: the four fields trimmed,
      under the user's id. */
  function ProfileRowFor(userId: Id, d: Draft, now: Timestamp): (row: Profile)
    ensures row.id == userId && row.updatedAt == now
    ensures row.companyName == Some(Trim(d.companyName)) && row.industry == Some(Trim(d.industry))
    ensures row.region == Some(Trim(d.region)) && row.size == Some(Trim(d.size))
  {
    Profile(userId, Some(Trim(d.companyName)), Some(Trim(d.industry)), Some(Trim(d.region)), Some(Trim(d.size)), now)
  }

  /** The compliance items inserted by the assessment step: one per selected
      regulation, in selection order. */
  function AssessmentItems(needs: seq<string>, dueDate: Timestamp): (items: seq<NewComplianceItem>)
    ensures |items| == |needs|
    ensures forall i :: 0 <= i < |needs| ==>
      && items[i].title == needs[i] + " Compliance"
      && items[i].description == "Initial compliance setup for " + needs[i]
      && items[i].status == ComplianceStatus.Pending
      && items[i].category == needs[i]
      && items[i].dueDate == dueDate
  {
    seq(|needs|, i requires 0 <= i < |needs| =>
      NewComplianceItem(needs[i] + " Compliance", "Initial compliance setup for " + needs[i],
                        ComplianceStatus.Pending, dueDate, needs[i]))
  }

  /** The reports inserted by the templates step: one pending report per
      selected template, in selection order. */
  function TemplateReports(templates: seq<string>, now: Timestamp): (reports: seq<NewReport>)
    ensures |reports| == |templates|
    ensures forall i :: 0 <= i < |templates| ==>
      reports[i] == NewReport(templates[i] + " Template", ReportStatus.Pending, Some(now))
  {
    seq(|templates|, i requires 0 <= i < |templates| =>
      NewReport(templates[i] + " Template", ReportStatus.Pending, Some(now)))
  }

  /** The team members inserted by the team step: one per draft member, in
      order, the email trimmed and the role copied. */
  function TeamMemberRows(members: seq<MemberDraft>, now: Timestamp): (rows: seq<NewTeamMember>)
    ensures |rows| == |members|
    ensures forall i :: 0 <= i < |members| ==>
      rows[i].email == Trim(members[i].email) && rows[i].role == members[i].role && rows[i].createdAt == now
  {
    seq(|members|, i requires 0 <= i < |members| =>
      NewTeamMember(Trim(members[i].email), members[i].role, now))
  }

  /** The single write `handleSubmit` issues for a step, or none for a step id
      the switch does not know. */
  function SubmissionFor(stepId: string, d: Draft, userId: Id, now: Timestamp): (req: Option<Request>)
    ensures req.Some? <==> stepId in Steps
    ensures stepId == ProfileStep ==> req == Some(UpsertProfile(ProfileRowFor(userId, d, now)))
    ensures stepId == AssessmentStep ==>
      req == Some(InsertComplianceItems(AssessmentItems(d.complianceNeeds, now + DueInMs)))
    ensures stepId == TemplatesStep ==> req == Some(InsertReports(TemplateReports(d.templates, now)))
    ensures stepId == TeamStep ==> req == Some(InsertTeamMembers(TeamMemberRows(d.teamMembers, now)))
  {
    if stepId == ProfileStep then Some(UpsertProfile(ProfileRowFor(userId, d, now)))
    else if stepId == AssessmentStep then Some(InsertComplianceItems(AssessmentItems(d.complianceNeeds, now + DueInMs)))
    else if stepId == TemplatesStep then Some(InsertReports(TemplateReports(d.templates, now)))
    else if stepId == TeamStep then Some(InsertTeamMembers(TeamMemberRows(d.teamMembers, now)))
    else None
  }

  /** The message shown for a failed write: `err.message || default`. */
  function SaveErrorMessage(message: string): (shown: string)
    ensures shown != ""
    ensures message != "" ==> shown == message
  {
    if Truthy(message) then message else DefaultSaveMessage
  }

  /** A checkbox change: a checked option is appended to the selection, an
      unchecked one is removed wherever it occurs, keeping the other entries
      and their order. */
  function Toggle(selection: seq<string>, option: string, checked: bool): (r: seq<string>)
    ensures checked ==> r == selection + [option]
    ensures !checked ==> option !in r && IsSubsequence(r, selection)
    ensures !checked ==> forall y :: y != option ==> multiset(r)[y] == multiset(selection)[y]
  {
    if checked then selection + [option] else Without(selection, option)
  }

  /** A click on a checkbox: the box shows whether the option is selected
      (`includes`), so the change arrives checked exactly when it was not. */
  function Click(selection: seq<string>, option: string): (r: seq<string>)
    ensures option in r <==> option !in selection
  {
    Toggle(selection, option, option !in selection)
  }

  /** Clicking keeps a duplicate-free selection duplicate-free. */
  lemma ClickKeepsNoDuplicates(selection: seq<string>, option: string)
    requires NoDuplicates(selection)
    ensures NoDuplicates(Click(selection, option))
  {
    if option in selection {
      WithoutKeepsNoDuplicates(selection, option);
    } else {
      var r := selection + [option];
      forall i, j | 0 <= i < j < |r| ensures r[i] != r[j] {
        if j == |selection| {
          assert r[i] == selection[i];
        } else {
          assert r[i] == selection[i] && r[j] == selection[j];
        }
      }
    }
  }

  /** The boxes offer only the listed options, so clicking them keeps a
      selection within the list: the selected regulations stay among the
      five regulations, the selected templates among the six templates. */
  lemma ClickKeepsWithinOffered(selection: seq<string>, option: string, offered: seq<string>)
    requires forall x :: x in selection ==> x in offered
    requires option in offered
    ensures forall x :: x in Click(selection, option) ==> x in offered
  {
    if option in selection {
      forall x | x in Click(selection, option) ensures x in offered {
        SubsequenceElements(Click(selection, option), selection, x);
      }
    }
  }

  /** In the assessment and templates forms: a draft whose selections are
      offered options keeps them so after a click on an offered box. */
  lemma DraftClicksStayOffered(d: Draft, regulation: string, template: string)
    requires forall x :: x in d.complianceNeeds ==> x in Regulations
    requires forall x :: x in d.templates ==> x in TemplateNames
    requires regulation in Regulations && template in TemplateNames
    ensures forall x :: x in Click(d.complianceNeeds, regulation) ==> x in Regulations
    ensures forall x :: x in Click(d.templates, template) ==> x in TemplateNames
  {
    ClickKeepsWithinOffered(d.complianceNeeds, regulation, Regulations);
    ClickKeepsWithinOffered(d.templates, template, TemplateNames);
  }

  /** Clicking an unselected option twice leaves the selection as it was. */
  lemma ClickTwiceRestores(selection: seq<string>, option: string)
    requires option !in selection
    ensures Click(Click(selection, option), option) == selection
  {
    WithoutAppended(selection, option);
    WithoutAbsent(selection, option);
  }

  /** The list without its element at `index`, as
      `filter((_, i) => i !== index)` computes it; an index outside the list
      removes nothing. */
  function RemoveAt<T>(s: seq<T>, index: nat): (r: seq<T>)
    ensures index < |s| ==> |r| == |s| - 1
    ensures index >= |s| ==> r == s
    ensures forall k :: 0 <= k < index && k < |s| ==> r[k] == s[k]
    ensures forall k :: index <= k < |r| ==> r[k] == s[k + 1]
  {
    if index < |s| then s[..index] + s[index + 1..] else s
  }

  /** A team draft that passes validation stores only emails containing '@':
      trimming removes whitespace, never the '@'. */
  lemma ValidTeamStoresEmailsWithAt(d: Draft, now: Timestamp)
    requires ValidateForm(TeamStep, d)
    ensures forall i :: 0 <= i < |d.teamMembers| ==>
      '@' in TeamMemberRows(d.teamMembers, now)[i].email
  {
    forall i | 0 <= i < |d.teamMembers|
      ensures '@' in TeamMemberRows(d.teamMembers, now)[i].email
    {
      var email := d.teamMembers[i].email;
      assert d.teamMembers[i] in d.teamMembers;
      var k :| 0 <= k < |email| && email[k] == '@';
      TrimKeeps(email, k);
    }
  }

  /** Validation looks at the untrimmed company name while the upsert stores
      the trimmed one: a name of spaces passes and is stored empty. */
  lemma WhitespaceCompanyNameStoredEmpty(userId: Id, now: Timestamp)
    ensures var d := EmptyDraft.(companyName := "  ", industry := "technology", region := "europe", size := "1-10");
      ValidateForm(ProfileStep, d) && ProfileRowFor(userId, d, now).companyName == Some("")
  {
    var d := EmptyDraft.(companyName := "  ", industry := "technology", region := "europe", size := "1-10");
    assert AllWhitespace(d.companyName);
    TrimEmptyIff(d.companyName);
  }

  /** The wizard component's state for one step. */
  class Wizard {
    const stepId: string
    var draft: Draft
    var loading: bool
    var error: Option<string>

    constructor(stepId: string)
      ensures this.stepId == stepId && draft == EmptyDraft && !loading && error == None
    {
      this.stepId := stepId;
      draft := EmptyDraft;
      loading := false;
      error := None;
    }

    /** Typing into, or choosing in, one of the profile inputs. */
    method SetProfileField(field: ProfileField, value: string)
      modifies this
      ensures field == CompanyName ==> draft == old(draft).(companyName := value)
      ensures field == Industry ==> draft == old(draft).(industry := value)
      ensures field == Region ==> draft == old(draft).(region := value)
      ensures field == Size ==> draft == old(draft).(size := value)
      ensures loading == old(loading) && error == old(error)
    {
      match field
      case CompanyName => draft := draft.(companyName := value);
      case Industry => draft := draft.(industry := value);
      case Region => draft := draft.(region := value);
      case Size => draft := draft.(size := value);
    }

    /** A change of a regulation checkbox in the assessment form. */
    method ToggleRegulation(regulation: string, checked: bool)
      modifies this
      ensures draft == old(draft).(complianceNeeds := Toggle(old(draft.complianceNeeds), regulation, checked))
      ensures loading == old(loading) && error == old(error)
    {
      draft := draft.(complianceNeeds := Toggle(draft.complianceNeeds, regulation, checked));
    }

    /** A change of a template checkbox in the templates form. */
    method ToggleTemplate(template: string, checked: bool)
      modifies this
      ensures draft == old(draft).(templates := Toggle(old(draft.templates), template, checked))
      ensures loading == old(loading) && error == old(error)
    {
      draft := draft.(templates := Toggle(draft.templates, template, checked));
    }

    /** "+ Add Team Member": appends a member with an empty email and the
        role "member". */
    method AddMember()
      modifies this
      ensures draft == old(draft).(teamMembers := old(draft.teamMembers) + [MemberDraft("", NewMemberRole)])
      ensures loading == old(loading) && error == old(error)
    {
      draft := draft.(teamMembers := draft.teamMembers + [MemberDraft("", NewMemberRole)]);
    }

    /** Editing the email of the member shown at `index`. */
    method SetMemberEmail(index: nat, email: string)
      requires index < |draft.teamMembers|
      modifies this
      ensures draft == old(draft).(teamMembers := old(draft.teamMembers)[index := old(draft.teamMembers[index]).(email := email)])
      ensures loading == old(loading) && error == old(error)
    {
      var members := draft.teamMembers;
      draft := draft.(teamMembers := members[index := members[index].(email := email)]);
    }

    /** Choosing the role of the member shown at `index`. */
    method SetMemberRole(index: nat, role: string)
      requires index < |draft.teamMembers|
      modifies this
      ensures draft == old(draft).(teamMembers := old(draft.teamMembers)[index := old(draft.teamMembers[index]).(role := role)])
      ensures loading == old(loading) && error == old(error)
    {
      var members := draft.teamMembers;
      draft := draft.(teamMembers := members[index := members[index].(role := role)]);
    }

    /** The remove button of the member shown at `index`. */
    method RemoveMember(index: nat)
      modifies this
      ensures draft == old(draft).(teamMembers := RemoveAt(old(draft.teamMembers), index))
      ensures loading == old(loading) && error == old(error)
    {
      draft := draft.(teamMembers := RemoveAt(draft.teamMembers, index));
    }

    /** The "Complete" button is enabled iff nothing is being saved and the
        draft passes validation. */
    method CanSubmit() returns (enabled: bool)
      ensures enabled <==> !loading && ValidateForm(stepId, draft)
    {
      enabled := !loading && ValidateForm(stepId, draft);
    }

    /** `handleSubmit`. `user` is the signed-in user, `db` that user's tables
        and `failure` the error the backend answers the write with, if any.
        Returns the tables afterwards and the argument of the `onComplete`
        call, `None` when it is not called. The draft is never changed. */
    method Submit(user: Option<Id>, now: Timestamp, db: Tables, failure: Option<string>)
      returns (db': Tables, completion: Option<bool>)
      modifies this
      ensures draft == old(draft)
      ensures user.None? ==>
        error == Some(NoUserMessage) && loading == old(loading) && db' == db && completion == None
      ensures user.Some? ==> !loading
      ensures user.Some? ==> var req := SubmissionFor(stepId, draft, user.value, now);
        if req.Some? && failure.Some? then
          completion == Some(false) && error == Some(SaveErrorMessage(failure.value)) && db' == db
        else
          completion == Some(true) && error == None &&
          db' == (if req.Some? then Perform(db, req.value, now) else db)
    {
      if user.None? {
        error := Some(NoUserMessage);
        return db, None;
      }
      error := None;
      loading := true;
      var req := SubmissionFor(stepId, draft, user.value, now);
      if req.Some? && failure.Some? {
        error := Some(SaveErrorMessage(failure.value));
        db', completion := db, Some(false);
      } else {
        db' := if req.Some? then Perform(db, req.value, now) else db;
        completion := Some(true);
      }
      loading := false;
    }
  }
}
