# Compliance dashboard: onboarding, local caches and theme, in Dafny

The modelled code is the client-side logic of a compliance dashboard, a React application backed by a hosted database. Six parts are modelled:

- **The dashboard** (`Dashboard`).
  - On load it derives which of the four onboarding steps (`profile`, `assessment`, `templates`, `team`) are complete. The input is four independent reads of the signed-in user's tables.
  - It shows the five newest alerts as notifications.
  - It opens the onboarding wizard for a step that is not complete, and records the wizard's outcome.
- **The onboarding wizard** (`OnboardingWizard`).
  - One form per step, each with its validator.
  - Draft editing: checkboxes, and adding, editing and removing team members.
  - The mapping from the draft to the single write each step issues.
  - The submit flow, which reports success or failure to the dashboard.
- **The data hooks** (`UseAlerts`, `UseCompliance`, `UseReports`). Each keeps a local copy of a table.
  - A fetch replaces the copy; a failed fetch keeps it.
  - Updates change only the rows with the matching id and keep order and length.
  - A failed write leaves the copy alone and is rethrown.
  - Report generation has two phases: insert a pending report, then, when its timer fires, mark it generated and refetch.
- **The theme toggle** (`Theme`): a flag kept in sync with the `dark` class on the page and the persisted theme.
- **The application shell** (`App`): the theme applied at startup and the guard in front of the dashboard route.

Shared modules support these:

- `Types`: the stored records.
- `Backend`: the user's tables, and the effect that an accepted write has on them.
- `JsString`: JavaScript's `String.prototype.trim` and truthiness of strings.
- `Sequences`: subsequences, removal of every occurrence, and a stable insertion sort standing in for `order by`.
- `Wrappers`: `Option` and `Result`.

Modelling conventions:

- **Backend.** The hosted backend is a value of type `Tables`: the signed-in user's rows, one list per table. Row-level access control scopes every query to the user.
  - Reads take their reply as a parameter: data, possibly null, or an error. Each hook also has a fetch from the tables (`FetchAlertsFrom`, `FetchComplianceItemsFrom`, `FetchReportsFrom`), which gives the reply of the ordered query on them.
  - The wizard's submit and the report hook's generate and timer take the tables plus the error the backend answers with, if any, and return the tables afterwards. Whether the backend accepts a write is decided outside the model.
  - The alert hook's mark-as-read takes only that error, and the compliance hook's add and update take the backend's reply (the stored row or an error). These three change the local list only; their effect on the tables is not modelled.
- **Ids.** The backend's id generator is a counter `nextId`. `Backend.Valid` states that every id of a compliance item, report or team member is below it, and every write preserves this. Alert ids come from outside the modelled code, and the profile's id is the user's id.
- **Time.** Timestamps are integers (milliseconds). The current time is a parameter.
- **Timers.** The 3-second completion timer of `generateReport` is an explicit step, `UseReports.ReportsHook.FireTimer`. Every timer has the same delay, so pending completions fire in the order they were started. The hook keeps them in a queue, `scheduled`.
- **Transitions.** Component state that the code updates in place is a class with `modifies` clauses: the dashboard's steps, the wizard's draft, the hooks' lists, the page's class and storage. Pure decisions are functions: the derivation, validation, row mappings and list transforms.

Places where the code disagrees with itself are modelled as written, and the consequence is stated as a lemma:

- **Category.** `ComplianceItem.category` is declared as GDPR, CCPA, ISO or Other, but onboarding stores any regulation name there, so the model keeps it a string.
- **Read flag.** `Alert` has no read flag in its declared type, yet `markAlertAsRead` sets `is_read`, so the row carries one.
- **Trimming.**
  - Validation tests the strings as typed, while submission stores them trimmed. A company name of spaces therefore passes validation and is stored empty.
  - The dashboard then records the profile step complete, but finds it incomplete on the next load: `Dashboard.WhitespaceProfileLostOnReload` and `Dashboard.ProfileCompleteOnReloadIff`.
- **Shared reports table.** The templates step and `generateReport` both use the `reports` table. So generating any report completes the templates step on the next load: `Dashboard.GeneratedReportCompletesTemplates`.

Where the code differs from its design description, the model follows the code:

- **Validation.** Validation only disables the submit button (`Wizard.CanSubmit`). `handleSubmit` does not re-check the draft, so `Wizard.Submit` does not either.
- **Stored theme.** The persisted theme is a string, not a boolean. At startup, a stored value other than `"dark"` counts as light.
- **Failed writes.** The design promises that a failed write shows its message and keeps the draft for a retry. In the code the wizard's `onComplete(false)` makes the dashboard clear the active step, which unmounts the wizard. The error it set is never on screen, and the draft is discarded: `Dashboard.SubmitThenRender`.
- **Profile timestamp.** The profile's `updated_at` is the client's clock, not a server timestamp.

## Model

| member | source | states |
|---|---|---|
| Backend.AddComplianceItems | src/components/OnboardingWizard.tsx:51-62 | inserting compliance items appends one row per item, in order, with fresh ids; earlier rows and the other tables are unchanged; the id invariant is kept |
| Backend.ReportRow | src/hooks/useReports.ts:31-38 | a stored report has the title and status sent, no download url, and the backend clock as creation time when none is sent |
| Backend.AddReports | src/components/OnboardingWizard.tsx:67-76 | inserting reports appends one row per report, in order, with fresh ids; nothing else changes; the id invariant is kept |
| Backend.AddTeamMembers | src/components/OnboardingWizard.tsx:81-90 | inserting team members appends one row per member, in order, with fresh ids, email, role and time as sent; the id invariant is kept |
| Backend.Perform | src/components/OnboardingWizard.tsx:35-93 | an accepted profile upsert replaces the user's single profile row; every accepted write keeps the id invariant |
| Backend.InsertReport | src/hooks/useReports.ts:31-38 | `insert(...).select().single()`: the new row is appended to the reports and returned, with the next fresh id |
| Backend.MarkGenerated | src/hooks/useReports.ts:44-51 | every report with the id becomes generated with download url "#"; all other rows, the order and the length are unchanged |
| Backend.CompleteReport | src/hooks/useReports.ts:44-51 | the completion update changes only the reports table, as MarkGenerated; the id invariant is kept |
| Backend.AlertsNewestFirst | src/hooks/useAlerts.ts:15-18 | ordering by creation time descending returns the same alerts (as a multiset), newest first |
| Backend.ReportsNewestFirst | src/hooks/useReports.ts:15-18 | ordering by creation time descending returns the same reports (as a multiset), newest first |
| Backend.ItemsByDueDate | src/hooks/useCompliance.ts:15-18 | ordering by due date ascending returns the same items (as a multiset), earliest due first |
| JsString.Trim | src/components/OnboardingWizard.tsx:41-44 | the result is a slice of the input with only whitespace cut off before and after, and neither starts nor ends with whitespace |
| JsString.TrimEmptyIff | src/components/OnboardingWizard.tsx:41 | a trimmed string is empty iff the input is all whitespace |
| JsString.TrimKeeps | src/components/OnboardingWizard.tsx:86 | every non-whitespace character of the input survives trimming |
| OnboardingWizard.ValidateForm | src/components/OnboardingWizard.tsx:105-119 | profile: valid iff all four fields are non-empty; assessment and templates: iff something is selected; team: iff there is a member and every email contains '@'; any other step id is invalid |
| OnboardingWizard.ProfileRowFor | src/components/OnboardingWizard.tsx:39-46 | the upserted profile has the user's id, the four fields trimmed and the current time |
| OnboardingWizard.AssessmentItems | src/components/OnboardingWizard.tsx:54-61 | one pending item per selected regulation, in selection order, titled "<need> Compliance", described "Initial compliance setup for <need>", with the regulation as category and the given due date |
| OnboardingWizard.TemplateReports | src/components/OnboardingWizard.tsx:70-75 | one pending report per selected template, in order, titled "<template> Template", created now |
| OnboardingWizard.TeamMemberRows | src/components/OnboardingWizard.tsx:84-89 | one row per draft member, in order, with the email trimmed, the role copied and the current time |
| OnboardingWizard.SubmissionFor | src/components/OnboardingWizard.tsx:35-93 | a write is issued exactly for the four known steps: the profile upsert, or the items, reports or members above, assessment items falling due thirty days later |
| OnboardingWizard.SaveErrorMessage | src/components/OnboardingWizard.tsx:98 | the message shown is the error's message when it has one, else a non-empty default |
| OnboardingWizard.Toggle | src/components/OnboardingWizard.tsx:193-196 | checking appends the option; unchecking removes every occurrence and keeps the other entries, their order and their counts |
| OnboardingWizard.Click | src/components/OnboardingWizard.tsx:191-196 | a click on a box that shows the option's membership leaves the option selected iff it was not before |
| OnboardingWizard.ClickKeepsNoDuplicates | src/components/OnboardingWizard.tsx:191-196 | clicks keep a duplicate-free selection duplicate-free |
| OnboardingWizard.ClickKeepsWithinOffered | src/components/OnboardingWizard.tsx:187-196 | clicking an offered option keeps a selection of offered options within them |
| OnboardingWizard.DraftClicksStayOffered | src/components/OnboardingWizard.tsx:187-226 | selected regulations stay among the five regulations and selected templates among the six templates |
| OnboardingWizard.ClickTwiceRestores | src/components/OnboardingWizard.tsx:191-196 | clicking an unselected option twice restores the selection exactly |
| OnboardingWizard.RemoveAt | src/components/OnboardingWizard.tsx:268 | removing at an index deletes exactly that element and keeps the others in order; an index past the end removes nothing |
| OnboardingWizard.ValidTeamStoresEmailsWithAt | src/components/OnboardingWizard.tsx:113-115 | a team draft that passes validation stores only emails that contain '@', even after trimming |
| OnboardingWizard.WhitespaceCompanyNameStoredEmpty | src/components/OnboardingWizard.tsx:39-46 | a company name of spaces passes validation and is stored as the empty string |
| OnboardingWizard.Wizard.constructor | src/components/OnboardingWizard.tsx:13-23 | the wizard starts with an empty draft, not loading, without error |
| OnboardingWizard.Wizard.SetProfileField | src/components/OnboardingWizard.tsx:128-169 | editing a profile input changes that field of the draft only |
| OnboardingWizard.Wizard.ToggleRegulation | src/components/OnboardingWizard.tsx:192-196 | a regulation checkbox change applies Toggle to the selected regulations only |
| OnboardingWizard.Wizard.ToggleTemplate | src/components/OnboardingWizard.tsx:222-226 | a template checkbox change applies Toggle to the selected templates only |
| OnboardingWizard.Wizard.AddMember | src/components/OnboardingWizard.tsx:278-282 | adding a member appends one with an empty email and the role "member" |
| OnboardingWizard.Wizard.SetMemberEmail | src/components/OnboardingWizard.tsx:245-248 | editing an email changes that member's email only |
| OnboardingWizard.Wizard.SetMemberRole | src/components/OnboardingWizard.tsx:255-258 | choosing a role changes that member's role only |
| OnboardingWizard.Wizard.RemoveMember | src/components/OnboardingWizard.tsx:267-269 | the remove button applies RemoveAt to the members |
| OnboardingWizard.Wizard.CanSubmit | src/components/OnboardingWizard.tsx:328 | the submit button is enabled iff nothing is being saved and the draft is valid |
| OnboardingWizard.Wizard.Submit | src/components/OnboardingWizard.tsx:25-103 | no user: error set, no write, no callback; a failed write: the error is set to its message, the tables are unchanged, the callback gets false; otherwise the write is performed and the callback gets true; loading ends and the draft is untouched |
| Dashboard.StepsDistinct | src/components/Dashboard.tsx:81-106 | the four step ids are different |
| Dashboard.CompletedStepsOf | src/components/Dashboard.tsx:54-58 | profile is complete iff a profile row has a non-empty company name; the others iff their read returned at least one row; no step twice; in the fixed step order |
| Dashboard.FourKeptSteps | src/components/Dashboard.tsx:54-58 | four conditional pushes in step order give a duplicate-free subsequence of the steps holding exactly the steps pushed |
| Dashboard.StepIndependence | src/components/Dashboard.tsx:54-58 | a step's completion depends on its own read only |
| Dashboard.RecentAlerts | src/components/Dashboard.tsx:63-70 | at most five alerts, all five when there are that many, newest first, drawn from the user's alerts, none older than an alert left out |
| Dashboard.RecentAlertsAreNewest | src/components/Dashboard.tsx:67-68 | a prefix of a list sorted newest first holds the newest elements |
| Dashboard.DashboardState.constructor | src/components/Dashboard.tsx:13-20 | the dashboard starts loading, with no completed or active step and no notifications |
| Dashboard.DashboardState.LoadProgress | src/components/Dashboard.tsx:22-79 | without a user nothing changes; otherwise the steps are derived from the reads (kept if the load threw before), notifications become the alert data or empty when null, and loading ends |
| Dashboard.DashboardState.StartStep | src/components/Dashboard.tsx:108-113 | starting a completed step changes nothing; any other step becomes the active one |
| Dashboard.DashboardState.CompleteStep | src/components/Dashboard.tsx:115-120 | success appends the step unless already present, keeping earlier entries in order and duplicate-free; failure changes no step; either way no step is active |
| Dashboard.DashboardState.StartButton | src/components/Dashboard.tsx:276-283 | a step's button is disabled and reads "Completed" iff the step is complete, else "Start" |
| Dashboard.DashboardState.ShowsIndicator | src/components/Dashboard.tsx:154-156 | the bell's dot shows iff there is a notification |
| Dashboard.DashboardState.OpenWizard | src/components/Dashboard.tsx:303-313 | a wizard is shown iff the active step is one of the four steps, and it is for that step |
| Dashboard.SnapshotsOf | src/components/Dashboard.tsx:30-52 | the four successful reads: the profile row, or no data when the user has none; in terms of the tables, profile is complete iff the row has a non-empty company name, and each other step iff its table has a row |
| Dashboard.FetchOf | src/components/Dashboard.tsx:30-70 | a fully successful load: the four reads above and at most five of the user's alerts |
| Dashboard.LoadFromTables | src/components/Dashboard.tsx:30-70 | a load from the tables derives the steps from them, makes the notifications exactly RecentAlerts of the user's alerts (at most five, newest first, none older than one left out) and keeps the active step |
| Dashboard.RunWizard | src/components/Dashboard.tsx:308-311 | the wizard's outcome reaches the dashboard: a successful write completes the active step; on success the step is appended unless already present, every earlier step kept in order; a failed one leaves the steps, closes the wizard and leaves its error set; without a user nothing is reported; the notifications, the loading flag and the draft never change |
| Dashboard.SubmitThenRender | src/components/Dashboard.tsx:303-316 | after a signed-in submission the modal shows no wizard, also when the write failed and the wizard set its error; without a user the wizard stays open with the no-user error |
| Dashboard.SubmittedStepCompleteOnReload | src/components/Dashboard.tsx:56-58 | a successful valid assessment, templates or team submission makes that step complete on the next load |
| Dashboard.ProfileCompleteOnReloadIff | src/components/Dashboard.tsx:55 | after a profile submission the next load counts the profile complete iff the typed company name was not all whitespace |
| Dashboard.WhitespaceProfileLostOnReload | src/components/Dashboard.tsx:55 | a company name of spaces passes validation yet the profile is incomplete on the next load |
| Dashboard.GeneratedReportCompletesTemplates | src/components/Dashboard.tsx:43-57 | generating any report makes the templates step complete on the next load |
| UseAlerts.MarkRead | src/hooks/useAlerts.ts:37-39 | every alert with the id is marked read and otherwise unchanged; all other alerts unchanged; length and order kept |
| UseAlerts.MarkReadIdempotent | src/hooks/useAlerts.ts:38 | marking the same alert twice equals marking it once |
| UseAlerts.MarkReadCommutes | src/hooks/useAlerts.ts:37-39 | marking two alerts gives the same list in either order |
| UseAlerts.AlertsHook.constructor | src/hooks/useAlerts.ts:6-7 | the hook starts with no alerts and loading |
| UseAlerts.AlertsHook.FetchAlerts | src/hooks/useAlerts.ts:13-27 | the data replaces the list (empty when null), an error keeps it, and loading ends either way |
| UseAlerts.AlertsHook.FetchAlertsFrom | src/hooks/useAlerts.ts:15-21 | a fetch answered from the tables leaves the user's alerts, the same multiset, newest first |
| UseAlerts.AlertsHook.MarkAlertAsRead | src/hooks/useAlerts.ts:29-44 | an accepted update applies MarkRead to the list; a failed one leaves it and is rethrown |
| UseCompliance.ReplaceById | src/hooks/useCompliance.ts:56 | exactly the items with the id are replaced by the returned row; others, order and length kept |
| UseCompliance.ReplaceAbsent | src/hooks/useCompliance.ts:56 | updating an id missing from the list leaves it unchanged |
| UseCompliance.AppendBreaksDueDateOrder | src/hooks/useCompliance.ts:38 | appending after a due-date-ordered fetch is not re-sorted: an item due earlier than the last breaks the order |
| UseCompliance.ComplianceHook.constructor | src/hooks/useCompliance.ts:6-7 | the hook starts with no items and loading |
| UseCompliance.ComplianceHook.FetchComplianceItems | src/hooks/useCompliance.ts:13-27 | the data replaces the list (empty when null), an error keeps it, and loading ends either way |
| UseCompliance.ComplianceHook.FetchComplianceItemsFrom | src/hooks/useCompliance.ts:15-21 | a fetch answered from the tables leaves the user's items, the same multiset, earliest due first |
| UseCompliance.ComplianceHook.AddComplianceItem | src/hooks/useCompliance.ts:29-44 | an accepted insert appends the returned row after the unchanged earlier items and returns it; an error leaves the list and is rethrown |
| UseCompliance.ComplianceHook.UpdateComplianceItem | src/hooks/useCompliance.ts:46-62 | an accepted update applies ReplaceById with the returned row and returns it; an error leaves the list and is rethrown |
| UseReports.PendingReport | src/hooks/useReports.ts:33-36 | the insert sends the title and status pending and no creation time, so the stored row carries the backend's clock |
| UseReports.CompleteAppended | src/hooks/useReports.ts:44-51 | completing a freshly appended report changes that row only |
| UseReports.ReportLifecycle | src/hooks/useReports.ts:29-57 | generation inserts a pending row with the title and no url; completion makes exactly that row generated with url "#" and leaves the rest; the refetched list holds it |
| UseReports.ReportsHook.constructor | src/hooks/useReports.ts:6-7 | the hook starts with no reports, loading, nothing scheduled |
| UseReports.ReportsHook.FetchReports | src/hooks/useReports.ts:13-27 | the data replaces the list (empty when null), an error keeps it, and loading ends either way |
| UseReports.ReportsHook.FetchReportsFrom | src/hooks/useReports.ts:15-21 | a fetch answered from the tables leaves the user's reports, the same multiset, newest first |
| UseReports.ReportsHook.GenerateReport | src/hooks/useReports.ts:29-62 | an accepted insert appends a pending row, returns it and schedules its completion; a failed one changes nothing, schedules nothing and is rethrown |
| UseReports.ReportsHook.FireTimer | src/hooks/useReports.ts:43-55 | the oldest timer fires: an accepted update completes that report and the list is refetched; a failed one is thrown and nothing is refetched |
| UseReports.GenerateAndComplete | src/hooks/useReports.ts:29-57 | on an idle hook, generation followed by its timer leaves the generated report, with url "#", in the local list without a reload |
| Theme.ThemeName | src/components/ThemeToggle.tsx:16-21 | the persisted value is "dark" iff the theme is dark and "light" iff it is not |
| Theme.ThemeToggle.constructor | src/components/ThemeToggle.tsx:5-10 | the initial flag is whether the page carries the dark class, false without a window |
| Theme.ThemeToggle.Toggle | src/components/ThemeToggle.tsx:12-22 | the flag flips, the dark class is present iff the new flag is set, and the persisted theme names the new flag |
| Theme.ToggleTwice | src/components/ThemeToggle.tsx:12-22 | two toggles restore the flag, and the class when it was in sync; a theme is persisted afterwards |
| App.StartupDark | src/App.tsx:25 | the page starts dark iff "dark" is persisted, or nothing is persisted and the system prefers dark |
| App.LightOverridesSystemDark | src/App.tsx:25-28 | a persisted light theme overrides a dark system preference, and a persisted dark one a light preference |
| App.InitializeTheme | src/App.tsx:24-30 | the startup effect sets the dark class as StartupDark decides and leaves the persisted theme alone |
| App.ToggleThenReload | src/App.tsx:25-29 | after a toggle and a reload the page shows the chosen theme whatever the system prefers, and a new toggle starts in sync |
| App.PrivateRoute | src/App.tsx:12-20 | loading shows the loading view whoever the user is; afterwards the children iff a user is signed in, else a redirect to /login |

## Left out

- **The hosted backend.** Its queries, row-level access control and id generation are reduced to `Tables` and a counter. Nobody can see a user's rows but that user, which is assumed rather than modelled.
- **Write failures.** The backend's reasons for rejecting a write are not modelled; a rejection is an injected `failure` value.
- **Upserts.** An upsert replaces the whole profile row; column-wise merging is not modelled.
- **`user_id` columns.** They are implicit in the per-user tables. The insert in `generateReport` sends no `user_id` (src/hooks/useReports.ts:33-36); the model places the row in the user's tables anyway, as the page's own later reads assume.
- **The `content` column.** The completion update sets it (src/hooks/useReports.ts:48), but nothing reads it.
- **`Report.generatedAt`.** No modelled code writes it. The reports panel (src/components/ReportsPanel.tsx:59) only displays it, and that panel is presentation, not modelled. Rows carry the creation time that the queries order by.
- **Clocks and timers.** The wall clock becomes a `now` parameter. ISO-8601 rendering is not modelled. The 3000 ms delay of the completion timer is modelled only as firing order.
- **Asynchronous interleaving.** Stale closures and unmount-during-request are not modelled. Each handler runs as one step, between awaits, on the state it was called with.
- **Ties in ordered reads.** Rows with equal timestamps come back in an order the backend leaves open; the model's sort fixes one order. The ordering properties do not depend on it.
- UseAlerts.AlertsHook.MarkAlertAsRead: the `is_read` update on the alerts table (src/hooks/useAlerts.ts:31-34) is not applied to `Tables`. The method takes only the backend's error and states the local list.
- UseCompliance.ComplianceHook.AddComplianceItem: the insert on the compliance table (src/hooks/useCompliance.ts:31-35) is not applied to `Tables`. The method takes the backend's reply and states the local list.
- UseCompliance.ComplianceHook.UpdateComplianceItem: the update on the compliance table (src/hooks/useCompliance.ts:48-53) is not applied to `Tables`. The partial `updates` object is not modelled. The contract ties the list to the row the backend returns, not to how the backend merges the update.
- OnboardingWizard.Wizard.SetMemberEmail: the edit mutates a member object shared with the previous draft (src/components/OnboardingWizard.tsx:246-247). It is modelled as a value update, so aliasing is not captured. An index past the end is excluded, because the form only shows existing members.
- OnboardingWizard.Wizard.SetMemberRole: same as SetMemberEmail (src/components/OnboardingWizard.tsx:256-257).
- **Wizard cancel and close buttons.** They call `onComplete(false)` (src/components/OnboardingWizard.tsx:303, 321). Their effect is Dashboard.DashboardState.CompleteStep with `false`; they have no member of their own.
- **Console logging.** `console.error` is not modelled.
- **Loading and error screens.** The presentation is not modelled: the loading screen, the error banner, the "Saving..." caption, the show/hide flags of the onboarding card, the notification, settings and profile panels, and the status colours and icons.
- **Authentication.** `useAuth` is not part of this model. The user and the loading flag are inputs.
- **Out of scope.** Not part of this model:
  - src/lib/ai.ts (a call to an external language model);
  - the pricing computation in src/components/PricingSection.tsx (floating point);
  - src/hooks/useSubscription.ts (a payment service);
  - the marketing pages, the panels and the styling configuration.
