/** The records the dashboard stores and displays (src/types/index.ts), each
    with the columns the code actually reads or writes. */
module Types {
  import opened Wrappers

  /** A row id. The backend generates ids; the client only compares them. */
  type Id = nat

  /** A point in time in milliseconds. Only order and equality are used;
      their rendering as ISO-8601 text is not modelled. */
  type Timestamp = int

  datatype ComplianceStatus = Compliant | NonCompliant | Pending

  /** A compliance obligation. The declared type restricts `category` to
      GDPR, CCPA, ISO or Other, but onboarding stores any regulation name
      there (HIPAA, SOX, "ISO 27001"), so the model keeps it a string. */
  datatype ComplianceItem = ComplianceItem(
    id: Id,
    title: string,
    description: string,
    status: ComplianceStatus,
    dueDate: Timestamp,
    category: string)

  /** A compliance item as sent to `insert`, before the backend gives it an id. */
  datatype NewComplianceItem = NewComplianceItem(
    title: string,
    description: string,
    status: ComplianceStatus,
    dueDate: Timestamp,
    category: string)
  {
    function WithId(id: Id): (item: ComplianceItem)
      ensures item.id == id && item.title == title && item.category == category
    {
      ComplianceItem(id, title, description, status, dueDate, category)
    }
  }

  datatype Severity = Low | Medium | High

  /** A regulatory alert. The declared type has no read flag, but marking an
      alert as read sets the `is_read` column, so the row carries one. */
  datatype Alert = Alert(
    id: Id,
    title: string,
    description: string,
    severity: Severity,
    date: Timestamp,
    createdAt: Timestamp,
    isRead: bool)

  datatype ReportStatus = Generated | Pending | Failed

  datatype Report = Report(
    id: Id,
    title: string,
    status: ReportStatus,
    createdAt: Timestamp,
    downloadUrl: Option<string>)

  /** A report as sent to `insert`; a missing `createdAt` takes the backend's
      column default, the time of the insert. */
  datatype NewReport = NewReport(title: string, status: ReportStatus, createdAt: Option<Timestamp>)

  /** The per-user business profile, keyed by the user's id. Its text columns
      are nullable: a profile row may exist before onboarding fills it in. */
  datatype Profile = Profile(
    id: Id,
    companyName: Option<string>,
    industry: Option<string>,
    region: Option<string>,
    size: Option<string>,
    updatedAt: Timestamp)

  datatype TeamMember = TeamMember(id: Id, email: string, role: string, createdAt: Timestamp)

  datatype NewTeamMember = NewTeamMember(email: string, role: string, createdAt: Timestamp)
}
