/** The hosted database as the client sees it: one set of tables per signed-in
    user (row-level access control scopes every query and write to that user),
    each table a list of rows. Writes that the backend accepts change the
    tables as below; whether it accepts them is decided outside this model. */
module Backend {
  import opened Wrappers
  import opened Types
  import opened Sequences

  /** The signed-in user's rows. `nextId` stands for the backend's id
      generator: every inserted row receives an id not used before. */
  datatype Tables = Tables(
    profile: Option<Profile>,
    complianceItems: seq<ComplianceItem>,
    reports: seq<Report>,
    teamMembers: seq<TeamMember>,
    alerts: seq<Alert>,
    nextId: Id)

  /** Every generated id in use is below `nextId`. */
  predicate Valid(db: Tables) {
    && (forall i :: 0 <= i < |db.complianceItems| ==> db.complianceItems[i].id < db.nextId)
    && (forall i :: 0 <= i < |db.reports| ==> db.reports[i].id < db.nextId)
    && (forall i :: 0 <= i < |db.teamMembers| ==> db.teamMembers[i].id < db.nextId)
  }

  /** The answer to a read: the `data` of the reply (possibly null), or the
      error the backend reported. */
  datatype Response<T> = Rows(data: Option<T>) | QueryError(message: string)

  /** A write the client can issue. */
  datatype Request =
    | UpsertProfile(row: Profile)
    | InsertComplianceItems(items: seq<NewComplianceItem>)
    | InsertReports(newReports: seq<NewReport>)
    | InsertTeamMembers(members: seq<NewTeamMember>)

  /** Inserting compliance items appends one row per item, in order, with
      fresh ids, and leaves everything else alone. */
  function AddComplianceItems(db: Tables, items: seq<NewComplianceItem>): (db': Tables)
    ensures |db'.complianceItems| == |db.complianceItems| + |items|
    ensures db'.complianceItems[..|db.complianceItems|] == db.complianceItems
    ensures forall k :: 0 <= k < |items| ==>
      db'.complianceItems[|db.complianceItems| + k] == items[k].WithId(db.nextId + k)
    ensures db' == db.(complianceItems := db'.complianceItems, nextId := db.nextId + |items|)
    ensures Valid(db) ==> Valid(db')
  {
    var rows := seq(|items|, k requires 0 <= k < |items| => items[k].WithId(db.nextId + k));
    db.(complianceItems := db.complianceItems + rows, nextId := db.nextId + |items|)
  }

  /** The row an inserted report becomes. */
  function ReportRow(r: NewReport, id: Id, now: Timestamp): (row: Report)
    ensures row.id == id && row.title == r.title && row.status == r.status
    ensures row.createdAt == r.createdAt.GetOr(now) && row.downloadUrl == None
  {
    Report(id, r.title, r.status, r.createdAt.GetOr(now), None)
  }

  /** Inserting reports appends one row per report, in order, with fresh ids;
      `now` is the backend's clock, used for a missing creation time. */
  function AddReports(db: Tables, newReports: seq<NewReport>, now: Timestamp): (db': Tables)
    ensures |db'.reports| == |db.reports| + |newReports|
    ensures db'.reports[..|db.reports|] == db.reports
    ensures forall k :: 0 <= k < |newReports| ==>
      db'.reports[|db.reports| + k] == ReportRow(newReports[k], db.nextId + k, now)
    ensures db' == db.(reports := db'.reports, nextId := db.nextId + |newReports|)
    ensures Valid(db) ==> Valid(db')
  {
    var rows := seq(|newReports|, k requires 0 <= k < |newReports| => ReportRow(newReports[k], db.nextId + k, now));
    db.(reports := db.reports + rows, nextId := db.nextId + |newReports|)
  }

  /** Inserting team members appends one row per member, in order, with fresh ids. */
  function AddTeamMembers(db: Tables, members: seq<NewTeamMember>): (db': Tables)
    ensures |db'.teamMembers| == |db.teamMembers| + |members|
    ensures db'.teamMembers[..|db.teamMembers|] == db.teamMembers
    ensures forall k :: 0 <= k < |members| ==>
      db'.teamMembers[|db.teamMembers| + k] ==
        TeamMember(db.nextId + k, members[k].email, members[k].role, members[k].createdAt)
    ensures db' == db.(teamMembers := db'.teamMembers, nextId := db.nextId + |members|)
    ensures Valid(db) ==> Valid(db')
  {
    var rows := seq(|members|, k requires 0 <= k < |members| =>
      TeamMember(db.nextId + k, members[k].email, members[k].role, members[k].createdAt));
    db.(teamMembers := db.teamMembers + rows, nextId := db.nextId + |members|)
  }

  /** The effect of an accepted write. An upsert replaces the user's single
      profile row; inserts append. */
  function Perform(db: Tables, req: Request, now: Timestamp): (db': Tables)
    ensures req.UpsertProfile? ==> db' == db.(profile := Some(req.row))
    ensures Valid(db) ==> Valid(db')
  {
    match req
    case UpsertProfile(row) => db.(profile := Some(row))
    case InsertComplianceItems(items) => AddComplianceItems(db, items)
    case InsertReports(newReports) => AddReports(db, newReports, now)
    case InsertTeamMembers(members) => AddTeamMembers(db, members)
  }

  /** Inserts a single report and returns the new row, as
      `insert(...).select().single()` does. */
  function InsertReport(db: Tables, r: NewReport, now: Timestamp): (result: (Tables, Report))
    ensures result.1 == ReportRow(r, db.nextId, now)
    ensures result.0 == db.(reports := db.reports + [result.1], nextId := db.nextId + 1)
    ensures Valid(db) ==> Valid(result.0)
  {
    var db' := AddReports(db, [r], now);
    assert db'.reports == db.reports + [ReportRow(r, db.nextId, now)];
    (db', ReportRow(r, db.nextId, now))
  }

  /** The report rows after the update that finishes generation: every row
      with this id has status `generated` and download url "#"; all other
      rows, and the order and number of rows, are unchanged. */
  function MarkGenerated(reports: seq<Report>, id: Id): (r: seq<Report>)
    ensures |r| == |reports|
    ensures forall i :: 0 <= i < |r| && reports[i].id == id ==>
      r[i] == reports[i].(status := Generated, downloadUrl := Some("#"))
    ensures forall i :: 0 <= i < |r| && reports[i].id != id ==> r[i] == reports[i]
  {
    if reports == [] then []
    else
      var head := if reports[0].id == id then reports[0].(status := Generated, downloadUrl := Some("#")) else reports[0];
      [head] + MarkGenerated(reports[1..], id)
  }

  /** `update({status: 'generated', download_url: '#'}).eq('id', id)` on the
      reports table. */
  function CompleteReport(db: Tables, id: Id): (db': Tables)
    ensures db' == db.(reports := MarkGenerated(db.reports, id))
    ensures Valid(db) ==> Valid(db')
  {
    db.(reports := MarkGenerated(db.reports, id))
  }

  /** The key that orders rows by creation time, newest first. */
  function AlertNewestFirstKey(a: Alert): int { -a.createdAt }

  function ReportNewestFirstKey(r: Report): int { -r.createdAt }

  function DueDateKey(item: ComplianceItem): int { item.dueDate }

  /** `select('*').order('created_at', { ascending: false })` on alerts: the
      same rows, newest first. (Rows with equal creation times come back in
      an order the backend leaves open; the model fixes one.) */
  function AlertsNewestFirst(alerts: seq<Alert>): (r: seq<Alert>)
    ensures multiset(r) == multiset(alerts)
    ensures forall i, j :: 0 <= i < j < |r| ==> r[i].createdAt >= r[j].createdAt
  {
    SortBy(alerts, AlertNewestFirstKey)
  }

  /** `select('*').order('created_at', { ascending: false })` on reports. */
  function ReportsNewestFirst(reports: seq<Report>): (r: seq<Report>)
    ensures multiset(r) == multiset(reports)
    ensures forall i, j :: 0 <= i < j < |r| ==> r[i].createdAt >= r[j].createdAt
  {
    SortBy(reports, ReportNewestFirstKey)
  }

  /** `select('*').order('due_date', { ascending: true })` on compliance items. */
  function ItemsByDueDate(items: seq<ComplianceItem>): (r: seq<ComplianceItem>)
    ensures multiset(r) == multiset(items)
    ensures forall i, j :: 0 <= i < j < |r| ==> r[i].dueDate <= r[j].dueDate
  {
    SortBy(items, DueDateKey)
  }
}
