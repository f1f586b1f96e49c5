/** The reports hook (src/hooks/useReports.ts): a local copy of the reports
    and report generation, which inserts a pending report and, three seconds
    later, marks it generated and refetches the list. The delay is modelled
    by a queue of pending completions, fired one at a time. */
module UseReports {
  import opened Wrappers
  import opened Types
  import opened Backend

  /** The row `generateReport(title)` inserts. */
  function PendingReport(title: string): (r: NewReport)
    ensures r.title == title && r.status == ReportStatus.Pending
    ensures forall id, now :: ReportRow(r, id, now).createdAt == now
  {
    NewReport(title, ReportStatus.Pending, None)
  }

  /** Completing a freshly appended report touches that row only. */
  lemma CompleteAppended(reports: seq<Report>, row: Report)
    requires forall i :: 0 <= i < |reports| ==> reports[i].id != row.id
    ensures MarkGenerated(reports + [row], row.id)
         == reports + [row.(status := Generated, downloadUrl := Some("#"))]
  {
    var all := reports + [row];
    var marked := MarkGenerated(all, row.id);
    var expected := reports + [row.(status := Generated, downloadUrl := Some("#"))];
    forall i | 0 <= i < |marked|
      ensures marked[i] == expected[i]
    {
      if i < |reports| {
        assert all[i] == reports[i];
      } else {
        assert all[i] == row;
      }
    }
  }

  /** The life of a generated report: inserted pending with the title asked
      for; the completion marks exactly that row generated with download url
      "#" and leaves every other row as it was; a refetch afterwards shows it
      generated. */
  lemma ReportLifecycle(db: Tables, title: string, now: Timestamp)
    requires Valid(db)
    ensures var row := InsertReport(db, PendingReport(title), now).1;
      var completed := CompleteReport(InsertReport(db, PendingReport(title), now).0, row.id);
      var generated := row.(status := Generated, downloadUrl := Some("#"));
      && row.title == title && row.status == ReportStatus.Pending && row.downloadUrl == None
      && InsertReport(db, PendingReport(title), now).0.reports == db.reports + [row]
      && completed.reports == db.reports + [generated]
      && generated in ReportsNewestFirst(completed.reports)
  {
    var inserted := InsertReport(db, PendingReport(title), now);
    var row := inserted.1;
    var generated := row.(status := Generated, downloadUrl := Some("#"));
    assert row.id == db.nextId;
    CompleteAppended(db.reports, row);
    var completed := CompleteReport(inserted.0, row.id);
    assert completed.reports == db.reports + [generated];
    assert completed.reports[|db.reports|] == generated;
    assert generated in multiset(ReportsNewestFirst(completed.reports));
  }

  class ReportsHook {
    var reports: seq<Report>
    var loading: bool
    /** Ids of inserted reports whose completion timer has not fired yet, in
        the order they were started. All timers have the same delay, so they
        fire in this order. */
    var scheduled: seq<Id>

    constructor()
      ensures reports == [] && loading && scheduled == []
    {
      reports := [];
      loading := true;
      scheduled := [];
    }

    /** `fetchReports`: the reply's data replaces the list (an empty list when
        it is null); on an error the list is kept. Loading ends either way. */
    method FetchReports(response: Response<seq<Report>>)
      modifies this
      ensures !loading && scheduled == old(scheduled)
      ensures reports == (match response
                          case Rows(data) => data.GetOr([])
                          case QueryError(_) => old(reports))
    {
      match response {
        case Rows(data) => reports := data.GetOr([]);
        case QueryError(_) =>
      }
      loading := false;
    }

    /** A fetch the backend answers: the list becomes the user's reports,
        newest first, the same reports as stored. */
    method FetchReportsFrom(db: Tables)
      modifies this
      ensures reports == ReportsNewestFirst(db.reports) && !loading && scheduled == old(scheduled)
      ensures multiset(reports) == multiset(db.reports)
      ensures forall i, j :: 0 <= i < j < |reports| ==> reports[i].createdAt >= reports[j].createdAt
    {
      FetchReports(Rows(Some(ReportsNewestFirst(db.reports))));
    }

    /** `generateReport(title)`: `failure` is the error the backend answers
        the insert with, if any. An accepted insert adds a pending row, which
        is returned, and schedules its completion; a failed one changes
        nothing, schedules nothing and is rethrown. */
    method GenerateReport(title: string, db: Tables, now: Timestamp, failure: Option<string>)
      returns (db': Tables, result: Result<Report>)
      modifies this
      ensures reports == old(reports) && loading == old(loading)
      ensures failure.Some? ==> db' == db && result == Err(failure.value) && scheduled == old(scheduled)
      ensures failure.None? ==>
        var (inserted, row) := InsertReport(db, PendingReport(title), now);
        db' == inserted && result == Ok(row) && scheduled == old(scheduled) + [row.id]
    {
      if failure.Some? {
        return db, Err(failure.value);
      }
      var (inserted, row) := InsertReport(db, PendingReport(title), now);
      db' := inserted;
      scheduled := scheduled + [row.id];
      result := Ok(row);
    }

    /** The oldest pending timer fires: the report is updated to generated.
        An update error is thrown inside the timer and nothing is refetched;
        otherwise the list is refetched, `refetch` being the reply. */
    method FireTimer(db: Tables, failure: Option<string>, refetch: Response<seq<Report>>)
      returns (db': Tables, thrown: Option<string>)
      requires scheduled != []
      modifies this
      ensures scheduled == old(scheduled)[1..]
      ensures failure.Some? ==>
        db' == db && thrown == failure && reports == old(reports) && loading == old(loading)
      ensures failure.None? ==>
        db' == CompleteReport(db, old(scheduled)[0]) && thrown == None && !loading
        && reports == (match refetch
                       case Rows(data) => data.GetOr([])
                       case QueryError(_) => old(reports))
    {
      var id := scheduled[0];
      scheduled := scheduled[1..];
      if failure.Some? {
        return db, failure;
      }
      db' := CompleteReport(db, id);
      thrown := None;
      FetchReports(refetch);
    }
  }

  /** Generating a report on an idle hook: once its timer fires and the
      update and refetch succeed, the list shows the report generated, with
      no reload of the page. */
  method GenerateAndComplete(hook: ReportsHook, title: string, db: Tables, now: Timestamp)
    returns (db': Tables)
    requires hook.scheduled == [] && Valid(db)
    modifies hook
    ensures hook.scheduled == [] && !hook.loading
    ensures exists r :: r in hook.reports && r.title == title && r.status == Generated && r.downloadUrl == Some("#")
  {
    var inserted, result := hook.GenerateReport(title, db, now, None);
    ReportLifecycle(db, title, now);
    var row := result.value;
    var completed := CompleteReport(inserted, row.id);
    var thrown;
    db', thrown := hook.FireTimer(inserted, None, Rows(Some(ReportsNewestFirst(completed.reports))));
    assert row.(status := Generated, downloadUrl := Some("#")) in hook.reports;
  }
}
