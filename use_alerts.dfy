/** The alerts hook (src/hooks/useAlerts.ts): a local copy of the alerts,
    refreshed by a fetch and updated in place when an alert is marked read. */
module UseAlerts {
  import opened Wrappers
  import opened Types
  import opened Backend

  /** The local list after marking alert `id` read: every alert with that id
      is read and otherwise as before; every other alert is untouched; the
      length and order are kept. */
  function MarkRead(alerts: seq<Alert>, id: Id): (r: seq<Alert>)
    ensures |r| == |alerts|
    ensures forall i :: 0 <= i < |r| && alerts[i].id == id ==> r[i] == alerts[i].(isRead := true)
    ensures forall i :: 0 <= i < |r| && alerts[i].id != id ==> r[i] == alerts[i]
  {
    if alerts == [] then []
    else
      [if alerts[0].id == id then alerts[0].(isRead := true) else alerts[0]] + MarkRead(alerts[1..], id)
  }

  /** Marking the same alert read twice gives the same list as marking it once. */
  lemma MarkReadIdempotent(alerts: seq<Alert>, id: Id)
    ensures MarkRead(MarkRead(alerts, id), id) == MarkRead(alerts, id)
  {
    var once := MarkRead(alerts, id);
    var twice := MarkRead(once, id);
    assert forall i :: 0 <= i < |once| ==> once[i].id == alerts[i].id;
    assert forall i :: 0 <= i < |once| ==> twice[i] == once[i];
  }

  /** Marking two alerts read gives the same list in either order. */
  lemma MarkReadCommutes(alerts: seq<Alert>, id1: Id, id2: Id)
    ensures MarkRead(MarkRead(alerts, id1), id2) == MarkRead(MarkRead(alerts, id2), id1)
  {
    var a, b := MarkRead(MarkRead(alerts, id1), id2), MarkRead(MarkRead(alerts, id2), id1);
    assert forall i :: 0 <= i < |alerts| ==> MarkRead(alerts, id1)[i].id == alerts[i].id;
    assert forall i :: 0 <= i < |alerts| ==> MarkRead(alerts, id2)[i].id == alerts[i].id;
    assert forall i :: 0 <= i < |a| ==> a[i] == b[i];
  }

  class AlertsHook {
    var alerts: seq<Alert>
    var loading: bool

    constructor()
      ensures alerts == [] && loading
    {
      alerts := [];
      loading := true;
    }

    /** `fetchAlerts`: the reply's data replaces the list (an empty list when
        it is null); on an error the list is kept. Loading ends either way. */
    method FetchAlerts(response: Response<seq<Alert>>)
      modifies this
      ensures !loading
      ensures alerts == (match response
                         case Rows(data) => data.GetOr([])
                         case QueryError(_) => old(alerts))
    {
      match response {
        case Rows(data) => alerts := data.GetOr([]);
        case QueryError(_) =>
      }
      loading := false;
    }

    /** A fetch the backend answers: the list becomes the user's alerts,
        newest first, the same alerts as stored. */
    method FetchAlertsFrom(db: Tables)
      modifies this
      ensures alerts == AlertsNewestFirst(db.alerts) && !loading
      ensures multiset(alerts) == multiset(db.alerts)
      ensures forall i, j :: 0 <= i < j < |alerts| ==> alerts[i].createdAt >= alerts[j].createdAt
    {
      FetchAlerts(Rows(Some(AlertsNewestFirst(db.alerts))));
    }

    /** `markAlertAsRead`: `failure` is the error the backend answers the
        update with, if any. After an accepted update the alert is marked in
        the local list; after an error the list is unchanged and the error is
        rethrown (returned). */
    method MarkAlertAsRead(id: Id, failure: Option<string>) returns (thrown: Option<string>)
      modifies this
      ensures thrown == failure && loading == old(loading)
      ensures alerts == (if failure.None? then MarkRead(old(alerts), id) else old(alerts))
    {
      if failure.Some? {
        return failure;
      }
      alerts := MarkRead(alerts, id);
      thrown := None;
    }
  }
}
