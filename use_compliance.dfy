/** The compliance hook (src/hooks/useCompliance.ts): a local copy of the
    compliance items, refreshed by a fetch, grown by `add` and patched by
    `update` with the rows the backend sends back. */
module UseCompliance {
  import opened Wrappers
  import opened Types
  import opened Backend

  /** The local list after an update of item `id` came back as `row`: each
      item with that id is replaced by the row, every other item is kept, in
      the same order and number. */
  function ReplaceById(items: seq<ComplianceItem>, id: Id, row: ComplianceItem): (r: seq<ComplianceItem>)
    ensures |r| == |items|
    ensures forall i :: 0 <= i < |r| && items[i].id == id ==> r[i] == row
    ensures forall i :: 0 <= i < |r| && items[i].id != id ==> r[i] == items[i]
  {
    if items == [] then []
    else [if items[0].id == id then row else items[0]] + ReplaceById(items[1..], id, row)
  }

  /** An update of an item missing from the local list leaves the list as it is. */
  lemma {:induction false} ReplaceAbsent(items: seq<ComplianceItem>, id: Id, row: ComplianceItem)
    requires forall i :: 0 <= i < |items| ==> items[i].id != id
    ensures ReplaceById(items, id, row) == items
  {
    if items != [] {
      ReplaceAbsent(items[1..], id, row);
    }
  }

  /** `add` appends and does not re-sort: after a fetch, which delivers the
      items by ascending due date, adding an item due earlier than the last
      one leaves the list out of due-date order. */
  lemma AppendBreaksDueDateOrder(fetched: seq<ComplianceItem>, row: ComplianceItem)
    requires fetched != [] && row.dueDate < fetched[|fetched| - 1].dueDate
    ensures var s := ItemsByDueDate(fetched) + [row];
      exists i, j :: 0 <= i < j < |s| && s[i].dueDate > s[j].dueDate
  {
    var sorted := ItemsByDueDate(fetched);
    var s := sorted + [row];
    var last := fetched[|fetched| - 1];
    assert last in multiset(sorted);
    var k :| 0 <= k < |sorted| && sorted[k] == last;
    assert s[k] == last && s[|sorted|] == row;
  }

  class ComplianceHook {
    var items: seq<ComplianceItem>
    var loading: bool

    constructor()
      ensures items == [] && loading
    {
      items := [];
      loading := true;
    }

    /** `fetchComplianceItems`: the reply's data replaces the list (an empty
        list when it is null); on an error the list is kept. Loading ends
        either way. */
    method FetchComplianceItems(response: Response<seq<ComplianceItem>>)
      modifies this
      ensures !loading
      ensures items == (match response
                        case Rows(data) => data.GetOr([])
                        case QueryError(_) => old(items))
    {
      match response {
        case Rows(data) => items := data.GetOr([]);
        case QueryError(_) =>
      }
      loading := false;
    }

    /** A fetch the backend answers: the list becomes the user's items,
        earliest due first, the same items as stored. */
    method FetchComplianceItemsFrom(db: Tables)
      modifies this
      ensures items == ItemsByDueDate(db.complianceItems) && !loading
      ensures multiset(items) == multiset(db.complianceItems)
      ensures forall i, j :: 0 <= i < j < |items| ==> items[i].dueDate <= items[j].dueDate
    {
      FetchComplianceItems(Rows(Some(ItemsByDueDate(db.complianceItems))));
    }

    /** `addComplianceItem`: `response` is the backend's answer to the insert,
        the stored row or an error. The row is appended at the end, the
        earlier items untouched and not re-sorted; an error leaves the list
        and is rethrown. */
    method AddComplianceItem(response: Result<ComplianceItem>) returns (r: Result<ComplianceItem>)
      modifies this
      ensures r == response && loading == old(loading)
      ensures items == (if response.Ok? then old(items) + [response.value] else old(items))
    {
      if response.Ok? {
        items := items + [response.value];
      }
      r := response;
    }

    /** `updateComplianceItem(id, …)`: `response` is the backend's answer, the
        updated row or an error. The row replaces the items with that id; an
        error leaves the list and is rethrown. */
    method UpdateComplianceItem(id: Id, response: Result<ComplianceItem>) returns (r: Result<ComplianceItem>)
      modifies this
      ensures r == response && loading == old(loading)
      ensures items == (if response.Ok? then ReplaceById(old(items), id, response.value) else old(items))
    {
      if response.Ok? {
        items := ReplaceById(items, id, response.value);
      }
      r := response;
    }
  }
}
