/** The actions column of the admin company grid
    (Ui/Component/Listing/Column/CompanyActions.php). */
module CompanyActions {
  import opened Php

  const UrlPathApprove := "zeltero_b2b/company/approve"
  const UrlPathEdit := "zeltero_b2b/company/edit"
  const UrlPathDelete := "zeltero_b2b/company/delete"

  datatype Confirm = Confirm(title: string, message: string)

  /** One entry of the actions cell, under its key ("edit", "approve", "delete"). */
  datatype Action = Action(key: string, href: string, caption: string, confirm: Option<Confirm>)

  /** A grid cell: null, a string, an integer, or an actions cell. */
  datatype Value = Null | Str(s: string) | Int(i: int) | Actions(actions: seq<Action>)

  type Row = map<string, Value>

  /** The `data.items` part of the data source; None when it is not set. */
  datatype DataSource = DataSource(items: Option<seq<Row>>)

  /** `urlBuilder->getUrl($route, ['id' => $id])`, given by the caller. */
  type UrlBuilder = (string, Value) -> string

  /** `isset($row[$key])`: present and not null. */
  predicate IsSet(row: Row, key: string)
  {
    key in row && row[key] != Null
  }

  function EditAction(url: UrlBuilder, id: Value): Action
  {
    Action("edit", url(UrlPathEdit, id), "Edit", None)
  }

  const ApproveConfirm := Confirm("Approve Company", "Are you sure you want to approve this company?")
  const DeleteConfirm := Confirm("Delete Company", "Are you sure you want to delete this company?")

  function ApproveAction(url: UrlBuilder, id: Value): Action
  {
    Action("approve", url(UrlPathApprove, id), "Approve", Some(ApproveConfirm))
  }

  function DeleteAction(url: UrlBuilder, id: Value): Action
  {
    Action("delete", url(UrlPathDelete, id), "Delete", Some(DeleteConfirm))
  }

  /** The actions already in a cell, none if it is not an actions cell. */
  function ActionsIn(v: Value): seq<Action>
  {
    if v.Actions? then v.actions else []
  }

  // The three writes to a row, each reading the row as the previous one left it.

  function WithEdit(row: Row, name: string, url: UrlBuilder): Row
    requires "company_id" in row
  {
    row[name := Actions([EditAction(url, row["company_id"])])]
  }

  function WithApprove(row: Row, name: string, url: UrlBuilder): Row
    requires "company_id" in row && name in row
  {
    if IsSet(row, "status") && row["status"] == Str("pending")
    then row[name := Actions(ActionsIn(row[name]) + [ApproveAction(url, row["company_id"])])]
    else row
  }

  function WithDelete(row: Row, name: string, url: UrlBuilder): Row
    requires "company_id" in row && name in row
  {
    row[name := Actions(ActionsIn(row[name]) + [DeleteAction(url, row["company_id"])])]
  }

  /** A row as the loop body leaves it. */
  function RowWithActions(row: Row, name: string, url: UrlBuilder): Row
  {
    if IsSet(row, "company_id")
    then WithDelete(WithApprove(WithEdit(row, name, url), name, url), name, url)
    else row
  }

  /** `prepareDataSource`: a data source without `data.items` is returned as
      it is; otherwise the rows keep their number and order and each becomes
      the row with its actions. */
  method PrepareDataSource(dataSource: DataSource, name: string, url: UrlBuilder) returns (result: DataSource)
    ensures dataSource.items.None? ==> result == dataSource
    ensures dataSource.items.Some? ==>
              && result.items.Some?
              && |result.items.value| == |dataSource.items.value|
              && forall i :: 0 <= i < |result.items.value| ==>
                   result.items.value[i] == RowWithActions(dataSource.items.value[i], name, url)
  {
    if dataSource.items.None? {
      return dataSource;
    }
    var items := dataSource.items.value;
    for i := 0 to |items|
      invariant |items| == |dataSource.items.value|
      invariant forall k :: 0 <= k < i ==> items[k] == RowWithActions(dataSource.items.value[k], name, url)
      invariant forall k :: i <= k < |items| ==> items[k] == dataSource.items.value[k]
    {
      var item := items[i];
      if IsSet(item, "company_id") {
        item := item[name := Actions([EditAction(url, item["company_id"])])];
        if IsSet(item, "status") && item["status"] == Str("pending") {
          item := item[name := Actions(ActionsIn(item[name]) + [ApproveAction(url, item["company_id"])])];
        }
        item := item[name := Actions(ActionsIn(item[name]) + [DeleteAction(url, item["company_id"])])];
        items := items[i := item];
      }
    }
    return DataSource(Some(items));
  }

  /** A row without a company id is left as it is. */
  lemma RowWithoutIdUnchanged(row: Row, name: string, url: UrlBuilder)
    requires !IsSet(row, "company_id")
    ensures RowWithActions(row, name, url) == row
  {
  }

  /** For every identified row and every column name: only the named column is
      written, and it is an actions cell that starts with edit and ends with
      delete. */
  lemma OnlyActionsColumnWritten(row: Row, name: string, url: UrlBuilder)
    requires IsSet(row, "company_id")
    ensures var r := RowWithActions(row, name, url);
            && r.Keys == row.Keys + {name}
            && (forall k :: k in row && k != name ==> r[k] == row[k])
            && r[name].Actions? && |r[name].actions| >= 2
            && r[name].actions[0].key == "edit" && r[name].actions[|r[name].actions| - 1].key == "delete"
  {
  }

  /** For an identified row and a column other than company_id and status:
      only the named column is written, and it holds edit, then approve
      exactly when the status is the string "pending", then delete, each
      linking its fixed route with the row's company id. */
  lemma IdentifiedRowActions(row: Row, name: string, url: UrlBuilder)
    requires IsSet(row, "company_id") && name != "company_id" && name != "status"
    ensures var r := RowWithActions(row, name, url);
            var id := row["company_id"];
            var pending := IsSet(row, "status") && row["status"] == Str("pending");
            && r.Keys == row.Keys + {name}
            && (forall k :: k in row && k != name ==> r[k] == row[k])
            && r[name] == Actions([EditAction(url, id)]
                                  + (if pending then [ApproveAction(url, id)] else [])
                                  + [DeleteAction(url, id)])
  {
  }

  /** An approve action is offered exactly when the status is the string
      "pending" (a pending integer or other value does not count). */
  lemma ApproveIffPending(row: Row, name: string, url: UrlBuilder)
    requires IsSet(row, "company_id") && name != "company_id" && name != "status"
    ensures var actions := RowWithActions(row, name, url)[name].actions;
            (exists a :: a in actions && a.key == "approve") <==> "status" in row && row["status"] == Str("pending")
  {
    IdentifiedRowActions(row, name, url);
  }

  /** When the actions column is itself named "status", the edit write
      replaces the status before it is read, so no approve action appears. */
  lemma StatusColumnHidesApprove(row: Row, url: UrlBuilder)
    requires IsSet(row, "company_id")
    ensures var actions := RowWithActions(row, "status", url)["status"].actions;
            |actions| == 2 && actions[0].key == "edit" && actions[1].key == "delete"
  {
  }
}
