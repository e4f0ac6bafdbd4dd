/** The admin approve and delete actions (Controller/Adminhtml/Company/Approve.php
    and Delete.php): an id guard, a not-found guard, then one change to the table. */
module AdminCompany {
  import opened Php
  import opened CompanyModel
  import opened Storage

  // The company grid, "*/*/".
  const GridRedirect := "*/*/"

  const InvalidIdMessage := "Invalid company ID."
  const NotFoundMessage := "Company not found."
  const ApprovedMessage := "Company has been approved."
  const DeletedMessage := "Company has been deleted."

  /** The row a request's `id` parameter names, if any. */
  function RequestedKey(idParam: Option<string>): Option<CompanyId>
    requires idParam.Some?
  {
    ParseId(idParam.value)
  }

  /** Whether the request names a row that the not-found guard accepts: a row
      keyed 0 loads with the falsy id 0 and so counts as not found. */
  predicate NamesRow(rows: map<CompanyId, Fields>, idParam: Option<string>)
  {
    && idParam.Some? && RequestedKey(idParam).Some?
    && RequestedKey(idParam).value != 0 && RequestedKey(idParam).value in rows
  }

  /** Approve: a falsy id, a failed load, an unknown id or a failed save add
      one error and leave the table alone; otherwise only the named company's
      status becomes approved. Every path redirects to the grid. */
  method Approve(idParam: Option<string>, fault: Fault, table: CompanyTable, messages: MessageManager)
    returns (redirect: string)
    requires table.Valid()
    modifies table, messages
    ensures table.Valid() && redirect == GridRedirect
    ensures !Truthy(idParam) ==>
              table.rows == old(table.rows) && messages.log == old(messages.log) + [Error(InvalidIdMessage)]
    ensures Truthy(idParam) && fault.LoadFails? ==>
              table.rows == old(table.rows)
              && messages.log == old(messages.log) + [Error("Error approving company: " + fault.message)]
    ensures Truthy(idParam) && !fault.LoadFails? && !NamesRow(old(table.rows), idParam) ==>
              table.rows == old(table.rows) && messages.log == old(messages.log) + [Error(NotFoundMessage)]
    ensures Truthy(idParam) && fault.WriteFails? && NamesRow(old(table.rows), idParam) ==>
              table.rows == old(table.rows)
              && messages.log == old(messages.log) + [Error("Error approving company: " + fault.message)]
    ensures Truthy(idParam) && fault.NoFault? && NamesRow(old(table.rows), idParam) ==>
              var k := RequestedKey(idParam).value;
              && table.rows == old(table.rows)[k := old(table.rows)[k][StatusKey := Approved.Code()]]
              && messages.log == old(messages.log) + [Success(ApprovedMessage)]
  {
    if !Truthy(idParam) {
      messages.AddErrorMessage(InvalidIdMessage);
      return GridRedirect;
    }
    if fault.LoadFails? {
      messages.AddErrorMessage("Error approving company: " + fault.message);
      return GridRedirect;
    }
    var company := table.Load(RequestedKey(idParam));
    if !company.HasId() {
      messages.AddErrorMessage(NotFoundMessage);
      return GridRedirect;
    }
    company.Approve();
    if fault.WriteFails? {
      messages.AddErrorMessage("Error approving company: " + fault.message);
      return GridRedirect;
    }
    table.Save(company);
    messages.AddSuccessMessage(ApprovedMessage);
    return GridRedirect;
  }

  /** Delete: the same guards as Approve; otherwise only the named key leaves
      the table. Every path redirects to the grid. */
  method Delete(idParam: Option<string>, fault: Fault, table: CompanyTable, messages: MessageManager)
    returns (redirect: string)
    requires table.Valid()
    modifies table, messages
    ensures table.Valid() && redirect == GridRedirect
    ensures !Truthy(idParam) ==>
              table.rows == old(table.rows) && messages.log == old(messages.log) + [Error(InvalidIdMessage)]
    ensures Truthy(idParam) && fault.LoadFails? ==>
              table.rows == old(table.rows)
              && messages.log == old(messages.log) + [Error("Error deleting company: " + fault.message)]
    ensures Truthy(idParam) && !fault.LoadFails? && !NamesRow(old(table.rows), idParam) ==>
              table.rows == old(table.rows) && messages.log == old(messages.log) + [Error(NotFoundMessage)]
    ensures Truthy(idParam) && fault.WriteFails? && NamesRow(old(table.rows), idParam) ==>
              table.rows == old(table.rows)
              && messages.log == old(messages.log) + [Error("Error deleting company: " + fault.message)]
    ensures Truthy(idParam) && fault.NoFault? && NamesRow(old(table.rows), idParam) ==>
              && table.rows == old(table.rows) - {RequestedKey(idParam).value}
              && messages.log == old(messages.log) + [Success(DeletedMessage)]
  {
    if !Truthy(idParam) {
      messages.AddErrorMessage(InvalidIdMessage);
      return GridRedirect;
    }
    if fault.LoadFails? {
      messages.AddErrorMessage("Error deleting company: " + fault.message);
      return GridRedirect;
    }
    var company := table.Load(RequestedKey(idParam));
    if !company.HasId() {
      messages.AddErrorMessage(NotFoundMessage);
      return GridRedirect;
    }
    if fault.WriteFails? {
      messages.AddErrorMessage("Error deleting company: " + fault.message);
      return GridRedirect;
    }
    table.Delete(company);
    messages.AddSuccessMessage(DeletedMessage);
    return GridRedirect;
  }
}
