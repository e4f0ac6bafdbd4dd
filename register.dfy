/** Storefront company registration (Controller/Company/Register.php). */
module CompanyRegister {
  import opened Php
  import opened CompanyModel
  import opened Storage

  // The registration page, "*/*/index".
  const IndexRedirect := "*/*/index"

  /** The status a new registration starts in, from `zeltero_b2b/company/auto_approve`. */
  function InitialStatus(autoApprove: Option<string>): (s: Status)
    ensures s == Approved <==> Truthy(autoApprove)
    ensures s != Rejected
  {
    if Truthy(autoApprove) then Approved else Pending
  }

  const RegisteredApprovedMessage := "Your company has been registered and approved."
  const SubmittedMessage := "Your company registration has been submitted for approval."
  const RegistrationErrorPrefix := "An error occurred while processing your registration: "

  function ConfirmationMessage(autoApprove: Option<string>): string
  {
    if Truthy(autoApprove) then RegisteredApprovedMessage else SubmittedMessage
  }

  /** The stored data of a registration: the posted fields with the status
      written after them. */
  function RegisteredFields(posted: Fields, autoApprove: Option<string>): Fields
  {
    posted[StatusKey := InitialStatus(autoApprove).Code()]
  }

  /** Every posted field is stored, and the status is the initial one, so a
      posted `status` never survives. */
  lemma RegisteredFieldsContents(posted: Fields, autoApprove: Option<string>)
    ensures var f := RegisteredFields(posted, autoApprove);
            && f.Keys == posted.Keys + {StatusKey}
            && f[StatusKey] == InitialStatus(autoApprove).Code()
            && (forall k :: k in posted && k != StatusKey ==> f[k] == posted[k])
  {
  }

  /** A non-POST request only redirects. A POST creates a company from the
      posted data with the initial status, saves it under a new key and
      confirms; if the save throws, the table is unchanged and an error is
      queued instead. Every path ends on the registration page. */
  method Register(isPost: bool, posted: Fields, autoApprove: Option<string>, saveFailure: Option<string>,
                  table: CompanyTable, messages: MessageManager)
    returns (redirect: string)
    requires table.Valid()
    modifies table, messages
    ensures table.Valid() && redirect == IndexRedirect
    ensures !isPost ==> table.rows == old(table.rows) && messages.log == old(messages.log)
    ensures isPost && saveFailure.Some? ==>
              && table.rows == old(table.rows)
              && messages.log == old(messages.log) + [Error(RegistrationErrorPrefix + saveFailure.value)]
    ensures isPost && saveFailure.None? ==>
              && old(table.nextId) !in old(table.rows)
              && table.rows == old(table.rows)[old(table.nextId) := RegisteredFields(posted, autoApprove)]
              && messages.log == old(messages.log) + [Success(ConfirmationMessage(autoApprove))]
  {
    if !isPost {
      return IndexRedirect;
    }
    var company := new Company();
    company.SetData(posted);
    var message;
    if Truthy(autoApprove) {
      company.SetStatus(Approved.Code());
      message := RegisteredApprovedMessage;
    } else {
      company.SetStatus(Pending.Code());
      message := SubmittedMessage;
    }
    if saveFailure.Some? {
      messages.AddErrorMessage(RegistrationErrorPrefix + saveFailure.value);
    } else {
      table.Save(company);
      messages.AddSuccessMessage(message);
    }
    return IndexRedirect;
  }
}
