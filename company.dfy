/** The company entity (Model/Company.php): a model object over a data array,
    with a status field that carries one of three constant codes. */
module CompanyModel {
  import opened Php

  type CompanyId = nat

  /** The model's data array without its primary key. */
  type Fields = map<string, string>

  const NameKey := "company_name"
  const StatusKey := "status"

  /** The three approval states; `Code` is the string stored in the status field. */
  datatype Status = Pending | Approved | Rejected
  {
    function Code(): string
    {
      match this
      case Pending => "pending"
      case Approved => "approved"
      case Rejected => "rejected"
    }
  }

  /** The status a stored code stands for, if it is one of the three constants. */
  function ParseStatus(code: string): (r: Option<Status>)
    ensures r.Some? ==> r.value.Code() == code
    ensures r.None? ==> code != "pending" && code != "approved" && code != "rejected"
  {
    if code == "pending" then Some(Pending)
    else if code == "approved" then Some(Approved)
    else if code == "rejected" then Some(Rejected)
    else None
  }

  /** Distinct states are stored under distinct codes, and every code reads back as its state. */
  lemma StatusCodesRoundTrip(a: Status, b: Status)
    ensures ParseStatus(a.Code()) == Some(a)
    ensures a.Code() == b.Code() ==> a == b
  {
  }

  class Company {
    var id: Option<CompanyId>
    var fields: Fields

    /** `companyFactory->create()`: a new object with no id and no data. */
    constructor ()
      ensures id == None && fields == map[]
    {
      id := None;
      fields := map[];
    }

    function GetCompanyId(): Option<CompanyId>
      reads this
    {
      id
    }

    function GetCompanyName(): Option<string>
      reads this
    {
      Lookup(fields, NameKey)
    }

    function GetStatus(): Option<string>
      reads this
    {
      Lookup(fields, StatusKey)
    }

    /** `!$company->getId()` fails for a missing id and for the id 0 alike. */
    predicate HasId()
      reads this
    {
      id.Some? && id.value != 0
    }

    /** Strict comparison of the stored status with the approved code. */
    predicate IsApproved()
      reads this
    {
      GetStatus() == Some(Approved.Code())
    }

    /** `setData($data)` with an array: the data array becomes `data`. */
    method SetData(data: Fields)
      modifies this
      ensures fields == data && id == old(id)
    {
      fields := data;
    }

    method SetCompanyName(name: string)
      modifies this
      ensures fields == old(fields)[NameKey := name] && id == old(id)
      ensures GetCompanyName() == Some(name) && GetStatus() == old(GetStatus())
    {
      fields := fields[NameKey := name];
    }

    method SetStatus(status: string)
      modifies this
      ensures fields == old(fields)[StatusKey := status] && id == old(id)
      ensures GetStatus() == Some(status) && GetCompanyName() == old(GetCompanyName())
    {
      fields := fields[StatusKey := status];
    }

    /** No guard on the current status: approving works from every state. */
    method Approve()
      modifies this
      ensures fields == old(fields)[StatusKey := Approved.Code()] && id == old(id)
      ensures IsApproved() && ParseStatus(GetStatus().value) == Some(Approved)
    {
      SetStatus(Approved.Code());
    }

    /** No guard on the current status: rejecting works from every state. */
    method Reject()
      modifies this
      ensures fields == old(fields)[StatusKey := Rejected.Code()] && id == old(id)
      ensures !IsApproved() && ParseStatus(GetStatus().value) == Some(Rejected)
    {
      SetStatus(Rejected.Code());
    }
  }

  /** `isApproved()` holds exactly when the status field holds the approved
      constant; a status that is none of the constants is not approved. */
  lemma IsApprovedMeansApproved(c: Company)
    ensures c.IsApproved() <==> c.GetStatus().Some? && ParseStatus(c.GetStatus().value) == Some(Approved)
  {
  }

  /** Approving (or rejecting) twice leaves the same data as doing it once,
      and the later of approve and reject decides the status. */
  lemma StatusWritesOverwrite(f: Fields, s: Status, t: Status)
    ensures f[StatusKey := s.Code()][StatusKey := s.Code()] == f[StatusKey := s.Code()]
    ensures f[StatusKey := s.Code()][StatusKey := t.Code()] == f[StatusKey := t.Code()]
  {
  }
}
