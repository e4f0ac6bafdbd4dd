/** The persistence and session services the controllers use: the company
    table behind the ORM, and the session's flash-message queue. */
module Storage {
  import opened Php
  import opened CompanyModel

  /** An exception a database operation may raise during one request. */
  datatype Fault = NoFault | LoadFails(message: string) | WriteFails(message: string)

  datatype Message = Success(text: string) | Error(text: string)

  class MessageManager {
    var log: seq<Message>

    constructor ()
      ensures log == []
    {
      log := [];
    }

    method AddSuccessMessage(text: string)
      modifies this
      ensures log == old(log) + [Success(text)]
    {
      log := log + [Success(text)];
    }

    method AddErrorMessage(text: string)
      modifies this
      ensures log == old(log) + [Error(text)]
    {
      log := log + [Error(text)];
    }
  }

  /** The company table: rows keyed by an auto-increment primary key. */
  class CompanyTable {
    var rows: map<CompanyId, Fields>
    var nextId: CompanyId

    ghost predicate Valid()
      reads this
    {
      forall k :: k in rows ==> k < nextId
    }

    constructor ()
      ensures Valid() && rows == map[]
    {
      rows := map[];
      nextId := 1;
    }

    /** `load($id)`: a fresh model object holding the row, or without an id
        when there is no such row. */
    method Load(key: Option<CompanyId>) returns (c: Company)
      ensures fresh(c)
      ensures key.Some? && key.value in rows ==> c.id == key && c.fields == rows[key.value]
      ensures !(key.Some? && key.value in rows) ==> c.id == None && c.fields == map[]
    {
      c := new Company();
      if key.Some? && key.value in rows {
        c.id := key;
        c.fields := rows[key.value];
      }
    }

    /** `save()`: a model object with an id writes its row; one without an id
        is inserted under the next key, which it then carries. */
    method Save(c: Company)
      requires Valid()
      modifies this, c
      ensures Valid() && c.fields == old(c.fields)
      ensures old(c.id).Some? ==> c.id == old(c.id) && rows == old(rows)[old(c.id).value := c.fields]
      ensures old(c.id).None? ==>
                old(nextId) !in old(rows) && c.id == Some(old(nextId)) && rows == old(rows)[old(nextId) := c.fields]
    {
      if c.id.Some? {
        rows := rows[c.id.value := c.fields];
        if nextId <= c.id.value {
          nextId := c.id.value + 1;
        }
      } else {
        c.id := Some(nextId);
        rows := rows[nextId := c.fields];
        nextId := nextId + 1;
      }
    }

    /** `delete()` of a model object: its row is removed. */
    method Delete(c: Company)
      requires Valid()
      modifies this
      ensures Valid() && nextId == old(nextId)
      ensures c.id.Some? ==> rows == old(rows) - {c.id.value}
      ensures c.id.None? ==> rows == old(rows)
    {
      if c.id.Some? {
        rows := rows - {c.id.value};
      }
    }
  }
}
