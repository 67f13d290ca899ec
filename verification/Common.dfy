/** Result types shared by every component of the model. */
module Common {

  datatype Option<+T> = None | Some(value: T)

  /** The HTTP errors the routes raise, and the server error an uncaught exception turns into. */
  datatype HttpError =
    | BadRequest
    | Forbidden
    | NotFound
    | Conflict
    | Gone
    | Unprocessable
    | ServerError

  datatype Outcome = Ok | Err(error: HttpError)

  /** Any next row of a query whose order is not specified. */
  method PickFrom<T>(rows: set<T>) returns (row: T)
    requires rows != {}
    ensures row in rows
  {
    row :| row in rows;
  }

  lemma AnyOf<T>(rows: set<T>) returns (row: T)
    requires rows != {}
    ensures row in rows
  {
    row :| row in rows;
  }
}

/** Rows several components read: what a grant allows and where a request stands. */
module Records {

  datatype AccessType = SshOnly | LimitedSudo | FullSudo

  datatype GrantStatus = Active | Revoked | Expired

  datatype RequestStatus = Pending | Approved | Rejected | Denied | Cancelled
}

/** A parsed JSON document.  A dictionary keeps its entries in insertion order; numbers are taken as integers. */
module JsonTrees {

  datatype Json = Null | Bool(b: bool) | Number(n: int) | Text(s: string) | List(items: seq<Json>)
        | Dict(entries: seq<Entry>)

  datatype Entry = Entry(key: string, value: Json)
}
