/** The HTTP statuses the backend answers with. */
module Http {

  datatype Status =
    | Ok200            // res.json(...) / res.sendStatus(200)
    | Created201
    | BadRequest400    // missing or invalid body fields
    | Unauthorized401  // no token, unknown cédula, wrong password
    | Forbidden403     // invalid token, wrong role, not the owner
    | NotFound404
    | Conflict409      // unique-key violation (PostgreSQL code 23505)
    | Internal500      // any other database or server error


  /** The answer of a read-only endpoint: the rows it returns, or an error. */
  datatype Reply<+T> = Answer(rows: T) | Refused(status: Status)
}
