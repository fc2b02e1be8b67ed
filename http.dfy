/** What a route handler answers: a status code and a body. */
module Http {
  import opened Values

  datatype Body =
    | Message(text: string)         // a fixed text, sent as JSON or as plain text
    | Item(record: Record)          // one record, sent as JSON
    | Items(records: seq<Record>)   // a whole store, sent as a JSON array
    | Token(token: string)          // `{ token }` from the login route

  datatype Response = Response(status: nat, body: Body)

  const OK: nat := 200
  const Created: nat := 201
  const Unauthorized: nat := 401
  const Forbidden: nat := 403
  const NotFound: nat := 404
  const ServerError: nat := 500
}
