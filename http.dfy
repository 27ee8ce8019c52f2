/** What the Express handlers of the API read and write: the JSON body of a
    POST or PATCH, the field errors of the validator chain, and the status
    and JSON payload of a response. */
module Http {
  import opened Wrappers
  import opened Schema

  /** A parsed request body. Every field is either missing or JSON null
      (None; both reach SQL as NULL) or a string. */
  datatype Body = Body(
    company: Option<string>,
    role: Option<string>,
    status: Option<string>,
    appliedDate: Option<string>,
    notes: Option<string>,
    jobLink: Option<string>)

  const EmptyBody: Body := Body(None, None, None, None, None, None)

  /** One entry of `validationResult(req).array()`: the body field and the
      chain's message. */
  datatype FieldError = FieldError(path: string, msg: string)

  /** The JSON payloads the API sends. */
  datatype Json =
    | RowJson(row: Row)
    | RowsJson(rows: seq<Row>)
    | ErrorsJson(errors: seq<FieldError>)
    | ErrorJson(error: string)
    | MessageJson(message: string)

  datatype Response = Response(status: nat, json: Json)

  /** The application's last error handler (server/server.js:44-47): an error
      a handler passes to `next` becomes this generic 500 response. */
  const InternalError: Response := Response(500, ErrorJson("Something went wrong!"))
}
