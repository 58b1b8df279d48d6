/** What an API route answers: a status, the `message` of its JSON body and,
    for the routes that echo something back, that value. */
module Http {
  import opened JsValues

  const Ok: nat := 200
  const BadRequest: nat := 400
  const NotFound: nat := 404
  const InternalServerError: nat := 500

  datatype Response = Response(status: nat, message: string, payload: Option<Json>)
}
