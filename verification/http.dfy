/** What a Flask route hands back: `jsonify({"error": ...}), code` or `jsonify(body), code`. */
module Http {

  datatype Response<+T> =
    | Error(status: int, message: string)
    | Reply(status: int, body: T)

  const BadRequest := 400
  const Unauthorized := 401
  const Forbidden := 403
  const NotFound := 404
  const Conflict := 409
  const ServerError := 500
}
