/**
 * The response envelope every route handler returns: `{ success: true, data }`
 * or `{ success: false, error: { code, message, details? } }` with an HTTP
 * status, the table of error codes, and the mapping from database errors to
 * error responses.
 */
module ApiUtils {

  import opened Wrappers
  import opened Js
  import opened Strings

  datatype Body =
    | Success(data: Value)
    | Failure(code: string, message: string, details: Option<Value>)

  datatype Response = Response(status: int, body: Body)

  /** An error reported by the database client: a Postgres / PostgREST code and a message, either possibly absent. */
  datatype DbError = DbError(code: Option<string>, message: Option<string>)

  const ERR_UNAUTHORIZED := "ERR_UNAUTHORIZED"
  const ERR_NOT_FOUND := "ERR_NOT_FOUND"
  const ERR_VALIDATION := "ERR_VALIDATION"
  const ERR_DATABASE := "ERR_DATABASE"
  const ERR_FORBIDDEN := "ERR_FORBIDDEN"
  const ERR_INTERNAL := "ERR_INTERNAL"
  const ERR_DUPLICATE := "ERR_DUPLICATE"
  const ERR_FOREIGN_KEY := "ERR_FOREIGN_KEY"
  const ERR_EXPIRED := "ERR_EXPIRED"
  const ERR_INVALID_STATE := "ERR_INVALID_STATE"
  const ERR_UNKNOWN := "ERR_UNKNOWN"

  /** The ten codes of `ApiErrorCodes`, in declaration order; no two are equal. */
  function ErrorCodes(): (codes: seq<string>)
    ensures |codes| == 10
    ensures forall i, j :: 0 <= i < j < |codes| ==> codes[i] != codes[j]
    ensures ERR_UNKNOWN !in codes
  {
    [ERR_UNAUTHORIZED, ERR_NOT_FOUND, ERR_VALIDATION, ERR_DATABASE, ERR_FORBIDDEN,
     ERR_INTERNAL, ERR_DUPLICATE, ERR_FOREIGN_KEY, ERR_EXPIRED, ERR_INVALID_STATE]
  }

  /** The JSON document a response carries. */
  function Json(b: Body): (v: Value)
    ensures v.Obj? && "success" in v.fields
    ensures v.fields["success"] == Bool(b.Success?)
  {
    match b
    case Success(data) => Obj(map["success" := Bool(true), "data" := data])
    case Failure(code, message, details) =>
      var err := map["code" := Str(code), "message" := Str(message)];
      Obj(map["success" := Bool(false),
              "error" := Obj(if details.Some? then err["details" := details.value] else err)])
  }

  /** `apiSuccess(data, status = 200)`. */
  function ApiSuccess(data: Value, status: int := 200): (r: Response)
    ensures r.status == status && r.body.Success? && r.body.data == data
  {
    Response(status, Success(data))
  }

  /**
   * `apiError(message, code = 'ERR_UNKNOWN', status = 400, details)`: the
   * details are attached only when they are truthy (`...(details && { details })`).
   */
  function ApiError(message: string, code: string := ERR_UNKNOWN, status: int := 400,
                    details: Value := Undefined): (r: Response)
    ensures r.status == status && r.body.Failure?
    ensures r.body.code == code && r.body.message == message
    ensures r.body.details.Some? <==> Truthy(details)
    ensures r.body.details.Some? ==> r.body.details.value == details
  {
    Response(status, Failure(code, message, if Truthy(details) then Some(details) else None))
  }

  /** The error object of a failure document has a `details` key exactly when truthy details were given. */
  lemma ErrorJsonDetails(message: string, code: string, status: int, details: Value)
    ensures var doc := Json(ApiError(message, code, status, details).body);
            "error" in doc.fields && doc.fields["error"].Obj? &&
            ("details" in doc.fields["error"].fields <==> Truthy(details)) &&
            doc.fields["error"].fields["code"] == Str(code) &&
            doc.fields["error"].fields["message"] == Str(message)
  {
  }

  /** The defaults of `apiSuccess` and `apiError`. */
  lemma Defaults(data: Value, message: string)
    ensures ApiSuccess(data).status == 200
    ensures ApiError(message).status == 400 && ApiError(message).body.code == ERR_UNKNOWN
    ensures ApiError(message).body.details.None?
  {
  }

  const MSG_INTERNAL := "Une erreur interne est survenue"
  const MSG_DUPLICATE := "Une ressource avec ces données existe déjà"
  const MSG_FORBIDDEN := "Vous n'avez pas les permissions nécessaires pour cette action"
  const MSG_FOREIGN_KEY := "La référence fournie n'existe pas"
  const MSG_NOT_FOUND := "La ressource demandée n'existe pas"

  /** Whether the error's message mentions "not found" (`error.message?.includes('not found')`). */
  predicate MentionsNotFound(e: DbError) {
    e.message.Some? && Contains(e.message.value, "not found")
  }

  /**
   * `handleSupabaseError`: the three known Postgres codes are checked first, in
   * order; a "not found" message is consulted only when no code matched;
   * anything else is an internal error. The original message always travels
   * in `details.originalError`.
   */
  function HandleDbError(e: DbError): (r: Response)
    ensures r.body.Failure?
    ensures r.body.details == Some(Obj(map["originalError" := OptStr(e.message)]))
    ensures e.code == Some("23505") ==> r.status == 409 && r.body.code == ERR_DUPLICATE
    ensures e.code == Some("42501") ==> r.status == 403 && r.body.code == ERR_FORBIDDEN
    ensures e.code == Some("23503") ==> r.status == 400 && r.body.code == ERR_FOREIGN_KEY
    ensures e.code !in {Some("23505"), Some("42501"), Some("23503")} ==>
              if MentionsNotFound(e) then r.status == 404 && r.body.code == ERR_NOT_FOUND
              else r.status == 500 && r.body.code == ERR_INTERNAL
  {
    var (status, code, message) :=
      if e.code == Some("23505") then (409, ERR_DUPLICATE, MSG_DUPLICATE)
      else if e.code == Some("42501") then (403, ERR_FORBIDDEN, MSG_FORBIDDEN)
      else if e.code == Some("23503") then (400, ERR_FOREIGN_KEY, MSG_FOREIGN_KEY)
      else if MentionsNotFound(e) then (404, ERR_NOT_FOUND, MSG_NOT_FOUND)
      else (500, ERR_INTERNAL, MSG_INTERNAL);
    ApiError(message, code, status, Obj(map["originalError" := OptStr(e.message)]))
  }

  /** Status and code of a mapped database error always agree, and the code is one of `ApiErrorCodes`. */
  lemma DbErrorStatusAgreesWithCode(e: DbError)
    ensures var r := HandleDbError(e);
            r.body.code in ErrorCodes() &&
            (r.status == 409 <==> r.body.code == ERR_DUPLICATE) &&
            (r.status == 403 <==> r.body.code == ERR_FORBIDDEN) &&
            (r.status == 400 <==> r.body.code == ERR_FOREIGN_KEY) &&
            (r.status == 404 <==> r.body.code == ERR_NOT_FOUND) &&
            (r.status == 500 <==> r.body.code == ERR_INTERNAL)
  {
  }
}
