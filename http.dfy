/** What the controllers send back, and the uploaded file multer attaches to
    a request. */
module Http {
  import opened Js

  /** A response: its status code and its JSON body. */
  datatype Response = Response(status: int, body: Doc)

  /** `req.file` after multer stored it. */
  datatype UploadedFile = UploadedFile(fieldname: string, filename: string, size: nat)

  const InternalError: string := "Internal server error"

  /** `res.status(status).json({ success: false, message })` */
  function Failure(status: int, message: string): Response
  {
    Response(status, map["success" := Bool(false), "message" := Str(message)])
  }

  /** The handlers' `catch`: `error.statusCode || 500` and
      `error.message || "Internal server error"`. */
  function ErrorResponse(e: Error): (r: Response)
    ensures r.status == StatusOr500(e)
    ensures e.message != "" ==> r == Failure(StatusOr500(e), e.message)
    ensures e.message == "" ==> r == Failure(StatusOr500(e), InternalError)
  {
    Failure(StatusOr500(e), MessageOr(e, InternalError))
  }

  /** `res.status(status).json({ success: true, message, data })` */
  function Success(status: int, message: string, data: Json): Response
  {
    Response(status, map["success" := Bool(true), "message" := Str(message), "data" := data])
  }

  /** A filter's result as a JSON value: `null` for none. */
  function OrNull(d: Option<Doc>): Json
  {
    if d.Some? then Obj(d.value) else Null
  }
}
