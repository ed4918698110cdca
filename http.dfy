/** Values and responses shared by the endpoint adapter and the CORS helper.
    A `Value` stands for any JavaScript value the adapter passes around
    (a parsed JSON body, a decoded form, a text body, validated data); a
    `Response` is what `NextResponse.json(body, { status, headers })` builds. */
module Http {

  datatype Option<+T> = None | Some(value: T) {
    function GetOr(default: T): T {
      match this
      case Some(v) => v
      case None => default
    }
  }

  /** The JavaScript values the adapter sees. Numbers are only carried, never
      computed with, so an integer stands for them. A file part of a
      multipart body is a `File`. */
  datatype Value =
    | Null
    | Bool(b: bool)
    | Number(n: int)
    | Str(s: string)
    | List(items: seq<Value>)
    | Obj(fields: map<string, Value>)
    | File(name: string)

  type Headers = map<string, string>

  /** An HTTP response: status code, JSON body and, when one was given, the
      header set passed to `NextResponse.json`. */
  datatype Response = Response(status: int, body: Value, headers: Option<Headers>)

  /** `NextResponse.json({ error: message }, { status })`. */
  function ErrorResponse(status: int, message: string): (r: Response)
    ensures r.status == status && r.headers.None?
    ensures r.body.Obj? && r.body.fields.Keys == {"error"} && r.body.fields["error"] == Str(message)
  {
    Response(status, Obj(map["error" := Str(message)]), None)
  }

  // The five fixed error responses of the adapter.
  const InvalidJsonBody := ErrorResponse(400, "Invalid JSON body")
  const NoFormDataFound := ErrorResponse(400, "No form data found")
  const InvalidRequestData := ErrorResponse(400, "Invalid request data")
  const InvalidResponseData := ErrorResponse(500, "Invalid response data")
  const InternalServerError := ErrorResponse(500, "Internal Server Error")

  predicate IsFixedError(r: Response) {
    r in {InvalidJsonBody, NoFormDataFound, InvalidRequestData, InvalidResponseData, InternalServerError}
  }
}
