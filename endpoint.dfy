/** The request pipeline built by `endpoint`: argument normalisation, body
    reading gated on the method and dispatched on the content type, query and
    body validation, the handler call, response validation and the mapping of
    a thrown handler onto a 500 response.

    A schema is a total function from a value to `Success(data)` or `Failure`;
    an absent schema is the accept-all schema `z.any()`. The request's body can
    be read as JSON, as form data or as text, and each way of reading it has
    its own outcome; the adapter reads it in at most one way, and in none for
    a method that carries no body. */
module Endpoint {
  import opened Http
  import FormData

  datatype Parsed = Success(data: Value) | Failure

  type Schema = Value -> Parsed

  datatype Options = Options(querySchema: Option<Schema>, bodySchema: Option<Schema>, responseSchema: Option<Schema>)

  /** The options object `{}` that a handler passed alone stands for. */
  const NoSchemas := Options(None, None, None)

  /** What the handler receives. */
  datatype HandlerInput = HandlerInput(params: Value, query: Value, body: Value, headers: Headers)

  /** What the handler's promise settles to: `{ status, body, headers }`
      (headers absent when the handler gave none), or a rejection. */
  datatype HandlerOutcome = Returned(status: int, body: Value, headers: Option<Headers>) | Threw

  type Handler = HandlerInput -> HandlerOutcome

  /** The first argument of `endpoint`: an options object, or the handler itself. */
  datatype Argument = WithOptions(options: Options) | HandlerOnly(handler: Handler)

  /** The adapter after normalisation: its schemas and its handler, which is
      missing when an options object was passed without a second argument. */
  datatype Adapter = Adapter(options: Options, handler: Option<Handler>)

  /** The outcome of one way of reading the body. */
  datatype Read<T> = Ok(value: T) | ReadError

  /** An incoming request. `headers` holds the lower-cased header names,
      `query` the flattened search parameters; `json`, `form` and `text` are
      what `req.json()`, `req.formData()` and `req.text()` would produce. */
  datatype Request = Request(
    httpMethod: string,
    headers: Headers,
    query: map<string, string>,
    json: Read<Value>,
    form: Read<seq<FormData.Entry>>,
    text: Read<string>)

  datatype Strategy = Json | Multipart | Text

  /** Where the request stands once the body has been read. */
  datatype BodyStage = Continue(body: Value) | Halted(response: Response)

  /** Where the request stands once the inputs have been validated. */
  datatype Gate = Rejected(response: Response) | Admitted(input: HandlerInput)

  // ---------------------------------------------------------------- helpers

  /** `sub` occurs in `s` at position `i`. */
  predicate OccursAt(s: string, sub: string, i: nat) {
    i + |sub| <= |s| && s[i..i + |sub|] == sub
  }

  /** `s.includes(sub)`. */
  function Includes(s: string, sub: string): (r: bool)
    ensures r <==> exists i: nat :: OccursAt(s, sub, i)
  {
    if |sub| > |s| then
      assert forall i: nat :: !OccursAt(s, sub, i);
      false
    else if s[..|sub|] == sub then
      assert OccursAt(s, sub, 0);
      true
    else
      var r := Includes(s[1..], sub);
      assert forall i: nat :: OccursAt(s[1..], sub, i) <==> OccursAt(s, sub, i + 1) by {
        forall i: nat ensures OccursAt(s[1..], sub, i) <==> OccursAt(s, sub, i + 1) {
          if i + 1 + |sub| <= |s| {
            assert s[1..][i..i + |sub|] == s[i + 1..i + 1 + |sub|];
          }
        }
      }
      assert !OccursAt(s, sub, 0);
      assert r ==> exists i: nat :: OccursAt(s, sub, i) by {
        if r {
          var i: nat :| OccursAt(s[1..], sub, i);
          assert OccursAt(s, sub, i + 1);
        }
      }
      assert (exists i: nat :: OccursAt(s, sub, i)) ==> r by {
        if exists i: nat :: OccursAt(s, sub, i) {
          var i: nat :| OccursAt(s, sub, i);
          assert i != 0;
          assert OccursAt(s[1..], sub, i - 1);
        }
      }
      r
  }

  /** `(schema || any).safeParse(input)`. */
  function SafeParse(schema: Option<Schema>, input: Value): (r: Parsed)
    ensures schema.None? ==> r == Success(input)
    ensures schema.Some? ==> r == schema.value(input)
  {
    match schema
    case None => Success(input)
    case Some(validate) => validate(input)
  }

  /** `req.headers.get("content-type") || ""`. */
  function ContentType(req: Request): (ct: string)
    ensures "content-type" in req.headers ==> ct == req.headers["content-type"]
    ensures "content-type" !in req.headers ==> ct == "" && !Includes(ct, "application/json") && !Includes(ct, "multipart/form-data")
  {
    if "content-type" in req.headers then req.headers["content-type"] else ""
  }

  /** `Object.fromEntries(searchParams)`: the query as an object of strings. */
  function QueryObject(query: map<string, string>): (v: Value)
    ensures v.Obj? && v.fields.Keys == query.Keys
    ensures forall k :: k in query ==> v.fields[k] == Str(query[k])
  {
    Obj(map k | k in query :: Str(query[k]))
  }

  // --------------------------------------------------------------- pipeline

  /** Only these methods have their body read. */
  predicate CarriesBody(httpMethod: string): (r: bool)
    ensures r <==> httpMethod == "POST" || httpMethod == "PUT" || httpMethod == "PATCH"
  {
    httpMethod in ["POST", "PUT", "PATCH"]
  }

  /** The reading strategy chosen from the content type: JSON first, then
      multipart, then text. */
  function Dispatch(contentType: string): (s: Strategy)
    ensures s == Json <==> Includes(contentType, "application/json")
    ensures s == Multipart <==> !Includes(contentType, "application/json") && Includes(contentType, "multipart/form-data")
    ensures s == Text <==> !Includes(contentType, "application/json") && !Includes(contentType, "multipart/form-data")
  {
    if Includes(contentType, "application/json") then Json
    else if Includes(contentType, "multipart/form-data") then Multipart
    else Text
  }

  /** Lines 53-79: the body is null unless the method carries one; a JSON or
      form-data read that fails ends the request with a 400; a text read that
      fails leaves the body null. */
  function ReadBody(req: Request): (stage: BodyStage)
    ensures !CarriesBody(req.httpMethod) ==> stage == Continue(Null)
    ensures stage.Halted? <==>
      && CarriesBody(req.httpMethod)
      && ((Dispatch(ContentType(req)) == Json && req.json.ReadError?) ||
          (Dispatch(ContentType(req)) == Multipart && req.form.ReadError?))
    ensures stage.Halted? ==> stage.response in {InvalidJsonBody, NoFormDataFound}
    ensures CarriesBody(req.httpMethod) && Dispatch(ContentType(req)) == Json ==>
      stage == (if req.json.Ok? then Continue(req.json.value) else Halted(InvalidJsonBody))
    ensures CarriesBody(req.httpMethod) && Dispatch(ContentType(req)) == Multipart ==>
      stage == (if req.form.Ok? then Continue(Obj(FormData.ToObject(req.form.value))) else Halted(NoFormDataFound))
    ensures CarriesBody(req.httpMethod) && Dispatch(ContentType(req)) == Text ==>
      stage == (if req.text.Ok? then Continue(Str(req.text.value)) else Continue(Null))
  {
    if !CarriesBody(req.httpMethod) then Continue(Null)
    else
      match Dispatch(ContentType(req))
      case Json =>
        (match req.json
         case Ok(v) => Continue(v)
         case ReadError => Halted(InvalidJsonBody))
      case Multipart =>
        (match req.form
         case Ok(entries) => Continue(Obj(FormData.ToObject(entries)))
         case ReadError => Halted(NoFormDataFound))
      case Text =>
        (match req.text
         case Ok(t) => Continue(Str(t))
         case ReadError => Continue(Null))
  }

  /** Lines 81-84: a configured body schema is always applied, even to a null
      body; without one, a null body gives the default success with data `{}`
      and any other body is accepted as it is. */
  function BodyResult(bodySchema: Option<Schema>, body: Value): (r: Parsed)
    ensures bodySchema.Some? ==> r == bodySchema.value(body)
    ensures bodySchema.None? && body == Null ==> r == Success(Obj(map[]))
    ensures bodySchema.None? && body != Null ==> r == Success(body)
  {
    if body != Null || bodySchema.Some? then SafeParse(bodySchema, body)
    else Success(Obj(map[]))
  }

  /** Everything before the handler is called (lines 46-91). The handler is
      not an argument: a request that is rejected here never reaches it. */
  function Admit(options: Options, req: Request, params: Value): (g: Gate)
    ensures g.Rejected? ==> g.response in {InvalidJsonBody, NoFormDataFound, InvalidRequestData}
    ensures g.Admitted? ==>
      && ReadBody(req).Continue?
      && SafeParse(options.querySchema, QueryObject(req.query)) == Success(g.input.query)
      && BodyResult(options.bodySchema, ReadBody(req).body) == Success(g.input.body)
      && g.input.params == params
      && g.input.headers == req.headers
  {
    var queryResult := SafeParse(options.querySchema, QueryObject(req.query));
    match ReadBody(req)
    case Halted(response) => Rejected(response)
    case Continue(body) =>
      var bodyResult := BodyResult(options.bodySchema, body);
      if queryResult.Failure? || bodyResult.Failure? then Rejected(InvalidRequestData)
      else Admitted(HandlerInput(params, queryResult.data, bodyResult.data, req.headers))
  }

  /** Calling the handler; calling a missing handler throws. */
  function Call(handler: Option<Handler>, input: HandlerInput): (out: HandlerOutcome)
    ensures handler.None? ==> out == Threw
    ensures handler.Some? ==> out == handler.value(input)
  {
    match handler
    case None => Threw
    case Some(h) => h(input)
  }

  /** Lines 93-125: the handler's body must pass the response schema, else a
      500 replaces whatever the handler declared; a throw becomes a 500; on
      success the response has the handler's status, the schema's data and
      the handler's headers when it gave any. */
  function Invoke(adapter: Adapter, input: HandlerInput): (r: Response)
    ensures Call(adapter.handler, input).Threw? ==> r == InternalServerError
    ensures Call(adapter.handler, input).Returned? ==>
      var out := Call(adapter.handler, input);
      match SafeParse(adapter.options.responseSchema, out.body)
      case Failure => r == InvalidResponseData
      case Success(data) => r == Response(out.status, data, out.headers)
    ensures r.headers.Some? ==> Call(adapter.handler, input).Returned? && r.headers == Call(adapter.handler, input).headers
  {
    match Call(adapter.handler, input)
    case Threw => InternalServerError
    case Returned(status, body, headers) =>
      match SafeParse(adapter.options.responseSchema, body)
      case Failure => InvalidResponseData
      case Success(data) => Response(status, data, headers)
  }

  /** Lines 33-40: a handler passed alone means no schemas; otherwise the
      options object is used with the second argument as the handler. */
  function Normalize(argument: Argument, handler: Option<Handler>): (adapter: Adapter)
    ensures argument.HandlerOnly? ==> adapter == Adapter(NoSchemas, Some(argument.handler))
    ensures argument.WithOptions? ==> adapter == Adapter(argument.options, handler)
  {
    match argument
    case HandlerOnly(h) => Adapter(NoSchemas, Some(h))
    case WithOptions(options) => Adapter(options, handler)
  }

  /** The closure `endpoint` returns, applied to one request and its route
      parameters. With schemas that never throw, no fault escapes it: the
      response is one of the fixed error responses, or it carries the status
      and headers the handler returned and the data the response schema
      made of the handler's body. */
  function Serve(adapter: Adapter, req: Request, params: Value): (r: Response)
    ensures Admit(adapter.options, req, params).Rejected? ==> r.status == 400 && IsFixedError(r)
    ensures
      || IsFixedError(r)
      || (&& Admit(adapter.options, req, params).Admitted?
          && var out := Call(adapter.handler, Admit(adapter.options, req, params).input);
          && out.Returned?
          && SafeParse(adapter.options.responseSchema, out.body) == Success(r.body)
          && r.status == out.status
          && r.headers == out.headers)
    ensures Admit(adapter.options, req, params).Admitted? ==>
      var out := Call(adapter.handler, Admit(adapter.options, req, params).input);
      out.Returned? && SafeParse(adapter.options.responseSchema, out.body).Success? ==>
        r == Response(out.status, SafeParse(adapter.options.responseSchema, out.body).data, out.headers)
  {
    match Admit(adapter.options, req, params)
    case Rejected(response) => response
    case Admitted(input) => Invoke(adapter, input)
  }

  /** `endpoint(argument, handler)(req, { params })`. */
  function Respond(argument: Argument, handler: Option<Handler>, req: Request, params: Value): (r: Response)
    ensures argument.HandlerOnly? ==> r == Serve(Adapter(NoSchemas, Some(argument.handler)), req, params)
    ensures argument.WithOptions? ==> r == Serve(Adapter(argument.options, handler), req, params)
    ensures argument.WithOptions? && handler.None? && Admit(argument.options, req, params).Admitted? ==>
      r == InternalServerError
  {
    Serve(Normalize(argument, handler), req, params)
  }
}
