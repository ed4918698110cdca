/** What the request pipeline promises: which reads happen, which fixed
    response each failure produces and in which order failures are checked,
    when the handler is reached, and how its result becomes the response. */
module EndpointProperties {
  import opened Http
  import opened Endpoint

  /** Two requests that agree on everything the adapter looks at: the method,
      the headers, the query and the outcome of the one read the content type
      selects. The outcomes of the reads that are not selected may differ. */
  predicate SameSelectedRead(a: Request, b: Request) {
    && a.httpMethod == b.httpMethod
    && a.headers == b.headers
    && a.query == b.query
    && (CarriesBody(a.httpMethod) ==>
          match Dispatch(ContentType(a))
          case Json => a.json == b.json
          case Multipart => a.form == b.form
          case Text => a.text == b.text)
  }

  /** At most one way of reading the body is used, and none for a method that
      carries no body: the outcomes of the other reads cannot change the
      response. */
  lemma OnlySelectedReadMatters(adapter: Adapter, a: Request, b: Request, params: Value)
    requires SameSelectedRead(a, b)
    ensures ReadBody(a) == ReadBody(b)
    ensures Serve(adapter, a, params) == Serve(adapter, b, params)
  {
  }

  /** A method other than POST, PUT and PATCH leaves the body null; with no
      body schema the body then validates to the default `{}`. */
  lemma NoBodyForOtherMethods(options: Options, req: Request)
    requires !CarriesBody(req.httpMethod)
    ensures ReadBody(req) == Continue(Null)
    ensures options.bodySchema.None? ==> BodyResult(options.bodySchema, ReadBody(req).body) == Success(Obj(map[]))
  {
  }

  /** A request without a content-type header is read as text. */
  lemma MissingContentTypeIsText(req: Request)
    requires "content-type" !in req.headers
    ensures Dispatch(ContentType(req)) == Text
  {
  }

  /** A JSON content type wins over a multipart one in the same header. */
  lemma JsonBeforeMultipart(contentType: string)
    requires Includes(contentType, "application/json") && Includes(contentType, "multipart/form-data")
    ensures Dispatch(contentType) == Json
  {
  }

  /** A JSON body that fails to parse ends the request with exactly
      `400 {error: "Invalid JSON body"}`, whatever the schemas say of the
      query and whatever the handler would have done. */
  lemma InvalidJsonRejected(adapter: Adapter, req: Request, params: Value)
    requires CarriesBody(req.httpMethod) && Dispatch(ContentType(req)) == Json
    requires req.json.ReadError?
    ensures Admit(adapter.options, req, params) == Rejected(InvalidJsonBody)
    ensures Serve(adapter, req, params) == InvalidJsonBody
  {
  }

  /** A multipart body that fails to decode ends the request with exactly
      `400 {error: "No form data found"}`, before the query is consulted. */
  lemma InvalidFormRejected(adapter: Adapter, req: Request, params: Value)
    requires CarriesBody(req.httpMethod) && Dispatch(ContentType(req)) == Multipart
    requires req.form.ReadError?
    ensures Admit(adapter.options, req, params) == Rejected(NoFormDataFound)
    ensures Serve(adapter, req, params) == NoFormDataFound
  {
  }

  /** A decoded multipart body reaches validation as the object
      `formDataToObject` builds from its entries. */
  lemma FormBodyIsObject(req: Request)
    requires CarriesBody(req.httpMethod) && Dispatch(ContentType(req)) == Multipart
    requires req.form.Ok?
    ensures ReadBody(req) == Continue(Obj(FormData.ToObject(req.form.value)))
  {
  }

  /** A text body that cannot be read is swallowed: the request goes on with
      a null body, exactly as a GET request would. */
  lemma TextReadErrorSwallowed(adapter: Adapter, req: Request, params: Value)
    requires CarriesBody(req.httpMethod) && Dispatch(ContentType(req)) == Text
    requires req.text.ReadError?
    ensures ReadBody(req) == Continue(Null)
    ensures Serve(adapter, req, params) == Serve(adapter, req.(httpMethod := "GET"), params)
  {
  }

  /** A configured body schema is applied even when the body is null. */
  lemma BodySchemaSeesNull(schema: Schema)
    ensures BodyResult(Some(schema), Null) == schema(Null)
  {
  }

  /** Once the body has been read, the request is rejected with exactly
      `400 {error: "Invalid request data"}` if and only if the query or the
      body fails its schema. */
  lemma InvalidRequestDataIff(options: Options, req: Request, params: Value)
    requires ReadBody(req).Continue?
    ensures Admit(options, req, params) == Rejected(InvalidRequestData) <==>
      || SafeParse(options.querySchema, QueryObject(req.query)).Failure?
      || BodyResult(options.bodySchema, ReadBody(req).body).Failure?
    ensures Admit(options, req, params).Admitted? <==> Admit(options, req, params) != Rejected(InvalidRequestData)
  {
  }

  /** A rejected request never reaches the handler: any two handlers give
      the same response, the rejection itself. */
  lemma RejectedIgnoresHandler(options: Options, h1: Option<Handler>, h2: Option<Handler>, req: Request, params: Value)
    requires Admit(options, req, params).Rejected?
    ensures Serve(Adapter(options, h1), req, params) == Admit(options, req, params).response
    ensures Serve(Adapter(options, h2), req, params) == Serve(Adapter(options, h1), req, params)
  {
  }

  /** A handler body that fails the response schema gives exactly
      `500 {error: "Invalid response data"}`, whatever status the handler
      declared. */
  lemma InvalidResponseRejected(adapter: Adapter, req: Request, params: Value)
    requires Admit(adapter.options, req, params).Admitted?
    requires Call(adapter.handler, Admit(adapter.options, req, params).input).Returned?
    requires SafeParse(adapter.options.responseSchema, Call(adapter.handler, Admit(adapter.options, req, params).input).body).Failure?
    ensures Serve(adapter, req, params) == InvalidResponseData
  {
  }

  /** A request that is admitted, whose handler returns, and whose response
      schema accepts the handler's body gets the handler's status and headers
      with the data the schema returned, whatever the body was read from. */
  lemma AcceptedResponseDelivered(adapter: Adapter, req: Request, params: Value, data: Value)
    requires Admit(adapter.options, req, params).Admitted?
    requires Call(adapter.handler, Admit(adapter.options, req, params).input).Returned?
    requires SafeParse(adapter.options.responseSchema, Call(adapter.handler, Admit(adapter.options, req, params).input).body) == Success(data)
    ensures
      var out := Call(adapter.handler, Admit(adapter.options, req, params).input);
      Serve(adapter, req, params) == Response(out.status, data, out.headers)
  {
  }

  /** A handler that throws gives exactly `500 {error: "Internal Server Error"}`. */
  lemma ThrowingHandlerIs500(adapter: Adapter, req: Request, params: Value)
    requires Admit(adapter.options, req, params).Admitted?
    requires Call(adapter.handler, Admit(adapter.options, req, params).input).Threw?
    ensures Serve(adapter, req, params) == InternalServerError
  {
  }

  /** An options object given without a handler makes every admitted request
      fail with a 500: the missing handler is called and throws. */
  lemma MissingHandlerIs500(options: Options, req: Request, params: Value)
    requires Admit(options, req, params).Admitted?
    ensures Respond(WithOptions(options), None, req, params) == InternalServerError
  {
  }

  /** `endpoint(handler)` behaves as `endpoint({}, handler)`, whatever second
      argument comes with it. */
  lemma HandlerAloneMeansNoSchemas(h: Handler, other: Option<Handler>, req: Request, params: Value)
    ensures Respond(HandlerOnly(h), other, req, params) == Respond(WithOptions(NoSchemas), Some(h), req, params)
  {
  }

  /** With no schema at all, a GET request reaches the handler with the query
      as an object of strings and `{}` as its body. */
  lemma NoSchemasAdmitsGet(req: Request, params: Value)
    requires req.httpMethod == "GET"
    ensures Admit(NoSchemas, req, params) == Admitted(HandlerInput(params, QueryObject(req.query), Obj(map[]), req.headers))
  {
  }

  /** A JSON body that is literally `null` counts as no body: without a body
      schema it validates to the default `{}`. */
  lemma JsonNullIsNoBody(req: Request)
    requires CarriesBody(req.httpMethod) && Dispatch(ContentType(req)) == Json
    requires req.json == Ok(Null)
    ensures BodyResult(None, ReadBody(req).body) == Success(Obj(map[]))
  {
  }
}
