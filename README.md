# next-zod-api: a Dafny model of the `endpoint` request pipeline

This project models `src/NextZodApi.ts` of next-zod-api. That file is an
adapter that wraps a Next.js route handler in zod validation. The model has
three parts.

- `formDataToObject` (module `FormData`). A multipart body is a list of
  (name, value) entries in submission order. It becomes an object: a name
  submitted once maps to its value, and a name submitted several times maps
  to the ordered list of all its values. The conversion is an imperative
  loop that fills a map. It is proved equal to a specification function,
  `ToObject`, and the lemmas about `getAll` say what that function means.
- The closure that `endpoint` returns (modules `Endpoint` and
  `EndpointProperties`). It is modelled as a pure function from an abstract
  request to a `Response(status, body, headers)`. The function goes through
  these steps in order:
  1. Normalise the arguments.
  2. Read the body only for POST, PUT and PATCH.
  3. Dispatch on the content type: JSON, then multipart, then text.
  4. Return a fixed 400 for a JSON or form body that cannot be read.
  5. Validate the query and the body.
  6. Call the handler.
  7. Validate the handler's body against the response schema.
  8. Turn a thrown handler into a 500.

  `Admit` is everything before the handler call, and it does not take the
  handler as an argument. So "the handler is not called" means that `Admit`
  rejected the request. The lemmas show that the response is then the same
  for every handler.
- `cors` (module `Cors`). It builds the two CORS headers with their
  defaults, and a preflight response with status 200 and body `{}`.

Schemas are total functions `Value -> Parsed`, where `Parsed` is
`Success(data)` or `Failure`. An absent schema is `z.any()`, which accepts
its input unchanged. The request carries three read outcomes, one each for
`req.json()`, `req.formData()` and `req.text()`. Each is `Ok(v)` or
`ReadError`, and the adapter looks at at most one of them: none for a
method that carries no body. The handler is a
function to `Returned(status, body, headers?)` or `Threw`. Calling an
`endpoint(options)` that was given no handler throws inside the `try`, so it
gives the 500 response (`MissingHandlerIs500`). The route parameters are
an argument of `Serve`; a call of the closure without its second argument
takes the default `{ params: {} }`, which is `params := Obj(map[])`.

Behaviour worth noting:

- With no content-type header, the body is read as text.
- There are three schemas: query, body and response. There is no separate
  form-data schema: a multipart body is validated by the body schema.
- A body that is literally JSON `null` counts as "no body", so without a
  body schema it validates to the default `{}` (`JsonNullIsNoBody`).

`Serve` is a function, so equal requests, adapters and route parameters
give equal responses. The code agrees only under three conditions:

- the request is a fresh one with the same content, since a request body
  can be read only once;
- the handler neither mutates its input nor keeps state;
- the schemas' defaults and transforms are pure.

## Model

| member | source | states |
|---|---|---|
| FormData.Names | src/NextZodApi.ts:19 | every name of an entry is in the set, and every name in the set belongs to some entry |
| FormData.GetAll | src/NextZodApi.ts:20-21 | `getAll(name)` holds no more values than there are entries, and each value it holds was submitted under that name |
| FormData.Get | src/NextZodApi.ts:23 | `get(name)` is the first value that `getAll(name)` gives, or null when the name is absent |
| FormData.Collapse | src/NextZodApi.ts:20-24 | a name with more than one value gets the list of all its values, a name with one value gets that value, an absent name gets null |
| FormData.ToObject | src/NextZodApi.ts:17-27 | the object's keys are exactly the names that occur in the form |
| FormData.FormDataToObject | src/NextZodApi.ts:17-27 | the loop over the entries' names builds exactly the object `ToObject` specifies |
| FormData.GetAllComplete | src/NextZodApi.ts:20-21 | no value is dropped: every value submitted under a name is in `getAll` of that name |
| FormData.GetAllEmptyIff | src/NextZodApi.ts:19-21 | a name has values if and only if it occurs in the form |
| FormData.GetAllAppend | src/NextZodApi.ts:20-21 | submission order is kept: appending an entry appends its value to its own name's list and leaves every other name's list unchanged |
| FormData.GetAllUnique | src/NextZodApi.ts:20-23 | a name submitted exactly once has exactly that one value |
| FormData.GetAllTwo | src/NextZodApi.ts:20-21 | a name submitted at two positions has at least two values |
| FormData.ObjectKeys | src/NextZodApi.ts:17-27 | a name is a key of the object if and only if some entry has that name |
| FormData.ObjectSingle | src/NextZodApi.ts:22-24 | a name with exactly one entry maps to that entry's value |
| FormData.ObjectMultiple | src/NextZodApi.ts:20-21 | a name with two or more entries maps to the full ordered list of its values |
| Http.ErrorResponse | src/NextZodApi.ts:59-62 | an error response has the given status, no headers, and body `{error: message}` with exactly that one key |
| Endpoint.Includes | src/NextZodApi.ts:55 | `s.includes(sub)` holds if and only if `sub` occurs in `s` at some position |
| Endpoint.SafeParse | src/NextZodApi.ts:42-49 | an absent schema accepts its input unchanged; a configured schema's own result is returned |
| Endpoint.ContentType | src/NextZodApi.ts:47 | the content type is the header's value, or `""` when the header is absent, which includes neither the JSON nor the multipart marker |
| Endpoint.CarriesBody | src/NextZodApi.ts:54 | a body is read exactly for the methods POST, PUT and PATCH, compared case-sensitively |
| Endpoint.QueryObject | src/NextZodApi.ts:49-51 | the query becomes an object with the same keys, each mapped to its string value |
| Endpoint.Dispatch | src/NextZodApi.ts:55-78 | the strategy is JSON if and only if the content type includes `application/json`; multipart if and only if it does not but includes `multipart/form-data`; text otherwise |
| Endpoint.ReadBody | src/NextZodApi.ts:53-79 | a method other than POST, PUT and PATCH gives a null body; on the JSON path a parsed value `v` goes on as `v` and a parse failure halts with "Invalid JSON body"; on the multipart path the entries go on as the object `formDataToObject` builds and a failure halts with "No form data found"; on the text path text `t` goes on as `t` and a failure goes on with null; nothing else halts |
| Endpoint.BodyResult | src/NextZodApi.ts:81-84 | a configured body schema is always applied, even to null; without one, null gives success with `{}` and any other body is accepted as it is |
| Endpoint.Admit | src/NextZodApi.ts:45-91 | a rejection is one of the three 400 responses; an admitted request hands the handler the params, the headers and the data that the query and body schemas returned |
| Endpoint.Call | src/NextZodApi.ts:99 | a present handler is applied to the input; calling a missing handler throws |
| Endpoint.Invoke | src/NextZodApi.ts:93-125 | a throw gives "Internal Server Error"; a body the response schema rejects gives "Invalid response data"; otherwise the response has the handler's status and headers and the schema's data, and headers appear only when the handler gave them |
| Endpoint.Normalize | src/NextZodApi.ts:33-40 | a handler given alone gives no schemas and exactly that handler, whatever the second argument; an options object gives those options and the second argument as the handler |
| Endpoint.Serve | src/NextZodApi.ts:45-126 | a rejected request gets a fixed 400; an admitted request whose handler returns a body the response schema accepts gets the handler's status and headers with the schema's data; every response is a fixed error response or such a handler response |
| Endpoint.Respond | src/NextZodApi.ts:29-126 | `endpoint(argument, handler)` serves with the normalised schemas and handler; an options object without a handler gives 500 "Internal Server Error" to every admitted request |
| EndpointProperties.OnlySelectedReadMatters | src/NextZodApi.ts:54-78 | only the read chosen by the method and the content type can affect the response |
| EndpointProperties.NoBodyForOtherMethods | src/NextZodApi.ts:53-54 | for a method other than POST, PUT or PATCH the body is null, and without a body schema it validates to `{}` |
| EndpointProperties.MissingContentTypeIsText | src/NextZodApi.ts:47 | a request without a content-type header takes the text path |
| EndpointProperties.JsonBeforeMultipart | src/NextZodApi.ts:55-64 | a content type that includes both JSON and multipart takes the JSON path |
| EndpointProperties.InvalidJsonRejected | src/NextZodApi.ts:56-63 | a JSON parse failure gives exactly 400 "Invalid JSON body", whatever the schemas and the handler |
| EndpointProperties.InvalidFormRejected | src/NextZodApi.ts:64-73 | a form decode failure gives exactly 400 "No form data found", whatever the schemas and the handler |
| EndpointProperties.FormBodyIsObject | src/NextZodApi.ts:66-67 | a decoded multipart body is validated as the object `formDataToObject` builds |
| EndpointProperties.TextReadErrorSwallowed | src/NextZodApi.ts:74-77 | a failed text read leaves the body null and the request behaves exactly as a GET request |
| EndpointProperties.BodySchemaSeesNull | src/NextZodApi.ts:81-83 | a configured body schema is applied to a null body |
| EndpointProperties.InvalidRequestDataIff | src/NextZodApi.ts:86-91 | once the body is read, the request gets 400 "Invalid request data" if and only if the query or the body fails its schema; otherwise it is admitted |
| EndpointProperties.RejectedIgnoresHandler | src/NextZodApi.ts:59-91 | a rejected request gets its rejection whatever the handler is, so the handler is never reached |
| EndpointProperties.InvalidResponseRejected | src/NextZodApi.ts:105-112 | a handler body that fails the response schema gives exactly 500 "Invalid response data", whatever status the handler declared |
| EndpointProperties.AcceptedResponseDelivered | src/NextZodApi.ts:105-119 | an admitted request whose handler returns a body that the response schema turns into `data` gets exactly the handler's status, `data` and the handler's headers |
| EndpointProperties.ThrowingHandlerIs500 | src/NextZodApi.ts:120-125 | a handler that throws gives exactly 500 "Internal Server Error" |
| EndpointProperties.MissingHandlerIs500 | src/NextZodApi.ts:93-99 | an options object with no handler gives 500 "Internal Server Error" for every admitted request |
| EndpointProperties.HandlerAloneMeansNoSchemas | src/NextZodApi.ts:34-40 | `endpoint(handler)` responds as `endpoint({}, handler)` does, whatever the second argument is |
| EndpointProperties.NoSchemasAdmitsGet | src/NextZodApi.ts:42-104 | with no schemas, a GET request reaches the handler with its query as an object of strings and `{}` as its body |
| EndpointProperties.JsonNullIsNoBody | src/NextZodApi.ts:57-84 | a JSON body that is literally `null` validates to `{}` when there is no body schema |
| Cors.MakeCors | src/NextZodApi.ts:134-144 | the header map has exactly the two CORS keys, each with the given value or its default |
| Cors.CorsKit.Preflight | src/NextZodApi.ts:145-147 | the preflight response has status 200, body `{}` and exactly the CORS headers |
| Cors.DefaultCors | src/NextZodApi.ts:134-147 | `cors()` allows origin `*` and the headers Content-Type, Authorization and X-Requested-With |

## Left out

- Next.js `NextRequest` and `NextResponse` are not modelled. The request is
  its method, its lower-cased headers, its query and three read outcomes.
  The response is a plain datatype, and JSON serialisation is not modelled.
  An object is a Dafny map, so the key order a handler can observe (the
  first-submission order of a decoded form, the order of a parsed JSON
  body) is not modelled.
- URL parsing and `Object.fromEntries(searchParams)` are not modelled. The
  query is given as an already flattened map from names to strings, so the
  platform's rule for repeated query keys is not modelled.
- Zod is not modelled. A schema is an arbitrary total function. The error
  details that `safeParse` reports are dropped by the code anyway. A schema
  that throws (a refinement or transform that throws) is not modelled: for
  the query and body schemas, whose `safeParse` runs outside the `try`
  (lines 49-51 and 83), the fault would escape the adapter; for the
  response schema (line 105, inside the `try`) it would give 500 "Internal
  Server Error".
- Endpoint.BodyResult: the default result `{ success: true, data: {} }` is
  built once per `endpoint(...)` call (line 43), so every bodyless request
  without a body schema hands the handler the same `{}` object, and a
  handler that writes into it changes what later requests receive. The
  model hands over a fresh `Obj(map[])` each time.
- `async`/`await` is not modelled. A read is an outcome value, and the
  handler is a function to an outcome.
- Endpoint.Serve: `NextResponse.json` at line 119 throws inside the `try`
  for a handler status outside 200-599, and for the statuses 204, 205 and
  304, which may not carry a body; the code then answers 500 "Internal
  Server Error". The model does not capture this: it returns the handler's
  status as it is. A body that JSON serialisation rejects is not modelled
  either.
- Endpoint.Invoke: `new Headers(setHeaders)` at line 116 throws inside the
  `try` on an invalid header name or value, which gives a 500; the model
  passes the handler's headers through unchecked. `if (setHeaders)` is
  modelled as "the handler gave headers"; a falsy non-object value such as
  `0` or `""` is not modelled. The normalisation that the `Headers` class
  applies to names is not modelled.
- Endpoint.ContentType: the request's header names are assumed to be lower
  case already, as the platform's header lookup is case-insensitive; a map
  holding `Content-Type` would take the text path in the model.
- FormData.FormDataToObject: JavaScript's special property name
  `__proto__` is treated like any other name.
- JSON numbers are carried as integers. The adapter never computes with them.
