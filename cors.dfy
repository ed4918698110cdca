/** `cors`: the two CORS headers, with defaults for the options not given,
    and the preflight response that carries them. */
module Cors {
  import opened Http

  const DefaultOrigin := "*"
  const DefaultAllowHeaders := "Content-Type, Authorization, X-Requested-With"

  const AllowOrigin := "Access-Control-Allow-Origin"
  const AllowHeaders := "Access-Control-Allow-Headers"

  /** The options object; an absent field takes its default. */
  datatype CorsOptions = CorsOptions(origin: Option<string>, allowHeaders: Option<string>)

  /** `cors()` called without an argument. */
  const NoCorsOptions := CorsOptions(None, None)

  /** What `cors` returns: the header map and, as a member, the preflight handler. */
  datatype CorsKit = CorsKit(corsHeaders: Headers) {
    /** The preflight response: status 200, body `{}`, the CORS headers. */
    function Preflight(): (r: Response)
      ensures r.status == 200 && r.body == Obj(map[])
      ensures r.headers.Some? && r.headers.value == corsHeaders
    {
      Response(200, Obj(map[]), Some(corsHeaders))
    }
  }

  function MakeCors(options: CorsOptions): (kit: CorsKit)
    ensures kit.corsHeaders.Keys == {AllowOrigin, AllowHeaders}
    ensures options.origin.Some? ==> kit.corsHeaders[AllowOrigin] == options.origin.value
    ensures options.origin.None? ==> kit.corsHeaders[AllowOrigin] == DefaultOrigin
    ensures options.allowHeaders.Some? ==> kit.corsHeaders[AllowHeaders] == options.allowHeaders.value
    ensures options.allowHeaders.None? ==> kit.corsHeaders[AllowHeaders] == DefaultAllowHeaders
  {
    CorsKit(map[
      AllowOrigin := options.origin.GetOr(DefaultOrigin),
      AllowHeaders := options.allowHeaders.GetOr(DefaultAllowHeaders)])
  }

  /** `cors()` allows every origin and the three default request headers,
      and its preflight response carries exactly those two headers. */
  lemma DefaultCors()
    ensures MakeCors(NoCorsOptions).corsHeaders ==
      map[AllowOrigin := "*", AllowHeaders := "Content-Type, Authorization, X-Requested-With"]
    ensures MakeCors(NoCorsOptions).Preflight() ==
      Response(200, Obj(map[]), Some(MakeCors(NoCorsOptions).corsHeaders))
  {
  }
}
