/**
 The older client (`url` / `verify` / `cert` / `exception`), which the
 generic endpoints use. It shares the configuration record and the status
 table with the current client but composes URLs without a sub-path and has
 no request dispatch of its own.
 */
module LegacyCore {
  import opened Options
  import opened JsonData
  import opened Errors
  import opened Configuration
  import Core

  /** `url(endpoint)`: exactly `scheme://hostname:port/endpoint`, the current client's URL with an empty sub-path. */
  function Url(c: Config, endpoint: string): (r: string)
    ensures r == Core.Origin(c) + "/" + endpoint
    ensures r == Core.Url(c, endpoint, "")
  {
    Core.Origin(c) + "/" + endpoint
  }

  /** `verify()`: the root CA path iff it is non-empty, else None. */
  function Verify(c: Config): (r: Option<string>)
    ensures r.Some? <==> c.rootCa != ""
    ensures r.Some? ==> r.value == c.rootCa
  {
    Core.Verify(c)
  }

  /** `cert()`: the (certfile, keyfile) pair iff both are non-empty, else None. */
  function Cert(c: Config): (r: Option<(string, string)>)
    ensures r.Some? <==> c.certfile != "" && c.keyfile != ""
    ensures r.Some? ==> r.value == (c.certfile, c.keyfile)
  {
    Core.Cert(c)
  }

  /** `exception(status)`: the exception class for a listed code, the raw 999 for any other. */
  function Exception(status: int): (h: Handler)
    ensures h.Raises? <==> status in {400, 401, 403, 404, 500, 999}
    ensures h.Raises? ==> h == Raises(ErrorMap()[status])
    ensures status == 999 ==> h == Raises(UnknownError)
  {
    Classify(status)
  }

  /**
   The call the generic endpoints make straight into the transport
   (`requests.get/post(url, [json=body,] verify=..., cert=...)`): only the TLS
   arguments of this client, never a token header or query parameters.
   */
  function DirectRequest(c: Config, verb: Core.Verb, url: string, json: Option<Json>): (r: Core.HttpRequest)
    ensures r.headers == map[] && r.params == None
    ensures r.verify == Verify(c) && r.cert == Cert(c)
    ensures r.verb == verb && r.url == url && r.json == json
  {
    Core.HttpRequest(verb, url, None, json, map[], Verify(c), Cert(c))
  }
}
