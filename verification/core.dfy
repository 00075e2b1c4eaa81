/**
 The client of the current package: URL composition, the token header, the
 TLS arguments, and dispatch of the four HTTP verbs. A request is described
 by the arguments the client hands to the transport; sending it is not
 modelled here.
 */
module Core {
  import opened Options
  import opened JsonData
  import opened Errors
  import opened Configuration
  import Decimal

  datatype Verb = GET | POST | PUT | DELETE

  function VerbName(v: Verb): string {
    match v
    case GET => "GET"
    case POST => "POST"
    case PUT => "PUT"
    case DELETE => "DELETE"
  }

  /** The arguments of one call into the transport. */
  datatype HttpRequest = HttpRequest(
    verb: Verb,
    url: string,
    params: Option<map<string, int>>,   // query string, GET only
    json: Option<Json>,                 // JSON payload, POST and PUT only
    headers: map<string, string>,
    verify: Option<string>,             // `verify=` argument
    cert: Option<(string, string)>      // `cert=` argument
  )

  /** `scheme://hostname:port`, the part of every URL that comes from the configuration. */
  function Origin(c: Config): string {
    c.scheme + "://" + c.hostname + ":" + Decimal.Show(c.port)
  }

  /** `_url(endpoint, path=path)`: the sub-path is appended, after a slash, only when it is non-empty. */
  function Url(c: Config, endpoint: string, path: string): (r: string)
    ensures path == "" ==> r == Origin(c) + "/" + endpoint
    ensures path != "" ==> r == Origin(c) + "/" + endpoint + "/" + path
    ensures |r| > |Origin(c) + "/" + endpoint| <==> path != ""
  {
    var value := Origin(c) + "/" + endpoint;
    if |path| > 0 then value + "/" + path else value
  }

  /** Two resource ids give the same URL only if they are the same id. */
  lemma {:induction false} UrlIdentifiesResource(c: Config, endpoint: string, a: int, b: int)
    ensures Url(c, endpoint, Decimal.Show(a)) == Url(c, endpoint, Decimal.Show(b)) <==> a == b
  {
    var prefix := Origin(c) + "/" + endpoint + "/";
    if Url(c, endpoint, Decimal.Show(a)) == Url(c, endpoint, Decimal.Show(b)) {
      assert prefix + Decimal.Show(a) == prefix + Decimal.Show(b);
      assert (prefix + Decimal.Show(a))[|prefix|..] == Decimal.Show(a);
      assert (prefix + Decimal.Show(b))[|prefix|..] == Decimal.Show(b);
      Decimal.ShowInjective(a, b);
    }
  }

  /** `_verify()`: the root CA path when one is configured, otherwise None. */
  function Verify(c: Config): (r: Option<string>)
    ensures r.Some? <==> c.rootCa != ""
    ensures r.Some? ==> r.value == c.rootCa
  {
    if c.rootCa != "" then Some(c.rootCa) else None
  }

  /** `_cert()`: the client certificate pair only when both halves are configured. */
  function Cert(c: Config): (r: Option<(string, string)>)
    ensures r.Some? <==> c.certfile != "" && c.keyfile != ""
    ensures r.Some? ==> r.value == (c.certfile, c.keyfile)
  {
    if c.certfile != "" && c.keyfile != "" then Some((c.certfile, c.keyfile)) else None
  }

  /** `_headers()`: exactly the `X-API-Token` header when a token is configured, otherwise nothing. */
  function Headers(c: Config): (r: map<string, string>)
    ensures "X-API-Token" in r <==> c.xApiToken != ""
    ensures c.xApiToken != "" ==> r == map["X-API-Token" := c.xApiToken]
    ensures c.xApiToken == "" ==> r == map[]
  {
    if c.xApiToken != "" then map["X-API-Token" := c.xApiToken] else map[]
  }

  /**
   `_request(request=verb, url=url, params=params, body=body)`: every verb carries
   the same headers and TLS arguments; only GET passes the query parameters, only
   POST and PUT the JSON body; any other verb is a ValueError.
   */
  function Request(c: Config, verb: string, url: string, params: Option<map<string, int>>, body: Json)
    : (r: Result<HttpRequest>)
    ensures r.Err? <==> verb !in {"GET", "POST", "PUT", "DELETE"}
    ensures r.Err? ==> r.error == ValueError(UnknownMethod(verb))
    ensures r.Ok? ==> VerbName(r.value.verb) == verb && r.value.url == url
    ensures r.Ok? ==> r.value.headers == Headers(c) && r.value.verify == Verify(c) && r.value.cert == Cert(c)
    ensures r.Ok? && verb == "GET" ==> r.value.params == params && r.value.json == None
    ensures r.Ok? && (verb == "POST" || verb == "PUT") ==> r.value.params == None && r.value.json == Some(body)
    ensures r.Ok? && verb == "DELETE" ==> r.value.params == None && r.value.json == None
  {
    var common := HttpRequest(GET, url, None, None, Headers(c), Verify(c), Cert(c));
    if verb == "GET" then Ok(common.(params := params))
    else if verb == "POST" then Ok(common.(verb := POST, json := Some(body)))
    else if verb == "PUT" then Ok(common.(verb := PUT, json := Some(body)))
    else if verb == "DELETE" then Ok(common.(verb := DELETE))
    else Err(ValueError(UnknownMethod(verb)))
  }

  /** `_get(url, params)`. */
  function Get(c: Config, url: string, params: Option<map<string, int>>): (r: HttpRequest)
    ensures r.verb == GET && r.url == url && r.params == params && r.json == None
    ensures r.headers == Headers(c) && r.verify == Verify(c) && r.cert == Cert(c)
  {
    HttpRequest(GET, url, params, None, Headers(c), Verify(c), Cert(c))
  }

  /** `_post(url, body)`. */
  function Post(c: Config, url: string, body: Json): (r: HttpRequest)
    ensures r.verb == POST && r.url == url && r.params == None && r.json == Some(body)
    ensures r.headers == Headers(c) && r.verify == Verify(c) && r.cert == Cert(c)
  {
    HttpRequest(POST, url, None, Some(body), Headers(c), Verify(c), Cert(c))
  }

  /** `_put(url, body)`. */
  function Put(c: Config, url: string, body: Json): (r: HttpRequest)
    ensures r.verb == PUT && r.url == url && r.params == None && r.json == Some(body)
    ensures r.headers == Headers(c) && r.verify == Verify(c) && r.cert == Cert(c)
  {
    HttpRequest(PUT, url, None, Some(body), Headers(c), Verify(c), Cert(c))
  }

  /** `_delete(url)`. */
  function Delete(c: Config, url: string): (r: HttpRequest)
    ensures r.verb == DELETE && r.url == url && r.params == None && r.json == None
    ensures r.headers == Headers(c) && r.verify == Verify(c) && r.cert == Cert(c)
  {
    HttpRequest(DELETE, url, None, None, Headers(c), Verify(c), Cert(c))
  }

  /** The four helpers are `_request` with their verb fixed: none of them can raise the unknown-method error. */
  lemma HelpersDispatch(c: Config, url: string, params: Option<map<string, int>>, body: Json)
    ensures Request(c, "GET", url, params, body) == Ok(Get(c, url, params))
    ensures Request(c, "POST", url, params, body) == Ok(Post(c, url, body))
    ensures Request(c, "PUT", url, params, body) == Ok(Put(c, url, body))
    ensures Request(c, "DELETE", url, params, body) == Ok(Delete(c, url))
  {
  }

  /** With the default configuration no token, no CA and no client certificate are sent, and URLs start `https://:5000/`. */
  lemma DefaultConfigRequests(endpoint: string)
    ensures Headers(Default()) == map[]
    ensures Verify(Default()) == None && Cert(Default()) == None
    ensures Url(Default(), endpoint, "") == "https://:5000/" + endpoint
  {
    assert Decimal.ShowNat(5) == "5";
    assert Decimal.ShowNat(50) == "50";
    assert Decimal.ShowNat(500) == "500";
    assert Decimal.Show(5000) == "5000";
  }
}
