/**
 The packaged generic endpoints of the older client (`libs/pyDUDe/endpoints`):
 the API version, application authentication and user validation. They talk
 to the transport directly, with the older client's URL and TLS settings and
 no token header; the send and the decoding sit inside the `try`.
 */
module Generic {
  import opened Options
  import opened JsonData
  import opened Errors
  import opened Configuration
  import opened Exchange
  import PyOps
  import Core
  import LegacyCore

  /** A 200 reply returns `data[field]` (looked up outside the `try`); any other status raises the mapped error. */
  function FieldOutcome(reply: Reply, field: string): (o: Result<Json>)
    ensures o.Ok? ==> reply.Received? && reply.status == 200 && reply.body.Some?
    ensures reply.SendFailed? ==> o == Err(ConnectionError(reply.cause))
    ensures reply.Received? && reply.body.None? ==> o == Err(ConnectionError(DecodeError))
    ensures reply.Received? && reply.status == 200 && reply.body.Some? ==>
      o == PyOps.Subscript(reply.body.value, field)
    ensures reply.Received? && reply.status != 200 && reply.body.Some? ==>
      o == Err(Rejection(reply.status, reply.body.value))
  {
    match reply
    case SendFailed(e) => Err(ConnectionError(e))
    case Received(_, None) => Err(ConnectionError(DecodeError))
    case Received(status, Some(data)) =>
      if status == 200 then PyOps.Subscript(data, field) else Err(Rejection(status, data))
  }

  /** `version()`: GET `version` with only the TLS arguments; 200 gives `data['version']`. */
  function Version(c: Config, reply: Reply): (r: Call<Json>)
    ensures r.request == LegacyCore.DirectRequest(c, Core.GET, Core.Origin(c) + "/version", None)
    ensures r.outcome == FieldOutcome(reply, "version")
  {
    Call(LegacyCore.DirectRequest(c, Core.GET, LegacyCore.Url(c, "version"), None), FieldOutcome(reply, "version"))
  }

  /** The body `{name, apikey}` an application authenticates with. */
  function Credentials(appname: string, apikey: string): Json {
    JObj([("name", JStr(appname)), ("apikey", JStr(apikey))])
  }

  /** `authenticate(appname, apikey)`: POST `{name, apikey}` to `auth`; 200 gives `data['token']`. */
  function Authenticate(c: Config, appname: string, apikey: string, reply: Reply): (r: Call<Json>)
    ensures r.request == LegacyCore.DirectRequest(c, Core.POST, Core.Origin(c) + "/auth",
                                                  Some(JObj([("name", JStr(appname)), ("apikey", JStr(apikey))])))
    ensures r.outcome == FieldOutcome(reply, "token")
  {
    Call(LegacyCore.DirectRequest(c, Core.POST, LegacyCore.Url(c, "auth"), Some(Credentials(appname, apikey))),
         FieldOutcome(reply, "token"))
  }

  /** A decodable 200 says the user holds the right, a decodable 403 says they do not; anything else raises. */
  function ValidateOutcome(reply: Reply): (o: Result<bool>)
    ensures o.Ok? <==> reply.Received? && reply.body.Some? && (reply.status == 200 || reply.status == 403)
    ensures o.Ok? ==> (o.value <==> reply.status == 200)
    ensures reply.SendFailed? ==> o == Err(ConnectionError(reply.cause))
    ensures reply.Received? && reply.body.None? ==> o == Err(ConnectionError(DecodeError))
    ensures reply.Received? && reply.status != 200 && reply.status != 403 && reply.body.Some? ==>
      o == Err(Rejection(reply.status, reply.body.value))
  {
    match reply
    case SendFailed(e) => Err(ConnectionError(e))
    case Received(_, None) => Err(ConnectionError(DecodeError))
    case Received(status, Some(data)) =>
      if status == 200 then Ok(true)
      else if status == 403 then Ok(false)
      else Err(Rejection(status, data))
  }

  /** The body `{email, right, token}` a validation sends. */
  function Query(email: string, right: string, token: string): Json {
    JObj([("email", JStr(email)), ("right", JStr(right)), ("token", JStr(token))])
  }

  /** `validate(email, right, token)`: POST `{email, right, token}` to `validate`, then the validation decision. */
  function Validate(c: Config, email: string, right: string, token: string, reply: Reply): (r: Call<bool>)
    ensures r.request == LegacyCore.DirectRequest(c, Core.POST, Core.Origin(c) + "/validate",
      Some(JObj([("email", JStr(email)), ("right", JStr(right)), ("token", JStr(token))])))
    ensures r.outcome == ValidateOutcome(reply)
  {
    Call(LegacyCore.DirectRequest(c, Core.POST, LegacyCore.Url(c, "validate"), Some(Query(email, right, token))),
         ValidateOutcome(reply))
  }
}
