/**
 The generic calls of the older package (`_version`, `_authenticate`,
 `_validate`). Authentication and validation are the same calls as the
 current package's; the version call differs: a non-200 reply returns None
 instead of raising, and the decoding and the `version` lookup sit inside
 the `try`, so their failures become ConnectionError too.
 */
module LegacyGeneric {
  import opened Options
  import opened JsonData
  import opened Errors
  import opened Configuration
  import opened Exchange
  import PyOps
  import Core
  import LegacyCore
  import Generic

  /**
   `_version`'s decision. `Ok(None)` is the early `return None` on a non-200
   status; on 200 it is `data['version']`, so a null version is `Ok(Some(JNull))`,
   which the caller also sees as None. Every failure on the way is wrapped in
   ConnectionError.
   */
  function VersionOutcome(reply: Reply): (o: Result<Option<Json>>)
    ensures o == Ok(None) <==> reply.Received? && reply.status != 200
    ensures o.Err? ==> o.error.ConnectionError?
    ensures reply.SendFailed? ==> o == Err(ConnectionError(reply.cause))
    ensures reply.Received? && reply.status == 200 && reply.body.None? ==> o == Err(ConnectionError(DecodeError))
    ensures reply.Received? && reply.status == 200 && reply.body.Some? ==>
      match PyOps.Subscript(reply.body.value, "version")
      case Ok(v) => o == Ok(Some(v))
      case Err(e) => o == Err(ConnectionError(e))
  {
    match reply
    case SendFailed(e) => Err(ConnectionError(e))
    case Received(status, body) =>
      if status != 200 then Ok(None)
      else match body
        case None => Err(ConnectionError(DecodeError))
        case Some(data) =>
          match PyOps.Subscript(data, "version")
          case Ok(v) => Ok(Some(v))
          case Err(e) => Err(ConnectionError(e))
  }

  /** `_version()`: GET `version` with only the TLS arguments, then the version decision. */
  function Version(c: Config, reply: Reply): (r: Call<Option<Json>>)
    ensures r.request == Generic.Version(c, reply).request
    ensures r.outcome == VersionOutcome(reply)
  {
    Call(LegacyCore.DirectRequest(c, Core.GET, LegacyCore.Url(c, "version"), None), VersionOutcome(reply))
  }

  /** `_authenticate(appname, apikey)`: the same request and decision as the current `authenticate`. */
  function Authenticate(c: Config, appname: string, apikey: string, reply: Reply): (r: Call<Json>)
    ensures r.request == LegacyCore.DirectRequest(c, Core.POST, Core.Origin(c) + "/auth",
                                                  Some(JObj([("name", JStr(appname)), ("apikey", JStr(apikey))])))
    ensures r.outcome == Generic.FieldOutcome(reply, "token")
  {
    Call(LegacyCore.DirectRequest(c, Core.POST, LegacyCore.Url(c, "auth"), Some(Generic.Credentials(appname, apikey))),
         Generic.FieldOutcome(reply, "token"))
  }

  /** `_validate(email, right, token)`: the same request and decision as the current `validate`. */
  function Validate(c: Config, email: string, right: string, token: string, reply: Reply): (r: Call<bool>)
    ensures r.request == LegacyCore.DirectRequest(c, Core.POST, Core.Origin(c) + "/validate",
      Some(JObj([("email", JStr(email)), ("right", JStr(right)), ("token", JStr(token))])))
    ensures r.outcome == Generic.ValidateOutcome(reply)
  {
    Call(LegacyCore.DirectRequest(c, Core.POST, LegacyCore.Url(c, "validate"),
                                  Some(Generic.Query(email, right, token))),
         Generic.ValidateOutcome(reply))
  }

  /**
   The two version calls agree on a decodable 200 reply that carries a version,
   and disagree on every decodable non-200 reply: the older call returns None
   where the current one raises.
   */
  lemma VersionCallsCompared(c: Config, reply: Reply)
    ensures reply.Received? && reply.status == 200 && reply.body.Some? &&
            PyOps.Subscript(reply.body.value, "version").Ok? ==>
      Version(c, reply).outcome == Ok(Some(Generic.Version(c, reply).outcome.value))
    ensures reply.Received? && reply.status != 200 && reply.body.Some? ==>
      Version(c, reply).outcome == Ok(None) && Generic.Version(c, reply).outcome.Err?
  {
  }
}
