/**
 The request/response shapes every endpoint of the current client repeats:
 what the server's reply turns into for a create (201), a fetch (200), and an
 update or delete (204), and how partial-update bodies are assembled.
 */
module Exchange {
  import opened Options
  import opened JsonData
  import opened Errors
  import opened Configuration
  import PyOps
  import Core
  import Decimal

  /** What sending a request produced: the transport raised, or a response arrived whose body did (Some) or did not (None) decode as JSON. */
  datatype Reply = SendFailed(cause: Error) | Received(status: int, body: Option<Json>)

  /** One endpoint call: the request handed to the transport and what the call returns or raises. */
  datatype Call<+T> = Call(request: Core.HttpRequest, outcome: Result<T>)

  /** `exception = client._exception(status); raise exception(data['error']['message'])`. */
  function Rejection(status: int, data: Json): (e: Error)
    ensures PyOps.Message(data).Err? ==> e == PyOps.Message(data).error
    ensures PyOps.Message(data).Ok? && status in ErrorMap() ==>
      e == Api(ErrorMap()[status], PyOps.Message(data).value)
    ensures PyOps.Message(data).Ok? && status !in ErrorMap() ==> e == TypeError(NotCallable)
  {
    match PyOps.Message(data)
    case Ok(message) => Raise(Classify(status), message)
    case Err(e) => e
  }

  /**
   A create: the send and the decoding sit inside the `try`, so their failures
   become ConnectionError; 201 returns `int(data['id'])`; any other status raises
   the mapped error with the server's message.
   */
  function CreateOutcome(reply: Reply): (o: Result<int>)
    ensures o.Ok? ==> reply.Received? && reply.status == 201
    ensures reply.SendFailed? ==> o == Err(ConnectionError(reply.cause))
    ensures reply.Received? && reply.body.None? ==> o == Err(ConnectionError(DecodeError))
    ensures reply.Received? && reply.status == 201 && reply.body.Some? ==>
      o == PyOps.IntField(reply.body.value, "id")
    ensures reply.Received? && reply.status != 201 && reply.body.Some? ==>
      o == Err(Rejection(reply.status, reply.body.value))
  {
    match reply
    case SendFailed(e) => Err(ConnectionError(e))
    case Received(_, None) => Err(ConnectionError(DecodeError))
    case Received(status, Some(data)) =>
      if status == 201 then PyOps.IntField(data, "id") else Err(Rejection(status, data))
  }

  /** A single-resource fetch: like a create, but 200 returns the decoded body unchanged. */
  function FetchOutcome(reply: Reply): (o: Result<Json>)
    ensures o.Ok? <==> reply.Received? && reply.status == 200 && reply.body.Some?
    ensures o.Ok? ==> o.value == reply.body.value
    ensures reply.SendFailed? ==> o == Err(ConnectionError(reply.cause))
    ensures reply.Received? && reply.body.None? ==> o == Err(ConnectionError(DecodeError))
    ensures reply.Received? && reply.status != 200 && reply.body.Some? ==>
      o == Err(Rejection(reply.status, reply.body.value))
  {
    match reply
    case SendFailed(e) => Err(ConnectionError(e))
    case Received(_, None) => Err(ConnectionError(DecodeError))
    case Received(status, Some(data)) =>
      if status == 200 then Ok(data) else Err(Rejection(status, data))
  }

  /**
   An update or delete: only the send is inside the `try`; 204 returns True
   without looking at the body; otherwise the body is decoded outside the `try`
   (so an undecodable body raises DecodeError itself) and the mapped error is raised.
   */
  function NoContentOutcome(reply: Reply): (o: Result<bool>)
    ensures o.Ok? <==> reply.Received? && reply.status == 204
    ensures o.Ok? ==> o.value
    ensures reply.SendFailed? ==> o == Err(ConnectionError(reply.cause))
    ensures reply.Received? && reply.status != 204 && reply.body.None? ==> o == Err(DecodeError)
    ensures reply.Received? && reply.status != 204 && reply.body.Some? ==>
      o == Err(Rejection(reply.status, reply.body.value))
  {
    match reply
    case SendFailed(e) => Err(ConnectionError(e))
    case Received(status, body) =>
      if status == 204 then Ok(true)
      else match body
        case None => Err(DecodeError)
        case Some(data) => Err(Rejection(status, data))
  }

  /** An `Optional[str]` argument as the JSON value it would be sent as. */
  function Text(arg: Option<string>): Option<Json> {
    match arg
    case Some(s) => Some(JStr(s))
    case None => None
  }

  /** An `Optional[int]` argument as the JSON value it would be sent as. */
  function Number(arg: Option<int>): Option<Json> {
    match arg
    case Some(n) => Some(JInt(n))
    case None => None
  }

  /** `if arg:` — None, "" and 0 are all left out. */
  predicate Included(arg: Option<Json>) {
    arg.Some? && Truthy(arg.value)
  }

  predicate DistinctNames(candidates: seq<(string, Option<Json>)>) {
    forall i, j :: 0 <= i < j < |candidates| ==> candidates[i].0 != candidates[j].0
  }

  /**
   `body = {}; if arg: body[name] = arg` for each candidate in turn: a field is
   present exactly when its argument is truthy, and no other field is.
   */
  function PartialBody(candidates: seq<(string, Option<Json>)>): (body: Json)
    ensures body.JObj?
    ensures forall k :: HasKey(body.fields, k) ==>
      exists j :: 0 <= j < |candidates| && candidates[j].0 == k && Included(candidates[j].1)
    ensures DistinctNames(candidates) ==>
      forall j :: 0 <= j < |candidates| ==>
        Lookup(body.fields, candidates[j].0) == (if Included(candidates[j].1) then candidates[j].1 else None)
    // like the dict it builds, the body names each field once
    ensures DistinctNames(candidates) ==> DistinctKeys(body.fields)
    decreases |candidates|
  {
    if |candidates| == 0 then JObj([])
    else
      var prior := PartialBody(candidates[..|candidates| - 1]);
      var (name, arg) := candidates[|candidates| - 1];
      var body := if Included(arg) then JObj(prior.fields + [(name, arg.value)]) else prior;
      PartialBodyStep(candidates, prior, body);
      body
  }

  /** The inductive step of `PartialBody`'s contract. */
  lemma {:induction false} PartialBodyStep(candidates: seq<(string, Option<Json>)>, prior: Json, body: Json)
    requires |candidates| > 0 && prior.JObj?
    requires forall k :: HasKey(prior.fields, k) ==>
      exists j :: 0 <= j < |candidates| - 1 && candidates[j].0 == k && Included(candidates[j].1)
    requires DistinctNames(candidates[..|candidates| - 1]) ==>
      forall j :: 0 <= j < |candidates| - 1 ==>
        Lookup(prior.fields, candidates[j].0) == (if Included(candidates[j].1) then candidates[j].1 else None)
    requires DistinctNames(candidates[..|candidates| - 1]) ==> DistinctKeys(prior.fields)
    requires body == (if Included(candidates[|candidates| - 1].1)
                      then JObj(prior.fields + [(candidates[|candidates| - 1].0, candidates[|candidates| - 1].1.value)])
                      else prior)
    ensures body.JObj?
    ensures forall k :: HasKey(body.fields, k) ==>
      exists j :: 0 <= j < |candidates| && candidates[j].0 == k && Included(candidates[j].1)
    ensures DistinctNames(candidates) ==>
      forall j :: 0 <= j < |candidates| ==>
        Lookup(body.fields, candidates[j].0) == (if Included(candidates[j].1) then candidates[j].1 else None)
    ensures DistinctNames(candidates) ==> DistinctKeys(body.fields)
  {
    var n := |candidates| - 1;
    var (name, arg) := candidates[n];
    forall k | HasKey(body.fields, k)
      ensures exists j :: 0 <= j < |candidates| && candidates[j].0 == k && Included(candidates[j].1)
    {
      if !HasKey(prior.fields, k) {
        var i :| 0 <= i < |body.fields| && body.fields[i].0 == k;
        assert Included(arg) && i == |prior.fields|;
        assert candidates[n].0 == k;
      } else {
        var j :| 0 <= j < n && candidates[j].0 == k && Included(candidates[j].1);
        assert candidates[j].0 == k;
      }
    }
    if DistinctNames(candidates) {
      assert DistinctNames(candidates[..n]) by {
        forall i, j | 0 <= i < j < n ensures candidates[..n][i].0 != candidates[..n][j].0 {
          assert candidates[..n][i] == candidates[i] && candidates[..n][j] == candidates[j];
        }
      }
      forall j | 0 <= j < |candidates|
        ensures Lookup(body.fields, candidates[j].0) == (if Included(candidates[j].1) then candidates[j].1 else None)
      {
        if j < n {
          assert candidates[..n][j] == candidates[j];
          if Included(arg) {
            var fs := prior.fields + [(name, arg.value)];
            assert fs[..|fs| - 1] == prior.fields;
            assert candidates[j].0 != name;
          }
        }
      }
      if Included(arg) {
        forall i | 0 <= i < |prior.fields| ensures prior.fields[i].0 != name {
          assert HasKey(prior.fields, prior.fields[i].0);
          var j :| 0 <= j < n && candidates[j].0 == prior.fields[i].0 && Included(candidates[j].1);
        }
      }
    }
  }

  /** The value the request body holds for `name`, if the body is a JSON object with that field. */
  function BodyField(r: Core.HttpRequest, name: string): Option<Json> {
    match r.json
    case Some(JObj(fields)) => Lookup(fields, name)
    case _ => None
  }

  /** The request body is a JSON object whose field names all come from `names`. */
  predicate OnlyFields(r: Core.HttpRequest, names: set<string>) {
    r.json.Some? && r.json.value.JObj? &&
    forall i :: 0 <= i < |r.json.value.fields| ==> r.json.value.fields[i].0 in names
  }

  /** The request body is a JSON object that names each field once, as a Python dict does. */
  predicate FieldsOnce(r: Core.HttpRequest) {
    r.json.Some? && r.json.value.JObj? && DistinctKeys(r.json.value.fields)
  }

  /** POST `body` to `endpoint[/path]`, then the create decision. */
  function Create(c: Config, endpoint: string, path: string, body: Json, reply: Reply): (r: Call<int>)
    ensures r.request.verb == Core.POST && r.request.url == Core.Url(c, endpoint, path)
    ensures r.request.params == None && r.request.json == Some(body)
    ensures r.request.headers == Core.Headers(c) && r.request.verify == Core.Verify(c) && r.request.cert == Core.Cert(c)
    ensures r.outcome == CreateOutcome(reply)
  {
    Call(Core.Post(c, Core.Url(c, endpoint, path), body), CreateOutcome(reply))
  }

  /** GET `endpoint/path` without parameters, then the fetch decision. */
  function Fetch(c: Config, endpoint: string, path: string, reply: Reply): (r: Call<Json>)
    ensures r.request.verb == Core.GET && r.request.url == Core.Url(c, endpoint, path)
    ensures r.request.params == None && r.request.json == None
    ensures r.request.headers == Core.Headers(c) && r.request.verify == Core.Verify(c) && r.request.cert == Core.Cert(c)
    ensures r.outcome == FetchOutcome(reply)
  {
    Call(Core.Get(c, Core.Url(c, endpoint, path), None), FetchOutcome(reply))
  }

  /** PUT `body` to `endpoint/path`, then the no-content decision. */
  function Update(c: Config, endpoint: string, path: string, body: Json, reply: Reply): (r: Call<bool>)
    ensures r.request.verb == Core.PUT && r.request.url == Core.Url(c, endpoint, path)
    ensures r.request.params == None && r.request.json == Some(body)
    ensures r.request.headers == Core.Headers(c) && r.request.verify == Core.Verify(c) && r.request.cert == Core.Cert(c)
    ensures r.outcome == NoContentOutcome(reply)
  {
    Call(Core.Put(c, Core.Url(c, endpoint, path), body), NoContentOutcome(reply))
  }

  /** The field names a partial update may send. */
  function Names(candidates: seq<(string, Option<Json>)>): set<string> {
    set j | 0 <= j < |candidates| :: candidates[j].0
  }

  /**
   A partial update: PUT to `endpoint/path` a body holding exactly the truthy
   candidates, each under its own name, then the no-content decision.
   */
  function PartialUpdate(c: Config, endpoint: string, path: string,
                         candidates: seq<(string, Option<Json>)>, reply: Reply): (r: Call<bool>)
    ensures r.request.verb == Core.PUT && r.request.url == Core.Url(c, endpoint, path)
    ensures r.request.headers == Core.Headers(c) && r.request.params == None
    ensures r.request.verify == Core.Verify(c) && r.request.cert == Core.Cert(c)
    ensures OnlyFields(r.request, Names(candidates))
    ensures DistinctNames(candidates) ==> FieldsOnce(r.request)
    ensures DistinctNames(candidates) ==>
      forall j :: 0 <= j < |candidates| ==>
        BodyField(r.request, candidates[j].0) == (if Included(candidates[j].1) then candidates[j].1 else None)
    ensures r.outcome == NoContentOutcome(reply)
  {
    var body := PartialBody(candidates);
    forall i | 0 <= i < |body.fields|
      ensures body.fields[i].0 in Names(candidates)
    {
      assert HasKey(body.fields, body.fields[i].0);
    }
    Update(c, endpoint, path, body, reply)
  }

  /** What a partial update sends for one candidate: its value when truthy, nothing otherwise. */
  function Sent(arg: Option<Json>): Option<Json> {
    if Included(arg) then arg else None
  }

  /** An `Optional[str]` argument is sent exactly when it is a non-empty string. */
  lemma TextSent(arg: Option<string>)
    ensures Sent(Text(arg)) == if arg.Some? && arg.value != "" then Some(JStr(arg.value)) else None
  {
  }

  /** An `Optional[int]` argument is sent exactly when it is a non-zero number. */
  lemma NumberSent(arg: Option<int>)
    ensures Sent(Number(arg)) == if arg.Some? && arg.value != 0 then Some(JInt(arg.value)) else None
  {
  }

  /** A partial update with one candidate sends at most that field. */
  lemma OneField(c: Config, endpoint: string, path: string, n1: string, v1: Option<Json>, reply: Reply)
    ensures var r := PartialUpdate(c, endpoint, path, [(n1, v1)], reply);
      OnlyFields(r.request, {n1}) && FieldsOnce(r.request) && BodyField(r.request, n1) == Sent(v1)
  {
    var cs := [(n1, v1)];
    assert cs[0].0 == n1;
    assert Names(cs) == {n1};
  }

  /** A partial update with two differently named candidates sends each under its own name and nothing else. */
  lemma TwoFields(c: Config, endpoint: string, path: string, n1: string, v1: Option<Json>,
                  n2: string, v2: Option<Json>, reply: Reply)
    requires n1 != n2
    ensures var r := PartialUpdate(c, endpoint, path, [(n1, v1), (n2, v2)], reply);
      && OnlyFields(r.request, {n1, n2}) && FieldsOnce(r.request)
      && BodyField(r.request, n1) == Sent(v1) && BodyField(r.request, n2) == Sent(v2)
  {
    var cs := [(n1, v1), (n2, v2)];
    assert cs[0].0 == n1 && cs[1].0 == n2;
    assert Names(cs) == {n1, n2};
    assert DistinctNames(cs);
  }

  /** A partial update with three differently named candidates sends each under its own name and nothing else. */
  lemma ThreeFields(c: Config, endpoint: string, path: string, n1: string, v1: Option<Json>,
                    n2: string, v2: Option<Json>, n3: string, v3: Option<Json>, reply: Reply)
    requires n1 != n2 && n1 != n3 && n2 != n3
    ensures var r := PartialUpdate(c, endpoint, path, [(n1, v1), (n2, v2), (n3, v3)], reply);
      && OnlyFields(r.request, {n1, n2, n3}) && FieldsOnce(r.request)
      && BodyField(r.request, n1) == Sent(v1) && BodyField(r.request, n2) == Sent(v2)
      && BodyField(r.request, n3) == Sent(v3)
  {
    var cs := [(n1, v1), (n2, v2), (n3, v3)];
    assert cs[0].0 == n1 && cs[1].0 == n2 && cs[2].0 == n3;
    assert Names(cs) == {n1, n2, n3};
    assert DistinctNames(cs);
  }

  /** DELETE `endpoint[/path]`, then the no-content decision. */
  function Remove(c: Config, endpoint: string, path: string, reply: Reply): (r: Call<bool>)
    ensures r.request.verb == Core.DELETE && r.request.url == Core.Url(c, endpoint, path)
    ensures r.request.params == None && r.request.json == None
    ensures r.request.headers == Core.Headers(c) && r.request.verify == Core.Verify(c) && r.request.cert == Core.Cert(c)
    ensures r.outcome == NoContentOutcome(reply)
  {
    Call(Core.Delete(c, Core.Url(c, endpoint, path)), NoContentOutcome(reply))
  }

  /** A 201 reply carrying the new id, as a JSON number or as its decimal text, makes the create return that id. */
  lemma {:induction false} CreatedIdRoundTrip(n: int)
    ensures CreateOutcome(Received(201, Some(JObj([("id", JInt(n))])))) == Ok(n)
    ensures CreateOutcome(Received(201, Some(JObj([("id", JStr(Decimal.Show(n)))])))) == Ok(n)
  {
    Decimal.ParseShow(n);
  }

  /** As written, a create answered with an unlisted status (418 here) raises TypeError, not UnknownError. */
  lemma UnlistedStatusRaisesTypeError()
    ensures CreateOutcome(Received(418, Some(JObj([("error", JObj([("message", JStr("teapot"))]))]))))
      == Err(TypeError(NotCallable))
    ensures RaiseIntended(418, JStr("teapot")) == Api(UnknownError, JStr("teapot"))
  {
  }
}
