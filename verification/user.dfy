/**
 The user endpoints: the `users` collection and one user at `users/<id>`.
 A user belongs to a team; an update sends only the fields given a truthy value.
 */
module User {
  import opened Options
  import opened JsonData
  import opened Errors
  import opened Configuration
  import opened Exchange
  import Pagination
  import Core
  import Decimal

  /** The sub-path of one user. */
  function UserPath(userId: int): string {
    Decimal.Show(userId)
  }

  /** `createUser(team_id, name, email)`: POST `{name, email, team_id}` to `users`; 201 gives the new id. */
  function CreateUser(c: Config, name: string, email: string, teamId: int, reply: Reply): (r: Call<int>)
    ensures r.request == Core.Post(c, Core.Url(c, "users", ""),
                                   JObj([("name", JStr(name)), ("email", JStr(email)), ("team_id", JInt(teamId))]))
    ensures r.outcome == CreateOutcome(reply)
  {
    Create(c, "users", "", JObj([("name", JStr(name)), ("email", JStr(email)), ("team_id", JInt(teamId))]), reply)
  }

  /** `getAllUsers(limit)`: the offset/limit traversal of `users`, yielding `data['users']`. */
  function GetAllUsers(c: Config, limit: int, maxLimit: int, pages: seq<Reply>): (t: Pagination.Traversal)
    ensures t == Pagination.Walk(c, Core.Url(c, "users", ""),
                                 Pagination.Clamp(limit, maxLimit), Pagination.Steps(pages, "users"), 1)
  {
    var url := Core.Url(c, "users", "");
    Pagination.Walk(c, url, Pagination.Clamp(limit, maxLimit), Pagination.Steps(pages, "users"), 1)
  }

  /** `deleteAllUsers()`: DELETE `users`; 204 gives True. */
  function DeleteAllUsers(c: Config, reply: Reply): (r: Call<bool>)
    ensures r.request == Core.Delete(c, Core.Url(c, "users", ""))
    ensures r.outcome == NoContentOutcome(reply)
  {
    Remove(c, "users", "", reply)
  }

  /** `getSingleUser(user_id)`: GET `users/<id>`; 200 gives the decoded record. */
  function GetSingleUser(c: Config, userId: int, reply: Reply): (r: Call<Json>)
    ensures r.request == Core.Get(c, Core.Url(c, "users", Decimal.Show(userId)), None)
    ensures r.outcome == FetchOutcome(reply)
  {
    Fetch(c, "users", UserPath(userId), reply)
  }

  /** `updateSingleUser(user_id, name, email, team_id)`: PUT to `users/<id>` the name if non-empty and the email if non-empty and the team_id if non-zero; 204 gives True. */
  function UpdateSingleUser(c: Config, userId: int, name: Option<string>, email: Option<string>, teamId: Option<int>, reply: Reply): (r: Call<bool>)
    ensures r.request.verb == Core.PUT && r.request.url == Core.Url(c, "users", Decimal.Show(userId))
    ensures r.request.headers == Core.Headers(c) && r.request.params == None
    ensures r.request.verify == Core.Verify(c) && r.request.cert == Core.Cert(c)
    ensures OnlyFields(r.request, {"name", "email", "team_id"})
    ensures FieldsOnce(r.request)
    ensures BodyField(r.request, "name") == (if name.Some? && name.value != "" then Some(JStr(name.value)) else None)
    ensures BodyField(r.request, "email") == (if email.Some? && email.value != "" then Some(JStr(email.value)) else None)
    ensures BodyField(r.request, "team_id") == (if teamId.Some? && teamId.value != 0 then Some(JInt(teamId.value)) else None)
    ensures r.outcome == NoContentOutcome(reply)
  {
    var r := PartialUpdate(c, "users", UserPath(userId), [("name", Text(name)), ("email", Text(email)), ("team_id", Number(teamId))], reply);
    ThreeFields(c, "users", UserPath(userId), "name", Text(name), "email", Text(email), "team_id", Number(teamId), reply);
    TextSent(name);
    TextSent(email);
    NumberSent(teamId);
    r
  }

  /** `deleteSingleUser(user_id)`: DELETE `users/<id>`; 204 gives True. */
  function DeleteSingleUser(c: Config, userId: int, reply: Reply): (r: Call<bool>)
    ensures r.request == Core.Delete(c, Core.Url(c, "users", Decimal.Show(userId)))
    ensures r.outcome == NoContentOutcome(reply)
  {
    Remove(c, "users", UserPath(userId), reply)
  }
}
