/** The users of one team, under `teams/<id>/users`. */
module TeamUsers {
  import opened Options
  import opened JsonData
  import opened Errors
  import opened Configuration
  import opened Exchange
  import Pagination
  import Core
  import Decimal

  /** The sub-path of one team's users: `<team id>/users`. */
  function MembersPath(teamId: int): string {
    Decimal.Show(teamId) + "/users"
  }

  /** `createTeamUser(team_id, name, email)`: POST `{name, email}` to `teams/<id>/users`; 201 gives the new id. */
  function CreateTeamUser(c: Config, teamId: int, name: string, email: string, reply: Reply): (r: Call<int>)
    ensures r.request == Core.Post(c, Core.Url(c, "teams", Decimal.Show(teamId) + "/users"),
                                   JObj([("name", JStr(name)), ("email", JStr(email))]))
    ensures r.outcome == CreateOutcome(reply)
  {
    Create(c, "teams", MembersPath(teamId), JObj([("name", JStr(name)), ("email", JStr(email))]), reply)
  }

  /** `getTeamUsers(team_id, limit)`: the traversal of `teams/<id>/users`, yielding `data['users']`. */
  function GetTeamUsers(c: Config, teamId: int, limit: int, maxLimit: int, pages: seq<Reply>): (t: Pagination.Traversal)
    ensures t == Pagination.Walk(c, Core.Url(c, "teams", Decimal.Show(teamId) + "/users"),
                                 Pagination.Clamp(limit, maxLimit), Pagination.Steps(pages, "users"), 1)
  {
    var url := Core.Url(c, "teams", MembersPath(teamId));
    Pagination.Walk(c, url, Pagination.Clamp(limit, maxLimit), Pagination.Steps(pages, "users"), 1)
  }

  /** `deleteTeamUsers(team_id)`: DELETE `teams/<id>/users`; 204 gives True. */
  function DeleteTeamUsers(c: Config, teamId: int, reply: Reply): (r: Call<bool>)
    ensures r.request == Core.Delete(c, Core.Url(c, "teams", Decimal.Show(teamId) + "/users"))
    ensures r.outcome == NoContentOutcome(reply)
  {
    Remove(c, "teams", MembersPath(teamId), reply)
  }
}
