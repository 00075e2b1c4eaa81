/** The rights of one team, under `teams/<id>/rights`. */
module TeamRights {
  import opened Options
  import opened JsonData
  import opened Errors
  import opened Configuration
  import opened Exchange
  import Pagination
  import Core
  import Decimal

  /** The sub-path of one team's rights: `<team id>/rights`. */
  function MembersPath(teamId: int): string {
    Decimal.Show(teamId) + "/rights"
  }

  /** `createTeamRight(team_id, name)`: POST `{name}` to `teams/<id>/rights`; 201 gives the new id. */
  function CreateTeamRight(c: Config, teamId: int, name: string, reply: Reply): (r: Call<int>)
    ensures r.request == Core.Post(c, Core.Url(c, "teams", Decimal.Show(teamId) + "/rights"),
                                   JObj([("name", JStr(name))]))
    ensures r.outcome == CreateOutcome(reply)
  {
    Create(c, "teams", MembersPath(teamId), JObj([("name", JStr(name))]), reply)
  }

  /** `getTeamRights(team_id, limit)`: the traversal of `teams/<id>/rights`, yielding `data['rights']`. */
  function GetTeamRights(c: Config, teamId: int, limit: int, maxLimit: int, pages: seq<Reply>): (t: Pagination.Traversal)
    ensures t == Pagination.Walk(c, Core.Url(c, "teams", Decimal.Show(teamId) + "/rights"),
                                 Pagination.Clamp(limit, maxLimit), Pagination.Steps(pages, "rights"), 1)
  {
    var url := Core.Url(c, "teams", MembersPath(teamId));
    Pagination.Walk(c, url, Pagination.Clamp(limit, maxLimit), Pagination.Steps(pages, "rights"), 1)
  }

  /** `deleteTeamRights(team_id)`: DELETE `teams/<id>/rights`; 204 gives True. */
  function DeleteTeamRights(c: Config, teamId: int, reply: Reply): (r: Call<bool>)
    ensures r.request == Core.Delete(c, Core.Url(c, "teams", Decimal.Show(teamId) + "/rights"))
    ensures r.outcome == NoContentOutcome(reply)
  {
    Remove(c, "teams", MembersPath(teamId), reply)
  }
}
