/** The software of one team, under `teams/<id>/software`. */
module TeamSoftware {
  import opened Options
  import opened JsonData
  import opened Errors
  import opened Configuration
  import opened Exchange
  import Pagination
  import Core
  import Decimal

  /** The sub-path of one team's software: `<team id>/software`. */
  function MembersPath(teamId: int): string {
    Decimal.Show(teamId) + "/software"
  }

  /** `createTeamSoftware(team_id, name)`: POST `{name}` to `teams/<id>/software`; 201 gives the new id. */
  function CreateTeamSoftware(c: Config, teamId: int, name: string, reply: Reply): (r: Call<int>)
    ensures r.request == Core.Post(c, Core.Url(c, "teams", Decimal.Show(teamId) + "/software"),
                                   JObj([("name", JStr(name))]))
    ensures r.outcome == CreateOutcome(reply)
  {
    Create(c, "teams", MembersPath(teamId), JObj([("name", JStr(name))]), reply)
  }

  /** `getTeamSoftware(team_id, limit)`: the traversal of `teams/<id>/software`, yielding `data['software']`. */
  function GetTeamSoftware(c: Config, teamId: int, limit: int, maxLimit: int, pages: seq<Reply>): (t: Pagination.Traversal)
    ensures t == Pagination.Walk(c, Core.Url(c, "teams", Decimal.Show(teamId) + "/software"),
                                 Pagination.Clamp(limit, maxLimit), Pagination.Steps(pages, "software"), 1)
  {
    var url := Core.Url(c, "teams", MembersPath(teamId));
    Pagination.Walk(c, url, Pagination.Clamp(limit, maxLimit), Pagination.Steps(pages, "software"), 1)
  }

  /** `deleteTeamSoftware(team_id)`: DELETE `teams/<id>/software`; 204 gives True. */
  function DeleteTeamSoftware(c: Config, teamId: int, reply: Reply): (r: Call<bool>)
    ensures r.request == Core.Delete(c, Core.Url(c, "teams", Decimal.Show(teamId) + "/software"))
    ensures r.outcome == NoContentOutcome(reply)
  {
    Remove(c, "teams", MembersPath(teamId), reply)
  }
}
