/**
 The team endpoints: the `teams` collection and one team at `teams/<id>`.
 A team belongs to a unit; an update sends only the fields given a truthy value.
 */
module Team {
  import opened Options
  import opened JsonData
  import opened Errors
  import opened Configuration
  import opened Exchange
  import Pagination
  import Core
  import Decimal

  /** The sub-path of one team. */
  function TeamPath(teamId: int): string {
    Decimal.Show(teamId)
  }

  /** `createTeam(unit_id, name)`: POST `{name, unit_id}` to `teams`; 201 gives the new id. */
  function CreateTeam(c: Config, name: string, unitId: int, reply: Reply): (r: Call<int>)
    ensures r.request == Core.Post(c, Core.Url(c, "teams", ""),
                                   JObj([("name", JStr(name)), ("unit_id", JInt(unitId))]))
    ensures r.outcome == CreateOutcome(reply)
  {
    Create(c, "teams", "", JObj([("name", JStr(name)), ("unit_id", JInt(unitId))]), reply)
  }

  /** `getAllTeams(limit)`: the offset/limit traversal of `teams`, yielding `data['teams']`. */
  function GetAllTeams(c: Config, limit: int, maxLimit: int, pages: seq<Reply>): (t: Pagination.Traversal)
    ensures t == Pagination.Walk(c, Core.Url(c, "teams", ""),
                                 Pagination.Clamp(limit, maxLimit), Pagination.Steps(pages, "teams"), 1)
  {
    var url := Core.Url(c, "teams", "");
    Pagination.Walk(c, url, Pagination.Clamp(limit, maxLimit), Pagination.Steps(pages, "teams"), 1)
  }

  /** `deleteAllTeams()`: DELETE `teams`; 204 gives True. */
  function DeleteAllTeams(c: Config, reply: Reply): (r: Call<bool>)
    ensures r.request == Core.Delete(c, Core.Url(c, "teams", ""))
    ensures r.outcome == NoContentOutcome(reply)
  {
    Remove(c, "teams", "", reply)
  }

  /** `getSingleTeam(team_id)`: GET `teams/<id>`; 200 gives the decoded record. */
  function GetSingleTeam(c: Config, teamId: int, reply: Reply): (r: Call<Json>)
    ensures r.request == Core.Get(c, Core.Url(c, "teams", Decimal.Show(teamId)), None)
    ensures r.outcome == FetchOutcome(reply)
  {
    Fetch(c, "teams", TeamPath(teamId), reply)
  }

  /** `updateSingleTeam(team_id, name, unit_id)`: PUT to `teams/<id>` the name if non-empty and the unit id if non-zero; 204 gives True. */
  function UpdateSingleTeam(c: Config, teamId: int, name: Option<string>, unitId: Option<int>, reply: Reply): (r: Call<bool>)
    ensures r.request.verb == Core.PUT && r.request.url == Core.Url(c, "teams", Decimal.Show(teamId))
    ensures r.request.headers == Core.Headers(c) && r.request.params == None
    ensures r.request.verify == Core.Verify(c) && r.request.cert == Core.Cert(c)
    ensures OnlyFields(r.request, {"name", "unit_id"})
    ensures FieldsOnce(r.request)
    ensures BodyField(r.request, "name") == (if name.Some? && name.value != "" then Some(JStr(name.value)) else None)
    ensures BodyField(r.request, "unit_id") == (if unitId.Some? && unitId.value != 0 then Some(JInt(unitId.value)) else None)
    ensures r.outcome == NoContentOutcome(reply)
  {
    var r := PartialUpdate(c, "teams", TeamPath(teamId), [("name", Text(name)), ("unit_id", Number(unitId))], reply);
    TwoFields(c, "teams", TeamPath(teamId), "name", Text(name), "unit_id", Number(unitId), reply);
    TextSent(name);
    NumberSent(unitId);
    r
  }

  /** `deleteSingleTeam(team_id)`: DELETE `teams/<id>`; 204 gives True. */
  function DeleteSingleTeam(c: Config, teamId: int, reply: Reply): (r: Call<bool>)
    ensures r.request == Core.Delete(c, Core.Url(c, "teams", Decimal.Show(teamId)))
    ensures r.outcome == NoContentOutcome(reply)
  {
    Remove(c, "teams", TeamPath(teamId), reply)
  }
}
