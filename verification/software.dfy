/**
 The software endpoints: the `software` collection and one software at
 `software/<id>`. A software belongs to a team; an update sends only the
 fields given a truthy value.
 */
module Software {
  import opened Options
  import opened JsonData
  import opened Errors
  import opened Configuration
  import opened Exchange
  import Pagination
  import Core
  import Decimal

  /** The sub-path of one software. */
  function SoftwarePath(softwareId: int): string {
    Decimal.Show(softwareId)
  }

  /** `createSoftware(team_id, name)`: POST `{name, team_id}` to `software`; 201 gives the new id. */
  function CreateSoftware(c: Config, name: string, teamId: int, reply: Reply): (r: Call<int>)
    ensures r.request == Core.Post(c, Core.Url(c, "software", ""),
                                   JObj([("name", JStr(name)), ("team_id", JInt(teamId))]))
    ensures r.outcome == CreateOutcome(reply)
  {
    Create(c, "software", "", JObj([("name", JStr(name)), ("team_id", JInt(teamId))]), reply)
  }

  /** `getAllSoftware(limit)`: the offset/limit traversal of `software`, yielding `data['software']`. */
  function GetAllSoftware(c: Config, limit: int, maxLimit: int, pages: seq<Reply>): (t: Pagination.Traversal)
    ensures t == Pagination.Walk(c, Core.Url(c, "software", ""),
                                 Pagination.Clamp(limit, maxLimit), Pagination.Steps(pages, "software"), 1)
  {
    var url := Core.Url(c, "software", "");
    Pagination.Walk(c, url, Pagination.Clamp(limit, maxLimit), Pagination.Steps(pages, "software"), 1)
  }

  /** `deleteAllSoftware()`: DELETE `software`; 204 gives True. */
  function DeleteAllSoftware(c: Config, reply: Reply): (r: Call<bool>)
    ensures r.request == Core.Delete(c, Core.Url(c, "software", ""))
    ensures r.outcome == NoContentOutcome(reply)
  {
    Remove(c, "software", "", reply)
  }

  /** `getSingleSoftware(software_id)`: GET `software/<id>`; 200 gives the decoded record. */
  function GetSingleSoftware(c: Config, softwareId: int, reply: Reply): (r: Call<Json>)
    ensures r.request == Core.Get(c, Core.Url(c, "software", Decimal.Show(softwareId)), None)
    ensures r.outcome == FetchOutcome(reply)
  {
    Fetch(c, "software", SoftwarePath(softwareId), reply)
  }

  /** `updateSingleSoftware(software_id, name, team_id)`: PUT to `software/<id>` the name if non-empty and the team_id if non-zero; 204 gives True. */
  function UpdateSingleSoftware(c: Config, softwareId: int, name: Option<string>, teamId: Option<int>, reply: Reply): (r: Call<bool>)
    ensures r.request.verb == Core.PUT && r.request.url == Core.Url(c, "software", Decimal.Show(softwareId))
    ensures r.request.headers == Core.Headers(c) && r.request.params == None
    ensures r.request.verify == Core.Verify(c) && r.request.cert == Core.Cert(c)
    ensures OnlyFields(r.request, {"name", "team_id"})
    ensures FieldsOnce(r.request)
    ensures BodyField(r.request, "name") == (if name.Some? && name.value != "" then Some(JStr(name.value)) else None)
    ensures BodyField(r.request, "team_id") == (if teamId.Some? && teamId.value != 0 then Some(JInt(teamId.value)) else None)
    ensures r.outcome == NoContentOutcome(reply)
  {
    var r := PartialUpdate(c, "software", SoftwarePath(softwareId), [("name", Text(name)), ("team_id", Number(teamId))], reply);
    TwoFields(c, "software", SoftwarePath(softwareId), "name", Text(name), "team_id", Number(teamId), reply);
    TextSent(name);
    NumberSent(teamId);
    r
  }

  /** `deleteSingleSoftware(software_id)`: DELETE `software/<id>`; 204 gives True. */
  function DeleteSingleSoftware(c: Config, softwareId: int, reply: Reply): (r: Call<bool>)
    ensures r.request == Core.Delete(c, Core.Url(c, "software", Decimal.Show(softwareId)))
    ensures r.outcome == NoContentOutcome(reply)
  {
    Remove(c, "software", SoftwarePath(softwareId), reply)
  }
}
