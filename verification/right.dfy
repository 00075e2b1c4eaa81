/**
 The right endpoints: the `rights` collection and one right at `rights/<id>`.
 A right belongs to a team; an update can only rename it.
 */
module Right {
  import opened Options
  import opened JsonData
  import opened Errors
  import opened Configuration
  import opened Exchange
  import Pagination
  import Core
  import Decimal

  /** The sub-path of one right. */
  function RightPath(rightId: int): string {
    Decimal.Show(rightId)
  }

  /** `createRight(team_id, name)`: POST `{name, team_id}` to `rights`; 201 gives the new id. */
  function CreateRight(c: Config, name: string, teamId: int, reply: Reply): (r: Call<int>)
    ensures r.request == Core.Post(c, Core.Url(c, "rights", ""),
                                   JObj([("name", JStr(name)), ("team_id", JInt(teamId))]))
    ensures r.outcome == CreateOutcome(reply)
  {
    Create(c, "rights", "", JObj([("name", JStr(name)), ("team_id", JInt(teamId))]), reply)
  }

  /** `getAllRights(limit)`: the offset/limit traversal of `rights`, yielding `data['rights']`. */
  function GetAllRights(c: Config, limit: int, maxLimit: int, pages: seq<Reply>): (t: Pagination.Traversal)
    ensures t == Pagination.Walk(c, Core.Url(c, "rights", ""),
                                 Pagination.Clamp(limit, maxLimit), Pagination.Steps(pages, "rights"), 1)
  {
    var url := Core.Url(c, "rights", "");
    Pagination.Walk(c, url, Pagination.Clamp(limit, maxLimit), Pagination.Steps(pages, "rights"), 1)
  }

  /** `deleteAllRights()`: DELETE `rights`; 204 gives True. */
  function DeleteAllRights(c: Config, reply: Reply): (r: Call<bool>)
    ensures r.request == Core.Delete(c, Core.Url(c, "rights", ""))
    ensures r.outcome == NoContentOutcome(reply)
  {
    Remove(c, "rights", "", reply)
  }

  /** `getSingleRight(right_id)`: GET `rights/<id>`; 200 gives the decoded record. */
  function GetSingleRight(c: Config, rightId: int, reply: Reply): (r: Call<Json>)
    ensures r.request == Core.Get(c, Core.Url(c, "rights", Decimal.Show(rightId)), None)
    ensures r.outcome == FetchOutcome(reply)
  {
    Fetch(c, "rights", RightPath(rightId), reply)
  }

  /** `updateSingleRight(right_id, name)`: PUT to `rights/<id>` the name if non-empty; 204 gives True. */
  function UpdateSingleRight(c: Config, rightId: int, name: Option<string>, reply: Reply): (r: Call<bool>)
    ensures r.request.verb == Core.PUT && r.request.url == Core.Url(c, "rights", Decimal.Show(rightId))
    ensures r.request.headers == Core.Headers(c) && r.request.params == None
    ensures r.request.verify == Core.Verify(c) && r.request.cert == Core.Cert(c)
    ensures OnlyFields(r.request, {"name"})
    ensures FieldsOnce(r.request)
    ensures BodyField(r.request, "name") == (if name.Some? && name.value != "" then Some(JStr(name.value)) else None)
    ensures r.outcome == NoContentOutcome(reply)
  {
    var r := PartialUpdate(c, "rights", RightPath(rightId), [("name", Text(name))], reply);
    OneField(c, "rights", RightPath(rightId), "name", Text(name), reply);
    TextSent(name);
    r
  }

  /** `deleteSingleRight(right_id)`: DELETE `rights/<id>`; 204 gives True. */
  function DeleteSingleRight(c: Config, rightId: int, reply: Reply): (r: Call<bool>)
    ensures r.request == Core.Delete(c, Core.Url(c, "rights", Decimal.Show(rightId)))
    ensures r.outcome == NoContentOutcome(reply)
  {
    Remove(c, "rights", RightPath(rightId), reply)
  }
}
