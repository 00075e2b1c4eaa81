/**
 The user-right endpoints: the `user-rights` collection, which grants a right
 to a user, and one grant at `user-rights/<id>`.
 */
module UserRight {
  import opened Options
  import opened JsonData
  import opened Errors
  import opened Configuration
  import opened Exchange
  import Pagination
  import Core
  import Decimal

  /** The sub-path of one user-right grant. */
  function UserRightPath(userrightId: int): string {
    Decimal.Show(userrightId)
  }

  /** `createUserRight(user_id, right_id)`: POST `{user_id, right_id}` to `user-rights`; 201 gives the new id. */
  function CreateUserRight(c: Config, userId: int, rightId: int, reply: Reply): (r: Call<int>)
    ensures r.request == Core.Post(c, Core.Url(c, "user-rights", ""),
                                   JObj([("user_id", JInt(userId)), ("right_id", JInt(rightId))]))
    ensures r.outcome == CreateOutcome(reply)
  {
    Create(c, "user-rights", "", JObj([("user_id", JInt(userId)), ("right_id", JInt(rightId))]), reply)
  }

  /** `getAllUserRights(limit)`: the offset/limit traversal of `user-rights`, yielding `data['user-rights']`. */
  function GetAllUserRights(c: Config, limit: int, maxLimit: int, pages: seq<Reply>): (t: Pagination.Traversal)
    ensures t == Pagination.Walk(c, Core.Url(c, "user-rights", ""),
                                 Pagination.Clamp(limit, maxLimit), Pagination.Steps(pages, "user-rights"), 1)
  {
    var url := Core.Url(c, "user-rights", "");
    Pagination.Walk(c, url, Pagination.Clamp(limit, maxLimit), Pagination.Steps(pages, "user-rights"), 1)
  }

  /** `deleteAllUserRights()`: DELETE `user-rights`; 204 gives True. */
  function DeleteAllUserRights(c: Config, reply: Reply): (r: Call<bool>)
    ensures r.request == Core.Delete(c, Core.Url(c, "user-rights", ""))
    ensures r.outcome == NoContentOutcome(reply)
  {
    Remove(c, "user-rights", "", reply)
  }

  /** `getSingleUserRight(userright_id)`: GET `user-rights/<id>`; 200 gives the decoded record. */
  function GetSingleUserRight(c: Config, userrightId: int, reply: Reply): (r: Call<Json>)
    ensures r.request == Core.Get(c, Core.Url(c, "user-rights", Decimal.Show(userrightId)), None)
    ensures r.outcome == FetchOutcome(reply)
  {
    Fetch(c, "user-rights", UserRightPath(userrightId), reply)
  }

  /** `updateSingleUserRight(userright_id, user_id, right_id)`: PUT to `user-rights/<id>` the user_id if non-zero and the right_id if non-zero; 204 gives True. */
  function UpdateSingleUserRight(c: Config, userrightId: int, userId: Option<int>, rightId: Option<int>, reply: Reply): (r: Call<bool>)
    ensures r.request.verb == Core.PUT && r.request.url == Core.Url(c, "user-rights", Decimal.Show(userrightId))
    ensures r.request.headers == Core.Headers(c) && r.request.params == None
    ensures r.request.verify == Core.Verify(c) && r.request.cert == Core.Cert(c)
    ensures OnlyFields(r.request, {"user_id", "right_id"})
    ensures FieldsOnce(r.request)
    ensures BodyField(r.request, "user_id") == (if userId.Some? && userId.value != 0 then Some(JInt(userId.value)) else None)
    ensures BodyField(r.request, "right_id") == (if rightId.Some? && rightId.value != 0 then Some(JInt(rightId.value)) else None)
    ensures r.outcome == NoContentOutcome(reply)
  {
    var r := PartialUpdate(c, "user-rights", UserRightPath(userrightId), [("user_id", Number(userId)), ("right_id", Number(rightId))], reply);
    TwoFields(c, "user-rights", UserRightPath(userrightId), "user_id", Number(userId), "right_id", Number(rightId), reply);
    NumberSent(userId);
    NumberSent(rightId);
    r
  }

  /** `deleteSingleUserRight(userright_id)`: DELETE `user-rights/<id>`; 204 gives True. */
  function DeleteSingleUserRight(c: Config, userrightId: int, reply: Reply): (r: Call<bool>)
    ensures r.request == Core.Delete(c, Core.Url(c, "user-rights", Decimal.Show(userrightId)))
    ensures r.outcome == NoContentOutcome(reply)
  {
    Remove(c, "user-rights", UserRightPath(userrightId), reply)
  }
}
