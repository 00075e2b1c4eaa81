/** The unit endpoint: creating a unit in the `units` collection, attached to a company. */
module Unit {
  import opened Options
  import opened JsonData
  import opened Errors
  import opened Configuration
  import opened Exchange
  import Pagination
  import Core
  import Decimal

  /** `createUnit(company_id, name)`: POST `{name, company_id}` to `units`; 201 gives the new id. */
  function CreateUnit(c: Config, name: string, companyId: int, reply: Reply): (r: Call<int>)
    ensures r.request == Core.Post(c, Core.Url(c, "units", ""),
                                   JObj([("name", JStr(name)), ("company_id", JInt(companyId))]))
    ensures r.outcome == CreateOutcome(reply)
  {
    Create(c, "units", "", JObj([("name", JStr(name)), ("company_id", JInt(companyId))]), reply)
  }
}
