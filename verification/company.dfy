/**
 The company endpoints: the `companies` collection, one company, and the
 units of a company. A company's URL is `companies/<id>`, written with the
 id's decimal digits.
 */
module Company {
  import opened Options
  import opened JsonData
  import opened Errors
  import opened Configuration
  import opened Exchange
  import Pagination
  import Core
  import Decimal

  /** The sub-path of one company. */
  function CompanyPath(companyId: int): string {
    Decimal.Show(companyId)
  }

  /** `createCompany(name)`: POST `{name}` to `companies`; 201 gives the new id. */
  function CreateCompany(c: Config, name: string, reply: Reply): (r: Call<int>)
    ensures r.request == Core.Post(c, Core.Url(c, "companies", ""), JObj([("name", JStr(name))]))
    ensures r.outcome == CreateOutcome(reply)
  {
    Create(c, "companies", "", JObj([("name", JStr(name))]), reply)
  }

  /** `getAllCompanies(limit)`: the offset/limit traversal of `companies`, yielding `data['companies']`. */
  function GetAllCompanies(c: Config, limit: int, maxLimit: int, pages: seq<Reply>): (t: Pagination.Traversal)
    ensures t == Pagination.Walk(c, Core.Url(c, "companies", ""), Pagination.Clamp(limit, maxLimit),
                                 Pagination.Steps(pages, "companies"), 1)
  {
    var url := Core.Url(c, "companies", "");
    Pagination.Walk(c, url, Pagination.Clamp(limit, maxLimit), Pagination.Steps(pages, "companies"), 1)
  }

  /** `deleteAllCompanies()`: DELETE `companies`; 204 gives True. */
  function DeleteAllCompanies(c: Config, reply: Reply): (r: Call<bool>)
    ensures r.request == Core.Delete(c, Core.Url(c, "companies", ""))
    ensures r.outcome == NoContentOutcome(reply)
  {
    Remove(c, "companies", "", reply)
  }

  /** `getSingleCompany(company_id)`: GET `companies/<id>`; 200 gives the decoded record. */
  function GetSingleCompany(c: Config, companyId: int, reply: Reply): (r: Call<Json>)
    ensures r.request == Core.Get(c, Core.Url(c, "companies", Decimal.Show(companyId)), None)
    ensures r.outcome == FetchOutcome(reply)
  {
    Fetch(c, "companies", CompanyPath(companyId), reply)
  }

  /** `updateSingleCompany(name, company_id)`: PUT `{name}` to `companies/<id>`, the name always sent; 204 gives True. */
  function UpdateSingleCompany(c: Config, name: string, companyId: int, reply: Reply): (r: Call<bool>)
    ensures r.request == Core.Put(c, Core.Url(c, "companies", Decimal.Show(companyId)),
                                  JObj([("name", JStr(name))]))
    ensures r.outcome == NoContentOutcome(reply)
  {
    Update(c, "companies", CompanyPath(companyId), JObj([("name", JStr(name))]), reply)
  }

  /** `deleteSingleCompany(company_id)`: DELETE `companies/<id>`; 204 gives True. */
  function DeleteSingleCompany(c: Config, companyId: int, reply: Reply): (r: Call<bool>)
    ensures r.request == Core.Delete(c, Core.Url(c, "companies", Decimal.Show(companyId)))
    ensures r.outcome == NoContentOutcome(reply)
  {
    Remove(c, "companies", CompanyPath(companyId), reply)
  }

  /** The sub-path of a company's units. */
  function UnitsPath(companyId: int): string {
    Decimal.Show(companyId) + "/units"
  }

  /** `createCompanyUnit(company_id, name)`: POST `{name}` to `companies/<id>/units`; 201 gives the new unit's id. */
  function CreateCompanyUnit(c: Config, companyId: int, name: string, reply: Reply): (r: Call<int>)
    ensures r.request == Core.Post(c, Core.Url(c, "companies", Decimal.Show(companyId) + "/units"),
                                   JObj([("name", JStr(name))]))
    ensures r.outcome == CreateOutcome(reply)
  {
    Create(c, "companies", UnitsPath(companyId), JObj([("name", JStr(name))]), reply)
  }

  /** `getCompanyUnits(company_id, limit)`: the traversal of `companies/<id>/units`, yielding `data['units']`. */
  function GetCompanyUnits(c: Config, companyId: int, limit: int, maxLimit: int, pages: seq<Reply>)
    : (t: Pagination.Traversal)
    ensures t == Pagination.Walk(c, Core.Url(c, "companies", Decimal.Show(companyId) + "/units"),
                                 Pagination.Clamp(limit, maxLimit), Pagination.Steps(pages, "units"), 1)
  {
    var url := Core.Url(c, "companies", UnitsPath(companyId));
    Pagination.Walk(c, url, Pagination.Clamp(limit, maxLimit), Pagination.Steps(pages, "units"), 1)
  }

  /** `deleteCompanyUnits(company_id)`: DELETE `companies/<id>/units`; 204 gives True. */
  function DeleteCompanyUnits(c: Config, companyId: int, reply: Reply): (r: Call<bool>)
    ensures r.request == Core.Delete(c, Core.Url(c, "companies", Decimal.Show(companyId) + "/units"))
    ensures r.outcome == NoContentOutcome(reply)
  {
    Remove(c, "companies", UnitsPath(companyId), reply)
  }
}
