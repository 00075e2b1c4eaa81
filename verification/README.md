# pyDUDe client core, modelled in Dafny

pyDUDe is a thin Python client for the DUDe user/right directory service.
Around each HTTP call it makes a few decisions, and those decisions are pure.
This project models them and proves what they promise.

- **Request assembly.** Two `Client` classes cover this. The current one (`pyDUDe/pyDUDe/core.py`) builds
  `scheme://hostname:port/endpoint[/path]`. It adds an `X-API-Token` header only when a token is configured. It passes
  the root CA as the TLS verify target and the certificate/key pair only when both halves are set. It dispatches on the
  verb name, and an unknown verb is a `ValueError`. The older class (`libs/pyDUDe/core.py`) builds only
  `scheme://hostname:port/endpoint` and sends no header. Both are process-wide singletons whose `_setup` runs once.
- **Status classification.** A fixed table maps 400/401/403/404/500/999 to the typed failures. Every other
  code gets back the raw integer 999, and the endpoints then "raise" that integer (see Findings).
- **Offset/limit pagination.** The list endpoints all repeat one generator loop. The model writes it once
  (`Pagination.Walk`), over the URL and the key of the list in each page. The server is a finite sequence of replies:
  the i-th page request receives the i-th reply. A loop method (`Pagination.Traverse`) is proved equal to the recursive
  definition, and general lemmas describe the requests sent, the items yielded and how the loop ends.
- **Endpoints.** Each endpoint is a function of the configuration, its arguments and the server's reply. It returns
  the `Call` it makes: the HTTP request it builds and its outcome (a value or the exception raised). Each
  endpoint's contract names its URL, its body and the shared decision it applies: 201 gives the id, 200 gives the body,
  204 gives True, and any other status raises the mapped error with the server's message. Where the source puts
  `response.json()` inside its `try`, a send or decode failure becomes `ConnectionError`.

A reply is `SendFailed(cause)` when the send raises. Otherwise it is `Received(status, body)`, with `body == None`
when `response.json()` raises. The Python operations the endpoints apply to the decoded JSON are modelled with the
exceptions Python raises: `data[key]`, `int(value)` and `for item in value` (module `PyOps`). These are `KeyError`,
`TypeError` and `ValueError`.

The endpoint files under `libs/pyDUDe/endpoints/` call `client._url`, `_get`, `_post`, `_put` and `_delete`. Only the
current `Client` defines these, so those endpoints are modelled against it (module `Core`). The generic endpoints in
`libs/pyDUDe/endpoints/generic.py` call `requests` directly, using the older client's `url`/`verify`/`cert`/`exception`
(module `LegacyCore`).

## Model

| member | source | states |
|---|---|---|
| Errors.Classify | pyDUDe/pyDUDe/core.py:47-56 | 400, 401, 403, 404, 500 and 999 give BadRequest, Unauthenticated, Forbidden, NotFound, InternalServerError and UnknownError, each if and only if the code matches; every other code gives the raw sentinel |
| Errors.UnlistedStatusNotCallable | pyDUDe/pyDUDe/core.py:77 | raising the handler of an unlisted code with any message is a TypeError ('int' object is not callable) |
| Errors.RaiseIntended | pyDUDe/pyDUDe/core.py:47-77 | corrected lookup: always an API error carrying the message; agrees with the table on listed codes and gives UnknownError on every other code |
| Errors.Raise | libs/pyDUDe/endpoints/company.py:118-119 | `raise handler(message)`: an exception class gives that typed error carrying the message; the raw int 999, and only it, gives TypeError (not callable) |
| LegacyCore.Exception | libs/pyDUDe/core.py:53-83 | a typed failure exactly for 400/401/403/404/500/999, namely the table's entry; 999 is UnknownError; every other code is the raw sentinel |
| Core.Url | pyDUDe/pyDUDe/core.py:80-93 | origin + "/" + endpoint for an empty path, origin + "/" + endpoint + "/" + path otherwise; longer than the bare endpoint URL exactly when a path is given |
| Core.UrlIdentifiesResource | pyDUDe/pyDUDe/core.py:89-91 | two record URLs of one endpoint are equal if and only if the ids are equal |
| Core.Verify | pyDUDe/pyDUDe/core.py:95-104 | Some(root_ca) if and only if root_ca is non-empty, otherwise None |
| Core.Cert | pyDUDe/pyDUDe/core.py:106-115 | Some((certfile, keyfile)) if and only if both are non-empty; a one-sided configuration gives None |
| Core.Headers | pyDUDe/pyDUDe/core.py:117-127 | contains X-API-Token if and only if a token is configured, and then is exactly that one entry; otherwise empty |
| Core.Request | pyDUDe/pyDUDe/core.py:129-160 | fails with ValueError(unknown method) exactly for verbs other than GET/POST/PUT/DELETE; GET carries the params and no body, POST/PUT the JSON body and no params, DELETE neither; all carry the same headers, verify and cert |
| Core.Get | pyDUDe/pyDUDe/core.py:163-165 | a GET of the URL with the given params, the client's headers and TLS settings |
| Core.Post | pyDUDe/pyDUDe/core.py:167-169 | a POST of the URL with the JSON body, no params, the client's headers and TLS settings |
| Core.Put | pyDUDe/pyDUDe/core.py:171-173 | a PUT of the URL with the JSON body, no params, the client's headers and TLS settings |
| Core.Delete | pyDUDe/pyDUDe/core.py:175-177 | a DELETE of the URL with neither params nor body, with the client's headers and TLS settings |
| Core.HelpersDispatch | pyDUDe/pyDUDe/core.py:139-177 | each helper is what the dispatcher builds for its own verb name |
| Core.DefaultConfigRequests | libs/pyDUDe/config.py:30-38 | the default configuration sends no header and no TLS arguments, and its URLs are https://:5000/endpoint |
| LegacyCore.Url | libs/pyDUDe/core.py:95 | scheme://hostname:port/endpoint, which is the current client's URL with an empty path |
| LegacyCore.Verify | libs/pyDUDe/core.py:97-106 | Some(root_ca) if and only if root_ca is non-empty |
| LegacyCore.Cert | libs/pyDUDe/core.py:108-117 | the pair if and only if certfile and keyfile are both non-empty |
| LegacyCore.DirectRequest | libs/pyDUDe/endpoints/generic.py:43 | a direct call carries the verify and cert arguments but no headers and no params |
| Singleton.New | pyDUDe/pyDUDe/core.py:33-39 | the first construction runs setup once and stores the instance; later ones return the stored instance and change nothing |
| Singleton.Setup | pyDUDe/pyDUDe/core.py:41-56 | `_setup` gives a default configuration and a status table over exactly 400, 401, 403, 404, 500 and 999, each mapped to the class the status lookup hands back for it |
| Singleton.SetConfig | pyDUDe/pyDUDe/core.py:63-66 | the setter replaces the whole configuration record and keeps the error table and the setup count |
| Singleton.GetConfig | pyDUDe/pyDUDe/core.py:58-61 | the getter returns the current instance's configuration |
| Singleton.SetupRunsOnce | libs/pyDUDe/core.py:37-45 | over any sequence of client uses, setup has run once if there was a use and never otherwise |
| Singleton.ConfigIsConfigured | libs/pyDUDe/core.py:64-72 | after any sequence of constructions, whole-record assignments and in-place field writes, the configuration is the last assigned record (the default before any) with the later writes applied in order, and the error table is the fixed one |
| Singleton.ConfigIsLastAssigned | libs/pyDUDe/core.py:64-72 | over constructions and whole-record assignments only, the configuration is the record last assigned (the default if none was) |
| Singleton.LastAssignedIsConfigured | libs/pyDUDe/core.py:64-72 | without in-place writes, the record built is the last one assigned, or the default |
| Singleton.FieldWritesAfterConstruction | libs/tests/test_1.py:16-20 | constructing the client and then writing hostname, root_ca and x_api_token in place leaves exactly those fields changed from the defaults |
| Decimal.Show | pyDUDe/pyDUDe/endpoints/right.py:169 | the canonical `str(id)` of an f-string: a leading '-' exactly for negative ids, then decimal digits with no leading zero, and "0" for zero |
| Decimal.Parse | pyDUDe/pyDUDe/endpoints/right.py:67 | `int()` of a string succeeds exactly on an optional '-' or '+' followed by at least one ASCII digit; a '-' gives a non-positive result, anything else a non-negative one |
| Decimal.ParseShow | pyDUDe/pyDUDe/endpoints/right.py:67-169 | reading back the decimal text of any integer gives that integer |
| Decimal.ShowInjective | pyDUDe/pyDUDe/endpoints/right.py:169 | two ids have the same decimal text if and only if they are equal |
| Decimal.ParseLeadingZero | pyDUDe/pyDUDe/endpoints/right.py:67 | a leading zero does not change the value `int()` reads from a digit string |
| Decimal.ParsePlus | pyDUDe/pyDUDe/endpoints/right.py:67 | a '+' sign before a digit string does not change the value `int()` reads |
| Decimal.ParseMinus | pyDUDe/pyDUDe/endpoints/right.py:67 | a '-' sign before a digit string negates the value `int()` reads |
| Decimal.CanonicalDigits | pyDUDe/pyDUDe/endpoints/right.py:67-169 | a digit string without leading zeros is exactly `str` of the value it denotes, so with the sign and zero lemmas every string `int()` accepts has a determined value |
| JsonData.Lookup | pyDUDe/pyDUDe/endpoints/right.py:67 | `data[key]` finds a value if and only if the dict has the key, and it is the value of the last member with that name, since a later duplicate overrides an earlier one |
| JsonData.DictKeys | pyDUDe/pyDUDe/endpoints/right.py:109 | iterating a dict visits each of its keys exactly once, in the order of their first appearance |
| PyOps.Subscript | libs/pyDUDe/endpoints/company.py:108 | `data[key]` succeeds exactly on a dict holding the key, with the last member of that name; a dict without it raises KeyError and anything else TypeError (not subscriptable) |
| PyOps.Iterate | libs/pyDUDe/endpoints/company.py:108-109 | `for item in v` visits a list's elements, a string's one-character strings, or a dict's keys once each in order of first appearance; null, a bool or a number raises TypeError (not iterable) |
| PyOps.ToInt | libs/pyDUDe/endpoints/company.py:111-114 | `int(v)` keeps an integer, reads True as 1 and False as 0, reads a string exactly when it is a decimal literal and otherwise raises ValueError, and raises TypeError on null, a list or a dict |
| Exchange.Rejection | pyDUDe/pyDUDe/endpoints/right.py:69-71 | a failing `data['error']['message']` raises its own error; otherwise a listed status raises its typed error with the message and an unlisted one raises TypeError |
| Exchange.CreateOutcome | pyDUDe/pyDUDe/endpoints/right.py:59-71 | success only on 201, giving `int(data['id'])`; a send or decode failure is ConnectionError; any other status is the rejection |
| Exchange.Create | libs/pyDUDe/endpoints/company.py:53-70 | a POST of the body to `endpoint[/path]` with the client's headers and TLS settings and no params, then the create decision |
| Exchange.Fetch | libs/pyDUDe/endpoints/company.py:168-182 | a GET of `endpoint[/path]` without params or body, with the client's headers and TLS settings, then the fetch decision |
| Exchange.Update | libs/pyDUDe/endpoints/company.py:200-217 | a PUT of the body to `endpoint[/path]` with the client's headers and TLS settings and no params, then the no-content decision |
| Exchange.Remove | libs/pyDUDe/endpoints/company.py:234-248 | a DELETE of `endpoint[/path]` without params or body, with the client's headers and TLS settings, then the no-content decision |
| Exchange.FetchOutcome | pyDUDe/pyDUDe/endpoints/right.py:171-183 | success exactly on a decodable 200, returning the body unchanged; a send or decode failure is ConnectionError; any other status is the rejection |
| Exchange.NoContentOutcome | pyDUDe/pyDUDe/endpoints/right.py:238-250 | True exactly on 204; a send failure is ConnectionError; an undecodable error body raises the decode error itself, since decoding is outside the `try` |
| Exchange.PartialBody | pyDUDe/pyDUDe/endpoints/team.py:203-209 | the body holds only candidate keys whose value is truthy, and with distinct names each key is present exactly when its value is truthy and is named once, as in the dict the source builds |
| Exchange.PartialUpdate | pyDUDe/pyDUDe/endpoints/right.py:201-219 | a PUT of the record URL with the client's headers and TLS settings and no params, whose body holds only the named fields, each present exactly when truthy and, for distinct names, named once; then the 204 decision |
| Exchange.OneField | pyDUDe/pyDUDe/endpoints/right.py:202-205 | a one-field update sends only that field, at most once, and sends it exactly when it is truthy |
| Exchange.TwoFields | pyDUDe/pyDUDe/endpoints/team.py:203-209 | a two-field update sends only those fields, each exactly when it is truthy and never twice |
| Exchange.ThreeFields | libs/pyDUDe/endpoints/user.py:207-216 | a three-field update sends only those fields, each exactly when it is truthy and never twice |
| Exchange.TextSent | pyDUDe/pyDUDe/endpoints/team.py:205-206 | a string argument is sent exactly when it is given and non-empty |
| Exchange.NumberSent | pyDUDe/pyDUDe/endpoints/team.py:208-209 | an integer argument is sent exactly when it is given and non-zero |
| Exchange.CreatedIdRoundTrip | pyDUDe/pyDUDe/endpoints/right.py:66-67 | a 201 reply whose id is any integer, or its decimal text, gives back that integer |
| Exchange.UnlistedStatusRaisesTypeError | pyDUDe/pyDUDe/endpoints/right.py:69-71 | a create answered 418 with an error message raises TypeError, where the corrected lookup gives UnknownError |
| Pagination.Clamp | pyDUDe/pyDUDe/endpoints/right.py:91-92 | the limit never exceeds the cap; it is kept when within the cap and replaced by the cap otherwise |
| Pagination.PageRequest | libs/pyDUDe/endpoints/company.py:95-101 | a page request is a GET of the URL with `{'offset': offset, 'limit': limit}` and the client's headers and TLS settings |
| Pagination.PageOf | libs/pyDUDe/endpoints/company.py:107-114 | a 200 page raises the first failing read, the items, then `count`, then `limit`; when all read it yields the items and is the last page if and only if count < limit, otherwise it moves on by count |
| Pagination.Decide | libs/pyDUDe/endpoints/company.py:100-119 | a send or decode failure stops with ConnectionError and a non-200 page stops with the rejection, yielding nothing; a 200 page whose items, `int(count)` and `int(limit)` all read ends the loop if and only if count < limit and otherwise continues by count, yielding the items either way; otherwise it raises the first failing read's error, the items first, then count, then limit |
| Pagination.Walk | libs/pyDUDe/endpoints/company.py:87-119 | never more requests than replies, at least one when there is a reply, and a suspended loop has used every reply |
| Pagination.FirstStop | libs/pyDUDe/endpoints/company.py:111-119 | the index of the first page that does not continue the loop: all pages before it continue |
| Pagination.WalkLength | libs/pyDUDe/endpoints/company.py:87-119 | the loop requests every page up to and including the first one that does not continue |
| Pagination.WalkOffsets | libs/pyDUDe/endpoints/company.py:87-114 | the i-th request asks for the start offset plus the counts reported by the pages before it, not their item counts |
| Pagination.WalkFirst | libs/pyDUDe/endpoints/company.py:87-101 | the first request asks for the start offset |
| Pagination.WalkRequests | libs/pyDUDe/endpoints/company.py:95-102 | every page request is a GET of the one URL with the client's headers and TLS settings, asking for `{offset, limit}` with the same limit |
| Pagination.WalkItems | libs/pyDUDe/endpoints/company.py:107-109 | the items yielded are exactly those of the requested pages, page after page in server order |
| Pagination.WalkEnd | libs/pyDUDe/endpoints/company.py:111-119 | the loop ends on the first short page, raises the first failing page's error, and otherwise waits at the offset advanced by all counts |
| Pagination.MorePagesExtend | libs/pyDUDe/endpoints/company.py:107-119 | more replies only extend the requests and the items already yielded; once the loop has ended or raised, later replies change nothing |
| Pagination.GlueTurn | libs/pyDUDe/endpoints/company.py:87-119 | one turn of the loop: the traversal so far followed by the rest from the next offset is the traversal from here |
| Pagination.YieldPage | libs/pyDUDe/endpoints/company.py:107-109 | yielding a page appends its items, in order, to those already yielded |
| Pagination.ResumeTurn | libs/pyDUDe/endpoints/company.py:100-114 | the loop state after one more page: the next offset when the page continues, the finished traversal otherwise |
| Pagination.ResumeIsGlue | libs/pyDUDe/endpoints/company.py:87-119 | resuming at page i is the traversal so far glued to the walk of the remaining pages |
| Pagination.ResumeFromStart | libs/pyDUDe/endpoints/company.py:87 | resuming before the first page at offset 1 with nothing done is the whole walk |
| Pagination.Traverse | libs/pyDUDe/endpoints/company.py:87-119 | the loop, written as a loop, issues the same requests, yields the same items and ends the same way as the recursive definition |
| Pagination.ListStart | libs/pyDUDe/endpoints/company.py:87-98 | a list endpoint that gets a reply first asks for offset 1 and the limit reduced to the cap |
| Pagination.ListRequests | libs/pyDUDe/endpoints/company.py:90-102 | whatever the replies decide, every request of a list endpoint is a GET of its URL with the client's headers, asking for the limit reduced to the cap |
| Pagination.DecidePage | libs/pyDUDe/endpoints/company.py:107-114 | a 200 page with count and limit continues by count if and only if count is not below limit, with its items either way |
| Pagination.ShortLastReplies | libs/pyDUDe/endpoints/company.py:100-114 | the server answering full pages of 100 and then one page of 37 |
| Pagination.ShortLastSteps | libs/pyDUDe/endpoints/company.py:107-114 | full pages continue and the short page ends the loop |
| Pagination.ShortLastPage | libs/pyDUDe/endpoints/company.py:87-119 | three full pages then 37 items: four requests at offsets 1, 101, 201, 301, all 337 items in order, and the loop ends |
| Pagination.FullPages | libs/pyDUDe/endpoints/company.py:111-114 | full pages of 100 each continue by 100 |
| Pagination.FullPagesThenLast | libs/pyDUDe/endpoints/company.py:87-119 | any number of full pages then a short one: the i-th request asks for offset 1 + 100 * i, every item is yielded in order, and the loop ends |
| Pagination.FirstStopFullPages | libs/pyDUDe/endpoints/company.py:111-113 | the short page after the full pages is the first to stop the loop |
| Pagination.YieldedFullPages | libs/pyDUDe/endpoints/company.py:107-109 | the items of full pages then a short one are all pages' items in order |
| Pagination.AdvanceFullPages | libs/pyDUDe/endpoints/company.py:114 | after i pages that each report a count of 100, the offset has advanced by 100 * i |
| Pagination.AdvanceSplit | libs/pyDUDe/endpoints/company.py:114 | the advance over a run of pages is the advance over a prefix plus the advance over the rest |
| Pagination.ServerErrorStops | libs/pyDUDe/endpoints/company.py:116-119 | a 500 page with a message stops the loop with InternalServerError and that message, yielding nothing from it |
| Pagination.ContinueThenStop | libs/pyDUDe/endpoints/company.py:107-119 | a full page then a stop: both pages are requested, the first page's items are kept, and the stop's error ends the loop |
| Pagination.ErrorAfterFirstPage | libs/pyDUDe/endpoints/company.py:107-119 | a full first page then a 500: its items stay yielded, two requests were sent, and the loop raises InternalServerError with the server's message |
| Company.CreateCompany | libs/pyDUDe/endpoints/company.py:39-70 | POST `{name}` to `companies`, then the 201 decision |
| Company.GetAllCompanies | libs/pyDUDe/endpoints/company.py:74-119 | the pagination loop over `companies` with key `companies`, the clamped limit and offset 1 |
| Company.DeleteAllCompanies | libs/pyDUDe/endpoints/company.py:123-147 | DELETE `companies`, then the 204 decision |
| Company.GetSingleCompany | libs/pyDUDe/endpoints/company.py:155-182 | GET `companies/<id>` without params, then the 200 decision |
| Company.UpdateSingleCompany | libs/pyDUDe/endpoints/company.py:186-217 | PUT `{name}` to `companies/<id>`, the name always sent, then the 204 decision |
| Company.DeleteSingleCompany | libs/pyDUDe/endpoints/company.py:221-248 | DELETE `companies/<id>`, then the 204 decision |
| Company.CreateCompanyUnit | libs/pyDUDe/endpoints/company.py:256-287 | POST `{name}` to `companies/<id>/units`, then the 201 decision |
| Company.GetCompanyUnits | libs/pyDUDe/endpoints/company.py:291-337 | the pagination loop over `companies/<id>/units` with key `units` |
| Company.DeleteCompanyUnits | libs/pyDUDe/endpoints/company.py:341-368 | DELETE `companies/<id>/units`, then the 204 decision |
| Unit.CreateUnit | libs/pyDUDe/endpoints/unit.py:32-64 | POST exactly `{name, company_id}` to `units`, then the 201 decision |
| Team.CreateTeam | pyDUDe/pyDUDe/endpoints/team.py:38-71 | POST `{name, unit_id}` to `teams`, then the 201 decision |
| Team.GetAllTeams | pyDUDe/pyDUDe/endpoints/team.py:75-120 | the pagination loop over `teams` with key `teams` |
| Team.DeleteAllTeams | pyDUDe/pyDUDe/endpoints/team.py:124-148 | DELETE `teams`, then the 204 decision |
| Team.GetSingleTeam | pyDUDe/pyDUDe/endpoints/team.py:156-183 | GET `teams/<id>`, then the 200 decision |
| Team.UpdateSingleTeam | pyDUDe/pyDUDe/endpoints/team.py:187-223 | PUT, with the client's headers and TLS settings and no params, to `teams/<id>` a body holding only name and unit_id, each once and exactly when truthy, then the 204 decision |
| Team.DeleteSingleTeam | pyDUDe/pyDUDe/endpoints/team.py:227-254 | DELETE `teams/<id>`, then the 204 decision |
| User.CreateUser | libs/pyDUDe/endpoints/user.py:38-73 | POST `{name, email, team_id}` to `users`, then the 201 decision |
| User.GetAllUsers | libs/pyDUDe/endpoints/user.py:77-122 | the pagination loop over `users` with key `users` |
| User.DeleteAllUsers | libs/pyDUDe/endpoints/user.py:126-150 | DELETE `users`, then the 204 decision |
| User.GetSingleUser | libs/pyDUDe/endpoints/user.py:158-185 | GET `users/<id>`, then the 200 decision, which returns the body unchanged |
| User.UpdateSingleUser | libs/pyDUDe/endpoints/user.py:189-230 | PUT, with the client's headers and TLS settings and no params, to `users/<id>` a body holding only name, email and team_id, each once and exactly when truthy, then the 204 decision |
| User.DeleteSingleUser | libs/pyDUDe/endpoints/user.py:234-261 | DELETE `users/<id>`, then the 204 decision |
| Right.CreateRight | pyDUDe/pyDUDe/endpoints/right.py:38-71 | POST `{name, team_id}` to `rights`, then the 201 decision |
| Right.GetAllRights | pyDUDe/pyDUDe/endpoints/right.py:75-120 | the pagination loop over `rights` with key `rights` |
| Right.DeleteAllRights | pyDUDe/pyDUDe/endpoints/right.py:124-148 | DELETE `rights`, then the 204 decision |
| Right.GetSingleRight | pyDUDe/pyDUDe/endpoints/right.py:156-183 | GET `rights/<id>`, then the 200 decision |
| Right.UpdateSingleRight | pyDUDe/pyDUDe/endpoints/right.py:187-219 | PUT, with the client's headers and TLS settings and no params, to `rights/<id>` a body holding only the name, once and exactly when it is truthy (so an empty name sends `{}`), then the 204 decision |
| Right.DeleteSingleRight | pyDUDe/pyDUDe/endpoints/right.py:223-250 | DELETE `rights/<id>`, then the 204 decision |
| Software.CreateSoftware | pyDUDe/pyDUDe/endpoints/software.py:38-71 | POST `{name, team_id}` to `software`, then the 201 decision |
| Software.GetAllSoftware | pyDUDe/pyDUDe/endpoints/software.py:75-120 | the pagination loop over `software` with key `software` |
| Software.DeleteAllSoftware | pyDUDe/pyDUDe/endpoints/software.py:124-148 | DELETE `software`, then the 204 decision |
| Software.GetSingleSoftware | pyDUDe/pyDUDe/endpoints/software.py:156-183 | GET `software/<id>`, then the 200 decision |
| Software.UpdateSingleSoftware | pyDUDe/pyDUDe/endpoints/software.py:187-224 | PUT, with the client's headers and TLS settings and no params, to `software/<id>` a body holding only name and team_id, each once and exactly when truthy, then the 204 decision |
| Software.DeleteSingleSoftware | pyDUDe/pyDUDe/endpoints/software.py:228-255 | DELETE `software/<id>`, then the 204 decision |
| UserRight.CreateUserRight | pyDUDe/pyDUDe/endpoints/user_right.py:38-71 | POST `{user_id, right_id}` to `user-rights`, then the 201 decision |
| UserRight.GetAllUserRights | pyDUDe/pyDUDe/endpoints/user_right.py:75-120 | the pagination loop over `user-rights` with key `user-rights` |
| UserRight.DeleteAllUserRights | pyDUDe/pyDUDe/endpoints/user_right.py:124-148 | DELETE `user-rights`, then the 204 decision |
| UserRight.GetSingleUserRight | pyDUDe/pyDUDe/endpoints/user_right.py:155-182 | GET `user-rights/<id>`, then the 200 decision |
| UserRight.UpdateSingleUserRight | pyDUDe/pyDUDe/endpoints/user_right.py:186-223 | PUT, with the client's headers and TLS settings and no params, to `user-rights/<id>` a body holding only user_id and right_id, each once and exactly when non-zero, then the 204 decision |
| UserRight.DeleteSingleUserRight | pyDUDe/pyDUDe/endpoints/user_right.py:227-254 | DELETE `user-rights/<id>`, then the 204 decision |
| TeamUsers.CreateTeamUser | pyDUDe/pyDUDe/endpoints/team_users.py:33-66 | POST `{name, email}` to `teams/<team_id>/users`, the team id only in the path, then the 201 decision |
| TeamUsers.GetTeamUsers | pyDUDe/pyDUDe/endpoints/team_users.py:70-116 | the pagination loop over `teams/<team_id>/users` with key `users` |
| TeamUsers.DeleteTeamUsers | pyDUDe/pyDUDe/endpoints/team_users.py:120-147 | DELETE `teams/<team_id>/users`, then the 204 decision |
| TeamSoftware.CreateTeamSoftware | libs/pyDUDe/endpoints/team_software.py:33-64 | POST `{name}` to `teams/<team_id>/software`, then the 201 decision |
| TeamSoftware.GetTeamSoftware | libs/pyDUDe/endpoints/team_software.py:68-114 | the pagination loop over `teams/<team_id>/software` with key `software` |
| TeamSoftware.DeleteTeamSoftware | libs/pyDUDe/endpoints/team_software.py:118-145 | DELETE `teams/<team_id>/software`, then the 204 decision |
| TeamRights.CreateTeamRight | libs/pyDUDe/endpoints/team_rights.py:33-64 | POST `{name}` to `teams/<team_id>/rights`, then the 201 decision |
| TeamRights.GetTeamRights | libs/pyDUDe/endpoints/team_rights.py:68-114 | the pagination loop over `teams/<team_id>/rights` with key `rights` |
| TeamRights.DeleteTeamRights | libs/pyDUDe/endpoints/team_rights.py:118-145 | DELETE `teams/<team_id>/rights`, then the 204 decision |
| Generic.FieldOutcome | libs/pyDUDe/endpoints/generic.py:42-55 | success only on a decodable 200, giving `data[field]`; a send or decode failure is ConnectionError; any other status is the rejection |
| Generic.Version | libs/pyDUDe/endpoints/generic.py:27-55 | GET `version` with only verify and cert, no token header; 200 gives `data['version']` |
| Generic.Authenticate | libs/pyDUDe/endpoints/generic.py:59-93 | POST `{name: appname, apikey}` to `auth` with no token header; 200 gives `data['token']` |
| Generic.ValidateOutcome | libs/pyDUDe/endpoints/generic.py:121-134 | a result exactly for a decodable 200 or 403, True exactly for 200; a send or decode failure is ConnectionError; any other status is the rejection |
| Generic.Validate | libs/pyDUDe/endpoints/generic.py:97-134 | POST `{email, right, token}` to `validate` with no token header, then the validation decision |
| LegacyGeneric.VersionOutcome | libs/pyDUDe/generic.py:26-38 | `Ok(None)`, the early `return None`, if and only if a non-200 status was received; 200 gives `data['version']`, so a null version is `Some(JNull)`, which the caller also sees as None; every failure, a missing `version` included, is a ConnectionError |
| LegacyGeneric.Version | libs/pyDUDe/generic.py:26-38 | the same request as the current `version`, with the older decision |
| LegacyGeneric.Authenticate | libs/pyDUDe/generic.py:42-63 | POST `{name, apikey}` to `auth`; 200 gives the token, any other status the rejection |
| LegacyGeneric.Validate | libs/pyDUDe/generic.py:67-102 | POST `{email, right, token}` to `validate`; 200 is True, 403 False, any other status the rejection |
| LegacyGeneric.VersionCallsCompared | libs/pyDUDe/generic.py:29-35 | the two version calls agree on a 200 reply carrying a version; on every decodable non-200 reply the older one returns None where the current one raises |

## Left out

- The `requests` transport, TLS and JSON decoding. A reply is an input: a send failure, or a status with a decoded
  body or none. What `requests` does with `verify=None` is not modelled; the model stops at the arguments passed.
- Floating-point JSON numbers. The JSON values are null, booleans, integers, strings, lists and dicts.
- Decimal.Parse: it accepts only an optional sign followed by ASCII digits. Python's `int()` also accepts surrounding
  whitespace, underscores between digits and non-ASCII digits.
- `MAX_SEARCH_LIMIT` and `DEFAULT_SEARCH_LIMIT` are imported from `pyDUDe.config`, which is not part of this model.
  The cap is the parameter `maxLimit` of `Pagination.Clamp`. The default limit is a caller-side default and is not modelled.
- Pagination against a server that never sends a short page. The server is a finite sequence of replies, and a loop
  that outlives it ends `Suspended` at the next offset.
- Exchange.PartialBody: the contract fixes which members the body has and their values, not their order; the source inserts them in argument order, and the server reads the object by name.
- Pagination.Walk: one configuration serves every page of a traversal. The source computes the URL once when the generator starts (libs/pyDUDe/endpoints/company.py:88) but rereads the headers, verify and cert from the current configuration at each page's `_get` (pyDUDe/pyDUDe/core.py:139-143), so an in-place write between two `next()` calls changes the token and TLS settings of later pages but not their URL; the model cannot express such an interleaving.
- Generator laziness: a traversal records everything the generator does on the replies given, not how far the caller consumed it.
- Pagination.Traverse: it takes the decision for each reply (`Steps`), not the raw replies. That decision is a pure
  function of the reply alone.
- `DUDeConfig.readFile` (dotenv and filesystem I/O). Only the record's defaults are modelled; what it does to the record is one in-place write (`Singleton.Edit`) whose effect the model does not compute.
- Writes through a stale alias: a write to a configuration record counts only while the client holds that record. A write through an alias of a record the client has since replaced is not an operation on the client, and the model has no separate objects to show this.
- The `endpoint` decorator's `setattr` registration, and `Client.route`, which no file of this model defines. Endpoints are plain functions.
- The integration tests under `tests/`, which need a live server, and the `__init__.py` import glue.
- Exception classes, beyond one error kind per class and the message they carry.

## Findings

| source | as written | input that shows it | evidently intended | confidence | as-written member | corrected member |
|---|---|---|---|---|---|---|
| pyDUDe/pyDUDe/core.py:77 | `_exception` looks the status up with default 999, which returns the integer 999 rather than the UnknownError class stored under 999. The endpoints then call that integer with the message. | any unlisted status with an error body, e.g. 418 `{"error": {"message": "teapot"}}` to `createRight` | raise UnknownError with the server's message for every status without its own class | not executed | Errors.UnlistedStatusNotCallable, Exchange.UnlistedStatusRaisesTypeError | Errors.RaiseIntended |

The endpoints keep the behaviour as written, TypeError included, because they describe what the client does.
`Errors.RaiseIntended` is the corrected lookup. Its contract shows that it agrees with the table on every listed code
and that it gives UnknownError everywhere else. `libs/pyDUDe/core.py:83` has the same defect.
