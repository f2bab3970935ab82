# ALSHub user lookup gateway — Dafny model

This project models the decision logic of the splash user service's ALSHub
backend and its HTTP front.

- **`ALSHubService.get_user`** resolves an ORCID or email through the ALSHub
  person lookup. It then collects group names from three sources: staff
  beamlines (roles endpoint plus the static `ADMINS` table, email lookups only),
  proposals, and ESAF cases. Finally it assembles a `User` record.
- **`alshub_roles_to_beamline_groups`** maps ALSHub's per-beamline role report
  to the beamlines where the person holds an approval role (`"Scientist"`).
- **The API layer** picks the API key from query, header or cookie, checks it
  against the configured `API_KEY`, and maps `UserNotFound` to a 404.

Each upstream GET is a `Request` value. The environment answers it through an
abstract `Fetch` function with a `Reply`: either the client raised, or a
response arrived with a status and a body. The body is empty, not JSON, or a
decoded JSON value. The aggregator is a pure function that returns its outcome
together with the requests it issued, in order. The outcome is one of:

- a user;
- `None`;
- `UserNotFound`;
- `CommunicationError`;
- an uncaught Python exception.

Python's duck typing is modelled explicitly in `python.dfy`: truthiness,
`dict.get`, `d[k]`, iteration, `in`, `len` and hashability. An upstream reply
of an unexpected shape therefore raises where the code's own operations would
raise. The one exception is pydantic's validation of the finished `User`
record, which is not modelled: a person record whose `orcid` is missing or
null is returned as a user here, where the code's `User(**…)` would raise.

Files:

- `python.dfy`: JSON values, exceptions and Python operations.
- `upstream.dfy`: requests, replies and httpx's `is_error`.
- `roles.dfy`: the role mapper and its properties.
- `alshub.dfy`: the group sources and `get_user`.
- `alshub_properties.dfy`: properties of `get_user`.
- `api.dfy`: the key gate and the endpoint.

Behaviour of the code worth knowing, all of it modelled:

- A non-404 error status on the person lookup returns `None`. It does not fail
  with an error.
- When the `ADMINS` table is non-empty and the email is not in it,
  `ADMINS[email]` raises `KeyError`.
- With `fetch_groups` false, the staff roles lookup still runs for email
  lookups, and it can still raise. The groups it finds are discarded, and the
  record has no `groups` field at all (not an empty set).
- A malformed successful roles reply does not just contribute nothing: it
  aborts `get_user` with an uncaught exception. A reply without
  `"Beamline Roles"` raises `KeyError`, and an empty entry `{}` in the role
  list raises `IndexError`.
- Exceptions raised by the roles, proposals and ESAF GETs are not caught. They
  surface as `Uncaught(TransportError)`, which is distinct from
  `CommunicationError`.
- On the person, proposals and ESAF error paths, the error body is decoded by
  `response.json()` to build the log line. An error reply whose body is not
  JSON therefore raises instead of degrading.
- The mapper appends a beamline once per matching approval role, not once per
  entry.

## Model

| member | source | states |
|---|---|---|
| Roles.RolesToBeamlineGroups | alshub/service.py:226-233 | a falsy role report (`None`, `[]`, `{}`, …) gives the empty list; a list report is processed entry by entry |
| Roles.MatchApprovals | alshub/service.py:230-232 | the inner loop only ever appends the entry's own beamline, and with no approval roles appends nothing |
| Roles.EntryGroups | alshub/service.py:229-232 | one entry is processed iff it is readable; a non-dict raises `AttributeError`, an empty dict `IndexError`; whatever it contributes is its first key |
| Roles.MapEntries | alshub/service.py:228-232 | an unreadable first entry aborts with that entry's exception; every name listed is the first key of some readable entry |
| Roles.MatchApprovalsHits | alshub/service.py:230-232 | one entry contributes something iff its role list holds one of the approval roles |
| Roles.MapEntriesSucceedsIff | alshub/service.py:228-231 | the mapper completes iff every entry is a non-empty dict whose first value supports `in` (when there is an approval role to test); otherwise it raises |
| Roles.MapEntriesMembership | alshub/service.py:226-233 | a name is in the result iff it is the first key of an entry whose role list holds an approval role |
| Roles.SingleRoleIsFilter | alshub/service.py:226-233 | with one approval role the result is exactly the first keys of the qualifying entries, once each, in input order |
| Roles.RolesReport | alshub/service.py:203-233 | for a list report and `ALSHUB_APPROVAL_ROLES`: success iff all entries are readable, and then exactly the Scientist beamlines in order |
| Roles.NonListRaises | alshub/service.py:227-229 | a truthy report that is not a list always raises (its elements have no `keys`, or it is not iterable) |
| Roles.FixtureYieldsBeamline1 | alshub/tests/test_service.py:4-33 | the unit test's two-entry report yields exactly `["beamline1"]`, and the empty list yields `[]` |
| Roles.MatchApprovalsRepeats | alshub/service.py:230-232 | an entry contributes its beamline exactly once per approval role its role list holds, counting repeated approval roles, against the independent `Matching` filter |
| AlsHub.AdminGroups | alshub/service.py:186-188 | an empty admin table contributes nothing; otherwise the email's listed groups, or `KeyError` when the email is absent |
| AlsHub.GetStaffBeamlines | alshub/service.py:182-200 | a raising GET raises; every result includes the email's admin groups; an error status or empty content gives exactly the admin groups |
| AlsHub.GetUserProposals | alshub/service.py:141-160 | a raising GET raises; an error status with a JSON body contributes nothing; a non-JSON body raises a decode error |
| AlsHub.GetUserEsafs | alshub/service.py:163-179 | a raising GET raises; an error status with a JSON body contributes nothing; a non-JSON body raises a decode error |
| AlsHub.FriendlyIds | alshub/service.py:179 | every collected friendly id is hashable |
| AlsHub.Profile | alshub/service.py:113-120 | the record carries the given groups, and each profile field whose key is missing from the person reply is `None` rather than an error |
| AlsHub.Gather | alshub/service.py:107-138 | after the person resolved: the roles request iff an email lookup; proposals and ESAF requests only with `fetch_groups`, ESAF only after proposals succeeded; the result is a user or an uncaught exception; with groups, an email lookup's groups include its admin groups |
| AlsHub.GetUser | alshub/service.py:63-138 | the person lookup is always the first request; `CommunicationError` iff that GET raised; the roles request only for email lookups; a returned user has a truthy uid, and has groups iff `fetch_groups` |
| AlsHubProperties.PersonLookupRaises | alshub/service.py:82-89 | the query parameter is `em` for email and `or` otherwise; a raising person GET becomes `CommunicationError` naming the query, with no further request |
| AlsHubProperties.NotFoundStops | alshub/service.py:91-92 | status 404 raises `UserNotFound("user <id> not found in ALSHub")` after the single person request |
| AlsHubProperties.OtherErrorReturnsNone | alshub/service.py:93-97 | any other error status returns `None` after the single person request (a non-JSON error body raises while being logged) |
| AlsHubProperties.FalsyIdIsNotFound | alshub/service.py:99-102 | a successful reply with a missing or falsy `LBNLID` raises `UserNotFound` with the "or could not communicate" message |
| AlsHubProperties.OnlyResolvedPersonsProceed | alshub/service.py:86-128 | unless the person resolves to a truthy `LBNLID`, exactly one request is made and no user is returned; a resolved person leads to further requests for an email lookup or with `fetch_groups` |
| AlsHubProperties.StaffOnlyForEmail | alshub/service.py:107-111 | after resolution, the roles endpoint is requested iff the lookup is by email |
| AlsHubProperties.ProfileOnly | alshub/service.py:107-120 | without `fetch_groups`, no proposals or ESAF request is made and the user has profile fields only; a failing staff lookup still propagates |
| AlsHubProperties.GroupsAreUnion | alshub/service.py:121-138 | with `fetch_groups`, groups are the union of staff beamlines, proposal ids and ESAF ids, and the requests run person, roles, proposals, ESAF |
| AlsHubProperties.SourceTransportFailuresPropagate | alshub/service.py:107-128 | a raising roles, proposals or ESAF GET ends the lookup as an uncaught transport error, never as `CommunicationError` |
| AlsHubProperties.AdminGroupsSurviveFailingSources | alshub/service.py:107-128 | for an email lookup whose three group sources all answer with error statuses (any roles error body; proposals and ESAF error bodies decodable), the user still carries exactly the admin groups, for an empty admin table as well |
| AlsHubProperties.MalformedRolesKillsLookup | alshub/service.py:192-195 | a successful roles reply without `"Beamline Roles"` ends the lookup as an uncaught `KeyError`, one whose first entry is `{}` as an uncaught `IndexError`, and any unreadable entry as some uncaught exception |
| AlsHubProperties.ProposalsFailureIsIsolated | alshub/service.py:121-128 | a failed proposals source removes only its own contribution: groups are staff beamlines plus ESAF ids |
| AlsHubProperties.ProfileCopiedVerbatim | alshub/service.py:130-136 | uid, given name, family name, institution, email and orcid are read from `LBNLID`, `FirstName`, `LastName`, `Institution`, `OrgEmail`, `orcid` |
| AlsHubProperties.StaffBeamlinesFromRoles | alshub/service.py:192-197 | a well-formed roles reply gives exactly the admin groups together with the Scientist beamlines |
| AlsHubProperties.ProposalIds | alshub/service.py:150-160 | a falsy `Proposals` contributes nothing; a list of hashable ids contributes exactly those ids |
| AlsHubProperties.FriendlyIdsOfCases | alshub/service.py:179 | collecting friendly ids succeeds iff every case is a dict with a hashable `ProposalFriendlyId`, and then yields one id per case |
| AlsHubProperties.EsafIds | alshub/service.py:170-179 | a falsy ESAF document contributes nothing; a non-empty list of well-formed cases contributes exactly their friendly ids |
| Api.ApiKeyFromRequest | splash_userservice/api.py:28-43 | a non-empty query key wins; the header key is used only when the query key is empty, the cookie only when both are; otherwise 403 "missing APIKey" |
| Api.KeyIsFirstGiven | splash_userservice/api.py:34-43 | the extracted key equals the first non-empty source in the order query, header, cookie, and is never empty |
| Api.ValidateApiKey | splash_userservice/api.py:93-97 | a key passes iff it equals the configured `API_KEY`; any other key gets 403 "Could not validate credentials" |
| Api.ServiceResponse | splash_userservice/api.py:88-91 | `UserNotFound` becomes 404 with the exception's message; a user or `None` is returned as the body; any other exception becomes a 500 |
| Api.GetUserEndpoint | splash_userservice/api.py:85-91 | a missing key gives 403 "missing APIKey"; a wrong key gives 403; only the configured key reaches the service |
| Api.KeyCheckedBeforeService | splash_userservice/api.py:86-89 | without the configured key the response is a 403 that does not depend on the service |
| Api.NotFoundIs404 | splash_userservice/api.py:87-91 | the response is 404 iff the key is valid and the service raised `UserNotFound`, and its detail is that message |
| Api.DefaultKeyRefusesAll | splash_userservice/api.py:93-97 | with the default empty `API_KEY`, every request is refused with 403 |

## Left out

- Network I/O. The httpx `AsyncClient`, the SSL context, the CA file and the 10-second timeouts are not modelled. Every GET is answered by the abstract `Fetch`, and any client exception is one `TransportError`.
- async/await. Calls are strictly sequential, so they are modelled in order.
- Logging. The `info`/`debug` helpers are left out. The one effect they have, decoding the error body as an argument, is kept.
- The FastAPI startup handler.
- URL rendering. Query values are interpolated into the URL without encoding. The model records the intended parameter and value, not the rendered text, so an identifier containing `&` or `=` is not modelled as producing a different query.
- The contents of `ADMINS`. It comes from a configuration module that is not part of this model, so it is a parameter.
- The base URLs `ALSHUB_BASE` and `ESAF_BASE`. They are read from configuration and are modelled only as the two services.
- pydantic validation and coercion of `User`. The model does not check `uid`/`orcid` as required strings or convert numbers to strings. Fields are copied as the JSON values they are, and `authenticators` is never set.
- The order of the `groups` list. `list(groups)` has no defined order, so groups are a set.
- AlsHub.GetUserProposals: returns the empty set for the source's `{}` and `[]` returns. The caller only tests truthiness and then unions, so this is equivalent, but it is weaker than modelling the Python values.
- AlsHub.GetUserEsafs: returns the empty set where the source falls through to an implicit `None`. The reason is the same as for proposals.
- JSON details. Floating-point numbers are left out (numbers are integers). Python's `True == 1` equality between booleans and numbers is not modelled. Objects with duplicate keys take the first entry on lookup, while Python keeps the last value.
- Exception messages other than those of `UserNotFound` and `CommunicationError`. Python exception classes are kept; their texts are not.
- The dependency-injection singleton in `splash_userservice/api.py:76-82`. It imports a name that `alshub/service.py` does not define, and the endpoint calls `get_user` with one argument. The endpoint is therefore modelled over an abstract service outcome per path id.
- FastAPI response-model validation of a `None` return.
- The abstract base classes in `splash_userservice/service.py`, and everything under `userworld/`. They contain no logic and are superseded duplicates.
- The unused `BeamlineRoles` enum, the unused `ALSHUB_PROPOSAL` constant and the unused `is_orcid_sandbox` flag.
