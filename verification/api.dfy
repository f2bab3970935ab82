/** The HTTP front: API-key extraction, key validation, and the mapping of
    the user service's outcome onto the `/api/v1/users/{id}` response.
 */
module Api {
  import opened Python
  import opened AlsHub

  const Forbidden: int := 403
  const MissingKeyDetail: string := "Could not validate credentials, missing APIKey"
  const InvalidKeyDetail: string := "Could not validate credentials"

  /** A check that passes a value on, or raises `HTTPException(status, detail)`. */
  datatype Checked<+T> = Accepted(value: T) | Rejected(status: int, detail: string)

  /** What the endpoint answers: a JSON body (the user, or `null` for `None`),
      an `HTTPException`, or a 500 for any other exception. */
  datatype Response = Body(user: Option<User>) | HttpError(status: int, detail: string) | InternalError

  /** A key source is used when it is present and non-empty. */
  predicate Given(k: Option<string>) {
    k.Some? && |k.value| > 0
  }

  /** `get_api_key_from_request`: query, then header, then cookie. */
  function ApiKeyFromRequest(query: Option<string>, header: Option<string>, cookie: Option<string>): (r: Checked<string>)
    ensures Given(query) ==> r == Accepted(query.value)
    ensures !Given(query) && Given(header) ==> r == Accepted(header.value)
    ensures !Given(query) && !Given(header) && Given(cookie) ==> r == Accepted(cookie.value)
    ensures !Given(query) && !Given(header) && !Given(cookie) ==> r == Rejected(Forbidden, MissingKeyDetail)
  {
    if Given(query) then Accepted(query.value)
    else if Given(header) then Accepted(header.value)
    else if Given(cookie) then Accepted(cookie.value)
    else Rejected(Forbidden, MissingKeyDetail)
  }

  /** The first given source of a list, as a reference for the precedence rule. */
  function FirstGiven(sources: seq<Option<string>>): Option<string>
  {
    if |sources| == 0 then None
    else if Given(sources[0]) then sources[0]
    else FirstGiven(sources[1..])
  }

  /** The extracted key is the first given source in the order query, header,
      cookie; it is never empty, and a missing key is refused with 403. */
  lemma KeyIsFirstGiven(query: Option<string>, header: Option<string>, cookie: Option<string>)
    ensures var r := ApiKeyFromRequest(query, header, cookie);
            var first := FirstGiven([query, header, cookie]);
            && (first.Some? ==> r == Accepted(first.value) && |r.value| > 0)
            && (first.None? ==> r == Rejected(Forbidden, MissingKeyDetail))
  {
    assert [query, header, cookie][1..] == [header, cookie];
    assert [header, cookie][1..] == [cookie];
    assert [cookie][1..] == [];
    assert FirstGiven([cookie]) == if Given(cookie) then cookie else None;
    assert FirstGiven([header, cookie]) == if Given(header) then header else FirstGiven([cookie]);
    assert FirstGiven([query, header, cookie]) == if Given(query) then query else FirstGiven([header, cookie]);
  }

  /** `validate_api_key`: only the configured key passes. */
  function ValidateApiKey(key: string, configured: string): (r: Checked<()>)
    ensures r.Accepted? <==> key == configured
    ensures r.Rejected? ==> r.status == Forbidden && r.detail == InvalidKeyDetail
  {
    if key != configured then Rejected(Forbidden, InvalidKeyDetail) else Accepted(())
  }

  /** The service's outcome as a response: `UserNotFound` becomes 404 with the
      exception's message; other exceptions are not caught. */
  function ServiceResponse(outcome: Outcome): (r: Response)
    ensures r.HttpError? <==> outcome.UserNotFound?
    ensures outcome.UserNotFound? ==> r == HttpError(404, outcome.message)
    ensures outcome.Found? ==> r == Body(Some(outcome.user))
    ensures outcome.NoUser? ==> r == Body(None)
    ensures r.InternalError? <==> outcome.CommunicationError? || outcome.Uncaught?
  {
    match outcome
    case Found(u) => Body(Some(u))
    case NoUser => Body(None)
    case UserNotFound(message) => HttpError(404, message)
    case _ => InternalError
  }

  /** `get_user(orcid)`: the key dependency, then validation, then the service
      (given here as its outcome for each path id). */
  function GetUserEndpoint(configured: string, query: Option<string>, header: Option<string>, cookie: Option<string>,
                           id: string, lookup: string -> Outcome): (r: Response)
    ensures !Given(query) && !Given(header) && !Given(cookie) ==> r == HttpError(Forbidden, MissingKeyDetail)
    ensures ApiKeyFromRequest(query, header, cookie) == Accepted(configured) ==> r == ServiceResponse(lookup(id))
    ensures ApiKeyFromRequest(query, header, cookie).Accepted? && ApiKeyFromRequest(query, header, cookie).value != configured
            ==> r == HttpError(Forbidden, InvalidKeyDetail)
  {
    match ApiKeyFromRequest(query, header, cookie)
    case Rejected(status, detail) => HttpError(status, detail)
    case Accepted(key) =>
      match ValidateApiKey(key, configured)
      case Rejected(status, detail) => HttpError(status, detail)
      case Accepted(_) => ServiceResponse(lookup(id))
  }

  /** Keys are checked before the service is consulted: a request without the
      configured key gets the same 403 whatever the service would answer. */
  lemma KeyCheckedBeforeService(configured: string, query: Option<string>, header: Option<string>, cookie: Option<string>,
                                id: string, lookup1: string -> Outcome, lookup2: string -> Outcome)
    requires ApiKeyFromRequest(query, header, cookie) != Accepted(configured)
    ensures GetUserEndpoint(configured, query, header, cookie, id, lookup1)
            == GetUserEndpoint(configured, query, header, cookie, id, lookup2)
    ensures GetUserEndpoint(configured, query, header, cookie, id, lookup1).HttpError?
    ensures GetUserEndpoint(configured, query, header, cookie, id, lookup1).status == Forbidden
  {
  }

  /** A 404 is answered exactly for a valid key and a `UserNotFound` outcome,
      carrying that outcome's message. */
  lemma NotFoundIs404(configured: string, query: Option<string>, header: Option<string>, cookie: Option<string>,
                      id: string, lookup: string -> Outcome)
    ensures var r := GetUserEndpoint(configured, query, header, cookie, id, lookup);
            r.HttpError? && r.status == 404
            <==> ApiKeyFromRequest(query, header, cookie) == Accepted(configured) && lookup(id).UserNotFound?
    ensures var r := GetUserEndpoint(configured, query, header, cookie, id, lookup);
            r.HttpError? && r.status == 404 ==> r.detail == lookup(id).message
  {
  }

  /** With the default configuration (`API_KEY` empty) every request is refused:
      an empty key counts as missing and a non-empty one never matches. */
  lemma DefaultKeyRefusesAll(query: Option<string>, header: Option<string>, cookie: Option<string>,
                             id: string, lookup: string -> Outcome)
    ensures var r := GetUserEndpoint("", query, header, cookie, id, lookup);
            r.HttpError? && r.status == Forbidden
  {
    KeyIsFirstGiven(query, header, cookie);
  }
}
