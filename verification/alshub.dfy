/** `ALSHubService.get_user` and the three group sources it consults.

    Every GET is answered by an abstract `Fetch`; the aggregator returns the
    outcome together with the requests it issued, in order. Calls are
    sequential: person lookup, staff roles (email lookups only), proposals,
    ESAF cases.
 */
module AlsHub {
  import opened Python
  import opened Upstream
  import opened Roles

  const PersonPath: string := "ALSGetPerson"
  const ProposalsByPath: string := "ALSGetProposalsBy"
  const PersonRolesPath: string := "ALSGetPersonRoles"
  const EsafInfoPath: string := "EsafInformation/GetESAF"

  /** `ADMINS`: email -> extra group names, maintained outside the directory service. */
  type AdminTable = map<string, seq<string>>

  datatype IdType = Orcid | Email

  /** The `User` record; profile fields are copied as read (`None` is `JNull`),
      `groups` is absent for profile-only lookups. The list built from the
      group set has no defined order, so it is kept as a set. */
  datatype User = User(
    uid: Json,
    givenName: Json,
    familyName: Json,
    currentInstitution: Json,
    currentEmail: Json,
    orcid: Json,
    groups: Option<set<Json>>)

  /** What `get_user` does: return a user, return `None`, or raise. */
  datatype Outcome =
    | Found(user: User)
    | NoUser
    | UserNotFound(message: string)
    | CommunicationError(message: string)
    | Uncaught(cause: Cause)

  datatype Run = Run(outcome: Outcome, calls: seq<Request>)

  function QueryParam(idType: IdType): string {
    if idType == Email then "em" else "or"
  }

  function PersonRequest(id: string, idType: IdType): Request {
    Request(AlsHub, PersonPath, QueryParam(idType), JStr(id))
  }

  function RolesRequest(email: string): Request {
    Request(AlsHub, PersonRolesPath, "em", JStr(email))
  }

  function ProposalsRequest(lbId: Json): Request {
    Request(AlsHub, ProposalsByPath, "lb", lbId)
  }

  function EsafRequest(lbId: Json): Request {
    Request(Esaf, EsafInfoPath, "lb", lbId)
  }

  /** The admin groups configured for `email`, or none. */
  function Listed(admins: AdminTable, email: string): set<string> {
    if email in admins then set g | g in admins[email] else {}
  }

  /** `if ADMINS: beamlines.update(ADMINS[email])`: a non-empty table without
      the email raises `KeyError`. */
  function AdminGroups(admins: AdminTable, email: string): (r: Result<set<string>>)
    ensures r.Ok? <==> |admins| == 0 || email in admins
    ensures r.Ok? ==> r.value == Listed(admins, email)
    ensures r.Raise? ==> r.cause == KeyError
  {
    if |admins| == 0 then Ok({})
    else if email in admins then Ok(set g | g in admins[email])
    else Raise(KeyError)
  }

  /** `get_staff_beamlines(ac, email)`. */
  function GetStaffBeamlines(fetch: Fetch, admins: AdminTable, email: string): (r: Result<set<string>>)
    ensures fetch(RolesRequest(email)).Raises? ==> r == Raise(TransportError)
    ensures r.Ok? ==> |admins| == 0 || email in admins
    ensures r.Ok? ==> Listed(admins, email) <= r.value
    ensures var reply := fetch(RolesRequest(email));
            reply.Response? && (|admins| == 0 || email in admins)
            && (IsError(reply.status) || !HasContent(reply.body))
            ==> r == Ok(Listed(admins, email))
  {
    var reply := fetch(RolesRequest(email));
    if reply.Raises? then Raise(TransportError)
    else
      var beamlines :- AdminGroups(admins, email);
      if IsError(reply.status) then Ok(beamlines)
      else if !HasContent(reply.body) then Ok(beamlines)
      else
        var doc :- DecodeBody(reply.body);
        var roles :- Subscript(doc, "Beamline Roles");
        var mapped :- RolesToBeamlineGroups(roles, ApprovalRoles);
        Ok(beamlines + set g | g in mapped)
  }

  /** `get_user_proposals(client, lbl_id)`. The empty dict, the empty list and
      the set it may return are all read by the caller as the groups they
      contain, so each is the set of its elements here. */
  function GetUserProposals(fetch: Fetch, lbId: Json): (r: Result<set<Json>>)
    ensures fetch(ProposalsRequest(lbId)).Raises? ==> r == Raise(TransportError)
    ensures var reply := fetch(ProposalsRequest(lbId));
            reply.Response? && IsError(reply.status) && reply.body.Parsed? ==> r == Ok({})
    ensures var reply := fetch(ProposalsRequest(lbId));
            reply.Response? && !reply.body.Parsed? ==> r == Raise(JsonDecodeError)
  {
    var reply := fetch(ProposalsRequest(lbId));
    if reply.Raises? then Raise(TransportError)
    else if IsError(reply.status) then
      var logged :- DecodeBody(reply.body);
      Ok({})
    else
      var doc :- DecodeBody(reply.body);
      var proposals :- GetField(doc, "Proposals");
      if !Truthy(proposals) then Ok({})
      else
        var items :- Iterate(proposals);
        ToSet(items)
  }

  /** The `ProposalFriendlyId` of every case. */
  function FriendlyIds(cases: seq<Json>): (r: Result<set<Json>>)
    ensures r.Ok? ==> forall v :: v in r.value ==> Hashable(v)
  {
    if |cases| == 0 then Ok({})
    else
      var id :- Subscript(cases[0], "ProposalFriendlyId");
      if !Hashable(id) then Raise(TypeError)
      else
        var rest :- FriendlyIds(cases[1..]);
        Ok({id} + rest)
  }

  /** `get_user_esafs(client, lbl_id)`; its implicit `None` is the empty set. */
  function GetUserEsafs(fetch: Fetch, lbId: Json): (r: Result<set<Json>>)
    ensures fetch(EsafRequest(lbId)).Raises? ==> r == Raise(TransportError)
    ensures var reply := fetch(EsafRequest(lbId));
            reply.Response? && IsError(reply.status) && reply.body.Parsed? ==> r == Ok({})
    ensures var reply := fetch(EsafRequest(lbId));
            reply.Response? && !reply.body.Parsed? ==> r == Raise(JsonDecodeError)
  {
    var reply := fetch(EsafRequest(lbId));
    if reply.Raises? then Raise(TransportError)
    else if IsError(reply.status) then
      var logged :- DecodeBody(reply.body);
      Ok({})
    else
      var esafs :- DecodeBody(reply.body);
      if !Truthy(esafs) then Ok({})
      else
        var n :- Len(esafs);
        if n == 0 then Ok({})
        else
          var cases :- Iterate(esafs);
          FriendlyIds(cases)
  }

  /** The record built from the person reply `person` (a dict). Fields are
      read with `dict.get`, so a missing one becomes `None` rather than raising. */
  function Profile(person: seq<(string, Json)>, groups: Option<set<Json>>): (u: User)
    ensures u.groups == groups
    ensures !HasKey(person, "LBNLID") ==> u.uid == JNull
    ensures !HasKey(person, "FirstName") ==> u.givenName == JNull
    ensures !HasKey(person, "LastName") ==> u.familyName == JNull
    ensures !HasKey(person, "Institution") ==> u.currentInstitution == JNull
    ensures !HasKey(person, "OrgEmail") ==> u.currentEmail == JNull
    ensures !HasKey(person, "orcid") ==> u.orcid == JNull
  {
    User(Lookup(person, "LBNLID"), Lookup(person, "FirstName"), Lookup(person, "LastName"),
         Lookup(person, "Institution"), Lookup(person, "OrgEmail"), Lookup(person, "orcid"), groups)
  }

  function AsJson(names: set<string>): (r: set<Json>)
    ensures forall g :: JStr(g) in r <==> g in names
  {
    set g | g in names :: JStr(g)
  }

  function NotFoundMessage(id: string): string {
    "user " + id + " not found in ALSHub"
  }

  function NoIdMessage(id: string): string {
    "user " + id + " not found in ALSHub or could not communicate"
  }

  function CommunicationMessage(id: string, idType: IdType): string {
    "exception talking to " + PersonPath + "/?" + QueryParam(idType) + "=" + id
  }

  /** Everything after the person was resolved to `lbId`: staff groups,
      the `fetch_groups` short-circuit, proposals and ESAF cases. */
  function Gather(fetch: Fetch, admins: AdminTable, id: string, idType: IdType, fetchGroups: bool,
                  person: seq<(string, Json)>, lbId: Json): (r: Run)
    ensures RolesRequest(id) in r.calls <==> idType == Email
    ensures ProposalsRequest(lbId) in r.calls ==> fetchGroups
    ensures EsafRequest(lbId) in r.calls ==> fetchGroups && GetUserProposals(fetch, lbId).Ok?
    ensures r.outcome.Found? || r.outcome.Uncaught?
    ensures r.outcome.Found? ==> (r.outcome.user.groups.Some? <==> fetchGroups)
    ensures r.outcome.Found? && fetchGroups && idType == Email
            ==> AsJson(Listed(admins, id)) <= r.outcome.user.groups.value
  {
    var staffCalls := if idType == Email then [RolesRequest(id)] else [];
    var staff := if idType == Email then GetStaffBeamlines(fetch, admins, id) else Ok({});
    match staff
    case Raise(c) => Run(Uncaught(c), staffCalls)
    case Ok(beamlines) =>
      if !fetchGroups then Run(Found(Profile(person, None)), staffCalls)
      else
        var afterProposals := staffCalls + [ProposalsRequest(lbId)];
        match GetUserProposals(fetch, lbId)
        case Raise(c) => Run(Uncaught(c), afterProposals)
        case Ok(proposals) =>
          var afterEsafs := afterProposals + [EsafRequest(lbId)];
          match GetUserEsafs(fetch, lbId)
          case Raise(c) => Run(Uncaught(c), afterEsafs)
          case Ok(esafs) =>
            Run(Found(Profile(person, Some(AsJson(beamlines) + proposals + esafs))), afterEsafs)
  }

  /** `ALSHubService.get_user(id, id_type, fetch_groups)`. */
  function GetUser(fetch: Fetch, admins: AdminTable, id: string, idType: IdType, fetchGroups: bool): (r: Run)
    ensures |r.calls| >= 1 && r.calls[0] == PersonRequest(id, idType)
    ensures RolesRequest(id) in r.calls ==> idType == Email
    ensures r.outcome.CommunicationError? <==> fetch(PersonRequest(id, idType)).Raises?
    ensures r.outcome.Found? ==> Truthy(r.outcome.user.uid)
    ensures r.outcome.Found? ==> (r.outcome.user.groups.Some? <==> fetchGroups)
  {
    var person := PersonRequest(id, idType);
    var reply := fetch(person);
    if reply.Raises? then
      Run(CommunicationError(CommunicationMessage(id, idType)), [person])
    else if reply.status == 404 then
      Run(UserNotFound(NotFoundMessage(id)), [person])
    else if IsError(reply.status) then
      // the error body is decoded for the log line before `return None`
      match DecodeBody(reply.body)
      case Raise(c) => Run(Uncaught(c), [person])
      case Ok(_) => Run(NoUser, [person])
    else
      match DecodeBody(reply.body)
      case Raise(c) => Run(Uncaught(c), [person])
      case Ok(doc) =>
        match GetField(doc, "LBNLID")
        case Raise(c) => Run(Uncaught(c), [person])
        case Ok(lbId) =>
          if !Truthy(lbId) then Run(UserNotFound(NoIdMessage(id)), [person])
          else
            var rest := Gather(fetch, admins, id, idType, fetchGroups, doc.entries, lbId);
            Run(rest.outcome, [person] + rest.calls)
  }
}
