/** Properties of `ALSHubService.get_user` and its group sources: the error
    policy of the person lookup, which requests are issued, and how the group
    set is assembled from independently failing sources.
 */
module AlsHubProperties {
  import opened Python
  import opened Upstream
  import opened Roles
  import opened AlsHub

  /** The person lookup succeeded with a dict carrying a truthy `LBNLID`. */
  predicate Resolved(fetch: Fetch, id: string, idType: IdType) {
    var reply := fetch(PersonRequest(id, idType));
    && reply.Response?
    && !IsError(reply.status)
    && reply.body.Parsed?
    && reply.body.doc.JObject?
    && Truthy(Lookup(reply.body.doc.entries, "LBNLID"))
  }

  /** The person record of a resolved lookup. */
  function Person(fetch: Fetch, id: string, idType: IdType): seq<(string, Json)>
    requires Resolved(fetch, id, idType)
  {
    fetch(PersonRequest(id, idType)).body.doc.entries
  }

  function LbId(fetch: Fetch, id: string, idType: IdType): Json
    requires Resolved(fetch, id, idType)
  {
    Lookup(Person(fetch, id, idType), "LBNLID")
  }

  /** The staff contribution: computed for email lookups only. */
  function Staff(fetch: Fetch, admins: AdminTable, id: string, idType: IdType): Result<set<string>> {
    if idType == Email then GetStaffBeamlines(fetch, admins, id) else Ok({})
  }

  // ---------------------------------------------------------------------------
  // The person lookup

  /** The lookup is keyed by `em` for an email and by `or` otherwise, and a
      raising GET becomes `CommunicationError` naming that query. */
  lemma PersonLookupRaises(fetch: Fetch, admins: AdminTable, id: string, idType: IdType, fetchGroups: bool)
    requires fetch(PersonRequest(id, idType)).Raises?
    ensures var r := GetUser(fetch, admins, id, idType, fetchGroups);
            && r.outcome == CommunicationError("exception talking to ALSGetPerson/?" + QueryParam(idType) + "=" + id)
            && r.calls == [PersonRequest(id, idType)]
    ensures PersonRequest(id, idType).param == if idType == Email then "em" else "or"
  {
  }

  /** A 404 raises `UserNotFound` and nothing else is requested. */
  lemma NotFoundStops(fetch: Fetch, admins: AdminTable, id: string, idType: IdType, fetchGroups: bool)
    requires fetch(PersonRequest(id, idType)).Response? && fetch(PersonRequest(id, idType)).status == 404
    ensures GetUser(fetch, admins, id, idType, fetchGroups)
            == Run(UserNotFound("user " + id + " not found in ALSHub"), [PersonRequest(id, idType)])
  {
  }

  /** Any other error status returns `None` without further requests, unless
      the error body cannot be decoded for the log line, which raises. */
  lemma OtherErrorReturnsNone(fetch: Fetch, admins: AdminTable, id: string, idType: IdType, fetchGroups: bool)
    requires var reply := fetch(PersonRequest(id, idType));
             reply.Response? && IsError(reply.status) && reply.status != 404
    ensures var r := GetUser(fetch, admins, id, idType, fetchGroups);
            && r.calls == [PersonRequest(id, idType)]
            && (fetch(PersonRequest(id, idType)).body.Parsed? ==> r.outcome == NoUser)
            && (!fetch(PersonRequest(id, idType)).body.Parsed? ==> r.outcome == Uncaught(JsonDecodeError))
  {
  }

  /** A successful reply whose `LBNLID` is missing or falsy raises `UserNotFound`. */
  lemma FalsyIdIsNotFound(fetch: Fetch, admins: AdminTable, id: string, idType: IdType, fetchGroups: bool)
    requires var reply := fetch(PersonRequest(id, idType));
             && reply.Response? && !IsError(reply.status)
             && reply.body.Parsed? && reply.body.doc.JObject?
             && !Truthy(Lookup(reply.body.doc.entries, "LBNLID"))
    ensures GetUser(fetch, admins, id, idType, fetchGroups)
            == Run(UserNotFound("user " + id + " not found in ALSHub or could not communicate"),
                   [PersonRequest(id, idType)])
  {
  }

  /** A person that does not resolve ends the lookup after that single
      request and without a user; a resolved one goes on to further requests
      whenever there is anything left to ask (an email lookup, or groups). */
  lemma OnlyResolvedPersonsProceed(fetch: Fetch, admins: AdminTable, id: string, idType: IdType, fetchGroups: bool)
    ensures var r := GetUser(fetch, admins, id, idType, fetchGroups);
            !Resolved(fetch, id, idType) ==> r.calls == [PersonRequest(id, idType)] && !r.outcome.Found?
    ensures var r := GetUser(fetch, admins, id, idType, fetchGroups);
            Resolved(fetch, id, idType) && (idType == Email || fetchGroups) ==> |r.calls| > 1
  {
  }

  // ---------------------------------------------------------------------------
  // After the person resolved

  /** The roles endpoint is asked only for email lookups, and then always. */
  lemma StaffOnlyForEmail(fetch: Fetch, admins: AdminTable, id: string, idType: IdType, fetchGroups: bool)
    requires Resolved(fetch, id, idType)
    ensures var r := GetUser(fetch, admins, id, idType, fetchGroups);
            (RolesRequest(id) in r.calls <==> idType == Email)
  {
    var r := GetUser(fetch, admins, id, idType, fetchGroups);
    if idType == Email {
      assert r.calls[1] == RolesRequest(id);
    }
  }

  /** Without `fetch_groups` the user carries profile fields only and neither
      proposals nor ESAF cases are requested; the staff lookup still runs and
      can still raise. */
  lemma ProfileOnly(fetch: Fetch, admins: AdminTable, id: string, idType: IdType)
    requires Resolved(fetch, id, idType)
    ensures var r := GetUser(fetch, admins, id, idType, false);
            var lb := LbId(fetch, id, idType);
            && ProposalsRequest(lb) !in r.calls
            && EsafRequest(lb) !in r.calls
            && (Staff(fetch, admins, id, idType).Ok? ==> r.outcome == Found(Profile(Person(fetch, id, idType), None)))
            && (Staff(fetch, admins, id, idType).Raise? ==> r.outcome == Uncaught(Staff(fetch, admins, id, idType).cause))
  {
    var r := GetUser(fetch, admins, id, idType, false);
    var lb := LbId(fetch, id, idType);
    assert r.calls == [PersonRequest(id, idType)] + (if idType == Email then [RolesRequest(id)] else []);
  }

  /** With `fetch_groups`, the groups are the union of the staff beamlines, the
      proposal ids and the ESAF friendly ids, and the requests run in order. */
  lemma GroupsAreUnion(fetch: Fetch, admins: AdminTable, id: string, idType: IdType)
    requires Resolved(fetch, id, idType)
    requires Staff(fetch, admins, id, idType).Ok?
    requires GetUserProposals(fetch, LbId(fetch, id, idType)).Ok?
    requires GetUserEsafs(fetch, LbId(fetch, id, idType)).Ok?
    ensures var r := GetUser(fetch, admins, id, idType, true);
            var lb := LbId(fetch, id, idType);
            var staff := Staff(fetch, admins, id, idType).value;
            var proposals := GetUserProposals(fetch, lb).value;
            var esafs := GetUserEsafs(fetch, lb).value;
            && r.outcome == Found(Profile(Person(fetch, id, idType), Some(AsJson(staff) + proposals + esafs)))
            && r.calls == [PersonRequest(id, idType)]
                          + (if idType == Email then [RolesRequest(id)] else [])
                          + [ProposalsRequest(lb), EsafRequest(lb)]
  {
  }

  /** Exceptions from the roles, proposals and ESAF GETs are not caught: they
      end the lookup as uncaught transport errors, never as `CommunicationError`. */
  lemma SourceTransportFailuresPropagate(fetch: Fetch, admins: AdminTable, id: string, idType: IdType)
    requires Resolved(fetch, id, idType)
    requires var lb := LbId(fetch, id, idType);
             || (idType == Email && fetch(RolesRequest(id)).Raises?)
             || (Staff(fetch, admins, id, idType).Ok? && fetch(ProposalsRequest(lb)).Raises?)
             || (Staff(fetch, admins, id, idType).Ok? && GetUserProposals(fetch, lb).Ok?
                 && fetch(EsafRequest(lb)).Raises?)
    ensures GetUser(fetch, admins, id, idType, true).outcome == Uncaught(TransportError)
  {
  }

  /** A source that answers with an error status contributes nothing and does
      not abort: with all three sources failing that way, an email lookup
      still carries exactly the admin groups for that email. The roles error
      body is never read; the other two must decode for their log lines. */
  lemma AdminGroupsSurviveFailingSources(fetch: Fetch, admins: AdminTable, id: string, status1: int, status2: int, status3: int, body1: Body, doc2: Json, doc3: Json)
    requires Resolved(fetch, id, Email)
    requires |admins| == 0 || id in admins
    requires IsError(status1) && IsError(status2) && IsError(status3)
    requires fetch(RolesRequest(id)) == Response(status1, body1)
    requires fetch(ProposalsRequest(LbId(fetch, id, Email))) == Response(status2, Parsed(doc2))
    requires fetch(EsafRequest(LbId(fetch, id, Email))) == Response(status3, Parsed(doc3))
    ensures GetUser(fetch, admins, id, Email, true).outcome
            == Found(Profile(Person(fetch, id, Email), Some(AsJson(Listed(admins, id)))))
  {
    var lb := LbId(fetch, id, Email);
    GroupsAreUnion(fetch, admins, id, Email);
    assert AsJson(Listed(admins, id)) + {} + {} == AsJson(Listed(admins, id));
  }

  /** A failed proposals source leaves the other contributions intact. */
  lemma ProposalsFailureIsIsolated(fetch: Fetch, admins: AdminTable, id: string, idType: IdType, status: int, doc: Json)
    requires Resolved(fetch, id, idType)
    requires Staff(fetch, admins, id, idType).Ok?
    requires IsError(status)
    requires fetch(ProposalsRequest(LbId(fetch, id, idType))) == Response(status, Parsed(doc))
    requires GetUserEsafs(fetch, LbId(fetch, id, idType)).Ok?
    ensures var r := GetUser(fetch, admins, id, idType, true);
            var esafs := GetUserEsafs(fetch, LbId(fetch, id, idType)).value;
            r.outcome == Found(Profile(Person(fetch, id, idType),
                                       Some(AsJson(Staff(fetch, admins, id, idType).value) + esafs)))
  {
    GroupsAreUnion(fetch, admins, id, idType);
    var s := AsJson(Staff(fetch, admins, id, idType).value);
    var esafs := GetUserEsafs(fetch, LbId(fetch, id, idType)).value;
    assert s + {} + esafs == s + esafs;
  }

  /** A malformed successful roles reply is not read as "no staff groups": it
      aborts the whole lookup with an uncaught exception. A report without
      `"Beamline Roles"` raises `KeyError`, a report whose first entry is `{}`
      raises `IndexError`, and any unreadable entry raises something. */
  lemma MalformedRolesKillsLookup(fetch: Fetch, admins: AdminTable, id: string, fetchGroups: bool, status: int, doc: Json)
    requires Resolved(fetch, id, Email)
    requires |admins| == 0 || id in admins
    requires fetch(RolesRequest(id)) == Response(status, Parsed(doc)) && !IsError(status)
    ensures doc.JObject? && !HasKey(doc.entries, "Beamline Roles")
            ==> GetUser(fetch, admins, id, Email, fetchGroups).outcome == Uncaught(KeyError)
    ensures var roles := Subscript(doc, "Beamline Roles");
            roles.Ok? && roles.value.JArray? && |roles.value.items| > 0 && roles.value.items[0] == JObject([])
            ==> GetUser(fetch, admins, id, Email, fetchGroups).outcome == Uncaught(IndexError)
    ensures var roles := Subscript(doc, "Beamline Roles");
            roles.Ok? && roles.value.JArray?
            && (exists i :: 0 <= i < |roles.value.items| && !Readable(roles.value.items[i], ApprovalRoles))
            ==> GetUser(fetch, admins, id, Email, fetchGroups).outcome.Uncaught?
  {
    var roles := Subscript(doc, "Beamline Roles");
    if roles.Ok? && roles.value.JArray? {
      MapEntriesSucceedsIff(roles.value.items, ApprovalRoles);
    }
  }

  /** Profile fields are copied from the person record under their source names. */
  lemma ProfileCopiedVerbatim(fetch: Fetch, admins: AdminTable, id: string, idType: IdType, fetchGroups: bool)
    requires GetUser(fetch, admins, id, idType, fetchGroups).outcome.Found?
    ensures Resolved(fetch, id, idType)
    ensures var u := GetUser(fetch, admins, id, idType, fetchGroups).outcome.user;
            var p := Person(fetch, id, idType);
            && u.uid == Lookup(p, "LBNLID")
            && u.givenName == Lookup(p, "FirstName")
            && u.familyName == Lookup(p, "LastName")
            && u.currentInstitution == Lookup(p, "Institution")
            && u.currentEmail == Lookup(p, "OrgEmail")
            && u.orcid == Lookup(p, "orcid")
  {
    OnlyResolvedPersonsProceed(fetch, admins, id, idType, fetchGroups);
  }

  // ---------------------------------------------------------------------------
  // The group sources

  /** Staff beamlines from a well-formed roles reply: exactly the admin groups
      together with the beamlines where the person is a Scientist. */
  lemma StaffBeamlinesFromRoles(fetch: Fetch, admins: AdminTable, email: string, status: int, doc: Json, entries: seq<Json>)
    requires |admins| == 0 || email in admins
    requires fetch(RolesRequest(email)) == Response(status, Parsed(doc))
    requires !IsError(status)
    requires Subscript(doc, "Beamline Roles") == Ok(JArray(entries))
    requires forall i :: 0 <= i < |entries| ==> Readable(entries[i], ApprovalRoles)
    ensures var r := GetStaffBeamlines(fetch, admins, email);
            && r.Ok?
            && forall g :: g in r.value <==> (g in Listed(admins, email)
                 || exists i :: 0 <= i < |entries| && Qualifies(entries[i], ApprovalRoles) && FirstKey(entries[i]) == g)
  {
    var r := GetStaffBeamlines(fetch, admins, email);
    RolesReport(entries, email);
    forall g ensures g in r.value <==> (g in Listed(admins, email)
                 || exists i :: 0 <= i < |entries| && Qualifies(entries[i], ApprovalRoles) && FirstKey(entries[i]) == g)
    {
      RolesReport(entries, g);
    }
  }

  /** A successful proposals reply lists its ids; a missing or falsy
      `Proposals` contributes nothing. */
  lemma ProposalIds(fetch: Fetch, lbId: Json, status: int, entries: seq<(string, Json)>)
    requires fetch(ProposalsRequest(lbId)) == Response(status, Parsed(JObject(entries)))
    requires !IsError(status)
    ensures var r := GetUserProposals(fetch, lbId);
            var proposals := Lookup(entries, "Proposals");
            && (!Truthy(proposals) ==> r == Ok({}))
            && (proposals.JArray? && (forall i :: 0 <= i < |proposals.items| ==> Hashable(proposals.items[i]))
                ==> r.Ok? && forall x :: x in r.value <==> x in proposals.items)
  {
  }

  /** The ids of a list of well-formed cases: one per case. */
  function CaseIds(cases: seq<Json>): set<Json>
    requires forall i :: 0 <= i < |cases| ==> cases[i].JObject?
  {
    set i | 0 <= i < |cases| :: Lookup(cases[i].entries, "ProposalFriendlyId")
  }

  /** A case is usable: a dict whose `ProposalFriendlyId` is present and hashable. */
  predicate GoodCase(c: Json) {
    c.JObject? && HasKey(c.entries, "ProposalFriendlyId") && Hashable(Lookup(c.entries, "ProposalFriendlyId"))
  }

  /** Collecting friendly ids succeeds exactly when every case is usable, and
      then yields one id per case. */
  lemma {:induction false} FriendlyIdsOfCases(cases: seq<Json>)
    ensures FriendlyIds(cases).Ok? <==> forall i :: 0 <= i < |cases| ==> GoodCase(cases[i])
    ensures FriendlyIds(cases).Ok? ==> FriendlyIds(cases).value == CaseIds(cases)
    decreases |cases|
  {
    if |cases| > 0 {
      FriendlyIdsOfCases(cases[1..]);
      if forall i :: 0 <= i < |cases| ==> GoodCase(cases[i]) {
        assert forall i :: 0 <= i < |cases[1..]| ==> GoodCase(cases[1..][i]) by {
          forall i | 0 <= i < |cases[1..]| ensures GoodCase(cases[1..][i]) {
            assert cases[1..][i] == cases[i + 1];
          }
        }
        var rest := CaseIds(cases[1..]);
        var id := Lookup(cases[0].entries, "ProposalFriendlyId");
        assert FriendlyIds(cases).value == {id} + rest;
        forall x ensures x in CaseIds(cases) <==> x in {id} + rest {
          if x in CaseIds(cases) {
            var i :| 0 <= i < |cases| && Lookup(cases[i].entries, "ProposalFriendlyId") == x;
            if i > 0 {
              assert cases[1..][i - 1] == cases[i];
            }
          }
          if x in rest {
            var i :| 0 <= i < |cases[1..]| && Lookup(cases[1..][i].entries, "ProposalFriendlyId") == x;
            assert cases[i + 1] == cases[1..][i];
          }
        }
      } else {
        var j :| 0 <= j < |cases| && !GoodCase(cases[j]);
        if j > 0 {
          assert cases[1..][j - 1] == cases[j];
        }
      }
    }
  }

  /** A successful ESAF reply that is a non-empty list of usable cases
      contributes exactly their friendly ids; a falsy document nothing. */
  lemma EsafIds(fetch: Fetch, lbId: Json, status: int, doc: Json)
    requires fetch(EsafRequest(lbId)) == Response(status, Parsed(doc))
    requires !IsError(status)
    ensures var r := GetUserEsafs(fetch, lbId);
            && (!Truthy(doc) ==> r == Ok({}))
            && (doc.JArray? && |doc.items| > 0 && (forall i :: 0 <= i < |doc.items| ==> GoodCase(doc.items[i]))
                ==> r == Ok(CaseIds(doc.items)))
  {
    if doc.JArray? {
      FriendlyIdsOfCases(doc.items);
    }
  }
}
