/** The role-to-beamline mapper, `alshub_roles_to_beamline_groups`.

    The directory service reports roles as a list of one-key objects, each
    mapping a beamline id to the role names the person holds there. The mapper
    walks the list in order and, for each entry, appends the entry's first key
    once for every approval role found in that key's role list.
 */
module Roles {
  import opened Python

  /** `ALSHUB_APPROVAL_ROLES`. */
  const ApprovalRoles: seq<string> := ["Scientist"]

  /** The inner loop over approval roles for one entry whose first key is
      `beamline` and whose role list is `roles`. */
  function MatchApprovals(roles: Json, approvalRoles: seq<string>, beamline: string): (r: Result<seq<string>>)
    ensures r.Ok? ==> forall g :: g in r.value ==> g == beamline
    ensures |approvalRoles| == 0 ==> r == Ok([])
  {
    if |approvalRoles| == 0 then Ok([])
    else
      var hit :- Contains(roles, approvalRoles[0]);
      var rest :- MatchApprovals(roles, approvalRoles[1..], beamline);
      Ok((if hit then [beamline] else []) + rest)
  }

  /** One iteration of the outer loop: `list(entry.keys())[0]` raises
      `AttributeError` on a non-dict and `IndexError` on an empty dict. */
  function EntryGroups(entry: Json, approvalRoles: seq<string>): (r: Result<seq<string>>)
    ensures r.Ok? <==> Readable(entry, approvalRoles)
    ensures !entry.JObject? ==> r == Raise(AttributeError)
    ensures entry.JObject? && |entry.entries| == 0 ==> r == Raise(IndexError)
    ensures r.Ok? ==> forall g :: g in r.value ==> g == FirstKey(entry)
  {
    match entry
    case JObject(entries) =>
      if |entries| == 0 then Raise(IndexError)
      else
        MatchApprovalsSucceeds(entries[0].1, approvalRoles, entries[0].0);
        MatchApprovals(entries[0].1, approvalRoles, entries[0].0)
    case _ => Raise(AttributeError)
  }

  /** The outer loop; an exception in any entry discards the partial list. */
  function MapEntries(entries: seq<Json>, approvalRoles: seq<string>): (r: Result<seq<string>>)
    ensures |entries| > 0 && !Readable(entries[0], approvalRoles) ==> r == EntryGroups(entries[0], approvalRoles)
    ensures r.Ok? ==> forall g :: g in r.value ==>
              exists i :: 0 <= i < |entries| && Readable(entries[i], approvalRoles) && FirstKey(entries[i]) == g
  {
    if |entries| == 0 then Ok([])
    else
      var head :- EntryGroups(entries[0], approvalRoles);
      var tail :- MapEntries(entries[1..], approvalRoles);
      Ok(head + tail)
  }

  /** `alshub_roles_to_beamline_groups(beamline_roles, approval_roles)`. */
  function RolesToBeamlineGroups(beamlineRoles: Json, approvalRoles: seq<string>): (r: Result<seq<string>>)
    ensures !Truthy(beamlineRoles) ==> r == Ok([])
    ensures beamlineRoles.JArray? ==> r == MapEntries(beamlineRoles.items, approvalRoles)
  {
    if !Truthy(beamlineRoles) then Ok([])
    else
      var entries :- Iterate(beamlineRoles);
      MapEntries(entries, approvalRoles)
  }

  // ---------------------------------------------------------------------------
  // Reference definitions

  /** The entry can be processed: it is a non-empty dict and, when some
      approval role has to be tested against it, its first value supports `in`. */
  predicate Readable(entry: Json, approvalRoles: seq<string>) {
    && entry.JObject?
    && |entry.entries| > 0
    && (|approvalRoles| > 0 ==> var v := entry.entries[0].1; v.JArray? || v.JStr? || v.JObject?)
  }

  /** The beamline id an entry names: its first key. */
  function FirstKey(entry: Json): string
    requires entry.JObject? && |entry.entries| > 0
  {
    entry.entries[0].0
  }

  /** `role in entry[first key]` holds. */
  predicate Holds(entry: Json, role: string)
    requires entry.JObject? && |entry.entries| > 0
  {
    Contains(entry.entries[0].1, role) == Ok(true)
  }

  /** The entry grants access: its first key's role list holds some approval role. */
  predicate Qualifies(entry: Json, approvalRoles: seq<string>) {
    && entry.JObject?
    && |entry.entries| > 0
    && exists a :: a in approvalRoles && Holds(entry, a)
  }

  /** The first keys of the qualifying entries, in input order. */
  function Approved(entries: seq<Json>, approvalRoles: seq<string>): seq<string>
  {
    if |entries| == 0 then []
    else (if Qualifies(entries[0], approvalRoles) then [FirstKey(entries[0])] else [])
         + Approved(entries[1..], approvalRoles)
  }

  // ---------------------------------------------------------------------------
  // Properties

  lemma {:induction false} MatchApprovalsSucceeds(roles: Json, approvalRoles: seq<string>, beamline: string)
    ensures MatchApprovals(roles, approvalRoles, beamline).Ok?
            <==> |approvalRoles| == 0 || roles.JArray? || roles.JStr? || roles.JObject?
    decreases |approvalRoles|
  {
    if |approvalRoles| > 0 {
      MatchApprovalsSucceeds(roles, approvalRoles[1..], beamline);
    }
  }

  lemma {:induction false} MatchApprovalsHits(roles: Json, approvalRoles: seq<string>, beamline: string)
    requires MatchApprovals(roles, approvalRoles, beamline).Ok?
    ensures var out := MatchApprovals(roles, approvalRoles, beamline).value;
            |out| > 0 <==> exists a :: a in approvalRoles && Contains(roles, a) == Ok(true)
    decreases |approvalRoles|
  {
    if |approvalRoles| > 0 {
      MatchApprovalsHits(roles, approvalRoles[1..], beamline);
      var a0 := approvalRoles[0];
      var out := MatchApprovals(roles, approvalRoles, beamline).value;
      if exists a :: a in approvalRoles && Contains(roles, a) == Ok(true) {
        var a :| a in approvalRoles && Contains(roles, a) == Ok(true);
        if a != a0 {
          assert a in approvalRoles[1..];
        }
      }
      if exists a :: a in approvalRoles[1..] && Contains(roles, a) == Ok(true) {
        var a :| a in approvalRoles[1..] && Contains(roles, a) == Ok(true);
        assert a in approvalRoles;
      }
    }
  }

  /** With exactly one approval role, every match contributes one copy. */
  lemma SingleApprovalMatch(roles: Json, role: string, beamline: string)
    requires MatchApprovals(roles, [role], beamline).Ok?
    ensures MatchApprovals(roles, [role], beamline).value
            == if Contains(roles, role) == Ok(true) then [beamline] else []
  {
    assert [role][1..] == [];
  }

  /** The mapper succeeds exactly when every entry is readable. */
  lemma {:induction false} MapEntriesSucceedsIff(entries: seq<Json>, approvalRoles: seq<string>)
    ensures MapEntries(entries, approvalRoles).Ok?
            <==> forall i :: 0 <= i < |entries| ==> Readable(entries[i], approvalRoles)
    decreases |entries|
  {
    if |entries| > 0 {
      MapEntriesSucceedsIff(entries[1..], approvalRoles);
      var e := entries[0];
      if e.JObject? && |e.entries| > 0 {
        MatchApprovalsSucceeds(e.entries[0].1, approvalRoles, e.entries[0].0);
      }
      if forall i :: 0 <= i < |entries[1..]| ==> Readable(entries[1..][i], approvalRoles) {
        if Readable(e, approvalRoles) {
          forall i | 0 <= i < |entries| ensures Readable(entries[i], approvalRoles) {
            if i > 0 {
              assert entries[i] == entries[1..][i - 1];
            }
          }
        }
      } else {
        var j :| 0 <= j < |entries[1..]| && !Readable(entries[1..][j], approvalRoles);
        assert entries[j + 1] == entries[1..][j];
      }
    }
  }

  /** The mapper lists exactly the first keys of the qualifying entries. */
  lemma {:induction false} MapEntriesMembership(entries: seq<Json>, approvalRoles: seq<string>, g: string)
    requires MapEntries(entries, approvalRoles).Ok?
    ensures g in MapEntries(entries, approvalRoles).value
            <==> exists i :: 0 <= i < |entries| && Qualifies(entries[i], approvalRoles) && FirstKey(entries[i]) == g
    decreases |entries|
  {
    if |entries| > 0 {
      var e := entries[0];
      var head := EntryGroups(e, approvalRoles).value;
      MapEntriesMembership(entries[1..], approvalRoles, g);
      assert e.JObject? && |e.entries| > 0;
      MatchApprovalsHits(e.entries[0].1, approvalRoles, e.entries[0].0);
      assert MapEntries(entries, approvalRoles).value == head + MapEntries(entries[1..], approvalRoles).value;
      assert |head| > 0 <==> Qualifies(e, approvalRoles);
      if |head| > 0 {
        assert head[0] in head;
      }
      assert g in head <==> Qualifies(e, approvalRoles) && FirstKey(e) == g;
      if exists i :: 0 <= i < |entries[1..]| && Qualifies(entries[1..][i], approvalRoles) && FirstKey(entries[1..][i]) == g {
        var i :| 0 <= i < |entries[1..]| && Qualifies(entries[1..][i], approvalRoles) && FirstKey(entries[1..][i]) == g;
        assert entries[i + 1] == entries[1..][i];
      }
      if exists i :: 0 <= i < |entries| && Qualifies(entries[i], approvalRoles) && FirstKey(entries[i]) == g {
        var i :| 0 <= i < |entries| && Qualifies(entries[i], approvalRoles) && FirstKey(entries[i]) == g;
        if i > 0 {
          assert entries[1..][i - 1] == entries[i];
        }
      }
    }
  }

  /** With a single approval role the mapper is exactly the ordered filter. */
  lemma {:induction false} SingleRoleIsFilter(entries: seq<Json>, role: string)
    requires MapEntries(entries, [role]).Ok?
    ensures MapEntries(entries, [role]).value == Approved(entries, [role])
    decreases |entries|
  {
    if |entries| > 0 {
      var e := entries[0];
      SingleRoleIsFilter(entries[1..], role);
      SingleApprovalMatch(e.entries[0].1, role, e.entries[0].0);
      assert Qualifies(e, [role]) <==> Holds(e, role);
    }
  }

  /** A truthy role report that is not a list always raises: iterating a
      string or a dict yields strings, which have no `keys`. */
  lemma NonListRaises(beamlineRoles: Json, approvalRoles: seq<string>)
    requires Truthy(beamlineRoles) && !beamlineRoles.JArray?
    ensures RolesToBeamlineGroups(beamlineRoles, approvalRoles).Raise?
  {
    var it := Iterate(beamlineRoles);
    if it.Ok? {
      assert |it.value| > 0;
      assert it.value[0].JStr?;
    }
  }

  /** The report as a whole: it succeeds exactly when every entry is
      readable, and then lists exactly the qualifying beamlines; with the one
      configured approval role it lists them once each, in report order. */
  lemma RolesReport(entries: seq<Json>, g: string)
    ensures var r := RolesToBeamlineGroups(JArray(entries), ApprovalRoles);
            && (r.Ok? <==> forall i :: 0 <= i < |entries| ==> Readable(entries[i], ApprovalRoles))
            && (r.Ok? ==> r.value == Approved(entries, ApprovalRoles))
            && (r.Ok? ==> (g in r.value <==> exists i :: 0 <= i < |entries| && Qualifies(entries[i], ApprovalRoles) && FirstKey(entries[i]) == g))
  {
    MapEntriesSucceedsIff(entries, ApprovalRoles);
    if MapEntries(entries, ApprovalRoles).Ok? {
      SingleRoleIsFilter(entries, "Scientist");
      MapEntriesMembership(entries, ApprovalRoles, g);
    }
  }

  /** The two-entry report from the repository's unit test. */
  function FixtureReport(): Json {
    JArray([
      JObject([("beamline1", JArray([JStr("Scientist"), JStr("Beamline Usage"), JStr("Satisfaction Survey"),
                                     JStr("Scheduler"), JStr("Beamline Staff"), JStr("Experiment Authorization"),
                                     JStr("RAC Beamline Admin")]))]),
      JObject([("beamline2", JArray([JStr("Beamline Staff")]))])
    ])
  }

  lemma FixtureYieldsBeamline1()
    ensures RolesToBeamlineGroups(FixtureReport(), ApprovalRoles) == Ok(["beamline1"])
    ensures RolesToBeamlineGroups(JArray([]), ApprovalRoles) == Ok([])
  {
    var items := FixtureReport().items;
    var e1, e2 := items[0], items[1];
    assert JStr("Scientist") == e1.entries[0].1.items[0];
    assert JStr("Scientist") !in e2.entries[0].1.items;
    MatchApprovalsSucceeds(e1.entries[0].1, ApprovalRoles, "beamline1");
    MatchApprovalsSucceeds(e2.entries[0].1, ApprovalRoles, "beamline2");
    SingleApprovalMatch(e1.entries[0].1, "Scientist", "beamline1");
    SingleApprovalMatch(e2.entries[0].1, "Scientist", "beamline2");
    assert items[1..][1..] == [];
    assert MapEntries(items[1..], ApprovalRoles) == Ok([]);
  }

  /** The approval roles, in order and with repetitions, that the role list holds. */
  function Matching(roles: Json, approvalRoles: seq<string>): seq<string>
  {
    if |approvalRoles| == 0 then []
    else (if Contains(roles, approvalRoles[0]) == Ok(true) then [approvalRoles[0]] else [])
         + Matching(roles, approvalRoles[1..])
  }

  /** `n` copies of `b`. */
  function Repeat(b: string, n: nat): seq<string>
  {
    if n == 0 then [] else [b] + Repeat(b, n - 1)
  }

  /** One entry contributes its beamline once per matching approval role: an
      approval role listed twice appends the beamline twice. */
  lemma {:induction false} MatchApprovalsRepeats(roles: Json, approvalRoles: seq<string>, beamline: string)
    requires MatchApprovals(roles, approvalRoles, beamline).Ok?
    ensures MatchApprovals(roles, approvalRoles, beamline).value == Repeat(beamline, |Matching(roles, approvalRoles)|)
    decreases |approvalRoles|
  {
    if |approvalRoles| > 0 {
      MatchApprovalsRepeats(roles, approvalRoles[1..], beamline);
      var n := |Matching(roles, approvalRoles[1..])|;
      if Contains(roles, approvalRoles[0]) == Ok(true) {
        assert |Matching(roles, approvalRoles)| == n + 1;
        assert Repeat(beamline, n + 1) == [beamline] + Repeat(beamline, n);
      }
    }
  }
}
