/**
 * What the team edit promises: its error exits, its indifference to
 * repeated usernames, the count check, the state a late 400 leaves behind,
 * the rewritten team, the back-references of old and new members, and the
 * two-way link between teams and their members.
 */
module TeamEditProperties {
  import opened Wrappers
  import opened Documents
  import opened InternModel
  import opened TeamEdit

  /** The users a team lists: its mentors, then its panelists. */
  function UserMembers(team: Team): seq<ObjectId>
  {
    team.mentors + team.panelists
  }

  /**
   * The request passed validation, `a` is the admin it names, `orgId` and
   * `orgName` are the admin's organization, and `t` is the team the request
   * names in that organization.
   */
  ghost predicate Located(db: Db, req: EditRequest, a: ObjectId, orgId: string, orgName: string, t: ObjectId)
  {
    && MissingField(req).None?
    && FirstUser(db.users, db.userOrder, AdminNamed(req.username.value)) == Some(a)
    && orgId == db.users[a].organizationId && orgName == db.users[a].organizationName
    && FirstTeam(db.teams, db.teamOrder, req.editTeamName.value, orgId) == Some(t)
  }

  /** The new mentors: the users named in `editMentors` with the admin's organizationId. */
  ghost function NewMentors(db: Db, req: EditRequest, orgId: string): seq<ObjectId>
    requires MissingField(req).None?
  {
    AllUsers(db.users, db.userOrder, NamesInOrganizationId(req.editMentors.value, orgId))
  }

  /** The new panelists: the users named in `editPanelists` with the admin's organizationId. */
  ghost function NewPanelists(db: Db, req: EditRequest, orgId: string): seq<ObjectId>
    requires MissingField(req).None?
  {
    AllUsers(db.users, db.userOrder, NamesInOrganizationId(req.editPanelists.value, orgId))
  }

  /** The new interns: the interns named in `editInterns` with the admin's organizationName. */
  ghost function NewInterns(db: Db, req: EditRequest, orgName: string): seq<ObjectId>
    requires MissingField(req).None?
  {
    AllInterns(db.interns, db.internOrder, InternNames(req.editInterns.value, orgName))
  }

  ghost predicate ResolvesUser(users: map<ObjectId, User>, n: string, orgId: string)
  {
    exists id :: id in users && users[id].username == n && users[id].organizationId == orgId
  }

  ghost predicate ResolvesIntern(interns: map<ObjectId, Intern>, n: string, orgName: string)
  {
    exists id :: id in interns && interns[id].username == n && interns[id].organizationName == orgName
  }

  /** No two different names of the list trim to the same username. */
  ghost predicate TrimDistinct(names: seq<string>)
  {
    forall a, b :: a in names && b in names && Trim(a) == Trim(b) ==> a == b
  }

  /**
   * Every username of every list resolves in the organization the route
   * resolves that list in; an intern name resolves once trimmed, and no two
   * intern names may trim to the same username, or the count check fails.
   */
  ghost predicate AllResolve(db: Db, req: EditRequest, orgId: string, orgName: string)
    requires MissingField(req).None?
  {
    && (forall n :: n in req.editMentors.value ==> ResolvesUser(db.users, n, orgId))
    && (forall n :: n in req.editInterns.value ==> ResolvesIntern(db.interns, Trim(n), orgName))
    && TrimDistinct(req.editInterns.value)
    && (forall n :: n in req.editPanelists.value ==> ResolvesUser(db.users, n, orgId))
  }

  // ---------------------------------------------------------------------
  // The early exits.
  // ---------------------------------------------------------------------

  /**
   * Lines 17-39: a falsy field is a 400 that changes nothing. An empty
   * member list is not falsy.
   */
  lemma MissingFieldRejected(db: Db, req: EditRequest)
    ensures MissingField(req).Some? ==> Edit(db, req) == (db, Failed(MissingField(req).value))
    ensures MissingField(req).Some? ==> StatusCode(Edit(db, req).1) == 400
    ensures MissingField(req).None? <==>
              && req.username.Some? && req.username.value != ""
              && req.editTeamName.Some? && req.editTeamName.value != ""
              && req.editMentors.Some? && req.editInterns.Some? && req.editPanelists.Some?
              && req.editDescription.Some? && req.editDescription.value != ""
  {
  }

  /** Lines 42-45: 403, with nothing changed, exactly when no admin has the username. */
  lemma ForbiddenIffNoAdmin(db: Db, req: EditRequest)
    requires WellFormed(db) && MissingField(req).None?
    ensures Edit(db, req).1 == Failed(NotAdmin) <==>
              forall id :: id in db.users ==> !(db.users[id].username == req.username.value && db.users[id].role == Admin)
    ensures Edit(db, req).1 == Failed(NotAdmin) ==> Edit(db, req).0 == db && StatusCode(Edit(db, req).1) == 403
  {
    var found := FirstUser(db.users, db.userOrder, AdminNamed(req.username.value));
    if found.Some? {
      var a := found.value;
      var orgId := db.users[a].organizationId;
      var team := FirstTeam(db.teams, db.teamOrder, req.editTeamName.value, orgId);
      if team.Some? {
        assert Edit(db, req) == EditFound(db, req, orgId, db.users[a].organizationName, team.value);
      }
    }
  }

  /** Lines 49-53: 404, with nothing changed, exactly when the admin's organization has no such team. */
  lemma NotFoundIffNoTeam(db: Db, req: EditRequest, a: ObjectId)
    requires WellFormed(db) && MissingField(req).None?
    requires FirstUser(db.users, db.userOrder, AdminNamed(req.username.value)) == Some(a)
    ensures Edit(db, req).1 == Failed(TeamNotFound) <==>
              forall k :: k in db.teams ==>
                !TeamMatches(db.teams[k], req.editTeamName.value, db.users[a].organizationId)
    ensures Edit(db, req).1 == Failed(TeamNotFound) ==> Edit(db, req).0 == db && StatusCode(Edit(db, req).1) == 404
  {
    var team := FirstTeam(db.teams, db.teamOrder, req.editTeamName.value, db.users[a].organizationId);
    if team.Some? {
      assert Edit(db, req)
             == EditFound(db, req, db.users[a].organizationId, db.users[a].organizationName, team.value);
    }
  }

  // ---------------------------------------------------------------------
  // Repeated usernames.
  // ---------------------------------------------------------------------

  lemma {:induction false} AllUsersByNameSet(users: map<ObjectId, User>, order: seq<ObjectId>, names1: seq<string>, names2: seq<string>, orgId: string)
    requires forall n :: n in names1 <==> n in names2
    ensures AllUsers(users, order, NamesInOrganizationId(names1, orgId))
            == AllUsers(users, order, NamesInOrganizationId(names2, orgId))
  {
    if order != [] {
      AllUsersByNameSet(users, order[..|order| - 1], names1, names2, orgId);
    }
  }

  lemma {:induction false} AllInternsByNameSet(interns: map<ObjectId, Intern>, order: seq<ObjectId>, names1: seq<string>, names2: seq<string>, orgName: string)
    requires forall n :: n in names1 <==> n in names2
    ensures AllInterns(interns, order, InternNames(names1, orgName))
            == AllInterns(interns, order, InternNames(names2, orgName))
  {
    if order != [] {
      AllInternsByNameSet(interns, order[..|order| - 1], names1, names2, orgName);
    }
  }

  lemma DistinctCountBySet(names1: seq<string>, names2: seq<string>)
    requires forall n :: n in names1 <==> n in names2
    ensures DistinctCount(names1) == DistinctCount(names2)
  {
    assert (set n | n in names1) == (set n | n in names2);
  }

  lemma EditFoundByNameSet(db: Db, req1: EditRequest, req2: EditRequest, orgId: string, orgName: string, t: ObjectId)
    requires t in db.teams && MissingField(req1).None? && MissingField(req2).None?
    requires req1.editTeamName == req2.editTeamName && req1.editDescription == req2.editDescription
    requires forall n :: n in req1.editMentors.value <==> n in req2.editMentors.value
    requires forall n :: n in req1.editInterns.value <==> n in req2.editInterns.value
    requires forall n :: n in req1.editPanelists.value <==> n in req2.editPanelists.value
    ensures EditFound(db, req1, orgId, orgName, t) == EditFound(db, req2, orgId, orgName, t)
  {
    var d := Detach(db, db.teams[t], orgName, t);
    AllUsersByNameSet(d.users, d.userOrder, req1.editMentors.value, req2.editMentors.value, orgId);
    AllUsersByNameSet(d.users, d.userOrder, req1.editPanelists.value, req2.editPanelists.value, orgId);
    AllInternsByNameSet(d.interns, d.internOrder, req1.editInterns.value, req2.editInterns.value, orgName);
    DistinctCountBySet(req1.editMentors.value, req2.editMentors.value);
    DistinctCountBySet(req1.editInterns.value, req2.editInterns.value);
    DistinctCountBySet(req1.editPanelists.value, req2.editPanelists.value);
  }

  /**
   * Lines 73-86: two requests whose member lists hold the same usernames,
   * however often each is repeated, have the same effect.
   */
  lemma DuplicatesIgnored(db: Db, req1: EditRequest, req2: EditRequest)
    requires MissingField(req1).None? && MissingField(req2).None?
    requires req1.username == req2.username && req1.editTeamName == req2.editTeamName
    requires req1.editDescription == req2.editDescription
    requires forall n :: n in req1.editMentors.value <==> n in req2.editMentors.value
    requires forall n :: n in req1.editInterns.value <==> n in req2.editInterns.value
    requires forall n :: n in req1.editPanelists.value <==> n in req2.editPanelists.value
    ensures Edit(db, req1) == Edit(db, req2)
  {
    var found := FirstUser(db.users, db.userOrder, AdminNamed(req1.username.value));
    if found.Some? {
      var a := found.value;
      var orgId := db.users[a].organizationId;
      var team := FirstTeam(db.teams, db.teamOrder, req1.editTeamName.value, orgId);
      if team.Some? {
        EditFoundByNameSet(db, req1, req2, orgId, db.users[a].organizationName, team.value);
      }
    }
  }

  // ---------------------------------------------------------------------
  // The count check.
  // ---------------------------------------------------------------------

  lemma {:induction false} AllUsersDistinct(users: map<ObjectId, User>, order: seq<ObjectId>, q: UserQuery)
    requires Distinct(order)
    ensures Distinct(AllUsers(users, order, q))
  {
    if order != [] {
      var init := order[..|order| - 1];
      var last := order[|order| - 1];
      assert Distinct(init);
      AllUsersDistinct(users, init, q);
      assert last !in init;
    }
  }

  lemma {:induction false} AllInternsDistinct(interns: map<ObjectId, Intern>, order: seq<ObjectId>, q: InternQuery)
    requires Distinct(order)
    ensures Distinct(AllInterns(interns, order, q))
  {
    if order != [] {
      var init := order[..|order| - 1];
      var last := order[|order| - 1];
      assert Distinct(init);
      AllInternsDistinct(interns, init, q);
      assert last !in init;
    }
  }

  lemma {:induction false} DistinctCard(s: seq<ObjectId>)
    requires Distinct(s)
    ensures |set x: ObjectId | x in s| == |s|
  {
    if s != [] {
      var init := s[..|s| - 1];
      var last := s[|s| - 1];
      assert Distinct(init);
      DistinctCard(init);
      assert s == init + [last];
      var before := set x: ObjectId | x in init;
      assert last !in before;
      assert (set x: ObjectId | x in s) == before + {last};
      assert before * {last} == {};
    }
  }

  /** A naming that tells the members of `ids` apart names as many things as there are members. */
  lemma {:induction false} InjectiveImageCard(ids: set<ObjectId>, name: map<ObjectId, string>)
    requires ids <= name.Keys
    requires forall a, b :: a in ids && b in ids && name[a] == name[b] ==> a == b
    ensures |set id: ObjectId | id in ids :: name[id]| == |ids|
    decreases ids
  {
    if ids != {} {
      var x :| x in ids;
      var rest := ids - {x};
      InjectiveImageCard(rest, name);
      var names := set id: ObjectId | id in rest :: name[id];
      assert name[x] !in names;
      assert (set id: ObjectId | id in ids :: name[id]) == names + {name[x]};
      assert names * {name[x]} == {};
    }
  }

  lemma SubsetCard(small: set<string>, large: set<string>)
    requires small <= large
    ensures |small| <= |large|
    ensures |small| == |large| <==> small == large
  {
    if small != large {
      var n :| n in large && n !in small;
      assert large == small + (large - small);
      assert n in large - small;
    }
  }

  /** The users a `{ username: { $in: names }, organizationId }` filter selects. */
  ghost function MatchingUsers(users: map<ObjectId, User>, names: seq<string>, orgId: string): set<ObjectId>
  {
    set id: ObjectId | id in users && users[id].username in names && users[id].organizationId == orgId
  }

  /** The interns a `{ username: { $in: names }, organizationName }` filter selects, the names trimmed. */
  ghost function MatchingInterns(interns: map<ObjectId, Intern>, names: seq<string>, orgName: string): set<ObjectId>
  {
    set id: ObjectId | id in interns && interns[id].username in TrimmedNames(names) && interns[id].organizationName == orgName
  }

  lemma AllUsersCard(users: map<ObjectId, User>, order: seq<ObjectId>, names: seq<string>, orgId: string)
    requires Lists(order, users.Keys)
    ensures |AllUsers(users, order, NamesInOrganizationId(names, orgId))| == |MatchingUsers(users, names, orgId)|
  {
    var r := AllUsers(users, order, NamesInOrganizationId(names, orgId));
    AllUsersDistinct(users, order, NamesInOrganizationId(names, orgId));
    DistinctCard(r);
    assert (set x: ObjectId | x in r) == MatchingUsers(users, names, orgId);
  }

  lemma AllInternsCard(interns: map<ObjectId, Intern>, order: seq<ObjectId>, names: seq<string>, orgName: string)
    requires Lists(order, interns.Keys)
    ensures |AllInterns(interns, order, InternNames(names, orgName))| == |MatchingInterns(interns, names, orgName)|
  {
    var r := AllInterns(interns, order, InternNames(names, orgName));
    AllInternsDistinct(interns, order, InternNames(names, orgName));
    DistinctCard(r);
    assert (set x: ObjectId | x in r) == MatchingInterns(interns, names, orgName);
  }

  /** With unique usernames, the selected users carry as many usernames as there are users. */
  lemma MatchingUsersNames(users: map<ObjectId, User>, names: seq<string>, orgId: string)
    requires UniqueUsernames(users)
    ensures var ids := MatchingUsers(users, names, orgId);
            |set id: ObjectId | id in ids :: users[id].username| == |ids|
  {
    var name := map id | id in users :: users[id].username;
    var ids := MatchingUsers(users, names, orgId);
    InjectiveImageCard(ids, name);
    assert (set id: ObjectId | id in ids :: users[id].username) == (set id: ObjectId | id in ids :: name[id]);
  }

  lemma MatchingInternsNames(interns: map<ObjectId, Intern>, names: seq<string>, orgName: string)
    requires UniqueInternUsernames(interns)
    ensures var ids := MatchingInterns(interns, names, orgName);
            |set id: ObjectId | id in ids :: interns[id].username| == |ids|
  {
    var name := map id | id in interns :: interns[id].username;
    var ids := MatchingInterns(interns, names, orgName);
    InjectiveImageCard(ids, name);
    assert (set id: ObjectId | id in ids :: interns[id].username) == (set id: ObjectId | id in ids :: name[id]);
  }

  /** The usernames of the selected users are all of `names` exactly when each of them resolves. */
  lemma MatchingUsersCover(users: map<ObjectId, User>, names: seq<string>, orgId: string)
    ensures var ids := MatchingUsers(users, names, orgId);
            var found := set id: ObjectId | id in ids :: users[id].username;
            && found <= (set n | n in names)
            && (found == (set n | n in names) <==> forall n :: n in names ==> ResolvesUser(users, n, orgId))
  {
    var ids := MatchingUsers(users, names, orgId);
    var found := set id: ObjectId | id in ids :: users[id].username;
    if found == (set n | n in names) {
      forall n | n in names
        ensures ResolvesUser(users, n, orgId)
      {
        assert n in found;
      }
    }
    if forall n :: n in names ==> ResolvesUser(users, n, orgId) {
      forall n | n in names
        ensures n in found
      {
        var id :| id in users && users[id].username == n && users[id].organizationId == orgId;
        assert id in ids;
      }
    }
  }

  lemma MatchingInternsCover(interns: map<ObjectId, Intern>, names: seq<string>, orgName: string)
    ensures var ids := MatchingInterns(interns, names, orgName);
            var found := set id: ObjectId | id in ids :: interns[id].username;
            && found <= TrimmedNames(names)
            && (found == TrimmedNames(names) <==> forall n :: n in names ==> ResolvesIntern(interns, Trim(n), orgName))
  {
    var ids := MatchingInterns(interns, names, orgName);
    var found := set id: ObjectId | id in ids :: interns[id].username;
    if found == TrimmedNames(names) {
      forall n | n in names
        ensures ResolvesIntern(interns, Trim(n), orgName)
      {
        assert Trim(n) in found;
      }
    }
    if forall n :: n in names ==> ResolvesIntern(interns, Trim(n), orgName) {
      forall x | x in TrimmedNames(names)
        ensures x in found
      {
        var n :| n in names && Trim(n) == x;
        var id :| id in interns && interns[id].username == x && interns[id].organizationName == orgName;
        assert id in ids;
      }
    }
  }

  /** The usernames a set of names trims to. */
  ghost function TrimImage(s: set<string>): set<string>
  {
    set n | n in s :: Trim(n)
  }

  /** No two names of `s` trim to the same username. */
  ghost predicate TrimInjective(s: set<string>)
  {
    forall a, b :: a in s && b in s && Trim(a) == Trim(b) ==> a == b
  }

  /**
   * Trimming a set of names gives at most as many usernames as there are
   * names, and exactly as many when no two of them trim alike.
   */
  lemma {:induction false} TrimImageCard(s: set<string>)
    ensures |TrimImage(s)| <= |s|
    ensures |TrimImage(s)| == |s| <==> TrimInjective(s)
    decreases s
  {
    if s == {} {
      assert TrimImage(s) == {};
    } else {
      var x :| x in s;
      var rest := s - {x};
      TrimImageCard(rest);
      assert TrimImage(s) == TrimImage(rest) + {Trim(x)};
      if Trim(x) in TrimImage(rest) {
        var y :| y in rest && Trim(y) == Trim(x);
        assert y in s && y != x;
      } else {
        NewImageKeepsInjective(s, x);
      }
    }
  }

  /** Adding back a name whose trimmed form is new keeps trimming injective exactly when it was. */
  lemma NewImageKeepsInjective(s: set<string>, x: string)
    requires x in s && Trim(x) !in TrimImage(s - {x})
    ensures TrimInjective(s) <==> TrimInjective(s - {x})
  {
    if TrimInjective(s - {x}) {
      forall a, b | a in s && b in s && Trim(a) == Trim(b)
        ensures a == b
      {
        if a != x && b != x {
          assert a in s - {x} && b in s - {x};
        }
      }
    }
  }

  /**
   * Lines 73-86: with unique usernames, a list's resolved count equals its
   * number of distinct usernames exactly when every username resolves.
   */
  lemma UserCountIffResolved(users: map<ObjectId, User>, order: seq<ObjectId>, names: seq<string>, orgId: string)
    requires UniqueUsernames(users) && Lists(order, users.Keys)
    ensures |AllUsers(users, order, NamesInOrganizationId(names, orgId))| == DistinctCount(names)
            <==> forall n :: n in names ==> ResolvesUser(users, n, orgId)
  {
    var ids := MatchingUsers(users, names, orgId);
    AllUsersCard(users, order, names, orgId);
    MatchingUsersNames(users, names, orgId);
    MatchingUsersCover(users, names, orgId);
    var found := set id: ObjectId | id in ids :: users[id].username;
    var all := set n | n in names;
    assert |AllUsers(users, order, NamesInOrganizationId(names, orgId))| == |found|;
    assert DistinctCount(names) == |all|;
    SubsetCard(found, all);
  }

  lemma InternCountIffResolved(interns: map<ObjectId, Intern>, order: seq<ObjectId>, names: seq<string>, orgName: string)
    requires UniqueInternUsernames(interns) && Lists(order, interns.Keys)
    ensures |AllInterns(interns, order, InternNames(names, orgName))| == DistinctCount(names)
            <==> (forall n :: n in names ==> ResolvesIntern(interns, Trim(n), orgName)) && TrimDistinct(names)
  {
    var ids := MatchingInterns(interns, names, orgName);
    AllInternsCard(interns, order, names, orgName);
    MatchingInternsNames(interns, names, orgName);
    MatchingInternsCover(interns, names, orgName);
    var found := set id: ObjectId | id in ids :: interns[id].username;
    assert |AllInterns(interns, order, InternNames(names, orgName))| == |found|;
    TrimmedNamesCard(names);
    SubsetCard(found, TrimmedNames(names));
  }

  /** The trimmed names are at most as many as the distinct names, and as many exactly when none trim alike. */
  lemma TrimmedNamesCard(names: seq<string>)
    ensures |TrimmedNames(names)| <= DistinctCount(names)
    ensures |TrimmedNames(names)| == DistinctCount(names) <==> TrimDistinct(names)
  {
    var all := set n | n in names;
    TrimImageCard(all);
    assert TrimmedNames(names) == TrimImage(all);
  }

  // ---------------------------------------------------------------------
  // After the team is found.
  // ---------------------------------------------------------------------

  lemma EditWhenLocated(db: Db, req: EditRequest, a: ObjectId, orgId: string, orgName: string, t: ObjectId)
    requires Located(db, req, a, orgId, orgName, t)
    ensures Edit(db, req) == EditFound(db, req, orgId, orgName, t)
  {
  }

  lemma {:induction false} AllUsersIgnoresTeams(a: map<ObjectId, User>, b: map<ObjectId, User>, order: seq<ObjectId>, q: UserQuery)
    requires SameUsers(a, b)
    ensures AllUsers(a, order, q) == AllUsers(b, order, q)
  {
    if order != [] {
      AllUsersIgnoresTeams(a, b, order[..|order| - 1], q);
    }
  }

  lemma {:induction false} AllInternsIgnoresTeams(a: map<ObjectId, Intern>, b: map<ObjectId, Intern>, order: seq<ObjectId>, q: InternQuery)
    requires SameInterns(a, b)
    ensures AllInterns(a, order, q) == AllInterns(b, order, q)
  {
    if order != [] {
      var last := order[|order| - 1];
      if last in a {
        assert a[last].username == b[last].username && a[last].organizationName == b[last].organizationName;
      }
      AllInternsIgnoresTeams(a, b, order[..|order| - 1], q);
    }
  }

  /** The detach phase changes nobody's username or organization, so it resolves the same members. */
  lemma DetachResolvesAlike(db: Db, req: EditRequest, orgId: string, orgName: string, t: ObjectId)
    requires t in db.teams && MissingField(req).None?
    ensures var d := Detach(db, db.teams[t], orgName, t);
            && AllUsers(d.users, d.userOrder, NamesInOrganizationId(req.editMentors.value, orgId)) == NewMentors(db, req, orgId)
            && AllUsers(d.users, d.userOrder, NamesInOrganizationId(req.editPanelists.value, orgId)) == NewPanelists(db, req, orgId)
            && AllInterns(d.interns, d.internOrder, InternNames(req.editInterns.value, orgName)) == NewInterns(db, req, orgName)
  {
    var d := Detach(db, db.teams[t], orgName, t);
    AllUsersIgnoresTeams(d.users, db.users, db.userOrder, NamesInOrganizationId(req.editMentors.value, orgId));
    AllUsersIgnoresTeams(d.users, db.users, db.userOrder, NamesInOrganizationId(req.editPanelists.value, orgId));
    AllInternsIgnoresTeams(d.interns, db.interns, db.internOrder, InternNames(req.editInterns.value, orgName));
  }

  /** The count checks of lines 84-86, stated on the store before the detach phase. */
  lemma FoundSucceedsIff(db: Db, req: EditRequest, orgId: string, orgName: string, t: ObjectId)
    requires WellFormed(db) && t in db.teams && MissingField(req).None?
    ensures var (r, o) := EditFound(db, req, orgId, orgName, t);
            && (o == Updated <==> AllResolve(db, req, orgId, orgName))
            && (o != Updated ==> o.Failed? && StatusCode(o) == 400 && r == Detach(db, db.teams[t], orgName, t))
  {
    DetachResolvesAlike(db, req, orgId, orgName, t);
    UserCountIffResolved(db.users, db.userOrder, req.editMentors.value, orgId);
    UserCountIffResolved(db.users, db.userOrder, req.editPanelists.value, orgId);
    InternCountIffResolved(db.interns, db.internOrder, req.editInterns.value, orgName);
  }

  /**
   * Lines 73-86: once the team is found, the edit succeeds exactly when
   * every username resolves; otherwise it is a 400 that leaves the store
   * as the detach phase left it.
   */
  lemma SucceedsIffAllResolve(db: Db, req: EditRequest, a: ObjectId, orgId: string, orgName: string, t: ObjectId)
    requires WellFormed(db) && Located(db, req, a, orgId, orgName, t)
    ensures Edit(db, req).1 == Updated <==> AllResolve(db, req, orgId, orgName)
    ensures Edit(db, req).1 != Updated ==>
              && StatusCode(Edit(db, req).1) == 400
              && Edit(db, req).0 == Detach(db, db.teams[t], orgName, t)
  {
    EditWhenLocated(db, req, a, orgId, orgName, t);
    FoundSucceedsIff(db, req, orgId, orgName, t);
  }

  /**
   * Lines 55-69 and 84-86: when a username does not resolve, the team
   * document is untouched but its former members in the admin's
   * organizationName have already lost the team id.
   */
  lemma UnresolvedStillDetaches(db: Db, req: EditRequest, a: ObjectId, orgId: string, orgName: string, t: ObjectId)
    requires WellFormed(db) && Located(db, req, a, orgId, orgName, t)
    requires !AllResolve(db, req, orgId, orgName)
    ensures StatusCode(Edit(db, req).1) == 400
    ensures var r := Edit(db, req).0;
            && r.teams == db.teams
            && (forall m :: m in UserMembers(db.teams[t]) && m in db.users && db.users[m].organizationName == orgName
                  ==> m in r.users && t !in r.users[m].teams)
            && (forall m :: m in db.teams[t].interns && m in db.interns && db.interns[m].organizationName == orgName
                  ==> m in r.interns && t !in r.interns[m].teams)
  {
    SucceedsIffAllResolve(db, req, a, orgId, orgName, t);
  }

  /** The new team document. */
  ghost function Rewritten(db: Db, req: EditRequest, orgId: string, orgName: string): Team
    requires MissingField(req).None?
  {
    Team(req.editTeamName.value, orgId, NewMentors(db, req, orgId), NewInterns(db, req, orgName),
         NewPanelists(db, req, orgId), req.editDescription.value)
  }

  /** The store after a successful edit, as detach, rewrite and attach applied to the store before it. */
  ghost function AfterSuccess(db: Db, req: EditRequest, orgId: string, orgName: string, t: ObjectId): Db
    requires t in db.teams && MissingField(req).None?
  {
    var d := Detach(db, db.teams[t], orgName, t);
    Attach(d.(teams := db.teams[t := Rewritten(db, req, orgId, orgName)]),
           NewMentors(db, req, orgId) + NewPanelists(db, req, orgId), NewInterns(db, req, orgName), orgName, t)
  }

  lemma FoundSuccessState(db: Db, req: EditRequest, orgId: string, orgName: string, t: ObjectId)
    requires WellFormed(db) && t in db.teams && MissingField(req).None?
    requires AllResolve(db, req, orgId, orgName)
    ensures EditFound(db, req, orgId, orgName, t) == (AfterSuccess(db, req, orgId, orgName, t), Updated)
  {
    FoundSucceedsIff(db, req, orgId, orgName, t);
    DetachResolvesAlike(db, req, orgId, orgName, t);
  }

  lemma SuccessState(db: Db, req: EditRequest, a: ObjectId, orgId: string, orgName: string, t: ObjectId)
    requires WellFormed(db) && Located(db, req, a, orgId, orgName, t)
    requires AllResolve(db, req, orgId, orgName)
    ensures Edit(db, req) == (AfterSuccess(db, req, orgId, orgName, t), Updated)
  {
    EditWhenLocated(db, req, a, orgId, orgName, t);
    FoundSuccessState(db, req, orgId, orgName, t);
  }

  /**
   * Lines 89-103: after a successful edit the team found by the request's
   * name in the admin's organization holds the new description and keeps
   * its name and organization; every other team is unchanged.
   */
  lemma SuccessRewritesTeam(db: Db, req: EditRequest, orgId: string, orgName: string, t: ObjectId)
    requires t in db.teams && MissingField(req).None? && TeamMatches(db.teams[t], req.editTeamName.value, orgId)
    ensures var r := AfterSuccess(db, req, orgId, orgName, t);
            && r.teams.Keys == db.teams.Keys && t in r.teams
            && r.teams[t].teamName == db.teams[t].teamName
            && r.teams[t].organizationId == db.teams[t].organizationId
            && r.teams[t].description == req.editDescription.value
            && (forall k :: k in db.teams && k != t ==> r.teams[k] == db.teams[k])
  {
    AfterSuccessTeams(db, req, orgId, orgName, t);
  }

  lemma AfterSuccessTeams(db: Db, req: EditRequest, orgId: string, orgName: string, t: ObjectId)
    requires t in db.teams && MissingField(req).None?
    ensures AfterSuccess(db, req, orgId, orgName, t).teams == db.teams[t := Rewritten(db, req, orgId, orgName)]
  {
  }

  /**
   * Lines 73-76 and 89-103: after a successful edit the team lists exactly
   * the users named in the request with the admin's organizationId and the
   * interns named with the admin's organizationName.
   */
  lemma SuccessTeamMembers(db: Db, req: EditRequest, orgId: string, orgName: string, t: ObjectId)
    requires WellFormed(db) && t in db.teams && MissingField(req).None?
    ensures var r := AfterSuccess(db, req, orgId, orgName, t);
            && t in r.teams
            && UserMembers(r.teams[t]) == NewMentors(db, req, orgId) + NewPanelists(db, req, orgId)
            && r.teams[t].interns == NewInterns(db, req, orgName)
            && (forall id :: id in r.teams[t].mentors <==>
                  id in db.users && db.users[id].username in req.editMentors.value && db.users[id].organizationId == orgId)
            && (forall id :: id in r.teams[t].panelists <==>
                  id in db.users && db.users[id].username in req.editPanelists.value && db.users[id].organizationId == orgId)
            && (forall id :: id in r.teams[t].interns <==>
                  id in db.interns && db.interns[id].username in TrimmedNames(req.editInterns.value)
                  && db.interns[id].organizationName == orgName)
  {
    AfterSuccessTeams(db, req, orgId, orgName, t);
  }

  /** Detaching `t` from `former` and then attaching it to `joined`, for users. */
  lemma MoveTeamUsers(users: map<ObjectId, User>, former: seq<ObjectId>, joined: seq<ObjectId>, orgName: string, t: ObjectId)
    requires forall id :: id in joined ==> id in users
    ensures var r := AttachUsers(DetachUsers(users, former, orgName, t), joined, orgName, t);
            && SameUsers(r, users)
            && (forall id, x :: id in users && x != t ==> multiset(r[id].teams)[x] == multiset(users[id].teams)[x])
            && (forall id :: id in joined && users[id].organizationName == orgName ==>
                  && t in r[id].teams
                  && (multiset(users[id].teams)[t] <= 1 ==> multiset(r[id].teams)[t] == 1))
            && (forall id :: (id in former && id in users && users[id].organizationName == orgName && id !in joined)
                  ==> t !in r[id].teams)
            && (forall id :: (id in users && (users[id].organizationName != orgName || (id !in former && id !in joined)))
                  ==> r[id] == users[id])
  {
  }

  /** Detaching `t` from `former` and then attaching it to `joined`, for interns. */
  lemma MoveTeamInterns(interns: map<ObjectId, Intern>, former: seq<ObjectId>, joined: seq<ObjectId>, orgName: string, t: ObjectId)
    requires forall id :: id in joined ==> id in interns
    ensures var r := AttachInterns(DetachInterns(interns, former, orgName, t), joined, orgName, t);
            && SameInterns(r, interns)
            && (forall id, x :: id in interns && x != t ==> multiset(r[id].teams)[x] == multiset(interns[id].teams)[x])
            && (forall id :: id in joined && interns[id].organizationName == orgName ==>
                  && t in r[id].teams
                  && (multiset(interns[id].teams)[t] <= 1 ==> multiset(r[id].teams)[t] == 1))
            && (forall id :: (id in former && id in interns && interns[id].organizationName == orgName && id !in joined)
                  ==> t !in r[id].teams)
            && (forall id :: (id in interns && (interns[id].organizationName != orgName || (id !in former && id !in joined)))
                  ==> r[id] == interns[id])
  {
  }

  /**
   * Lines 55-69 and 108-122, for users: only the team id moves. New members
   * in the admin's organizationName hold it (once, if they held it at most
   * once before), former members there who were not re-added lost it, and
   * every other user is untouched.
   */
  lemma SuccessUpdatesUsers(db: Db, req: EditRequest, orgId: string, orgName: string, t: ObjectId)
    requires t in db.teams && MissingField(req).None?
    ensures var r := AfterSuccess(db, req, orgId, orgName, t).users;
            var joined := NewMentors(db, req, orgId) + NewPanelists(db, req, orgId);
            && SameUsers(r, db.users)
            && (forall id, x :: id in db.users && x != t ==> multiset(r[id].teams)[x] == multiset(db.users[id].teams)[x])
            && (forall id :: id in joined && db.users[id].organizationName == orgName ==>
                  && t in r[id].teams
                  && (multiset(db.users[id].teams)[t] <= 1 ==> multiset(r[id].teams)[t] == 1))
            && (forall id :: (id in UserMembers(db.teams[t]) && id in db.users && db.users[id].organizationName == orgName
                  && id !in joined) ==> t !in r[id].teams)
            && (forall id :: (id in db.users && (db.users[id].organizationName != orgName
                  || (id !in UserMembers(db.teams[t]) && id !in joined))) ==> r[id] == db.users[id])
  {
    var joined := NewMentors(db, req, orgId) + NewPanelists(db, req, orgId);
    MoveTeamUsers(db.users, UserMembers(db.teams[t]), joined, orgName, t);
    assert AfterSuccess(db, req, orgId, orgName, t).users
           == AttachUsers(DetachUsers(db.users, UserMembers(db.teams[t]), orgName, t), joined, orgName, t);
  }

  /** Lines 55-69 and 108-122, for interns: as for users. */
  lemma SuccessUpdatesInterns(db: Db, req: EditRequest, orgId: string, orgName: string, t: ObjectId)
    requires t in db.teams && MissingField(req).None?
    ensures var r := AfterSuccess(db, req, orgId, orgName, t).interns;
            var joined := NewInterns(db, req, orgName);
            && SameInterns(r, db.interns)
            && (forall id, x :: id in db.interns && x != t ==> multiset(r[id].teams)[x] == multiset(db.interns[id].teams)[x])
            && (forall id :: id in joined ==>
                  && t in r[id].teams
                  && (multiset(db.interns[id].teams)[t] <= 1 ==> multiset(r[id].teams)[t] == 1))
            && (forall id :: (id in db.teams[t].interns && id in db.interns && db.interns[id].organizationName == orgName
                  && id !in joined) ==> t !in r[id].teams)
            && (forall id :: (id in db.interns && (db.interns[id].organizationName != orgName
                  || (id !in db.teams[t].interns && id !in joined))) ==> r[id] == db.interns[id])
  {
    var joined := NewInterns(db, req, orgName);
    MoveTeamInterns(db.interns, db.teams[t].interns, joined, orgName, t);
    assert AfterSuccess(db, req, orgId, orgName, t).interns
           == AttachInterns(DetachInterns(db.interns, db.teams[t].interns, orgName, t), joined, orgName, t);
  }

  // ---------------------------------------------------------------------
  // Teams and their members' back-references.
  // ---------------------------------------------------------------------

  /**
   * Every list `members[k]` names only holders of `k`, and every holder
   * `m` of an id `k` of `members` is named in `members[k]`.
   */
  ghost predicate LinkedLists(members: map<ObjectId, seq<ObjectId>>, held: map<ObjectId, seq<ObjectId>>)
  {
    && (forall k, m :: k in members && m in members[k] ==> m in held && k in held[m])
    && (forall m, k :: m in held && k in held[m] && k in members ==> m in members[k])
  }

  /** Each team's mentors and panelists. */
  ghost function UserLists(teams: map<ObjectId, Team>): map<ObjectId, seq<ObjectId>>
  {
    map k | k in teams :: UserMembers(teams[k])
  }

  /** Each team's interns. */
  ghost function InternLists(teams: map<ObjectId, Team>): map<ObjectId, seq<ObjectId>>
  {
    map k | k in teams :: teams[k].interns
  }

  /** Each user's team ids. */
  ghost function UserTeams(users: map<ObjectId, User>): map<ObjectId, seq<ObjectId>>
  {
    map m | m in users :: users[m].teams
  }

  /** Each intern's team ids. */
  ghost function InternTeams(interns: map<ObjectId, Intern>): map<ObjectId, seq<ObjectId>>
  {
    map m | m in interns :: interns[m].teams
  }

  /** Every user a team lists holds the team's id, and every team id a user holds lists the user. */
  ghost predicate UsersLinkedIn(teams: map<ObjectId, Team>, users: map<ObjectId, User>)
  {
    LinkedLists(UserLists(teams), UserTeams(users))
  }

  /** The same link between teams and interns. */
  ghost predicate InternsLinkedIn(teams: map<ObjectId, Team>, interns: map<ObjectId, Intern>)
  {
    LinkedLists(InternLists(teams), InternTeams(interns))
  }

  ghost predicate Linked(db: Db)
  {
    UsersLinkedIn(db.teams, db.users) && InternsLinkedIn(db.teams, db.interns)
  }

  /**
   * The organization the route acts in is consistent: the team's current
   * members carry the admin's organizationName, and so does every user
   * with the admin's organizationId.
   */
  ghost predicate ScopedTo(db: Db, orgId: string, orgName: string, t: ObjectId)
    requires t in db.teams
  {
    && (forall m :: m in UserMembers(db.teams[t]) && m in db.users ==> db.users[m].organizationName == orgName)
    && (forall m :: m in db.teams[t].interns && m in db.interns ==> db.interns[m].organizationName == orgName)
    && (forall id :: id in db.users && db.users[id].organizationId == orgId ==> db.users[id].organizationName == orgName)
  }

  /**
   * The link survives replacing team `t`'s users by `joined` when exactly
   * the joined users gain `t`, no other team id moves, and every user that
   * still holds `t` without joining held it before and was not a member.
   */
  lemma Relink(members0: map<ObjectId, seq<ObjectId>>, held0: map<ObjectId, seq<ObjectId>>,
                members1: map<ObjectId, seq<ObjectId>>, held1: map<ObjectId, seq<ObjectId>>,
                t: ObjectId, joined: seq<ObjectId>)
    requires LinkedLists(members0, held0) && t in members0
    requires members1 == members0[t := joined]
    requires held1.Keys == held0.Keys
    requires forall id, x :: id in held0 && x != t ==> (x in held1[id] <==> x in held0[id])
    requires forall id :: id in joined ==> id in held0 && t in held1[id]
    requires forall id :: id in held0 && id !in joined && t in held1[id] ==> t in held0[id] && id !in members0[t]
    ensures LinkedLists(members1, held1)
  {
    forall m, k | m in held1 && k in held1[m] && k in members1
      ensures m in members1[k]
    {
      if k != t {
        assert k in held0[m];
      } else {
        assert t in held0[m] ==> m in members0[t];
      }
    }
  }

  /** Moving team `t` from its current users to `joined`, all in `orgName`, keeps the link. */
  lemma MoveKeepsUsersLinked(teams: map<ObjectId, Team>, users: map<ObjectId, User>, t: ObjectId, team: Team,
                             joined: seq<ObjectId>, orgName: string)
    requires UsersLinkedIn(teams, users) && t in teams && UserMembers(team) == joined
    requires forall id :: id in joined ==> id in users && users[id].organizationName == orgName
    requires forall m :: m in UserMembers(teams[t]) && m in users ==> users[m].organizationName == orgName
    ensures UsersLinkedIn(teams[t := team],
                          AttachUsers(DetachUsers(users, UserMembers(teams[t]), orgName, t), joined, orgName, t))
  {
    var r := AttachUsers(DetachUsers(users, UserMembers(teams[t]), orgName, t), joined, orgName, t);
    MoveTeamUsers(users, UserMembers(teams[t]), joined, orgName, t);
    forall id, x | id in users && x != t
      ensures x in r[id].teams <==> x in users[id].teams
    {
      assert multiset(r[id].teams)[x] == multiset(users[id].teams)[x];
    }
    assert UserLists(teams[t := team]) == UserLists(teams)[t := joined];
    Relink(UserLists(teams), UserTeams(users), UserLists(teams[t := team]), UserTeams(r), t, joined);
  }

  lemma MoveKeepsInternsLinked(teams: map<ObjectId, Team>, interns: map<ObjectId, Intern>, t: ObjectId, team: Team,
                               joined: seq<ObjectId>, orgName: string)
    requires InternsLinkedIn(teams, interns) && t in teams && team.interns == joined
    requires forall id :: id in joined ==> id in interns && interns[id].organizationName == orgName
    requires forall m :: m in teams[t].interns && m in interns ==> interns[m].organizationName == orgName
    ensures InternsLinkedIn(teams[t := team],
                            AttachInterns(DetachInterns(interns, teams[t].interns, orgName, t), joined, orgName, t))
  {
    var r := AttachInterns(DetachInterns(interns, teams[t].interns, orgName, t), joined, orgName, t);
    MoveTeamInterns(interns, teams[t].interns, joined, orgName, t);
    forall id, x | id in interns && x != t
      ensures x in r[id].teams <==> x in interns[id].teams
    {
      assert multiset(r[id].teams)[x] == multiset(interns[id].teams)[x];
    }
    assert InternLists(teams[t := team]) == InternLists(teams)[t := joined];
    Relink(InternLists(teams), InternTeams(interns), InternLists(teams[t := team]), InternTeams(r), t, joined);
  }

  lemma SuccessKeepsUsersLinked(db: Db, req: EditRequest, orgId: string, orgName: string, t: ObjectId)
    requires t in db.teams && MissingField(req).None?
    requires UsersLinkedIn(db.teams, db.users) && ScopedTo(db, orgId, orgName, t)
    ensures var r := AfterSuccess(db, req, orgId, orgName, t);
            UsersLinkedIn(r.teams, r.users)
  {
    var joined := NewMentors(db, req, orgId) + NewPanelists(db, req, orgId);
    MoveKeepsUsersLinked(db.teams, db.users, t, Rewritten(db, req, orgId, orgName), joined, orgName);
  }

  lemma SuccessKeepsInternsLinked(db: Db, req: EditRequest, orgId: string, orgName: string, t: ObjectId)
    requires t in db.teams && MissingField(req).None?
    requires InternsLinkedIn(db.teams, db.interns) && ScopedTo(db, orgId, orgName, t)
    ensures var r := AfterSuccess(db, req, orgId, orgName, t);
            InternsLinkedIn(r.teams, r.interns)
  {
    var joined := NewInterns(db, req, orgName);
    MoveKeepsInternsLinked(db.teams, db.interns, t, Rewritten(db, req, orgId, orgName), joined, orgName);
  }

  /**
   * Lines 55-122: when the organization is consistent, a successful edit
   * keeps every team linked with its members both ways.
   */
  lemma SuccessKeepsLinked(db: Db, req: EditRequest, a: ObjectId, orgId: string, orgName: string, t: ObjectId)
    requires WellFormed(db) && Located(db, req, a, orgId, orgName, t)
    requires Linked(db) && ScopedTo(db, orgId, orgName, t) && AllResolve(db, req, orgId, orgName)
    ensures Edit(db, req).1 == Updated && Linked(Edit(db, req).0)
  {
    SuccessState(db, req, a, orgId, orgName, t);
    SuccessKeepsUsersLinked(db, req, orgId, orgName, t);
    SuccessKeepsInternsLinked(db, req, orgId, orgName, t);
  }

  /** A team member without the team's id breaks the link. */
  lemma MissingBackLink(teams: map<ObjectId, Team>, users: map<ObjectId, User>, k: ObjectId, m: ObjectId)
    requires k in teams && m in UserMembers(teams[k]) && m in users && k !in users[m].teams
    ensures !UsersLinkedIn(teams, users)
  {
    assert k in UserLists(teams) && m in UserLists(teams)[k] && k !in UserTeams(users)[m];
  }

  /**
   * Lines 55-69 and 84-86: a 400 from the count check breaks the link as
   * soon as the team had a user member in the admin's organizationName,
   * because that member has lost the team id while the team still lists it.
   */
  lemma UnresolvedBreaksLink(db: Db, req: EditRequest, a: ObjectId, orgId: string, orgName: string, t: ObjectId, m: ObjectId)
    requires WellFormed(db) && Located(db, req, a, orgId, orgName, t)
    requires !AllResolve(db, req, orgId, orgName)
    requires m in UserMembers(db.teams[t]) && m in db.users && db.users[m].organizationName == orgName
    ensures StatusCode(Edit(db, req).1) == 400 && !UsersLinkedIn(Edit(db, req).0.teams, Edit(db, req).0.users)
  {
    UnresolvedStillDetaches(db, req, a, orgId, orgName, t);
    var r := Edit(db, req).0;
    MissingBackLink(r.teams, r.users, t, m);
  }

  /**
   * Lines 73, 76 and 108-115: a mentor or panelist is resolved by
   * organizationId but attached by organizationName, so a user with the
   * admin's organizationId and another organizationName joins the team
   * without receiving its id.
   */
  lemma ForeignNameMemberUnlinked(db: Db, req: EditRequest, a: ObjectId, orgId: string, orgName: string, t: ObjectId, m: ObjectId)
    requires WellFormed(db) && Located(db, req, a, orgId, orgName, t)
    requires AllResolve(db, req, orgId, orgName)
    requires m in NewMentors(db, req, orgId) + NewPanelists(db, req, orgId)
    requires db.users[m].organizationName != orgName && t !in db.users[m].teams
    ensures Edit(db, req).1 == Updated && !UsersLinkedIn(Edit(db, req).0.teams, Edit(db, req).0.users)
  {
    SuccessState(db, req, a, orgId, orgName, t);
    SuccessTeamMembers(db, req, orgId, orgName, t);
    SuccessUpdatesUsers(db, req, orgId, orgName, t);
    var r := Edit(db, req).0;
    MissingBackLink(r.teams, r.users, t, m);
  }
}
