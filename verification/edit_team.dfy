/**
 * Editing a team (app/api/edit-team/route.ts): the request is validated,
 * the requester must be an admin, the team is looked up in the admin's
 * organization, the team id is pulled from every current member, the new
 * member usernames are resolved and counted, the team is rewritten and the
 * team id is added to every new member.
 *
 * The three collections are held in a `Store`; `Edit` is the same
 * operation stated on a snapshot of the store, and `Store.EditTeam` is
 * proved to perform exactly `Edit`.
 */
module TeamEdit {
  import opened Wrappers
  import opened Documents
  import opened InternModel

  // ---------------------------------------------------------------------
  // Documents and the store.
  // ---------------------------------------------------------------------

  datatype Role = Admin | Mentor | Panelist | Employee

  /** A User document, with the paths the edit reads or writes. */
  datatype User = User(
    username: string, role: Role, organizationId: string, organizationName: string,
    teams: seq<ObjectId>)

  /** A Team document. */
  datatype Team = Team(
    teamName: string, organizationId: string,
    mentors: seq<ObjectId>, interns: seq<ObjectId>, panelists: seq<ObjectId>,
    description: string)

  /**
   * A snapshot of the three collections. Each collection also has its
   * natural order: the order in which the store returns its documents.
   */
  datatype Db = Db(
    users: map<ObjectId, User>, userOrder: seq<ObjectId>,
    interns: map<ObjectId, Intern>, internOrder: seq<ObjectId>,
    teams: map<ObjectId, Team>, teamOrder: seq<ObjectId>)

  ghost predicate Distinct(s: seq<ObjectId>)
  {
    forall i, j :: 0 <= i < j < |s| ==> s[i] != s[j]
  }

  /** `order` lists every key of a collection exactly once. */
  ghost predicate Lists(order: seq<ObjectId>, keys: set<ObjectId>)
  {
    Distinct(order) && forall id :: id in order <==> id in keys
  }

  /** The unique index on User.username. */
  ghost predicate UniqueUsernames(users: map<ObjectId, User>)
  {
    forall a, b :: a in users && b in users && users[a].username == users[b].username ==> a == b
  }

  /** The unique index on Intern.username. */
  ghost predicate UniqueInternUsernames(interns: map<ObjectId, Intern>)
  {
    forall a, b :: a in interns && b in interns && interns[a].username == interns[b].username ==> a == b
  }

  ghost predicate WellFormed(db: Db)
  {
    && Lists(db.userOrder, db.users.Keys)
    && Lists(db.internOrder, db.interns.Keys)
    && Lists(db.teamOrder, db.teams.Keys)
    && UniqueUsernames(db.users)
    && UniqueInternUsernames(db.interns)
  }

  // ---------------------------------------------------------------------
  // Queries, as the filter documents the route passes to the store.
  // ---------------------------------------------------------------------

  datatype UserQuery =
    | AdminNamed(username: string)                                         // { username, role: 'admin' }
    | NamedInOrganization(username: string, organizationName: string)      // { username, organizationName }
    | NamesInOrganizationId(usernames: seq<string>, organizationId: string) // { username: { $in }, organizationId }

  /** A filter only selects users in the organization it names: by organizationName or by organizationId. */
  predicate UserMatches(u: User, q: UserQuery)
    ensures UserMatches(u, q) && q.AdminNamed? ==> u.role == Admin
    ensures UserMatches(u, q) && q.NamedInOrganization? ==> u.organizationName == q.organizationName
    ensures UserMatches(u, q) && q.NamesInOrganizationId? ==> u.organizationId == q.organizationId
  {
    match q
    case AdminNamed(name) => u.username == name && u.role == Admin
    case NamedInOrganization(name, orgName) => u.username == name && u.organizationName == orgName
    case NamesInOrganizationId(names, orgId) => u.username in names && u.organizationId == orgId
  }

  datatype InternQuery =
    | InternNamed(username: string, organizationName: string)                // { username, organizationName }
    | InternNames(usernames: seq<string>, organizationName: string)          // { username: { $in }, organizationName }

  /**
   * The values an `$in` filter on Intern.username compares with: the
   * schema's `trim` setter (models/Intern.ts:12) is applied to each of them.
   */
  function TrimmedNames(names: seq<string>): set<string>
  {
    set n | n in names :: Trim(n)
  }

  /** An intern filter selects only in the organizationName it names; `$in` matches a name once trimmed. */
  predicate InternMatches(i: Intern, q: InternQuery)
    ensures InternMatches(i, q) ==> i.organizationName == q.organizationName
    ensures q.InternNames? ==>
              (InternMatches(i, q) <==>
                 i.organizationName == q.organizationName && exists n :: n in q.usernames && Trim(n) == i.username)
  {
    match q
    case InternNamed(name, orgName) => i.username == name && i.organizationName == orgName
    case InternNames(names, orgName) => i.username in TrimmedNames(names) && i.organizationName == orgName
  }

  /** `{ teamName, organizationId }`: only a team of the organization asked for, under the name asked for. */
  predicate TeamMatches(t: Team, teamName: string, organizationId: string)
    ensures TeamMatches(t, teamName, organizationId) ==> t.organizationId == organizationId && t.teamName == teamName
  {
    t.teamName == teamName && t.organizationId == organizationId
  }

  /** `findOne` on Users: the first matching user in natural order. */
  function FirstUser(users: map<ObjectId, User>, order: seq<ObjectId>, q: UserQuery): (r: Option<ObjectId>)
    ensures r.Some? ==> r.value in order && r.value in users && UserMatches(users[r.value], q)
    ensures r.None? ==> forall id :: id in order && id in users ==> !UserMatches(users[id], q)
  {
    if order == [] then None
    else if order[0] in users && UserMatches(users[order[0]], q) then Some(order[0])
    else FirstUser(users, order[1..], q)
  }

  /** `findOne` on Interns: the first matching intern in natural order. */
  function FirstIntern(interns: map<ObjectId, Intern>, order: seq<ObjectId>, q: InternQuery): (r: Option<ObjectId>)
    ensures r.Some? ==> r.value in order && r.value in interns && InternMatches(interns[r.value], q)
    ensures r.None? ==> forall id :: id in order && id in interns ==> !InternMatches(interns[id], q)
  {
    if order == [] then None
    else if order[0] in interns && InternMatches(interns[order[0]], q) then Some(order[0])
    else FirstIntern(interns, order[1..], q)
  }

  /** `findOne` on Teams: the first matching team in natural order. */
  function FirstTeam(teams: map<ObjectId, Team>, order: seq<ObjectId>, teamName: string, organizationId: string)
    : (r: Option<ObjectId>)
    ensures r.Some? ==> r.value in order && r.value in teams && TeamMatches(teams[r.value], teamName, organizationId)
    ensures r.None? ==> forall id :: id in order && id in teams ==> !TeamMatches(teams[id], teamName, organizationId)
  {
    if order == [] then None
    else if order[0] in teams && TeamMatches(teams[order[0]], teamName, organizationId) then Some(order[0])
    else FirstTeam(teams, order[1..], teamName, organizationId)
  }

  /** `find` on Users: every matching user, in natural order. */
  function AllUsers(users: map<ObjectId, User>, order: seq<ObjectId>, q: UserQuery): (r: seq<ObjectId>)
    ensures forall id :: id in r <==> id in order && id in users && UserMatches(users[id], q)
    ensures |r| <= |order|
  {
    if order == [] then []
    else
      var last := order[|order| - 1];
      assert order == order[..|order| - 1] + [last];
      var rest := AllUsers(users, order[..|order| - 1], q);
      if last in users && UserMatches(users[last], q) then rest + [last] else rest
  }

  /** `find` on Interns: every matching intern, in natural order. */
  function AllInterns(interns: map<ObjectId, Intern>, order: seq<ObjectId>, q: InternQuery): (r: seq<ObjectId>)
    ensures forall id :: id in r <==> id in order && id in interns && InternMatches(interns[id], q)
    ensures |r| <= |order|
  {
    if order == [] then []
    else
      var last := order[|order| - 1];
      assert order == order[..|order| - 1] + [last];
      var rest := AllInterns(interns, order[..|order| - 1], q);
      if last in interns && InternMatches(interns[last], q) then rest + [last] else rest
  }

  // ---------------------------------------------------------------------
  // The two array operators the route uses on `teams`.
  // ---------------------------------------------------------------------

  /** `$pull`: removes every occurrence of `t` and keeps everything else. */
  function Pull(s: seq<ObjectId>, t: ObjectId): (r: seq<ObjectId>)
    ensures forall x :: x in r <==> x in s && x != t
    ensures forall x :: x != t ==> multiset(r)[x] == multiset(s)[x]
  {
    if s == [] then []
    else
      assert s == [s[0]] + s[1..];
      (if s[0] == t then [] else [s[0]]) + Pull(s[1..], t)
  }

  /** `$addToSet`: appends `t` unless it is already there. */
  function AddToSet(s: seq<ObjectId>, t: ObjectId): (r: seq<ObjectId>)
    ensures forall x :: x in r <==> x in s || x == t
    ensures multiset(r)[t] == if t in s then multiset(s)[t] else 1
    ensures forall x :: x != t ==> multiset(r)[x] == multiset(s)[x]
  {
    if t in s then s else s + [t]
  }

  lemma {:induction false} PullIdempotent(s: seq<ObjectId>, t: ObjectId)
    ensures Pull(Pull(s, t), t) == Pull(s, t)
  {
    if s != [] {
      PullIdempotent(s[1..], t);
      var p := Pull(s, t);
      if s[0] != t {
        assert p == [s[0]] + Pull(s[1..], t);
        assert p[0] == s[0] && p[1..] == Pull(s[1..], t);
        assert Pull(p, t) == [s[0]] + Pull(p[1..], t);
      } else {
        assert p == [] + Pull(s[1..], t) == Pull(s[1..], t);
      }
    }
  }

  lemma AddToSetIdempotent(s: seq<ObjectId>, t: ObjectId)
    ensures AddToSet(AddToSet(s, t), t) == AddToSet(s, t)
  {
  }

  /** One `findOneAndUpdate({ _id, organizationName }, { $pull: { teams: t } })` on a user. */
  function PullUser(u: User, orgName: string, t: ObjectId): User
  {
    if u.organizationName == orgName then u.(teams := Pull(u.teams, t)) else u
  }

  /** One `findOneAndUpdate({ username, organizationName }, { $addToSet: { teams: t } })` on a user. */
  function AddUser(u: User, orgName: string, t: ObjectId): User
  {
    if u.organizationName == orgName then u.(teams := AddToSet(u.teams, t)) else u
  }

  function PullIntern(i: Intern, orgName: string, t: ObjectId): Intern
  {
    if i.organizationName == orgName then i.(teams := Pull(i.teams, t)) else i
  }

  function AddIntern(i: Intern, orgName: string, t: ObjectId): Intern
  {
    if i.organizationName == orgName then i.(teams := AddToSet(i.teams, t)) else i
  }

  /** Two user collections that differ at most in the users' `teams`. */
  ghost predicate SameUsers(a: map<ObjectId, User>, b: map<ObjectId, User>)
  {
    && a.Keys == b.Keys
    && forall id :: id in a ==>
         && a[id].username == b[id].username && a[id].role == b[id].role
         && a[id].organizationId == b[id].organizationId
         && a[id].organizationName == b[id].organizationName
  }

  /** Two intern collections that differ at most in the interns' `teams`. */
  ghost predicate SameInterns(a: map<ObjectId, Intern>, b: map<ObjectId, Intern>)
  {
    && a.Keys == b.Keys
    && forall id :: id in a ==> a[id] == b[id].(teams := a[id].teams)
  }

  /** The detach loop over users, as one step: every listed user in `orgName` loses `t`. */
  function DetachUsers(users: map<ObjectId, User>, ids: seq<ObjectId>, orgName: string, t: ObjectId)
    : (r: map<ObjectId, User>)
    ensures SameUsers(r, users)
  {
    map id | id in users :: if id in ids then PullUser(users[id], orgName, t) else users[id]
  }

  /** The attach loop over users, as one step: every listed user in `orgName` gains `t`. */
  function AttachUsers(users: map<ObjectId, User>, ids: seq<ObjectId>, orgName: string, t: ObjectId)
    : (r: map<ObjectId, User>)
    ensures SameUsers(r, users)
  {
    map id | id in users :: if id in ids then AddUser(users[id], orgName, t) else users[id]
  }

  function DetachInterns(interns: map<ObjectId, Intern>, ids: seq<ObjectId>, orgName: string, t: ObjectId)
    : (r: map<ObjectId, Intern>)
    ensures SameInterns(r, interns)
  {
    map id | id in interns :: if id in ids then PullIntern(interns[id], orgName, t) else interns[id]
  }

  function AttachInterns(interns: map<ObjectId, Intern>, ids: seq<ObjectId>, orgName: string, t: ObjectId)
    : (r: map<ObjectId, Intern>)
    ensures SameInterns(r, interns)
  {
    map id | id in interns :: if id in ids then AddIntern(interns[id], orgName, t) else interns[id]
  }

  // ---------------------------------------------------------------------
  // The request and its outcome.
  // ---------------------------------------------------------------------

  /** The JSON body; an absent or null member is None. */
  datatype EditRequest = EditRequest(
    username: Option<string>, editTeamName: Option<string>,
    editMentors: Option<seq<string>>, editInterns: Option<seq<string>>, editPanelists: Option<seq<string>>,
    editDescription: Option<string>)

  datatype EditError =
    | UsernameRequired | TeamNameRequired | MentorsRequired | InternsRequired | PanelistsRequired
    | DescriptionRequired
    | NotAdmin
    | TeamNotFound
    | MentorsNotFound | InternsNotFound | PanelistsNotFound

  datatype Outcome = Updated | Failed(error: EditError)

  /** The HTTP status of the response. */
  function StatusCode(o: Outcome): (r: int)
    ensures r == 200 <==> o == Updated
    ensures r == 403 <==> o == Failed(NotAdmin)
    ensures r == 404 <==> o == Failed(TeamNotFound)
    ensures r == 200 || r == 400 || r == 403 || r == 404
  {
    match o
    case Updated => 200
    case Failed(NotAdmin) => 403
    case Failed(TeamNotFound) => 404
    case Failed(_) => 400
  }

  /** A string is falsy when absent or empty; an array is truthy even when empty. */
  predicate Falsy(s: Option<string>)
  {
    s.None? || s.value == ""
  }

  /** The first required field that is falsy, in the order the route checks them. */
  function MissingField(req: EditRequest): (r: Option<EditError>)
    ensures r.None? ==>
              && req.username.Some? && req.editTeamName.Some? && req.editMentors.Some?
              && req.editInterns.Some? && req.editPanelists.Some? && req.editDescription.Some?
    ensures r.Some? ==> r.value in {UsernameRequired, TeamNameRequired, MentorsRequired, InternsRequired,
                                    PanelistsRequired, DescriptionRequired}
  {
    if Falsy(req.username) then Some(UsernameRequired)
    else if Falsy(req.editTeamName) then Some(TeamNameRequired)
    else if req.editMentors.None? then Some(MentorsRequired)
    else if req.editInterns.None? then Some(InternsRequired)
    else if req.editPanelists.None? then Some(PanelistsRequired)
    else if Falsy(req.editDescription) then Some(DescriptionRequired)
    else None
  }

  /** `Array.from(new Set(names)).length` */
  function DistinctCount(names: seq<string>): nat
  {
    |set n | n in names|
  }

  // ---------------------------------------------------------------------
  // The operation on a snapshot.
  // ---------------------------------------------------------------------

  /** Lines 55-69: the team id is pulled from every current member in the admin's organizationName. */
  function Detach(db: Db, team: Team, orgName: string, t: ObjectId): (r: Db)
    ensures r.teams == db.teams
    ensures r.userOrder == db.userOrder && r.internOrder == db.internOrder && r.teamOrder == db.teamOrder
    ensures SameUsers(r.users, db.users) && SameInterns(r.interns, db.interns)
  {
    db.(users := DetachUsers(db.users, team.mentors + team.panelists, orgName, t),
        interns := DetachInterns(db.interns, team.interns, orgName, t))
  }

  /** Lines 108-122: the team id is added to every new member in the admin's organizationName. */
  function Attach(db: Db, users: seq<ObjectId>, interns: seq<ObjectId>, orgName: string, t: ObjectId): (r: Db)
    ensures r.teams == db.teams
    ensures r.userOrder == db.userOrder && r.internOrder == db.internOrder && r.teamOrder == db.teamOrder
    ensures SameUsers(r.users, db.users) && SameInterns(r.interns, db.interns)
  {
    db.(users := AttachUsers(db.users, users, orgName, t),
        interns := AttachInterns(db.interns, interns, orgName, t))
  }

  /** The edit, from the point where team `t` has been found. */
  function EditFound(db: Db, req: EditRequest, orgId: string, orgName: string, t: ObjectId): (r: (Db, Outcome))
    requires t in db.teams
    requires MissingField(req).None?
    ensures r.1 == Updated || r.1 in {Failed(MentorsNotFound), Failed(InternsNotFound), Failed(PanelistsNotFound)}
    ensures r.1 != Updated ==> r.0 == Detach(db, db.teams[t], orgName, t)
    ensures r.0.teams.Keys == db.teams.Keys && r.0.users.Keys == db.users.Keys && r.0.interns.Keys == db.interns.Keys
  {
    var team := db.teams[t];
    var detached := Detach(db, team, orgName, t);
    var mentors := AllUsers(detached.users, detached.userOrder, NamesInOrganizationId(req.editMentors.value, orgId));
    var interns := AllInterns(detached.interns, detached.internOrder, InternNames(req.editInterns.value, orgName));
    var panelists := AllUsers(detached.users, detached.userOrder, NamesInOrganizationId(req.editPanelists.value, orgId));
    if |mentors| != DistinctCount(req.editMentors.value) then (detached, Failed(MentorsNotFound))
    else if |interns| != DistinctCount(req.editInterns.value) then (detached, Failed(InternsNotFound))
    else if |panelists| != DistinctCount(req.editPanelists.value) then (detached, Failed(PanelistsNotFound))
    else
      var rewritten := Team(req.editTeamName.value, orgId, mentors, interns, panelists, req.editDescription.value);
      var written := detached.(teams := detached.teams[t := rewritten]);
      (Attach(written, mentors + panelists, interns, orgName, t), Updated)
  }

  /** The whole request: the new snapshot and the outcome. */
  function Edit(db: Db, req: EditRequest): (r: (Db, Outcome))
    ensures r.1.Failed? && r.1.error !in {MentorsNotFound, InternsNotFound, PanelistsNotFound} ==> r.0 == db
    ensures r.0.teams.Keys == db.teams.Keys && r.0.users.Keys == db.users.Keys && r.0.interns.Keys == db.interns.Keys
  {
    match MissingField(req)
    case Some(e) => (db, Failed(e))
    case None =>
      match FirstUser(db.users, db.userOrder, AdminNamed(req.username.value))
      case None => (db, Failed(NotAdmin))
      case Some(a) =>
        var orgId := db.users[a].organizationId;
        var orgName := db.users[a].organizationName;
        match FirstTeam(db.teams, db.teamOrder, req.editTeamName.value, orgId)
        case None => (db, Failed(TeamNotFound))
        case Some(t) => EditFound(db, req, orgId, orgName, t)
  }

  // ---------------------------------------------------------------------
  // Lemmas the store's loops rely on.
  // ---------------------------------------------------------------------

  /** With unique usernames, looking a user up by its own username and an organizationName finds that user or nobody. */
  lemma FindByOwnName(users: map<ObjectId, User>, order: seq<ObjectId>, id: ObjectId, orgName: string)
    requires UniqueUsernames(users) && Lists(order, users.Keys) && id in users
    ensures FirstUser(users, order, NamedInOrganization(users[id].username, orgName))
            == if users[id].organizationName == orgName then Some(id) else None
  {
  }

  lemma FindInternByOwnName(interns: map<ObjectId, Intern>, order: seq<ObjectId>, id: ObjectId, orgName: string)
    requires UniqueInternUsernames(interns) && Lists(order, interns.Keys) && id in interns
    ensures FirstIntern(interns, order, InternNamed(interns[id].username, orgName))
            == if interns[id].organizationName == orgName then Some(id) else None
  {
  }

  lemma SameUsersUnique(a: map<ObjectId, User>, b: map<ObjectId, User>)
    requires SameUsers(a, b) && UniqueUsernames(b)
    ensures UniqueUsernames(a)
  {
  }

  lemma SameInternsUnique(a: map<ObjectId, Intern>, b: map<ObjectId, Intern>)
    requires SameInterns(a, b) && UniqueInternUsernames(b)
    ensures UniqueInternUsernames(a)
  {
    forall x, y | x in a && y in a && a[x].username == a[y].username
      ensures x == y
    {
      assert a[x].username == b[x].username && a[y].username == b[y].username;
    }
  }

  /** One more id in the detach list is one more `$pull` on that user. */
  lemma DetachUsersStep(users: map<ObjectId, User>, ids: seq<ObjectId>, id: ObjectId, orgName: string, t: ObjectId)
    ensures var u := DetachUsers(users, ids, orgName, t);
            DetachUsers(users, ids + [id], orgName, t)
            == if id in u && u[id].organizationName == orgName then u[id := u[id].(teams := Pull(u[id].teams, t))] else u
  {
    if id in users {
      PullIdempotent(users[id].teams, t);
    }
  }

  lemma DetachInternsStep(interns: map<ObjectId, Intern>, ids: seq<ObjectId>, id: ObjectId, orgName: string, t: ObjectId)
    ensures var u := DetachInterns(interns, ids, orgName, t);
            DetachInterns(interns, ids + [id], orgName, t)
            == if id in u && u[id].organizationName == orgName then u[id := u[id].(teams := Pull(u[id].teams, t))] else u
  {
    if id in interns {
      PullIdempotent(interns[id].teams, t);
    }
  }

  /** One more id in the attach list is one more `$addToSet` on that user. */
  lemma AttachUsersStep(users: map<ObjectId, User>, ids: seq<ObjectId>, id: ObjectId, orgName: string, t: ObjectId)
    ensures var u := AttachUsers(users, ids, orgName, t);
            AttachUsers(users, ids + [id], orgName, t)
            == if id in u && u[id].organizationName == orgName then u[id := u[id].(teams := AddToSet(u[id].teams, t))] else u
  {
    if id in users {
      AddToSetIdempotent(users[id].teams, t);
    }
  }

  lemma AttachInternsStep(interns: map<ObjectId, Intern>, ids: seq<ObjectId>, id: ObjectId, orgName: string, t: ObjectId)
    ensures var u := AttachInterns(interns, ids, orgName, t);
            AttachInterns(interns, ids + [id], orgName, t)
            == if id in u && u[id].organizationName == orgName then u[id := u[id].(teams := AddToSet(u[id].teams, t))] else u
  {
    if id in interns {
      AddToSetIdempotent(interns[id].teams, t);
    }
  }

  // ---------------------------------------------------------------------
  // The store, changed step by step as the route changes it.
  // ---------------------------------------------------------------------

  class Store {
    var users: map<ObjectId, User>
    var userOrder: seq<ObjectId>
    var interns: map<ObjectId, Intern>
    var internOrder: seq<ObjectId>
    var teams: map<ObjectId, Team>
    var teamOrder: seq<ObjectId>

    function State(): Db
      reads this
    {
      Db(users, userOrder, interns, internOrder, teams, teamOrder)
    }

    ghost predicate Valid()
      reads this
    {
      WellFormed(State())
    }

    constructor (db: Db)
      requires WellFormed(db)
      ensures Valid() && State() == db
    {
      users, userOrder := db.users, db.userOrder;
      interns, internOrder := db.interns, db.internOrder;
      teams, teamOrder := db.teams, db.teamOrder;
    }

    /** `User.findOne(q)` */
    method FindOneUser(q: UserQuery) returns (found: Option<ObjectId>)
      ensures found == FirstUser(users, userOrder, q)
    {
      var i := 0;
      while i < |userOrder|
        invariant 0 <= i <= |userOrder|
        invariant FirstUser(users, userOrder, q) == FirstUser(users, userOrder[i..], q)
      {
        var id := userOrder[i];
        if id in users && UserMatches(users[id], q) {
          return Some(id);
        }
        assert userOrder[i..][1..] == userOrder[i + 1..];
        i := i + 1;
      }
      return None;
    }

    /** `Intern.findOne(q)` */
    method FindOneIntern(q: InternQuery) returns (found: Option<ObjectId>)
      ensures found == FirstIntern(interns, internOrder, q)
    {
      var i := 0;
      while i < |internOrder|
        invariant 0 <= i <= |internOrder|
        invariant FirstIntern(interns, internOrder, q) == FirstIntern(interns, internOrder[i..], q)
      {
        var id := internOrder[i];
        if id in interns && InternMatches(interns[id], q) {
          return Some(id);
        }
        assert internOrder[i..][1..] == internOrder[i + 1..];
        i := i + 1;
      }
      return None;
    }

    /** `Team.findOne({ teamName, organizationId })` */
    method FindTeam(teamName: string, organizationId: string) returns (found: Option<ObjectId>)
      ensures found == FirstTeam(teams, teamOrder, teamName, organizationId)
    {
      var i := 0;
      while i < |teamOrder|
        invariant 0 <= i <= |teamOrder|
        invariant FirstTeam(teams, teamOrder, teamName, organizationId)
                  == FirstTeam(teams, teamOrder[i..], teamName, organizationId)
      {
        var id := teamOrder[i];
        if id in teams && TeamMatches(teams[id], teamName, organizationId) {
          return Some(id);
        }
        assert teamOrder[i..][1..] == teamOrder[i + 1..];
        i := i + 1;
      }
      return None;
    }

    /** `User.find(q)` */
    method FindUsers(q: UserQuery) returns (found: seq<ObjectId>)
      ensures found == AllUsers(users, userOrder, q)
    {
      found := [];
      var i := 0;
      while i < |userOrder|
        invariant 0 <= i <= |userOrder|
        invariant found == AllUsers(users, userOrder[..i], q)
      {
        assert userOrder[..i + 1][..i] == userOrder[..i];
        var id := userOrder[i];
        if id in users && UserMatches(users[id], q) {
          found := found + [id];
        }
        i := i + 1;
      }
      assert userOrder[..i] == userOrder;
    }

    /** `Intern.find(q)` */
    method FindInterns(q: InternQuery) returns (found: seq<ObjectId>)
      ensures found == AllInterns(interns, internOrder, q)
    {
      found := [];
      var i := 0;
      while i < |internOrder|
        invariant 0 <= i <= |internOrder|
        invariant found == AllInterns(interns, internOrder[..i], q)
      {
        assert internOrder[..i + 1][..i] == internOrder[..i];
        var id := internOrder[i];
        if id in interns && InternMatches(interns[id], q) {
          found := found + [id];
        }
        i := i + 1;
      }
      assert internOrder[..i] == internOrder;
    }

    /** The loop at lines 57-62: `$pull` the team id from each listed user in `orgName`. */
    method PullFromUsers(ids: seq<ObjectId>, orgName: string, t: ObjectId)
      modifies this`users
      ensures users == DetachUsers(old(users), ids, orgName, t)
    {
      ghost var before := users;
      for i := 0 to |ids|
        invariant users == DetachUsers(before, ids[..i], orgName, t)
      {
        var id := ids[i];
        assert ids[..i + 1] == ids[..i] + [id];
        DetachUsersStep(before, ids[..i], id, orgName, t);
        if id in users && users[id].organizationName == orgName {
          users := users[id := users[id].(teams := Pull(users[id].teams, t))];
        }
      }
      assert ids[..|ids|] == ids;
    }

    /** The loop at lines 64-69: `$pull` the team id from each listed intern in `orgName`. */
    method PullFromInterns(ids: seq<ObjectId>, orgName: string, t: ObjectId)
      modifies this`interns
      ensures interns == DetachInterns(old(interns), ids, orgName, t)
    {
      ghost var before := interns;
      for i := 0 to |ids|
        invariant interns == DetachInterns(before, ids[..i], orgName, t)
      {
        var id := ids[i];
        assert ids[..i + 1] == ids[..i] + [id];
        DetachInternsStep(before, ids[..i], id, orgName, t);
        if id in interns && interns[id].organizationName == orgName {
          interns := interns[id := interns[id].(teams := Pull(interns[id].teams, t))];
        }
      }
      assert ids[..|ids|] == ids;
    }

    /**
     * The loop at lines 110-115: for each listed user, `$addToSet` the team
     * id on the user found by that user's username and `orgName`.
     */
    method AddToUsers(ids: seq<ObjectId>, orgName: string, t: ObjectId)
      requires UniqueUsernames(users) && Lists(userOrder, users.Keys)
      requires forall id :: id in ids ==> id in users
      modifies this`users
      ensures users == AttachUsers(old(users), ids, orgName, t)
    {
      ghost var before := users;
      for i := 0 to |ids|
        invariant users == AttachUsers(before, ids[..i], orgName, t)
      {
        var id := ids[i];
        assert ids[..i + 1] == ids[..i] + [id];
        SameUsersUnique(users, before);
        FindByOwnName(users, userOrder, id, orgName);
        var found := FindOneUser(NamedInOrganization(users[id].username, orgName));
        AttachUsersStep(before, ids[..i], id, orgName, t);
        if found.Some? {
          var k := found.value;
          users := users[k := users[k].(teams := AddToSet(users[k].teams, t))];
        }
      }
      assert ids[..|ids|] == ids;
    }

    /**
     * The loop at lines 117-122: for each listed intern, `$addToSet` the
     * team id on the intern found by that intern's username and `orgName`.
     */
    method AddToInterns(ids: seq<ObjectId>, orgName: string, t: ObjectId)
      requires UniqueInternUsernames(interns) && Lists(internOrder, interns.Keys)
      requires forall id :: id in ids ==> id in interns
      modifies this`interns
      ensures interns == AttachInterns(old(interns), ids, orgName, t)
    {
      ghost var before := interns;
      for i := 0 to |ids|
        invariant interns == AttachInterns(before, ids[..i], orgName, t)
      {
        var id := ids[i];
        assert ids[..i + 1] == ids[..i] + [id];
        SameInternsUnique(interns, before);
        FindInternByOwnName(interns, internOrder, id, orgName);
        var found := FindOneIntern(InternNamed(interns[id].username, orgName));
        AttachInternsStep(before, ids[..i], id, orgName, t);
        if found.Some? {
          var k := found.value;
          interns := interns[k := interns[k].(teams := AddToSet(interns[k].teams, t))];
        }
      }
      assert ids[..|ids|] == ids;
    }

    /** `POST /api/edit-team`: the route, step by step. */
    method EditTeam(req: EditRequest) returns (outcome: Outcome)
      requires Valid()
      modifies this
      ensures Valid()
      ensures (State(), outcome) == Edit(old(State()), req)
    {
      // Lines 17-39: required fields.
      var missing := MissingField(req);
      if missing.Some? {
        return Failed(missing.value);
      }
      // Lines 42-47: the requester must be an admin; the organization is the admin's.
      var admin := FindOneUser(AdminNamed(req.username.value));
      if admin.None? {
        return Failed(NotAdmin);
      }
      var orgId := users[admin.value].organizationId;
      var orgName := users[admin.value].organizationName;
      // Lines 50-53: the team.
      var found := FindTeam(req.editTeamName.value, orgId);
      if found.None? {
        return Failed(TeamNotFound);
      }
      assert Edit(State(), req) == EditFound(State(), req, orgId, orgName, found.value);
      outcome := ReplaceMembers(req, orgId, orgName, found.value);
    }

    /** Lines 55-122: detach the old members, resolve the new ones, rewrite the team, attach. */
    method ReplaceMembers(req: EditRequest, orgId: string, orgName: string, t: ObjectId) returns (outcome: Outcome)
      requires Valid() && MissingField(req).None?
      requires FirstTeam(teams, teamOrder, req.editTeamName.value, orgId) == Some(t)
      modifies this
      ensures Valid()
      ensures (State(), outcome) == EditFound(old(State()), req, orgId, orgName, t)
    {
      var team := teams[t];
      ghost var db0 := State();
      // Lines 55-69: detach.
      PullFromUsers(team.mentors + team.panelists, orgName, t);
      PullFromInterns(team.interns, orgName, t);
      assert State() == Detach(db0, team, orgName, t);
      SameUsersUnique(users, db0.users);
      SameInternsUnique(interns, db0.interns);
      // Lines 73-86: resolve and count the new members.
      var mentors := FindUsers(NamesInOrganizationId(req.editMentors.value, orgId));
      var newInterns := FindInterns(InternNames(req.editInterns.value, orgName));
      var panelists := FindUsers(NamesInOrganizationId(req.editPanelists.value, orgId));
      if |mentors| != DistinctCount(req.editMentors.value) {
        return Failed(MentorsNotFound);
      }
      if |newInterns| != DistinctCount(req.editInterns.value) {
        return Failed(InternsNotFound);
      }
      if |panelists| != DistinctCount(req.editPanelists.value) {
        return Failed(PanelistsNotFound);
      }
      // Lines 89-103: rewrite the team. Nothing has changed the teams since
      // the lookup, so the update's filter selects the same team again.
      var again := FindTeam(req.editTeamName.value, orgId);
      assert again == Some(t);
      var rewritten := Team(req.editTeamName.value, orgId, mentors, newInterns, panelists, req.editDescription.value);
      teams := teams[t := rewritten];
      // Lines 108-122: attach.
      ghost var db1 := State();
      AddToUsers(mentors + panelists, orgName, t);
      AddToInterns(newInterns, orgName, t);
      assert State() == Attach(db1, mentors + panelists, newInterns, orgName, t);
      SameUsersUnique(users, db1.users);
      SameInternsUnique(interns, db1.interns);
      return Updated;
    }
  }
}
