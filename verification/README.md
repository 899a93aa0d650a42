# Team membership, internship postings and the Intern document

This project models three parts of an internship and mentorship management
application in Dafny and proves properties of the model.

- **Editing a team** (`POST /api/edit-team`). The route runs these steps in order:
  - it validates six request fields;
  - it checks that the requester is an admin;
  - it looks up the team in the admin's organization;
  - it pulls the team id from every current member (the detach phase);
  - it resolves the new mentor, intern and panelist usernames and compares their counts with the deduplicated lists;
  - it rewrites the team;
  - it adds the team id to every new member (the attach phase).

  The store is a class `TeamEdit.Store` holding the Users, Interns and Teams collections as maps, each with its natural order. `Store.EditTeam` changes the store step by step. It is proved equal to the function `TeamEdit.Edit` on a snapshot `Db`. The lemmas in `TeamEditProperties` are stated about `Edit`.
- **Posting and listing internships** (`POST` and `GET /api/internships`).
  - POST builds a record from the payload, with the poster fields taken from `userData`, and appends it to `Internships.InternshipStore`.
  - GET is a pure function: a query, a filter and a newest-first sort over the stored records.
- **The Intern document** (`models/Intern.ts`):
  - its enumerations, each with a parser for its stored names;
  - the defaults and the `trim`/`lowercase` normalisation that creating a document applies (`InternModel.NewIntern`);
  - the `pre("updateOne")` hook that stamps `updatedAt` (`InternModel.UpdateOneQuery.PreUpdateOne`).

Dates are integers: milliseconds since the Unix epoch, UTC. The current time is a parameter named `now`. Document ids are abstract natural numbers.

Two behaviours of the team edit are kept as the code has them. Lemmas state both.

1. **Detach runs before validation.** The detach phase (route lines 55-69) runs before the count checks (lines 84-86). A request whose names do not all resolve is therefore a 400 that has already stripped the team id from the team's current members in the admin's organizationName (`UnresolvedStillDetaches`). Such names can be an unknown user or intern, or two intern names that trim alike. This breaks the team–member link (`UnresolvedBreaksLink`).
2. **Mixed organization scoping.**
   - Mentors and panelists are resolved by `organizationId`.
   - Interns are resolved by `organizationName`.
   - Detach and attach filter by `organizationName`.

   A user who shares the admin's `organizationId` but not its `organizationName` joins the team without receiving the team id (`ForeignNameMemberUnlinked`). The link between teams and members is preserved only when the organization is consistent (`ScopedTo`, used by `SuccessKeepsLinked`).

The field checks (lines 17-39) come before the admin check (lines 42-45), so a request with a missing field is a 400 whoever sends it (`MissingFieldRejected`).

Intern usernames are resolved through the Intern schema, whose `username` path has a `trim` setter (models/Intern.ts:12). The store applies that setter to each value of the `$in` list (line 75) before comparing. A padded name such as `" alice"` therefore finds the intern `alice`. The count check still compares with the number of distinct names as sent, so `["alice", " alice"]` is a 400 although both names resolve (`InternCountIffResolved`). User usernames are compared as given: models/User.ts is not part of this model.

## Model

| member | source | states |
|---|---|---|
| InternModel.ParseVerificationStatus | models/Intern.ts:51-55 | accepts exactly the names "pending", "verified" and "rejected", each giving its own status |
| InternModel.ParseApplicationStatus | models/Intern.ts:83-87 | accepts exactly the seven application status names |
| InternModel.ParseAssignmentStatus | models/Intern.ts:122-126 | accepts exactly "active", "completed" and "inactive" |
| InternModel.ParseReportStatus | models/Intern.ts:143-147 | accepts exactly the four weekly-report status names |
| InternModel.ParseFeedbackType | models/Intern.ts:154-157 | accepts exactly the five feedback type names |
| InternModel.ParseDemoStatus | models/Intern.ts:171-175 | accepts exactly the four demo status names |
| InternModel.ParseTheme | models/Intern.ts:182-186 | accepts exactly "light", "dark" and "system" |
| InternModel.ParseNotificationType | models/Intern.ts:207-210 | accepts exactly the six notification type names |
| InternModel.Trim | models/Intern.ts:8-13 | the trimmed string is no longer than the input, and neither starts nor ends with white space |
| InternModel.TrimRemovesOnlySpace | models/Intern.ts:8-13 | trimming removes only a leading and a trailing run of white space; the rest is a contiguous slice of the input |
| InternModel.LowerChar | models/Intern.ts:14-20 | the result is never an upper-case ASCII letter; an upper-case letter maps to its lower-case letter, and any other character is unchanged |
| InternModel.Lower | models/Intern.ts:14-20 | lower-casing keeps the length and lower-cases each character |
| InternModel.NormalizeEmail | models/Intern.ts:14-20 | a stored email has no surrounding white space and no upper-case letter |
| InternModel.TrimLowerCommute | models/Intern.ts:14-20 | trimming and lower-casing commute |
| InternModel.TrimIdempotent | models/Intern.ts:8-13 | trimming a trimmed string changes nothing |
| InternModel.NormalizeEmailIdempotent | models/Intern.ts:14-20 | normalising an already stored email changes nothing |
| InternModel.NewAppliedInternship | models/Intern.ts:78-114 | an applied internship is accepted exactly when its status is absent or one of the enum names; the status defaults to pending; every other field is kept |
| InternModel.NewAssignedTeam | models/Intern.ts:117-127 | accepted exactly when its status is absent or valid; the status defaults to active; other fields are kept |
| InternModel.NewWeeklyReport | models/Intern.ts:133-148 | accepted exactly when its status is absent or valid; the status defaults to pending; other fields are kept |
| InternModel.NewFeedback | models/Intern.ts:150-162 | accepted exactly when its type is absent or valid; an absent type stays absent; other fields are kept |
| InternModel.NewNotification | models/Intern.ts:206-222 | accepted exactly when its type is absent or valid; `read` defaults to false and `createdAt` to now |
| InternModel.NewNotifications | models/Intern.ts:206-222 | the array is accepted exactly when every element is; element i of the result is element i built |
| InternModel.NewPreferences | models/Intern.ts:181-203 | accepted exactly when the theme is absent or valid; the theme defaults to light and each flag to true |
| InternModel.BuildAll | models/Intern.ts:77-162 | an array of sub-documents is built exactly when every element builds, element by element |
| InternModel.NewProgress | models/Intern.ts:77-162 | the four sub-document arrays are accepted exactly when every element is; each element is built with its own defaults |
| InternModel.NewDemo | models/Intern.ts:165-175 | accepted exactly when the status is absent or valid; demoScheduled defaults to false and demoStatus to not_scheduled |
| InternModel.NewVerificationStatus | models/Intern.ts:51-55 | accepted exactly when absent or one of the three names; defaults to pending |
| InternModel.NewIntern | models/Intern.ts:6-240 | a created intern has role "intern", the trimmed non-empty username, the normalised non-empty email and the given password, profile and teams; organizationName defaults to "none", organizationId to null, profileSubmissionCount to 0, verificationStatus to pending, isActive to true and both timestamps to now; progress, demo, preferences and notifications are those their own constructors build from the input |
| InternModel.NewInternSteps | models/Intern.ts:8-55 | creation succeeds exactly when the required paths are present, the role is "intern" and every sub-document validates |
| InternModel.StoredUsername | models/Intern.ts:8-13 | a username is stored exactly when one is given, no longer than given, and trimming it again changes nothing |
| InternModel.StoredEmail | models/Intern.ts:14-20 | an email is stored exactly when one is given, and normalising it again changes nothing |
| InternModel.NewInternAccepts | models/Intern.ts:6-240 | creation succeeds if and only if every path passes its required, enum or role validator |
| InternModel.NewInternNormalised | models/Intern.ts:8-20 | a stored username has no surrounding white space; a stored email has none either and no upper-case letter |
| InternModel.NewInternDefaults | models/Intern.ts:25-237 | an intern given only username, email and password gets these defaults: role "intern", organizationName "none", organizationId null, profileSubmissionCount 0, verificationStatus pending, no teams, demo not scheduled, light theme with every flag on, active, and both timestamps set to now |
| InternModel.ApplyUpdate | models/Intern.ts:8-51 | a new username is stored trimmed and a new email trimmed and lower-cased; role, password, organizationName, profileSubmissionCount, isActive, createdAt and updatedAt take the update's value when it sets one of the right kind, since the non-strict schema (models/Intern.ts:239) does not protect the immutable role; an explicit null clears organizationId and lastLoginDate, a string or date sets them, and otherwise they are kept; a schema verification status is stored, anything else keeps the old one; teams, profile, progress, demo, preferences and notifications are unchanged |
| InternModel.UpdateKeepsNormalised | models/Intern.ts:8-20 | a document whose username and email are in stored form keeps them so after any update |
| InternModel.UpdateOneQuery.PreUpdateOne | models/Intern.ts:249-251 | the hook sets updatedAt to now in the pending update and changes nothing else |
| InternModel.HookedUpdateStampsTime | models/Intern.ts:249-251 | whatever an update sets, once the hook has run the stored updatedAt is now, and every other path is what the update alone would store |
| TeamEdit.FirstUser | app/api/edit-team/route.ts:42-45 | findOne returns a matching user that is in the collection, or None exactly when no user matches |
| TeamEdit.UserMatches | app/api/edit-team/route.ts:42-113 | a user filter selects only within what it names: the admin lookup only users with role admin, the attach lookup by username only users of the organizationName, the `$in` lookups only users of the organizationId |
| TeamEdit.InternMatches | app/api/edit-team/route.ts:64-121 | an intern filter selects only in the organizationName it names; the `$in` filter selects an intern exactly when some requested name, trimmed, is its username |
| TeamEdit.TeamMatches | app/api/edit-team/route.ts:50-53 | a team filter selects only a team with the requested name in the requested organizationId |
| TeamEdit.FirstIntern | app/api/edit-team/route.ts:117-121 | findOne on interns returns a matching intern, or None exactly when none matches |
| TeamEdit.FirstTeam | app/api/edit-team/route.ts:49-53 | findOne on teams returns a team with that name and organizationId, or None exactly when none exists |
| TeamEdit.AllUsers | app/api/edit-team/route.ts:73-76 | find returns exactly the matching users, and no more entries than there are stored users |
| TeamEdit.AllInterns | app/api/edit-team/route.ts:75 | find returns exactly the interns of the organizationName whose username is a requested name after trimming, and no more entries than there are stored interns |
| TeamEdit.Pull | app/api/edit-team/route.ts:60 | `$pull` removes every occurrence of the id and keeps every other element as often as before |
| TeamEdit.AddToSet | app/api/edit-team/route.ts:113 | `$addToSet` makes the id present, adds no second copy, and leaves other elements as they were |
| TeamEdit.PullIdempotent | app/api/edit-team/route.ts:57-69 | pulling the same id twice is pulling it once |
| TeamEdit.AddToSetIdempotent | app/api/edit-team/route.ts:110-122 | adding the same id twice is adding it once |
| TeamEdit.DetachUsers | app/api/edit-team/route.ts:57-62 | the detach loop changes no user's username, role or organization |
| TeamEdit.AttachUsers | app/api/edit-team/route.ts:110-115 | the attach loop changes no user's username, role or organization |
| TeamEdit.DetachInterns | app/api/edit-team/route.ts:64-69 | the detach loop changes nothing of an intern but its teams |
| TeamEdit.AttachInterns | app/api/edit-team/route.ts:117-122 | the attach loop changes nothing of an intern but its teams |
| TeamEdit.MissingField | app/api/edit-team/route.ts:17-39 | no error means all six fields are present; an error is one of the six "required" errors |
| TeamEdit.Detach | app/api/edit-team/route.ts:55-69 | the detach phase leaves the teams and every collection order as they were, and changes only the teams lists of users and interns |
| TeamEdit.Attach | app/api/edit-team/route.ts:108-122 | the attach phase leaves the teams and every collection order as they were, and changes only the teams lists of users and interns |
| TeamEdit.EditFound | app/api/edit-team/route.ts:55-122 | once the team is found, the outcome is success or one of the three "not found" errors; on an error the store is as detached; no document is added or removed |
| TeamEdit.Edit | app/api/edit-team/route.ts:14-124 | every error other than a failed count check leaves the store unchanged, and no document is ever added or removed |
| TeamEdit.StatusCode | app/api/edit-team/route.ts:17-124 | 200 exactly for success, 403 exactly for a non-admin, 404 exactly for a missing team, and 400 for every other error |
| TeamEdit.FindByOwnName | app/api/edit-team/route.ts:111-114 | with unique usernames, the attach lookup by a user's own username finds that user when it is in the admin's organizationName, and nobody otherwise |
| TeamEdit.FindInternByOwnName | app/api/edit-team/route.ts:118-121 | the same for interns |
| TeamEdit.SameUsersUnique | app/api/edit-team/route.ts:57-62 | changing only teams keeps usernames unique |
| TeamEdit.SameInternsUnique | app/api/edit-team/route.ts:64-69 | the same for interns |
| TeamEdit.DetachUsersStep | app/api/edit-team/route.ts:57-62 | one more loop iteration is one more `$pull` on that user, when it is in orgName |
| TeamEdit.DetachInternsStep | app/api/edit-team/route.ts:64-69 | the same for interns |
| TeamEdit.AttachUsersStep | app/api/edit-team/route.ts:110-115 | one more loop iteration is one more `$addToSet` on that user, when it is in orgName |
| TeamEdit.AttachInternsStep | app/api/edit-team/route.ts:117-122 | the same for interns |
| TeamEdit.Store.FindOneUser | app/api/edit-team/route.ts:42 | the scan returns the first matching user in natural order |
| TeamEdit.Store.FindOneIntern | app/api/edit-team/route.ts:118-121 | the scan returns the first matching intern |
| TeamEdit.Store.FindTeam | app/api/edit-team/route.ts:50 | the scan returns the first matching team |
| TeamEdit.Store.FindUsers | app/api/edit-team/route.ts:73-76 | the scan returns every matching user in natural order |
| TeamEdit.Store.FindInterns | app/api/edit-team/route.ts:75 | the scan returns every intern the trimmed `$in` filter selects, in natural order |
| TeamEdit.Store.PullFromUsers | app/api/edit-team/route.ts:56-62 | after the loop the users are the detached users; nothing else changes |
| TeamEdit.Store.PullFromInterns | app/api/edit-team/route.ts:64-69 | after the loop the interns are the detached interns |
| TeamEdit.Store.AddToUsers | app/api/edit-team/route.ts:109-115 | after the loop the users are the attached users |
| TeamEdit.Store.AddToInterns | app/api/edit-team/route.ts:117-122 | after the loop the interns are the attached interns |
| TeamEdit.Store.EditTeam | app/api/edit-team/route.ts:14-124 | the route's steps leave exactly the store and outcome that `Edit` gives, and keep the store well formed |
| TeamEdit.Store.ReplaceMembers | app/api/edit-team/route.ts:55-122 | detach, resolve and count, rewrite and attach leave exactly what `EditFound` gives |
| TeamEditProperties.MissingFieldRejected | app/api/edit-team/route.ts:17-39 | a falsy field is a 400 with the store unchanged; the checks pass exactly when all six are present, the three strings are non-empty, and empty lists are allowed |
| TeamEditProperties.ForbiddenIffNoAdmin | app/api/edit-team/route.ts:42-45 | 403 exactly when no user has the username with role admin; the store is then unchanged |
| TeamEditProperties.NotFoundIffNoTeam | app/api/edit-team/route.ts:49-53 | 404 exactly when no team has the name in the admin's organizationId; the store is then unchanged |
| TeamEditProperties.AllUsersByNameSet | app/api/edit-team/route.ts:73-76 | the users a `$in` filter selects depend only on the set of names |
| TeamEditProperties.AllInternsByNameSet | app/api/edit-team/route.ts:75 | the same for interns |
| TeamEditProperties.DistinctCountBySet | app/api/edit-team/route.ts:79-81 | the deduplicated count depends only on the set of names |
| TeamEditProperties.EditFoundByNameSet | app/api/edit-team/route.ts:73-86 | once the team is found, lists with the same names give the same result |
| TeamEditProperties.DuplicatesIgnored | app/api/edit-team/route.ts:73-86 | two requests whose lists hold the same usernames, repeated any number of times, have the same effect |
| TeamEditProperties.AllUsersDistinct | app/api/edit-team/route.ts:73 | find returns no user twice |
| TeamEditProperties.AllInternsDistinct | app/api/edit-team/route.ts:75 | find returns no intern twice |
| TeamEditProperties.DistinctCard | app/api/edit-team/route.ts:84-86 | a list without repeats has as many elements as distinct elements |
| TeamEditProperties.InjectiveImageCard | app/api/edit-team/route.ts:84-86 | distinct users with distinct names carry as many names as there are users |
| TeamEditProperties.SubsetCard | app/api/edit-team/route.ts:84-86 | a subset of the requested names has their count exactly when it is all of them |
| TeamEditProperties.AllUsersCard | app/api/edit-team/route.ts:73 | the count find returns is the number of matching users |
| TeamEditProperties.AllInternsCard | app/api/edit-team/route.ts:75 | the count find returns is the number of matching interns |
| TeamEditProperties.MatchingUsersNames | app/api/edit-team/route.ts:84 | with unique usernames, the matching users carry as many usernames as there are of them |
| TeamEditProperties.MatchingInternsNames | app/api/edit-team/route.ts:85 | the same for interns |
| TeamEditProperties.MatchingUsersCover | app/api/edit-team/route.ts:73-86 | the matching users' usernames are requested names; they are all of them exactly when every name resolves |
| TeamEditProperties.MatchingInternsCover | app/api/edit-team/route.ts:75-85 | the selected interns' usernames are trimmed requested names; they are all of them exactly when every requested name resolves once trimmed |
| TeamEditProperties.UserCountIffResolved | app/api/edit-team/route.ts:73-86 | the resolved count equals the deduplicated count exactly when every username resolves in the organizationId |
| TeamEditProperties.InternCountIffResolved | app/api/edit-team/route.ts:75-85 | the intern count equals the number of distinct names sent exactly when every name, trimmed, is an intern of the organizationName and no two different names trim to the same username |
| TeamEditProperties.TrimImageCard | app/api/edit-team/route.ts:75-85 | trimming a set of names gives at most as many usernames, and exactly as many when no two names trim alike |
| TeamEditProperties.TrimmedNamesCard | app/api/edit-team/route.ts:75-85 | the same for the names of a request list against its count of distinct names |
| TeamEditProperties.EditWhenLocated | app/api/edit-team/route.ts:42-53 | once the admin and the team are found, the edit is the rest of the route on that team |
| TeamEditProperties.AllUsersIgnoresTeams | app/api/edit-team/route.ts:55-76 | changing users' teams does not change whom a name filter selects |
| TeamEditProperties.AllInternsIgnoresTeams | app/api/edit-team/route.ts:64-75 | the same for interns |
| TeamEditProperties.DetachResolvesAlike | app/api/edit-team/route.ts:55-76 | resolving after the detach phase finds the same members as resolving before it |
| TeamEditProperties.FoundSucceedsIff | app/api/edit-team/route.ts:55-86 | once the team is found, success happens exactly when every mentor and panelist name resolves by organizationId, and every intern name resolves once trimmed by organizationName with no two trimming alike; otherwise the result is a 400 with the store as detached |
| TeamEditProperties.SucceedsIffAllResolve | app/api/edit-team/route.ts:73-86 | the edit succeeds exactly under that same condition; otherwise it is a 400 that leaves the store as the detach phase left it |
| TeamEditProperties.UnresolvedStillDetaches | app/api/edit-team/route.ts:55-86 | when that condition fails, the result is a 400 with the teams unchanged, yet every former member in the admin's organizationName has lost the team id |
| TeamEditProperties.FoundSuccessState | app/api/edit-team/route.ts:55-122 | when every name resolves, the result is the detached, rewritten and attached store with 200 |
| TeamEditProperties.SuccessState | app/api/edit-team/route.ts:42-122 | the same for the whole request |
| TeamEditProperties.SuccessRewritesTeam | app/api/edit-team/route.ts:89-103 | after success the team keeps its name and organizationId and holds the new description; every other team is unchanged |
| TeamEditProperties.AfterSuccessTeams | app/api/edit-team/route.ts:89-103 | after success only the edited team's document differs |
| TeamEditProperties.SuccessTeamMembers | app/api/edit-team/route.ts:73-103 | after success the team's mentors and panelists are exactly the users named with the admin's organizationId, and its interns exactly the interns of its organizationName whose username is a requested name trimmed |
| TeamEditProperties.MoveTeamUsers | app/api/edit-team/route.ts:55-115 | detach and attach together:<br>• no other team id moves;<br>• new members in orgName hold the id, exactly once if they held it at most once;<br>• dropped members in orgName lose it;<br>• everyone else is untouched |
| TeamEditProperties.MoveTeamInterns | app/api/edit-team/route.ts:64-122 | the same for interns |
| TeamEditProperties.SuccessUpdatesUsers | app/api/edit-team/route.ts:55-115 | after a successful edit:<br>• every new mentor or panelist in orgName holds the team id, exactly once if they held it at most once;<br>• a former member in orgName who was dropped no longer holds it;<br>• users in another organizationName, and other team ids, are untouched |
| TeamEditProperties.SuccessUpdatesInterns | app/api/edit-team/route.ts:64-122 | the same for interns |
| TeamEditProperties.Relink | app/api/edit-team/route.ts:55-122 | replacing one team's list keeps the two-way link when exactly the new members gain its id and nothing else moves |
| TeamEditProperties.MoveKeepsUsersLinked | app/api/edit-team/route.ts:55-115 | detach then attach within one organizationName keeps teams and users linked |
| TeamEditProperties.MoveKeepsInternsLinked | app/api/edit-team/route.ts:64-122 | the same for interns |
| TeamEditProperties.SuccessKeepsUsersLinked | app/api/edit-team/route.ts:55-115 | a successful edit in a consistent organization keeps teams and users linked |
| TeamEditProperties.SuccessKeepsInternsLinked | app/api/edit-team/route.ts:64-122 | the same for interns |
| TeamEditProperties.SuccessKeepsLinked | app/api/edit-team/route.ts:55-122 | when the organization is consistent and every name resolves, the edit succeeds and every team stays linked with its members both ways |
| TeamEditProperties.MissingBackLink | app/api/edit-team/route.ts:55-62 | a listed member without the team id breaks the link |
| TeamEditProperties.UnresolvedBreaksLink | app/api/edit-team/route.ts:55-86 | when that condition fails and the team had a user member in the admin's organizationName, the 400 leaves the team–member link broken |
| TeamEditProperties.ForeignNameMemberUnlinked | app/api/edit-team/route.ts:73-115 | a new mentor or panelist with the admin's organizationId but another organizationName joins the team without receiving its id |
| Internships.Member | app/api/internships/route.ts:19-21 | `userData.key` is defined exactly when userData is an object holding the key, and then it is that member |
| Internships.NewPosting | app/api/internships/route.ts:14-22 | a record is built exactly when userData is present and not null; it has the assigned id and creation time and no userData field |
| Internships.Override | app/api/internships/route.ts:17-22 | a spread override sets the key to the value or, when the value is undefined, leaves it unset; other keys are kept |
| Internships.PostingFields | app/api/internships/route.ts:14-22 | a record is built exactly when userData is present and not null; it keeps every payload field except userData and the three poster fields; postedBy, organizationName and organizationId come from userData |
| Internships.InternshipStore.Post | app/api/internships/route.ts:11-37 | a built and accepted record is appended and returned with 201; otherwise the result is 500 with the collection unchanged |
| Internships.StartOfUtcDay | app/api/internships/route.ts:57-58 | the start of the UTC day is a midnight at or before now, less than a day earlier |
| Internships.BuildQuery | app/api/internships/route.ts:47-60 | the organization filter applies exactly for a non-empty parameter; the deadline filter exactly for hideExpired equal to "true", from the start of today |
| Internships.Matches | app/api/internships/route.ts:50-62 | the empty query matches every record; a record matching an organization filter has exactly that organizationId, and one matching a deadline filter has an applicationDeadline |
| Internships.OrganizationFilter | app/api/internships/route.ts:47-53 | a non-empty organizationId parameter lists only records whose organizationId equals it, and without hideExpired lists every record of the collection that has it |
| Internships.Select | app/api/internships/route.ts:62 | find keeps each matching record exactly as often as it is stored, and no other record |
| Internships.Insert | app/api/internships/route.ts:62-63 | inserting into a newest-first list keeps it newest first and adds exactly that record |
| Internships.SortNewestFirst | app/api/internships/route.ts:62-63 | the sort returns a newest-first permutation of its input |
| Internships.List | app/api/internships/route.ts:47-63 | the listing is newest first and holds each stored record as often as stored when it matches the query, and not at all otherwise |
| Internships.ListSelectsAndOrders | app/api/internships/route.ts:47-65 | the listing holds only stored records, never more often than stored; it holds exactly those matching the query, newest first |
| Internships.NoFilterListsAll | app/api/internships/route.ts:48-53 | without an organization parameter and without hideExpired "true", every stored record is listed |
| Internships.SelectAll | app/api/internships/route.ts:62 | when every record matches, find returns the collection as stored |
| Internships.DeadlineByUtcDay | app/api/internships/route.ts:56-60 | with hideExpired, a deadline on today's UTC day or later does not exclude the record, and one on an earlier day does |
| Internships.PostedIsListed | app/api/internships/route.ts:14-53 | once stored, a posting appears in the listing when no filter applies |
| Internships.NoDeadlineHidden | app/api/internships/route.ts:56-60 | with hideExpired, a record without a date deadline is not listed |
| Internships.NewestFirstExample | app/api/internships/route.ts:62-63 | postings created at t1 < t2 < t3 are listed in the order t3, t2, t1 |

## Left out

- Password hashing in the pre-save hook (models/Intern.ts:242-247) is left out, because it calls a foreign cryptographic library.
- `strict: false` (models/Intern.ts:239) has two effects. Undeclared paths can be stored; the model leaves them out, as it has no undeclared paths. It also turns off the stripping of the `immutable` role from updates; the model does follow that, since `InternModel.ApplyUpdate` sets role from an update. The model registration (models/Intern.ts:253) is left out too.
- ObjectId generation is not modelled; ids are abstract natural numbers.
- The unique indexes on username and email are not enforced on insert. The team edit assumes unique usernames as part of `Store.Valid`.
- InternModel.Lower: lower-cases only the ASCII letters A-Z, not the full Unicode case mapping of `toLowerCase`.
- InternModel.LowerChar: maps only A-Z; "upper-case" in its contract means an ASCII upper-case letter.
- InternModel.NormalizeEmail: "no upper-case letter" means no ASCII upper-case letter, for the reason above.
- InternModel.NewInternNormalised: "no upper-case letter" means no ASCII upper-case letter, for the reason above.
- InternModel.NewIntern: reports only the first failing path, in a fixed order. Mongoose collects every validation error, and the model does not.
- InternModel.NewIntern: `Number` paths are integers and `Date` paths are integer milliseconds. The model does not cast strings to numbers or dates, and has no floating point.
- InternModel.NewIntern: `default: null` for organizationId and an absent organizationId are both `None`. An explicit `null` given for another path is treated as absent.
- InternModel.ApplyUpdate: interprets only the scalar paths of an update: username, email, password, organizationName, organizationId, profileSubmissionCount, verificationStatus, isActive, lastLoginDate, createdAt and updatedAt. Array and nested paths (teams, profile, progress, demo, preferences, notifications) are not updated, and operators other than a plain set are not modelled.
- InternModel.ApplyUpdate: update values are not cast to their path's type. Mongoose would store `{ username: 5 }` as "5", `{ createdAt: "2024-05-01" }` as that date and `{ isActive: "false" }` as false, and would fail the `updateOne` with a cast error for a value it cannot convert. The model keeps the old value in all these cases. An explicit null for username, email, password, role or organizationName, which the store would keep as null, is not applied either, because those paths are plain strings in the model. Only organizationId and lastLoginDate take a null.
- InternModel.ApplyUpdate: a verificationStatus outside the enum is dropped and the old status kept. `updateOne` runs no validators, so the store would keep such a value; the model's status type cannot hold it.
- InternMatches: the attach lookup by a found intern's own username (route lines 118-121) compares that username without trimming it. The schema stores usernames trimmed (models/Intern.ts:12), and trimming a trimmed name changes nothing (`TrimIdempotent`), so the two agree on every document the schema can store.
- The post-write 404 of the team edit (app/api/edit-team/route.ts:104-106) is left out. It only happens when the team is deleted concurrently between the lookup and the update, and concurrency is not modelled.
- The `catch` blocks that answer 500 are left out. They are reached only through store failures, which are not modelled, and the log output is not modelled either. POST's failure on save is the `accepted` parameter of `InternshipStore.Post`.
- The `Array.isArray(adminUser)` branch (app/api/edit-team/route.ts:46-47) is not modelled, because `findOne` returns a single document.
- The team edit's request lists are sequences of strings. A list whose elements are not strings, and a non-array truthy value, are not modelled.
- TeamEdit.Store.EditTeam: a request with an empty username or team name is rejected as falsy. This matches the route; other falsy values (`0`, `false`) are not representable.
- Internships.NewPosting: payload values are stored as parsed from the JSON body, without casting. A JSON body has no date type, so an applicationDeadline sent as text or a number stays text or a number. Under hideExpired, `NoDeadlineHidden` then drops every posting made through POST, where a Date-typed schema path would have cast the deadline and kept a current posting. Whether models/Internship.ts declares such a path is outside this model.
- The Internship schema (models/Internship.ts) is not part of this model. Whether a record is accepted on save is the `accepted` parameter of `InternshipStore.Post`, and its createdAt timestamp is the `now` parameter.
- Internships.SortNewestFirst: records created at the same time keep collection order. The store's order among equal keys is not specified, so the model picks one.
- Internships.Member: a `userData` that is neither an object nor null (a string, say) yields undefined members, as in JavaScript; nested objects and arrays are kept as given.
- Database connection, JSON parsing and response construction (`dbConnect`, `request.json`, `NextResponse`) are left out: they are I/O plumbing. The response is the status and the record.
- The employee dashboard (app/dashboard/employee/dashboardscreen.tsx) is presentation and is not modelled.
- Concurrent requests and crashes between the per-member writes of the team edit are not modelled. Each request runs alone against the store.
