# TeamLink core, modelled in Dafny

TeamLink matches freelancers with project leaders. A leader publishes a
project. Freelancers apply to it. The leader accepts or rejects each
application, and an accepted applicant joins the project's team. This
project models the backend services that keep those tables. It also models
the small pieces of logic around them:

- the project / application / team workflow (`projects.dfy`,
  `projects_service.dfy`, `teams.dfy`);
- the user shadows of identity-provider accounts, their skills and their
  rating profile (`users.dfy`), and the skill catalogue (`skills.dfy`);
- the claims of an access token, the role shown with a profile, the login
  scope, the Google sign-in redirect and the id of a created account
  (`claims.dfy`, `users_controller.dfy`);
- notification payloads, the server's registry of connected users and the
  client's unread counter (`notifications.dfy`, `notification_store.dfy`);
- the response envelope, the application exception and the global exception
  filter (`responses.dfy`).

The database is one `Store.Database` object whose fields are the tables,
each a sequence of rows in storage order. `Store.Tables` is a snapshot of
it. Each query and each write is first a function over `Tables`. Each write
returns a `Step`: the result (a value or a service `Error`) and the tables
after the call. The service classes (`ProjectsService`, `TeamsService`,
`UsersService`, `SkillsService`) update the database object in place. Each
of their methods is proved to return and leave behind exactly what its
function specifies, and to keep `Store.Consistent`. That predicate holds the
uniqueness the tables keep: unique user ids, e-mails unique up to case, one user per
identity (`sub`), unique skill ids, skill names unique up to case, one row per (user, skill), one
application per (user, project), and one team row per (project, user).

The team table has no unique index. Its uniqueness rests only on the
existence check that `updateApplicationStatus` makes before inserting a
team row, and `Projects.UpdateApplicationStatusConsistent` proves that this
check suffices.

Fresh uuids and clock readings are parameters (`newId`, `now`, `nowMs`,
`timestamp`). Projects and teams take the caller as an already resolved
user id. The users operations run the get-or-create step themselves, as
the source does.

## Model

Paths are relative to the repository root.

| member | source | states |
|---|---|---|
| Projects.FindProjectById | backend/nest-app/src/projects/projects.service.ts:51-92 | the project with that id, or NotFound("Project not found") exactly when no row has the id |
| Projects.CreateProject | backend/nest-app/src/projects/projects.service.ts:26-34 | one new project owned by the caller with the DTO's title and description and status open (the entity default); no other table changes |
| Projects.FindAllProjects | backend/nest-app/src/projects/projects.service.ts:36-49 | a project is listed iff it is stored and open |
| Projects.UpdateProject | backend/nest-app/src/projects/projects.service.ts:94-104 | NotFound, then Forbidden unless the caller owns it; on success only the supplied DTO fields change, id and owner are kept, and no other row or table changes; no change on failure |
| Projects.DeleteProject | backend/nest-app/src/projects/projects.service.ts:106-115 | NotFound, then Forbidden for a non-owner; on success the project and the applications, team rows and ratings that cascade from it go, and nothing else |
| Projects.GetMyProjects | backend/nest-app/src/projects/projects.service.ts:117-148 | a project is listed iff the caller owns it |
| Projects.ApplyToProject | backend/nest-app/src/projects/projects.service.ts:150-177 | NotFound, then the owner is refused before the status is looked at, then a project that is not open, then an earlier application; success iff none applies, and then exactly one pending application for (caller, project) is appended; no change on failure |
| Projects.GetProjectApplications | backend/nest-app/src/projects/projects.service.ts:179-200 | NotFound, then Forbidden for a non-owner; otherwise an application is listed iff it belongs to the project |
| Projects.RoleTitleOrDefault | backend/nest-app/src/projects/projects.service.ts:230 | the given role title, or "Team Member" when it is absent or empty |
| Projects.ApplicationIndex | backend/nest-app/src/projects/projects.service.ts:215-222 | finds the application with that id within that project, and finds nothing iff there is none |
| Projects.UpdateApplicationStatus | backend/nest-app/src/projects/projects.service.ts:202-248 | NotFound for the project, then Forbidden before the application is looked up, then NotFound for an application outside the project; otherwise the stored application is returned and written back with only its status replaced, whatever the old status; only on accepted may a team row be added, for that application's user, titled with the given role or "Team Member", and only when that user has none; no change on failure |
| Projects.GetMyApplications | backend/nest-app/src/projects/projects.service.ts:250-272 | an application is listed iff it is the caller's |
| Projects.CreateProjectConsistent | backend/nest-app/src/entities/project.entity.ts:31-36 | creating a project with a fresh id keeps the tables consistent |
| Projects.UpdateProjectConsistent | backend/nest-app/src/projects/projects.service.ts:102-103 | updating a project keeps the tables consistent |
| Projects.DeleteProjectConsistent | backend/nest-app/src/entities/application.entity.ts:38-44 | deleting a project with its cascades keeps the tables consistent |
| Projects.ApplyToProjectConsistent | backend/nest-app/src/entities/application.entity.ts:15 | applying keeps one application per (user, project) |
| Projects.UpdateApplicationStatusConsistent | backend/nest-app/src/projects/projects.service.ts:233-243 | a status update keeps one team row per (project, user), although the team table has no unique index |
| Projects.ApplyTwiceRefused | backend/nest-app/src/projects/projects.service.ts:163-169 | a second application by the same user to the same project fails with "already applied" and changes nothing |
| Projects.AcceptTwiceAddsNoSecondRow | backend/nest-app/src/projects/projects.service.ts:233-237 | accepting the same application twice, with any role titles, leaves the team table as the first acceptance left it |
| Projects.RejectAfterAcceptKeepsMember | backend/nest-app/src/projects/projects.service.ts:224-229 | rejecting an accepted application succeeds and leaves the applicant's team row in place |
| ProjectsService.ProjectsService.CreateProject | backend/nest-app/src/projects/projects.service.ts:26-34 | appends the project in place; result and new state are `Projects.CreateProject`'s; consistency is kept |
| ProjectsService.ProjectsService.UpdateProject | backend/nest-app/src/projects/projects.service.ts:94-104 | patches the stored row in place; result and new state are `Projects.UpdateProject`'s |
| ProjectsService.ProjectsService.DeleteProject | backend/nest-app/src/projects/projects.service.ts:106-115 | removes the project and its cascades in place; result and new state are `Projects.DeleteProject`'s |
| ProjectsService.ProjectsService.ApplyToProject | backend/nest-app/src/projects/projects.service.ts:150-177 | runs the guards in order and appends the application; result and new state are `Projects.ApplyToProject`'s |
| ProjectsService.ProjectsService.UpdateApplicationStatus | backend/nest-app/src/projects/projects.service.ts:202-248 | overwrites the status in place and inserts the team row when absent; result and new state are `Projects.UpdateApplicationStatus`'s |
| Teams.GetProjectTeam | backend/nest-app/src/teams/teams.service.ts:19-34 | exactly the project's team rows, with multiplicity, ordered by joinedAt ascending |
| Teams.GetMyTeamMemberships | backend/nest-app/src/teams/teams.service.ts:108-135 | exactly the caller's team rows, with multiplicity, ordered by joinedAt descending |
| Teams.Guard | backend/nest-app/src/teams/teams.service.ts:48-69 | NotFound for the project, then Forbidden for a non-owner, then NotFound("Team member not found") for a team id outside the project; otherwise the row's position |
| Teams.UpdateTeamMemberRole | backend/nest-app/src/teams/teams.service.ts:36-74 | after the guards only that row's role title changes (its project, user and joinedAt and every other row are kept); no change on failure |
| Teams.RemoveTeamMember | backend/nest-app/src/teams/teams.service.ts:76-106 | the same guards in the same order; on success the team table loses exactly that row |
| Teams.UpdateTeamMemberRoleConsistent | backend/nest-app/src/teams/teams.service.ts:72-73 | a role edit keeps the tables consistent |
| Teams.RemoveTeamMemberExact | backend/nest-app/src/teams/teams.service.ts:105 | on consistent tables, a row survives a removal iff it is another row |
| Teams.RemoveTeamMemberConsistent | backend/nest-app/src/teams/teams.service.ts:105 | a removal keeps the tables consistent |
| TeamsService.TeamsService.UpdateTeamMemberRole | backend/nest-app/src/teams/teams.service.ts:36-74 | writes the role title in place; result and new state are `Teams.UpdateTeamMemberRole`'s |
| TeamsService.TeamsService.RemoveTeamMember | backend/nest-app/src/teams/teams.service.ts:76-106 | deletes the row in place; result and new state are `Teams.RemoveTeamMember`'s |
| Users.LocalPart | backend/nest-app/src/users/users.service.ts:35 | the e-mail up to its first '@' (all of it when there is none) |
| Users.DefaultUsername | backend/nest-app/src/users/users.service.ts:35 | the preferred username when present and non-empty, else the e-mail's local part; with neither, the TypeError of `email.split` |
| Users.GetOrCreateUser | backend/nest-app/src/users/users.service.ts:26-48 | an existing shadow for the token's `sub` is returned with only lastLoginAt updated; otherwise a token with neither username nor e-mail fails with the TypeError, one with no e-mail fails on the NOT NULL column, one whose e-mail is taken up to case fails as the unique index does, and else exactly one active user with that `sub` is appended; only the users table changes |
| Users.FindUserById | backend/nest-app/src/users/users.service.ts:50-61 | the user, or NotFound exactly when no row has the id |
| Users.UpdateProfile | backend/nest-app/src/users/users.service.ts:76-83 | on the get-or-created shadow only the supplied bio and avatar and lastLoginAt change |
| Users.Upsert | backend/nest-app/src/users/users.service.ts:96-114 | the row is present afterwards and the rows of every other (user, skill) pair keep their multiplicity |
| Users.AddSkillToUser | backend/nest-app/src/users/users.service.ts:85-115 | NotFound for an unknown skill with the user-skill table unchanged; otherwise the caller's row for the skill is written or appended with the requested level |
| Users.RemoveSkillFromUser | backend/nest-app/src/users/users.service.ts:117-129 | NotFound("User skill not found") when the caller has no row for the skill; otherwise that row is removed |
| Users.GetAllUsers | backend/nest-app/src/users/users.service.ts:143-163 | a user is listed iff stored and active |
| Users.ReceivedRatings | backend/nest-app/src/users/users.service.ts:176-179 | a rating is included iff it was given to the user |
| Users.Mean | backend/nest-app/src/users/users.service.ts:206 | 0 with no ratings, else the value whose product with the count is the sum of the ratings |
| Users.SkillEntries | backend/nest-app/src/users/users.service.ts:182-195 | each entry comes from one of the user's rows, with that row's skill id and level and the catalogue name of the skill |
| Users.SkillEntriesComplete | backend/nest-app/src/users/users.service.ts:182-188 | every row whose skill is stored yields an entry with that skill's name and the row's level |
| Users.SkillEntriesExact | backend/nest-app/src/users/users.service.ts:182-188 | when every row's skill is stored, one entry per row, index by index in row order |
| Users.RatingEntries | backend/nest-app/src/users/users.service.ts:197-204 | one entry per received rating, in order, with its value and comment, the rater's stored username and the project's stored title (absent only when that row is not stored) |
| Users.GetUserProfile | backend/nest-app/src/users/users.service.ts:165-209 | NotFound for an unknown user; otherwise id, username, e-mail, bio and avatar are the stored user's, skills are `SkillEntries` of the user's rows, ratings are `RatingEntries` of the received ratings, totalRatings is their number and averageRating their mean |
| Users.SumWithinStars | backend/nest-app/src/entities/rating.entity.ts:28-29 | n star ratings sum to between n and 5n |
| Users.MeanWithinStars | backend/nest-app/src/users/users.service.ts:206 | the mean of star ratings lies between 1 and 5 |
| Users.AverageWithinStars | backend/nest-app/src/users/users.service.ts:206-207 | a profile with ratings has an average between 1 and 5 |
| Users.GetOrCreateUserConsistent | backend/nest-app/src/entities/user.entity.ts:24-25 | get-or-create with a fresh id keeps the tables consistent |
| Users.GetOrCreateTwice | backend/nest-app/src/users/users.service.ts:27-44 | a second get-or-create for the same `sub` returns the same user and adds no second one |
| Users.UpdateProfileConsistent | backend/nest-app/src/users/users.service.ts:76-83 | a profile update keeps the tables consistent |
| Users.AddSkillToUserUpsert | backend/nest-app/src/entities/user-skill.entity.ts:14 | on consistent tables, after a successful add exactly one row exists for (user, skill) and it carries the requested level; consistency is kept |
| Users.RemoveSkillFromUserExact | backend/nest-app/src/users/users.service.ts:128 | on consistent tables a removal keeps exactly the rows of other (user, skill) pairs |
| UsersService.UsersService.GetOrCreateUser | backend/nest-app/src/users/users.service.ts:26-48 | updates or appends the user in place; result and new state are `Users.GetOrCreateUser`'s |
| UsersService.UsersService.UpdateProfile | backend/nest-app/src/users/users.service.ts:76-83 | writes the profile fields in place; result and new state are `Users.UpdateProfile`'s |
| UsersService.UsersService.AddSkillToUser | backend/nest-app/src/users/users.service.ts:85-115 | updates or appends the user-skill row in place; result and new state are `Users.AddSkillToUser`'s |
| UsersService.UsersService.RemoveSkillFromUser | backend/nest-app/src/users/users.service.ts:117-129 | deletes the row in place; result and new state are `Users.RemoveSkillFromUser`'s |
| Skills.CreateSkill | backend/nest-app/src/skills/skills.service.ts:14-26 | Conflict("Skill already exists") with no change when the name is taken up to case (the lookup runs under the database's case-insensitive collation); otherwise exactly one skill with that name is appended |
| Skills.FindAllSkills | backend/nest-app/src/skills/skills.service.ts:28-32 | a permutation of the skill table, ascending by name ignoring case |
| Skills.FindSkillById | backend/nest-app/src/skills/skills.service.ts:34-44 | the skill, or NotFound("Skill not found") exactly when no row has the id |
| Skills.DeleteSkill | backend/nest-app/src/skills/skills.service.ts:46-49 | fails iff the id is unknown, with no change; otherwise exactly the skill and the user-skill rows that cascade from it go |
| Skills.SearchSkills | backend/nest-app/src/skills/skills.service.ts:51-57 | exactly the skills whose name contains the query ignoring case, with multiplicity, ascending by name ignoring case |
| Skills.SearchHitsOccur | backend/nest-app/src/skills/skills.service.ts:54 | a hit is a stored skill whose lower-cased name has the lower-cased query at some position |
| Skills.CreateSkillConsistent | backend/nest-app/src/entities/skill.entity.ts:14 | creation with a fresh id keeps skill names unique up to case |
| Skills.DeleteSkillConsistent | backend/nest-app/src/skills/skills.service.ts:46-49 | deletion keeps the tables consistent |
| Skills.CreateTwiceConflicts | backend/nest-app/src/skills/skills.service.ts:16-22 | creating a name again, in the same or another case, fails the second time and changes nothing |
| SkillsService.SkillsService.CreateSkill | backend/nest-app/src/skills/skills.service.ts:14-26 | appends the skill in place; result and new state are `Skills.CreateSkill`'s |
| SkillsService.SkillsService.DeleteSkill | backend/nest-app/src/skills/skills.service.ts:46-49 | removes the skill and its user-skill rows in place; result and new state are `Skills.DeleteSkill`'s |
| UsersController.RoleOf | backend/nest-app/src/users/users.controller.ts:39-43 | "leader" iff the realm roles contain "leader" (so it wins over "freelancer"), else "freelancer", including when the token has no realm roles; agrees with `hasRole` |
| UsersController.GetMyProfile | backend/nest-app/src/users/users.controller.ts:35-51 | the get-or-created user plus the role from the token alone, in a success envelope with "Profile retrieved successfully"; the tables are those get-or-create leaves |
| UsersController.RoleIgnoresStoredState | backend/nest-app/src/users/users.controller.ts:36-43 | the role depends on the token's claims only: the same claims give the same role whatever the tables hold |
| Claims.ExtractUserInfo | backend/nest-app/src/keyclock/keyclock.service.ts:409-422 | null iff the payload is missing; sub, preferred_username, email and names carried over; roles default to none and resource access to empty |
| Claims.HasRole | backend/nest-app/src/keyclock/keyclock.service.ts:427-430 | true iff a payload is present and its realm roles contain the role |
| Claims.IsTokenExpired | backend/nest-app/src/keyclock/keyclock.service.ts:435-441 | expired when exp is missing or 0; otherwise expired iff the clock has reached the end of the expiry second |
| Claims.NotExpiredWithinExpirySecond | backend/nest-app/src/keyclock/keyclock.service.ts:439-440 | a token whose exp is the current second is not expired |
| Claims.ExpiryIsMonotone | backend/nest-app/src/keyclock/keyclock.service.ts:435-441 | an expired token stays expired as the clock advances |
| Claims.LoginScopeWords | backend/nest-app/src/keyclock/keyclock.service.ts:197-199 | the scope's words are openid, profile and email, plus offline_access iff "remember me" |
| Claims.GoogleRedirectShape | backend/nest-app/src/keyclock/keyclock.service.ts:391-400 | the URL is the realm's authorization endpoint, '?', and the five parameters joined by '&' |
| Claims.GoogleRedirectParams | backend/nest-app/src/keyclock/keyclock.service.ts:391-400 | read back by a URL parser, the query is client_id, redirect_uri = frontend URL + "/en/success", response_type = code, scope = openid and kc_idp_hint = google, in that order |
| Claims.CreatedUserId | backend/nest-app/src/keyclock/keyclock.service.ts:93-97 | the non-empty, '/'-free text after the last '/' of the Location header; none when the header is missing or that segment is empty |
| Notifications.DecodePairId | backend/nest-app/src/notifications/notifications.service.ts:53 | a decoded pair has a '_'-free project id and rebuilds the id |
| Notifications.PairIdRoundTrip | backend/nest-app/src/notifications/notifications.service.ts:53 | a project/freelancer id built with a '_'-free project id decodes back to the pair |
| Notifications.PairIdInjective | backend/nest-app/src/notifications/notifications.service.ts:76 | distinct (project, freelancer) pairs get distinct accepted and rejected ids |
| Notifications.NotifyApplicationReceived | backend/nest-app/src/notifications/notifications.service.ts:20-43 | one notification to the project owner, of type application_received, id "app_received_" + application id, its own title and the given timestamp, a message naming the applicant and the quoted project title, data exactly projectId, projectTitle, applicantName and applicationId |
| Notifications.NotifyApplicationAccepted | backend/nest-app/src/notifications/notifications.service.ts:46-67 | one notification to the freelancer, of type application_accepted, id "app_accepted_" + project + "_" + freelancer, its own title and the given timestamp, a message naming the quoted project title and the role title, data exactly projectId, projectTitle and roleTitle |
| Notifications.NotifyApplicationRejected | backend/nest-app/src/notifications/notifications.service.ts:70-89 | one notification to the freelancer, of type application_rejected, id "app_rejected_" + project + "_" + freelancer, its own title and the given timestamp, a message naming the quoted project title, data only projectId and projectTitle |
| Notifications.IdsDistinguishKinds | backend/nest-app/src/notifications/notifications.service.ts:28-76 | the three kinds of notification never share an id |
| NotificationsGateway.Lookup | backend/nest-app/src/notifications/notifications.gateway.ts:55 | a socket is found iff the user is registered, and it is that user's socket |
| NotificationsGateway.Put | backend/nest-app/src/notifications/notifications.gateway.ts:49 | the user maps to the new socket, every other user's lookup is unchanged, a known user keeps its place and a new one goes last |
| NotificationsGateway.PutKeepsKeysUnique | backend/nest-app/src/notifications/notifications.gateway.ts:26 | registering keeps one entry per user |
| NotificationsGateway.WithoutSocket | backend/nest-app/src/notifications/notifications.gateway.ts:35-40 | unchanged when no entry holds the socket; otherwise exactly one entry fewer |
| NotificationsGateway.DisconnectDropsOneUser | backend/nest-app/src/notifications/notifications.gateway.ts:35-40 | a disconnect drops the user that held the socket first and no one else, and keeps one entry per user |
| NotificationsGateway.DisconnectLeavesLaterRegistration | backend/nest-app/src/notifications/notifications.gateway.ts:36-38 | when one socket is registered under two users, the later registration survives the disconnect |
| NotificationsGateway.Delivery | backend/nest-app/src/notifications/notifications.gateway.ts:54-63 | one emit iff the user is registered, none otherwise |
| NotificationsGateway.DeliveriesAtMostOneEach | backend/nest-app/src/notifications/notifications.gateway.ts:66-70 | at most one emit per listed user |
| NotificationsGateway.DeliveriesInOrder | backend/nest-app/src/notifications/notifications.gateway.ts:66-70 | with every listed user registered, one emit per listed user, to that user's socket, in list order |
| NotificationsGateway.NotificationsGateway.HandleJoinNotifications | backend/nest-app/src/notifications/notifications.gateway.ts:44-51 | the registry becomes `Put` of the user and client, one acknowledgement is emitted to the client, one entry per user is kept |
| NotificationsGateway.NotificationsGateway.HandleDisconnect | backend/nest-app/src/notifications/notifications.gateway.ts:32-41 | the loop leaves the registry as `WithoutSocket` of the client and emits nothing |
| NotificationsGateway.NotificationsGateway.SendNotificationToUser | backend/nest-app/src/notifications/notifications.gateway.ts:54-63 | returns true iff the user is registered; the registry is unchanged and the emits are `Delivery`'s |
| NotificationsGateway.NotificationsGateway.SendNotificationToUsers | backend/nest-app/src/notifications/notifications.gateway.ts:66-70 | the registry is unchanged and the emits are `Deliveries`', one attempt per listed user in order |
| NotificationsService.NotificationsService.NotifyApplicationReceived | backend/nest-app/src/notifications/notifications.service.ts:20-43 | hands the built notification to the gateway for the owner only |
| NotificationsService.NotificationsService.NotifyApplicationAccepted | backend/nest-app/src/notifications/notifications.service.ts:46-67 | hands the built notification to the gateway for the freelancer only |
| NotificationsService.NotificationsService.NotifyApplicationRejected | backend/nest-app/src/notifications/notifications.service.ts:70-89 | hands the built notification to the gateway for the freelancer only |
| NotificationStore.IdsOf | frontend/my-app/src/contexts/NotificationContext.tsx:111-112 | an id is in the set iff some listed notification has it |
| NotificationStore.Decrement | frontend/my-app/src/contexts/NotificationContext.tsx:107 | one less, floored at zero |
| NotificationStore.NotificationStore.constructor | frontend/my-app/src/contexts/NotificationContext.tsx:36-40 | empty list, zero unread, empty read set, not connected |
| NotificationStore.NotificationStore.OnConnect | frontend/my-app/src/contexts/NotificationContext.tsx:53-59 | connected; nothing else changes |
| NotificationStore.NotificationStore.OnDisconnect | frontend/my-app/src/contexts/NotificationContext.tsx:61-64 | disconnected; nothing else changes |
| NotificationStore.NotificationStore.OnNotification | frontend/my-app/src/contexts/NotificationContext.tsx:71-90 | the notification goes first and the counter grows by one; the counter stays between 0 and the list length |
| NotificationStore.NotificationStore.MarkAsRead | frontend/my-app/src/contexts/NotificationContext.tsx:105-108 | the id joins the read set and the counter drops by one floored at zero, whether or not the id was read; the list is unchanged |
| NotificationStore.NotificationStore.MarkAllAsRead | frontend/my-app/src/contexts/NotificationContext.tsx:110-114 | the read set becomes exactly the listed ids and the counter 0; the list is unchanged |
| NotificationStore.NotificationStore.ClearNotifications | frontend/my-app/src/contexts/NotificationContext.tsx:116-120 | empty list, empty read set, counter 0 |
| Responses.Or | backend/nest-app/src/common/filters/global-exception.filter.ts:44 | `a || b`: `a` when truthy, else `b` |
| Responses.Get | backend/nest-app/src/common/filters/global-exception.filter.ts:43-47 | a property's value, or undefined when the property is missing |
| Responses.NewResponse | backend/nest-app/src/common/dto/base.response.ts:8-13 | success is true, data is carried, an undefined message becomes "Success", no path |
| Responses.SuccessResponse | backend/nest-app/src/common/dto/base.response.ts:15-17 | a success envelope carrying data and message unchanged, "Success" when the message is omitted |
| Responses.ErrorResponse | backend/nest-app/src/common/dto/base.response.ts:19-23 | success false, data null, the given message |
| Responses.ApiException.Response | backend/nest-app/src/common/exceptions/api.exception.ts:9 | the response body is exactly `{message}` |
| Responses.NewApiException | backend/nest-app/src/common/exceptions/api.exception.ts:4-10 | the message and error code stored as given; the status as given, 400 by default |
| Responses.Classify | backend/nest-app/src/common/filters/global-exception.filter.ts:22-56 | a non-error yields 500, "Internal server error" and null; an ApiException its status, message and `{errorCode}`; an HTTP exception with a string body that string and null; with an object body `res.message`, else its own message, else the default, and `res.data`, else `{errors}`, else null; a plain error 500 and its own message |
| Responses.Catch | backend/nest-app/src/common/filters/global-exception.filter.ts:64-69 | the HTTP status is the classified status; the body has success false, path the request URL, and the classified message and data |
| Responses.MessageIsNeverUndefined | backend/nest-app/src/common/filters/global-exception.filter.ts:23-56 | every branch yields a message, so the envelope's "Success" default never shows on an error |
| Responses.ApiBranchKeepsErrorCode | backend/nest-app/src/common/filters/global-exception.filter.ts:27-51 | taken by the generic HTTP branch, an ApiException would keep its status and message but lose its error code, so its own branch must come first |
| Responses.AsThrown | backend/nest-app/src/common/filters/global-exception.filter.ts:36-56 | a service error is an HTTP exception with its status, and a failed query or a TypeError is a plain error |
| Responses.ServiceErrorReply | backend/nest-app/src/common/filters/global-exception.filter.ts:36-69 | a refused service call reaches the client with its own status and message, null data and success false; a failed query or a TypeError as a 500 |

## Left out

- Identity-provider and HTTP I/O: token requests, account creation, role assignment and password flows are left out. Only the pure helpers are modelled, and `Claims.CreatedUserId` takes the Location header as a value.
- Clocks and uuids are parameters: `now`, `nowMs`, `timestamp` and `newId`. Creation timestamps and the envelope's timestamp are not modelled. `joinedAt` is an opaque integer that only orders team rows.
- Users.GetUserProfile: `averageRating` is the exact mean. The source rounds it to two decimals in floating point, which is not modelled.
- Skills.SearchSkills: case-insensitivity covers ASCII letters only. Non-ASCII case folding and LIKE wildcards inside the query (`%`, `_`) are not modelled.
- Skills.CreateSkill: the database's default collation is modelled as ASCII case folding, which is also how Skills.FindAllSkills orders names and how users' e-mails are compared. Accent folding, trailing-space padding and the order of names equal up to case are not modelled.
- Skills.SearchSkills: the query is written with `ILIKE`, which MySQL does not accept, so the search as written fails on that database. The model gives the case-insensitive substring search the query is evidently meant to run.
- The model's user row has `isActive`, `lastLoginAt` and received ratings, although `backend/nest-app/src/entities/user.entity.ts:13-48` declares none of them. The model follows the columns and relations that the users service writes and reads.
- Projects and teams take the caller as an already resolved user id. The get-or-create of the caller's shadow that those methods run first is modelled once, in `Users.GetOrCreateUser`.
- Teams.UpdateTeamMemberRole: the "User not found" check that follows get-or-create can never fail, so it is not modelled.
- Relations and `select` projections of the queries (owner, skills, applicant profiles) are not modelled. Listings return the stored rows, and only their membership, multiplicity and order are promised.
- Listings without an `order` clause promise membership only. Their order is the database's own.
- Users.AddSkillToUser: when the skill is unknown, the user-skill table is unchanged, but the users table may still have changed, because get-or-create runs first, as in the source.
- The project-skill table, the recommendation scorer and the rating rules are left out. Only the rating values are used, by the profile.
- `findUserByEmail`, `getUserSkills` and `getMySkills` are plain lookups outside this core, so they are not modelled.
- Concurrency is not modelled. The model is single-threaded, so check-then-act races and the missing transaction around accept-and-insert do not arise.
- DTO validation is not modelled. Star ratings are 1 to 5 only as a precondition of the rating-bound lemmas.
- Realtime transport is reduced to a list of emitted events. Socket connections, CORS, toasts and the browser Notification API are left out.
- Responses.AsThrown: the body `{statusCode, message, error}` of the framework's built-in HTTP exceptions is framework behaviour, not code of this repository. It is modelled as the framework documents it.
- Responses.Value: JSON numbers are integers; floating-point values are not modelled.
- Logging is left out.
