/** The project and application workflow of `ProjectsService`, as
    functions from the tables before a call to what the call returns and
    the tables after it. The caller is the id of the already resolved user. */
module Projects {

  import opened Seqs
  import opened Entities
  import opened Store

  datatype CreateProjectDto = CreateProjectDto(title: string, description: Option<string>)

  /** Every field is optional; only the supplied ones are written. */
  datatype UpdateProjectDto = UpdateProjectDto(
    title: Option<string>,
    description: Option<string>,
    status: Option<ProjectStatus>)

  datatype UpdateApplicationStatusDto = UpdateApplicationStatusDto(
    status: ApplicationStatus,
    roleTitle: Option<string>)

  const ProjectNotFound := NotFound("Project not found")
  const ApplicationNotFound := NotFound("Application not found")
  const NotYourProjectToUpdate := Forbidden("You can only update your own projects")
  const NotYourProjectToDelete := Forbidden("You can only delete your own projects")
  const NotYourApplicationsToView := Forbidden("You can only view applications for your own projects")
  const NotYourApplicationsToManage := Forbidden("You can only manage applications for your own projects")
  const OwnProject := BadRequest("You cannot apply to your own project")
  const NotAccepting := BadRequest("This project is not accepting applications")
  const AlreadyApplied := BadRequest("You have already applied to this project")
  const DefaultRoleTitle := "Team Member"

  /** The position of the project whose id is `id`. */
  function ProjectIndex(projects: seq<Project>, id: string): (r: Option<nat>)
    ensures r.Some? ==> r.value < |projects| && projects[r.value].id == id
    ensures r.None? <==> forall p :: p in projects ==> p.id != id
  {
    FindFirst(projects, (p: Project) => p.id == id)
  }

  /** `findProjectById`: the project, or NotFound. */
  function FindProjectById(t: Tables, id: string): (r: Result<Project>)
    ensures r.Ok? ==> r.value in t.projects && r.value.id == id
    ensures r.Err? <==> forall p :: p in t.projects ==> p.id != id
    ensures r.Err? ==> r.error == ProjectNotFound
  {
    match ProjectIndex(t.projects, id)
    case Some(i) => Ok(t.projects[i])
    case None => Err(ProjectNotFound)
  }

  /** The user already holds an application for the project. */
  predicate HasApplied(applications: seq<Application>, userId: string, projectId: string) {
    exists a :: a in applications && a.userId == userId && a.projectId == projectId
  }

  /** The user already holds a team row in the project. */
  predicate IsMember(team: seq<TeamMember>, projectId: string, userId: string) {
    exists m :: m in team && m.projectId == projectId && m.userId == userId
  }

  /** `createProject`: a new project owned by the caller; its status is the
      column default, open. */
  function CreateProject(t: Tables, dto: CreateProjectDto, callerId: string, newId: string): (s: Step<Project>)
    ensures s.result.Ok?
    ensures s.result.value.status == Open && s.result.value.ownerId == callerId
    ensures s.result.value.id == newId
    ensures s.result.value.title == dto.title && s.result.value.description == dto.description
    ensures s.after.projects == t.projects + [s.result.value]
    ensures s.after.(projects := t.projects) == t
  {
    var project := Project(newId, dto.title, dto.description, callerId, Open);
    Step(Ok(project), t.(projects := t.projects + [project]))
  }

  /** `findAllProjects`: the open projects. */
  function FindAllProjects(t: Tables): (r: seq<Project>)
    ensures forall p :: p in r <==> p in t.projects && p.status == Open
  {
    Filter(t.projects, (p: Project) => p.status == Open)
  }

  /** The project with the supplied fields of `dto` written over it. */
  function Patch(p: Project, dto: UpdateProjectDto): Project {
    p.(title := if dto.title.Some? then dto.title.value else p.title,
       description := if dto.description.Some? then dto.description else p.description,
       status := if dto.status.Some? then dto.status.value else p.status)
  }

  /** `updateProject`: NotFound, then Forbidden unless the caller owns the
      project; otherwise only the supplied fields change. */
  function UpdateProject(t: Tables, id: string, dto: UpdateProjectDto, callerId: string): (s: Step<Project>)
    ensures s.result.Err? ==> s.after == t
    ensures FindProjectById(t, id).Err? ==> s.result == Err(ProjectNotFound)
    ensures FindProjectById(t, id).Ok? && FindProjectById(t, id).value.ownerId != callerId ==>
              s.result == Err(NotYourProjectToUpdate)
    ensures s.result.Ok? <==> FindProjectById(t, id).Ok? && FindProjectById(t, id).value.ownerId == callerId
    ensures s.result.Ok? ==>
              var q := s.result.value;
              && q.id == id && q.ownerId == callerId
              && q.title == (if dto.title.Some? then dto.title.value else FindProjectById(t, id).value.title)
              && q.description == (if dto.description.Some? then dto.description else FindProjectById(t, id).value.description)
              && q.status == (if dto.status.Some? then dto.status.value else FindProjectById(t, id).value.status)
              && q in s.after.projects
              && |s.after.projects| == |t.projects|
              && (forall k :: 0 <= k < |t.projects| && t.projects[k].id != id ==> s.after.projects[k] == t.projects[k])
              && s.after.(projects := t.projects) == t
  {
    match ProjectIndex(t.projects, id)
    case None => Step(Err(ProjectNotFound), t)
    case Some(i) =>
      var project := t.projects[i];
      if project.ownerId != callerId then Step(Err(NotYourProjectToUpdate), t)
      else
        var updated := Patch(project, dto);
        assert t.projects[i := updated][i] == updated;
        Step(Ok(updated), t.(projects := t.projects[i := updated]))
  }

  /** `deleteProject`: NotFound, then Forbidden unless the caller owns the
      project; otherwise the project goes, and with it (ON DELETE CASCADE)
      its applications, team rows and ratings. */
  function DeleteProject(t: Tables, id: string, callerId: string): (s: Step<()>)
    ensures s.result.Err? ==> s.after == t
    ensures FindProjectById(t, id).Err? ==> s.result == Err(ProjectNotFound)
    ensures FindProjectById(t, id).Ok? && FindProjectById(t, id).value.ownerId != callerId ==>
              s.result == Err(NotYourProjectToDelete)
    ensures s.result.Ok? <==> FindProjectById(t, id).Ok? && FindProjectById(t, id).value.ownerId == callerId
    ensures s.result.Ok? ==>
              && (forall p :: p in s.after.projects <==> p in t.projects && p.id != id)
              && (forall a :: a in s.after.applications <==> a in t.applications && a.projectId != id)
              && (forall m :: m in s.after.team <==> m in t.team && m.projectId != id)
              && (forall r :: r in s.after.ratings <==> r in t.ratings && r.projectId != id)
              && s.after.users == t.users && s.after.skills == t.skills && s.after.userSkills == t.userSkills
  {
    match FindProjectById(t, id)
    case Err(e) => Step(Err(e), t)
    case Ok(project) =>
      if project.ownerId != callerId then Step(Err(NotYourProjectToDelete), t)
      else Step(Ok(()), WithoutProject(t, id))
  }

  /** The tables without project `id` and the rows that cascade from it. */
  function WithoutProject(t: Tables, id: string): Tables {
    t.(projects := Filter(t.projects, (p: Project) => p.id != id),
       applications := Filter(t.applications, (a: Application) => a.projectId != id),
       team := Filter(t.team, (m: TeamMember) => m.projectId != id),
       ratings := Filter(t.ratings, (r: Rating) => r.projectId != id))
  }

  /** `getMyProjects`: the projects the caller owns. */
  function GetMyProjects(t: Tables, callerId: string): (r: seq<Project>)
    ensures forall p :: p in r <==> p in t.projects && p.ownerId == callerId
  {
    Filter(t.projects, (p: Project) => p.ownerId == callerId)
  }

  /** `applyToProject`: NotFound, then the owner is refused whatever the
      status, then a project that is not open, then a second application;
      otherwise one pending application is added. */
  function ApplyToProject(t: Tables, projectId: string, callerId: string, newId: string): (s: Step<Application>)
    ensures s.result.Err? ==> s.after == t
    ensures FindProjectById(t, projectId).Err? ==> s.result == Err(ProjectNotFound)
    ensures FindProjectById(t, projectId).Ok? && FindProjectById(t, projectId).value.ownerId == callerId ==>
              s.result == Err(OwnProject)
    ensures FindProjectById(t, projectId).Ok? && FindProjectById(t, projectId).value.ownerId != callerId
              && FindProjectById(t, projectId).value.status != Open ==>
              s.result == Err(NotAccepting)
    ensures s.result == Err(AlreadyApplied) <==>
              && FindProjectById(t, projectId).Ok?
              && FindProjectById(t, projectId).value.ownerId != callerId
              && FindProjectById(t, projectId).value.status == Open
              && HasApplied(t.applications, callerId, projectId)
    ensures s.result.Ok? <==>
              && FindProjectById(t, projectId).Ok?
              && FindProjectById(t, projectId).value.ownerId != callerId
              && FindProjectById(t, projectId).value.status == Open
              && !HasApplied(t.applications, callerId, projectId)
    ensures s.result.Ok? ==>
              && s.result.value == Application(newId, callerId, projectId, Pending)
              && s.after.applications == t.applications + [s.result.value]
              && s.after.(applications := t.applications) == t
  {
    match FindProjectById(t, projectId)
    case Err(e) => Step(Err(e), t)
    case Ok(project) =>
      if project.ownerId == callerId then Step(Err(OwnProject), t)
      else if project.status != Open then Step(Err(NotAccepting), t)
      else if HasApplied(t.applications, callerId, projectId) then Step(Err(AlreadyApplied), t)
      else
        var application := Application(newId, callerId, projectId, Pending);
        Step(Ok(application), t.(applications := t.applications + [application]))
  }

  /** `getProjectApplications`: NotFound, then Forbidden unless the caller
      owns the project; otherwise every application to it. */
  function GetProjectApplications(t: Tables, projectId: string, callerId: string): (r: Result<seq<Application>>)
    ensures FindProjectById(t, projectId).Err? ==> r == Err(ProjectNotFound)
    ensures FindProjectById(t, projectId).Ok? && FindProjectById(t, projectId).value.ownerId != callerId ==>
              r == Err(NotYourApplicationsToView)
    ensures r.Ok? <==> FindProjectById(t, projectId).Ok? && FindProjectById(t, projectId).value.ownerId == callerId
    ensures r.Ok? ==> forall a :: a in r.value <==> a in t.applications && a.projectId == projectId
  {
    match FindProjectById(t, projectId)
    case Err(e) => Err(e)
    case Ok(project) =>
      if project.ownerId != callerId then Err(NotYourApplicationsToView)
      else Ok(Filter(t.applications, (a: Application) => a.projectId == projectId))
  }

  /** The accepted applicant's role title: a missing or empty title becomes
      "Team Member" (the `||` of the source treats "" as missing). */
  function RoleTitleOrDefault(roleTitle: Option<string>): (r: string)
    ensures r != ""
    ensures roleTitle.Some? && roleTitle.value != "" ==> r == roleTitle.value
    ensures roleTitle.None? || roleTitle.value == "" ==> r == DefaultRoleTitle
  {
    if roleTitle.Some? && roleTitle.value != "" then roleTitle.value else DefaultRoleTitle
  }

  /** The position of application `applicationId` among those of `projectId`. */
  function ApplicationIndex(applications: seq<Application>, applicationId: string, projectId: string): (r: Option<nat>)
    ensures r.Some? ==> r.value < |applications|
    ensures r.Some? ==> applications[r.value].id == applicationId && applications[r.value].projectId == projectId
    ensures r.None? <==> forall a :: a in applications ==> a.id != applicationId || a.projectId != projectId
  {
    FindFirst(applications, (a: Application) => a.id == applicationId && a.projectId == projectId)
  }

  /** The application `applicationId` exists and belongs to `projectId`. */
  predicate InProject(applications: seq<Application>, applicationId: string, projectId: string) {
    exists a :: a in applications && a.id == applicationId && a.projectId == projectId
  }

  /** `updateApplicationStatus`: NotFound for the project, then Forbidden
      for a caller who does not own it (before the application is looked
      up), then NotFound for an application outside the project. The new
      status is written whatever the old one; on acceptance a team row is
      added unless the applicant already has one. */
  function UpdateApplicationStatus(t: Tables, projectId: string, applicationId: string,
                                   dto: UpdateApplicationStatusDto, callerId: string,
                                   newTeamId: string, now: int): (s: Step<Application>)
    ensures s.result.Err? ==> s.after == t
    ensures FindProjectById(t, projectId).Err? ==> s.result == Err(ProjectNotFound)
    ensures FindProjectById(t, projectId).Ok? && FindProjectById(t, projectId).value.ownerId != callerId ==>
              s.result == Err(NotYourApplicationsToManage)
    ensures FindProjectById(t, projectId).Ok? && FindProjectById(t, projectId).value.ownerId == callerId
              && !InProject(t.applications, applicationId, projectId) ==>
              s.result == Err(ApplicationNotFound)
    ensures s.result.Ok? <==>
              && FindProjectById(t, projectId).Ok?
              && FindProjectById(t, projectId).value.ownerId == callerId
              && InProject(t.applications, applicationId, projectId)
    ensures s.result.Ok? ==>
              var a := s.result.value;
              && a.id == applicationId && a.projectId == projectId && a.status == dto.status
              && a in s.after.applications
              && |s.after.applications| == |t.applications|
              && (forall k :: 0 <= k < |t.applications| && t.applications[k].id != applicationId ==>
                    s.after.applications[k] == t.applications[k])
              && s.after.(applications := t.applications, team := t.team) == t
    ensures s.result.Ok? ==>
              && ApplicationIndex(t.applications, applicationId, projectId).Some?
              && var i := ApplicationIndex(t.applications, applicationId, projectId).value;
                 && s.result.value == t.applications[i].(status := dto.status)
                 && s.after.applications == t.applications[i := s.result.value]
    ensures dto.status != Accepted ==> s.after.team == t.team
    ensures s.result.Ok? && dto.status == Accepted ==>
              var userId := s.result.value.userId;
              && IsMember(s.after.team, projectId, userId)
              && (IsMember(t.team, projectId, userId) ==> s.after.team == t.team)
              && (!IsMember(t.team, projectId, userId) ==>
                    s.after.team == t.team + [TeamMember(newTeamId, projectId, userId, RoleTitleOrDefault(dto.roleTitle), now)])
  {
    match FindProjectById(t, projectId)
    case Err(e) => Step(Err(e), t)
    case Ok(project) =>
      if project.ownerId != callerId then Step(Err(NotYourApplicationsToManage), t)
      else match ApplicationIndex(t.applications, applicationId, projectId)
        case None => Step(Err(ApplicationNotFound), t)
        case Some(i) =>
          var updated := t.applications[i].(status := dto.status);
          var t1 := t.(applications := t.applications[i := updated]);
          assert t1.applications[i] == updated;
          if dto.status == Accepted && !IsMember(t.team, projectId, updated.userId) then
            var member := TeamMember(newTeamId, projectId, updated.userId, RoleTitleOrDefault(dto.roleTitle), now);
            Step(Ok(updated), t1.(team := t.team + [member]))
          else
            Step(Ok(updated), t1)
  }

  /** `getMyApplications`: the caller's applications. */
  function GetMyApplications(t: Tables, callerId: string): (r: seq<Application>)
    ensures forall a :: a in r <==> a in t.applications && a.userId == callerId
  {
    Filter(t.applications, (a: Application) => a.userId == callerId)
  }

  // ---------------------------------------------------------------------
  // Invariants kept by the operations that write.

  lemma CreateProjectConsistent(t: Tables, dto: CreateProjectDto, callerId: string, newId: string)
    requires Consistent(t)
    requires forall p :: p in t.projects ==> p.id != newId
    ensures Consistent(CreateProject(t, dto, callerId, newId).after)
  {
    var s := CreateProject(t, dto, callerId, newId);
    UniqueByAppend(t.projects, s.result.value, ProjectKey);
  }

  lemma UpdateProjectConsistent(t: Tables, id: string, dto: UpdateProjectDto, callerId: string)
    requires Consistent(t)
    ensures Consistent(UpdateProject(t, id, dto, callerId).after)
  {
    var i := ProjectIndex(t.projects, id);
    if i.Some? {
      UniqueByUpdate(t.projects, i.value, Patch(t.projects[i.value], dto), ProjectKey);
    }
  }

  lemma DeleteProjectConsistent(t: Tables, id: string, callerId: string)
    requires Consistent(t)
    ensures Consistent(DeleteProject(t, id, callerId).after)
  {
    UniqueByFilter(t.projects, (p: Project) => p.id != id, ProjectKey);
    UniqueByFilter(t.applications, (a: Application) => a.projectId != id, ApplicationKey);
    UniqueByFilter(t.applications, (a: Application) => a.projectId != id, ApplicantPair);
    UniqueByFilter(t.team, (m: TeamMember) => m.projectId != id, TeamKey);
    UniqueByFilter(t.team, (m: TeamMember) => m.projectId != id, MemberPair);
    UniqueByFilter(t.ratings, (r: Rating) => r.projectId != id, RatingKey);
  }

  /** The application table keeps one application per (user, project):
      the check made before the insert is what keeps it. */
  lemma ApplyToProjectConsistent(t: Tables, projectId: string, callerId: string, newId: string)
    requires Consistent(t)
    requires forall a :: a in t.applications ==> a.id != newId
    ensures Consistent(ApplyToProject(t, projectId, callerId, newId).after)
  {
    var s := ApplyToProject(t, projectId, callerId, newId);
    if s.result.Ok? {
      UniqueByAppend(t.applications, s.result.value, ApplicationKey);
      UniqueByAppend(t.applications, s.result.value, ApplicantPair);
    }
  }

  /** The team table keeps one row per (project, user), although the
      database does not enforce it: acceptance inserts only after finding
      no row for the pair. */
  lemma UpdateApplicationStatusConsistent(t: Tables, projectId: string, applicationId: string,
                                          dto: UpdateApplicationStatusDto, callerId: string,
                                          newTeamId: string, now: int)
    requires Consistent(t)
    requires forall m :: m in t.team ==> m.id != newTeamId
    ensures Consistent(UpdateApplicationStatus(t, projectId, applicationId, dto, callerId, newTeamId, now).after)
  {
    var s := UpdateApplicationStatus(t, projectId, applicationId, dto, callerId, newTeamId, now);
    var i := ApplicationIndex(t.applications, applicationId, projectId);
    if s.result.Ok? {
      var updated := t.applications[i.value].(status := dto.status);
      UniqueByUpdate(t.applications, i.value, updated, ApplicationKey);
      UniqueByUpdate(t.applications, i.value, updated, ApplicantPair);
      if dto.status == Accepted && !IsMember(t.team, projectId, updated.userId) {
        var member := TeamMember(newTeamId, projectId, updated.userId, RoleTitleOrDefault(dto.roleTitle), now);
        UniqueByAppend(t.team, member, TeamKey);
        UniqueByAppend(t.team, member, MemberPair);
      }
    }
  }

  // ---------------------------------------------------------------------
  // Properties of several calls.

  /** Applying twice to the same project: the second attempt is refused
      as a duplicate and adds nothing. */
  lemma ApplyTwiceRefused(t: Tables, projectId: string, callerId: string, id1: string, id2: string)
    requires ApplyToProject(t, projectId, callerId, id1).result.Ok?
    ensures var t1 := ApplyToProject(t, projectId, callerId, id1).after;
            ApplyToProject(t1, projectId, callerId, id2) == Step(Err(AlreadyApplied), t1)
  {
    var s := ApplyToProject(t, projectId, callerId, id1);
    assert s.result.value in s.after.applications;
    assert FindProjectById(s.after, projectId) == FindProjectById(t, projectId);
  }

  /** Accepting an application again, with any role title, adds no
      second team row. */
  lemma AcceptTwiceAddsNoSecondRow(t: Tables, projectId: string, applicationId: string, callerId: string,
                                   role1: Option<string>, role2: Option<string>,
                                   id1: string, id2: string, now1: int, now2: int)
    requires UpdateApplicationStatus(t, projectId, applicationId, UpdateApplicationStatusDto(Accepted, role1),
                                     callerId, id1, now1).result.Ok?
    ensures var t1 := UpdateApplicationStatus(t, projectId, applicationId, UpdateApplicationStatusDto(Accepted, role1),
                                              callerId, id1, now1).after;
            var s2 := UpdateApplicationStatus(t1, projectId, applicationId, UpdateApplicationStatusDto(Accepted, role2),
                                              callerId, id2, now2);
            s2.result.Ok? && s2.after.team == t1.team
  {
    var s1 := UpdateApplicationStatus(t, projectId, applicationId, UpdateApplicationStatusDto(Accepted, role1),
                                      callerId, id1, now1);
    var t1 := s1.after;
    assert FindProjectById(t1, projectId) == FindProjectById(t, projectId);
    assert s1.result.value in t1.applications;
    var i := ApplicationIndex(t1.applications, applicationId, projectId);
    assert i.Some?;
    var a := s1.result.value;
    assert IsMember(t1.team, projectId, a.userId);
    var j := ApplicationIndex(t.applications, applicationId, projectId).value;
    assert t1.applications[j] == a;
    assert i.value == j;
  }

  /** Rejecting an accepted application succeeds and leaves the team row
      the acceptance created. */
  lemma RejectAfterAcceptKeepsMember(t: Tables, projectId: string, applicationId: string, callerId: string,
                                     role: Option<string>, id1: string, id2: string, now1: int, now2: int)
    requires UpdateApplicationStatus(t, projectId, applicationId, UpdateApplicationStatusDto(Accepted, role),
                                     callerId, id1, now1).result.Ok?
    ensures var s1 := UpdateApplicationStatus(t, projectId, applicationId, UpdateApplicationStatusDto(Accepted, role),
                                              callerId, id1, now1);
            var s2 := UpdateApplicationStatus(s1.after, projectId, applicationId, UpdateApplicationStatusDto(Rejected, None),
                                              callerId, id2, now2);
            && s2.result.Ok? && s2.result.value.status == Rejected
            && IsMember(s2.after.team, projectId, s1.result.value.userId)
  {
    var s1 := UpdateApplicationStatus(t, projectId, applicationId, UpdateApplicationStatusDto(Accepted, role),
                                      callerId, id1, now1);
    assert FindProjectById(s1.after, projectId) == FindProjectById(t, projectId);
    assert s1.result.value in s1.after.applications;
  }
}
