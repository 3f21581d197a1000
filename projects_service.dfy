/** The writing operations of `ProjectsService` as a class over the shared
    database: each method performs the repository calls of the source in
    order and is proved to return and leave behind exactly what the
    `Projects` function for it specifies. The read-only queries are the
    `Projects` functions themselves. */
module ProjectsService {

  import opened Seqs
  import opened Entities
  import opened Store
  import Projects

  class ProjectsService {
    const db: Database

    constructor (db: Database)
      ensures this.db == db
    {
      this.db := db;
    }

    method CreateProject(dto: Projects.CreateProjectDto, callerId: string, newId: string) returns (r: Result<Project>)
      requires db.Valid()
      requires forall p :: p in db.projects ==> p.id != newId
      modifies db
      ensures db.Valid()
      ensures Step(r, db.Snapshot()) == Projects.CreateProject(old(db.Snapshot()), dto, callerId, newId)
    {
      Projects.CreateProjectConsistent(db.Snapshot(), dto, callerId, newId);
      var project := Project(newId, dto.title, dto.description, callerId, Open);
      db.projects := db.projects + [project];
      r := Ok(project);
    }

    method UpdateProject(id: string, dto: Projects.UpdateProjectDto, callerId: string) returns (r: Result<Project>)
      requires db.Valid()
      modifies db
      ensures db.Valid()
      ensures Step(r, db.Snapshot()) == Projects.UpdateProject(old(db.Snapshot()), id, dto, callerId)
    {
      Projects.UpdateProjectConsistent(db.Snapshot(), id, dto, callerId);
      var i := Projects.ProjectIndex(db.projects, id);
      if i.None? {
        return Err(Projects.ProjectNotFound);
      }
      var project := db.projects[i.value];
      if project.ownerId != callerId {
        return Err(Projects.NotYourProjectToUpdate);
      }
      project := Projects.Patch(project, dto);
      db.projects := db.projects[i.value := project];
      r := Ok(project);
    }

    method DeleteProject(id: string, callerId: string) returns (r: Result<()>)
      requires db.Valid()
      modifies db
      ensures db.Valid()
      ensures Step(r, db.Snapshot()) == Projects.DeleteProject(old(db.Snapshot()), id, callerId)
    {
      Projects.DeleteProjectConsistent(db.Snapshot(), id, callerId);
      var i := Projects.ProjectIndex(db.projects, id);
      if i.None? {
        return Err(Projects.ProjectNotFound);
      }
      if db.projects[i.value].ownerId != callerId {
        return Err(Projects.NotYourProjectToDelete);
      }
      var after := Projects.WithoutProject(db.Snapshot(), id);
      db.projects, db.applications, db.team, db.ratings := after.projects, after.applications, after.team, after.ratings;
      assert db.Snapshot() == after;
      r := Ok(());
    }

    method ApplyToProject(projectId: string, callerId: string, newId: string) returns (r: Result<Application>)
      requires db.Valid()
      requires forall a :: a in db.applications ==> a.id != newId
      modifies db
      ensures db.Valid()
      ensures Step(r, db.Snapshot()) == Projects.ApplyToProject(old(db.Snapshot()), projectId, callerId, newId)
    {
      Projects.ApplyToProjectConsistent(db.Snapshot(), projectId, callerId, newId);
      var project :- Projects.FindProjectById(db.Snapshot(), projectId);
      if project.ownerId == callerId {
        return Err(Projects.OwnProject);
      }
      if project.status != Open {
        return Err(Projects.NotAccepting);
      }
      var existing := FindFirst(db.applications, (a: Application) => a.userId == callerId && a.projectId == projectId);
      if existing.Some? {
        return Err(Projects.AlreadyApplied);
      }
      var application := Application(newId, callerId, projectId, Pending);
      db.applications := db.applications + [application];
      r := Ok(application);
    }

    method UpdateApplicationStatus(projectId: string, applicationId: string,
                                   dto: Projects.UpdateApplicationStatusDto, callerId: string,
                                   newTeamId: string, now: int) returns (r: Result<Application>)
      requires db.Valid()
      requires forall m :: m in db.team ==> m.id != newTeamId
      modifies db
      ensures db.Valid()
      ensures Step(r, db.Snapshot()) ==
              Projects.UpdateApplicationStatus(old(db.Snapshot()), projectId, applicationId, dto, callerId, newTeamId, now)
    {
      Projects.UpdateApplicationStatusConsistent(db.Snapshot(), projectId, applicationId, dto, callerId, newTeamId, now);
      var project :- Projects.FindProjectById(db.Snapshot(), projectId);
      if project.ownerId != callerId {
        return Err(Projects.NotYourApplicationsToManage);
      }
      var i := Projects.ApplicationIndex(db.applications, applicationId, projectId);
      if i.None? {
        return Err(Projects.ApplicationNotFound);
      }
      var application := db.applications[i.value].(status := dto.status);
      db.applications := db.applications[i.value := application];
      if dto.status == Accepted {
        var existing := FindFirst(db.team, (m: TeamMember) => m.projectId == projectId && m.userId == application.userId);
        if existing.None? {
          var member := TeamMember(newTeamId, projectId, application.userId, Projects.RoleTitleOrDefault(dto.roleTitle), now);
          db.team := db.team + [member];
        }
      }
      r := Ok(application);
    }
  }
}
