/** The team-management part of `TeamsService`: two ordered listings and
    the owner-guarded role edit and removal of team rows. */
module Teams {

  import opened Seqs
  import opened Entities
  import opened Store
  import Projects

  const NotYourTeamToManage := Forbidden("You can only manage team members for your own projects")
  const TeamMemberNotFound := NotFound("Team member not found")

  function JoinedAt(m: TeamMember): int { m.joinedAt }
  function JoinedAtDescending(m: TeamMember): int { -m.joinedAt }

  /** `getProjectTeam`: the project's team rows, earliest joiner first. */
  function GetProjectTeam(t: Tables, projectId: string): (r: seq<TeamMember>)
    ensures forall m :: multiset(r)[m] == if m.projectId == projectId then multiset(t.team)[m] else 0
    ensures forall i, j :: 0 <= i < j < |r| ==> r[i].joinedAt <= r[j].joinedAt
  {
    var rows := SortByKey(Filter(t.team, (m: TeamMember) => m.projectId == projectId), JoinedAt);
    assert SortedByKey(rows, JoinedAt);
    rows
  }

  /** `getMyTeamMemberships`: the caller's team rows, latest joiner first. */
  function GetMyTeamMemberships(t: Tables, callerId: string): (r: seq<TeamMember>)
    ensures forall m :: multiset(r)[m] == if m.userId == callerId then multiset(t.team)[m] else 0
    ensures forall i, j :: 0 <= i < j < |r| ==> r[i].joinedAt >= r[j].joinedAt
  {
    var rows := SortByKey(Filter(t.team, (m: TeamMember) => m.userId == callerId), JoinedAtDescending);
    assert SortedByKey(rows, JoinedAtDescending);
    rows
  }

  /** The position of team row `teamId` among those of `projectId`. */
  function TeamIndex(team: seq<TeamMember>, teamId: string, projectId: string): (r: Option<nat>)
    ensures r.Some? ==> r.value < |team| && team[r.value].id == teamId && team[r.value].projectId == projectId
    ensures r.None? <==> forall m :: m in team ==> m.id != teamId || m.projectId != projectId
  {
    FindFirst(team, (m: TeamMember) => m.id == teamId && m.projectId == projectId)
  }

  /** The three guards shared by the role edit and the removal, in the
      source's order: the project exists, the caller owns it, the team row
      belongs to it. The result is the row's position. */
  function Guard(t: Tables, projectId: string, teamId: string, callerId: string): (r: Result<nat>)
    ensures Projects.FindProjectById(t, projectId).Err? ==> r == Err(Projects.ProjectNotFound)
    ensures Projects.FindProjectById(t, projectId).Ok? && Projects.FindProjectById(t, projectId).value.ownerId != callerId ==>
              r == Err(NotYourTeamToManage)
    ensures Projects.FindProjectById(t, projectId).Ok? && Projects.FindProjectById(t, projectId).value.ownerId == callerId
              && (forall m :: m in t.team ==> m.id != teamId || m.projectId != projectId) ==>
              r == Err(TeamMemberNotFound)
    ensures r.Ok? ==> && Projects.FindProjectById(t, projectId).Ok?
                      && Projects.FindProjectById(t, projectId).value.ownerId == callerId
                      && r.value < |t.team|
                      && t.team[r.value].id == teamId && t.team[r.value].projectId == projectId
  {
    var project :- Projects.FindProjectById(t, projectId);
    if project.ownerId != callerId then Err(NotYourTeamToManage)
    else match TeamIndex(t.team, teamId, projectId)
      case None => Err(TeamMemberNotFound)
      case Some(i) => Ok(i)
  }

  /** `updateTeamMemberRole`: after the guards, only the row's role title
      changes. */
  function UpdateTeamMemberRole(t: Tables, projectId: string, teamId: string, roleTitle: string,
                                callerId: string): (s: Step<TeamMember>)
    ensures Guard(t, projectId, teamId, callerId).Err? ==>
              s == Step(Err(Guard(t, projectId, teamId, callerId).error), t)
    ensures Guard(t, projectId, teamId, callerId).Ok? ==>
              var i := Guard(t, projectId, teamId, callerId).value;
              && s.result == Ok(t.team[i].(roleTitle := roleTitle))
              && |s.after.team| == |t.team|
              && s.after.team[i] == s.result.value
              && (forall k :: 0 <= k < |t.team| && k != i ==> s.after.team[k] == t.team[k])
              && s.after.(team := t.team) == t
  {
    match Guard(t, projectId, teamId, callerId)
    case Err(e) => Step(Err(e), t)
    case Ok(i) =>
      var updated := t.team[i].(roleTitle := roleTitle);
      Step(Ok(updated), t.(team := t.team[i := updated]))
  }

  /** `removeTeamMember`: after the guards, exactly the identified row goes. */
  function RemoveTeamMember(t: Tables, projectId: string, teamId: string, callerId: string): (s: Step<()>)
    ensures Guard(t, projectId, teamId, callerId).Err? ==>
              s == Step(Err(Guard(t, projectId, teamId, callerId).error), t)
    ensures Guard(t, projectId, teamId, callerId).Ok? ==>
              var i := Guard(t, projectId, teamId, callerId).value;
              && s.result.Ok?
              && multiset(s.after.team) == multiset(t.team) - multiset{t.team[i]}
              && s.after.(team := t.team) == t
  {
    match Guard(t, projectId, teamId, callerId)
    case Err(e) => Step(Err(e), t)
    case Ok(i) => Step(Ok(()), t.(team := RemoveAt(t.team, i)))
  }

  lemma UpdateTeamMemberRoleConsistent(t: Tables, projectId: string, teamId: string, roleTitle: string, callerId: string)
    requires Consistent(t)
    ensures Consistent(UpdateTeamMemberRole(t, projectId, teamId, roleTitle, callerId).after)
  {
    var g := Guard(t, projectId, teamId, callerId);
    if g.Ok? {
      var updated := t.team[g.value].(roleTitle := roleTitle);
      UniqueByUpdate(t.team, g.value, updated, TeamKey);
      UniqueByUpdate(t.team, g.value, updated, MemberPair);
    }
  }

  /** On consistent tables a removal keeps exactly the rows with another id. */
  lemma RemoveTeamMemberExact(t: Tables, projectId: string, teamId: string, callerId: string)
    requires Consistent(t)
    requires Guard(t, projectId, teamId, callerId).Ok?
    ensures var after := RemoveTeamMember(t, projectId, teamId, callerId).after;
            && Consistent(after)
            && forall m :: m in after.team <==> m in t.team && m.id != teamId
  {
    var i := Guard(t, projectId, teamId, callerId).value;
    UniqueByRemove(t.team, i, TeamKey);
    UniqueByRemove(t.team, i, MemberPair);
  }

  lemma RemoveTeamMemberConsistent(t: Tables, projectId: string, teamId: string, callerId: string)
    requires Consistent(t)
    ensures Consistent(RemoveTeamMember(t, projectId, teamId, callerId).after)
  {
    if Guard(t, projectId, teamId, callerId).Ok? {
      RemoveTeamMemberExact(t, projectId, teamId, callerId);
    }
  }
}

/** The writing operations of `TeamsService` as a class over the shared
    database; the listings are the `Teams` functions. */
module TeamsService {

  import opened Seqs
  import opened Entities
  import opened Store
  import Projects
  import Teams

  class TeamsService {
    const db: Database

    constructor (db: Database)
      ensures this.db == db
    {
      this.db := db;
    }

    method UpdateTeamMemberRole(projectId: string, teamId: string, roleTitle: string, callerId: string)
      returns (r: Result<TeamMember>)
      requires db.Valid()
      modifies db
      ensures db.Valid()
      ensures Step(r, db.Snapshot()) == Teams.UpdateTeamMemberRole(old(db.Snapshot()), projectId, teamId, roleTitle, callerId)
    {
      Teams.UpdateTeamMemberRoleConsistent(db.Snapshot(), projectId, teamId, roleTitle, callerId);
      var i :- Teams.Guard(db.Snapshot(), projectId, teamId, callerId);
      var member := db.team[i].(roleTitle := roleTitle);
      db.team := db.team[i := member];
      r := Ok(member);
    }

    method RemoveTeamMember(projectId: string, teamId: string, callerId: string) returns (r: Result<()>)
      requires db.Valid()
      modifies db
      ensures db.Valid()
      ensures Step(r, db.Snapshot()) == Teams.RemoveTeamMember(old(db.Snapshot()), projectId, teamId, callerId)
    {
      Teams.RemoveTeamMemberConsistent(db.Snapshot(), projectId, teamId, callerId);
      var i :- Teams.Guard(db.Snapshot(), projectId, teamId, callerId);
      db.team := RemoveAt(db.team, i);
      r := Ok(());
    }
  }
}
