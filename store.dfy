/** The persistence layer: one sequence of rows per TypeORM repository, in
    storage order. `Tables` is the value the operations are specified on;
    `Database` is the mutable store the service classes share, as the
    injected repositories share one database. */
module Store {

  import opened Seqs
  import opened Text
  import opened Entities

  datatype Tables = Tables(
    users: seq<User>,
    skills: seq<Skill>,
    userSkills: seq<UserSkill>,
    projects: seq<Project>,
    applications: seq<Application>,
    team: seq<TeamMember>,
    ratings: seq<Rating>)

  /** What an operation returns (or throws) and the tables afterwards. */
  datatype Step<T> = Step(result: Result<T>, after: Tables)

  // Keys of the primary keys and unique indexes. The database compares text
  // under a case-insensitive collation, so the unique text columns are keyed
  // by their lower-cased value.
  function UserKey(u: User): string { u.id }
  function UserSub(u: User): string { u.keycloakId }
  function UserEmail(u: User): string { Lower(u.email) }
  function SkillKey(s: Skill): string { s.id }
  function SkillName(s: Skill): string { Lower(s.name) }
  function UserSkillPair(us: UserSkill): (string, string) { (us.userId, us.skillId) }
  function ProjectKey(p: Project): string { p.id }
  function ApplicationKey(a: Application): string { a.id }
  function ApplicantPair(a: Application): (string, string) { (a.userId, a.projectId) }
  function TeamKey(m: TeamMember): string { m.id }
  function MemberPair(m: TeamMember): (string, string) { (m.projectId, m.userId) }
  function RatingKey(r: Rating): string { r.id }

  /** Users: primary key, unique email (a database index) and one shadow per
      external identity (kept by the get-or-create logic alone). */
  ghost predicate UsersConsistent(users: seq<User>) {
    UniqueBy(users, UserKey) && UniqueBy(users, UserEmail) && UniqueBy(users, UserSub)
  }

  /** Skills: primary key and unique name (a database index). */
  ghost predicate SkillsConsistent(skills: seq<Skill>) {
    UniqueBy(skills, SkillKey) && UniqueBy(skills, SkillName)
  }

  /** User skills: the (user, skill) pair is the primary key. */
  ghost predicate UserSkillsConsistent(userSkills: seq<UserSkill>) {
    UniqueBy(userSkills, UserSkillPair)
  }

  /** Applications: primary key and the unique (user, project) index. */
  ghost predicate ApplicationsConsistent(applications: seq<Application>) {
    UniqueBy(applications, ApplicationKey) && UniqueBy(applications, ApplicantPair)
  }

  /** Team rows: primary key, and at most one row per (project, user).
      The database has no index for the pair; only the check made before
      inserting a row keeps it. */
  ghost predicate TeamConsistent(team: seq<TeamMember>) {
    UniqueBy(team, TeamKey) && UniqueBy(team, MemberPair)
  }

  ghost predicate Consistent(t: Tables) {
    && UsersConsistent(t.users)
    && SkillsConsistent(t.skills)
    && UserSkillsConsistent(t.userSkills)
    && UniqueBy(t.projects, ProjectKey)
    && ApplicationsConsistent(t.applications)
    && TeamConsistent(t.team)
    && UniqueBy(t.ratings, RatingKey)
  }

  class Database {
    var users: seq<User>
    var skills: seq<Skill>
    var userSkills: seq<UserSkill>
    var projects: seq<Project>
    var applications: seq<Application>
    var team: seq<TeamMember>
    var ratings: seq<Rating>

    function Snapshot(): Tables
      reads this
    {
      Tables(users, skills, userSkills, projects, applications, team, ratings)
    }

    ghost predicate Valid()
      reads this
    {
      Consistent(Snapshot())
    }

    /** An empty database. */
    constructor ()
      ensures Valid()
      ensures Snapshot() == Tables([], [], [], [], [], [], [])
    {
      users, skills, userSkills := [], [], [];
      projects, applications, team, ratings := [], [], [], [];
    }
  }
}
