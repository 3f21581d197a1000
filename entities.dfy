/** The rows of the TeamLink tables (one datatype per entity) and the
    errors the services raise. Identifiers are the uuid strings the
    database generates; timestamps are opaque integers. */
module Entities {

  import opened Seqs

  datatype ProjectStatus = Open | InProgress | Closed | Completed

  datatype ApplicationStatus = Pending | Accepted | Rejected

  datatype SkillLevel = Beginner | Intermediate | Expert

  /** The local shadow of an identity-provider account. */
  datatype User = User(
    id: string,
    keycloakId: string,
    username: string,
    email: string,
    bio: Option<string>,
    avatarUrl: Option<string>,
    isActive: bool,
    lastLoginAt: int)

  datatype Skill = Skill(id: string, name: string)

  /** The proficiency a user claims in a skill; the pair is the key. */
  datatype UserSkill = UserSkill(userId: string, skillId: string, level: SkillLevel)

  datatype Project = Project(
    id: string,
    title: string,
    description: Option<string>,
    ownerId: string,
    status: ProjectStatus)

  /** One freelancer's request to join one project. */
  datatype Application = Application(
    id: string,
    userId: string,
    projectId: string,
    status: ApplicationStatus)

  /** A confirmed membership of a user in a project's team. */
  datatype TeamMember = TeamMember(
    id: string,
    projectId: string,
    userId: string,
    roleTitle: string,
    joinedAt: int)

  datatype Rating = Rating(
    id: string,
    raterId: string,
    ratedUserId: string,
    projectId: string,
    rating: int,
    comment: Option<string>)

  /** The exceptions the services throw: NestJS's NotFoundException,
      ForbiddenException, BadRequestException and ConflictException, a
      database error raised when an insert breaks a column constraint, and
      a JavaScript error the code raises itself (a TypeError). */
  datatype Error =
    | NotFound(message: string)
    | Forbidden(message: string)
    | BadRequest(message: string)
    | Conflict(message: string)
    | QueryFailed(message: string)
    | Crashed(message: string)

  datatype Result<T> = Ok(value: T) | Err(error: Error) {
    predicate IsFailure() { Err? }

    function PropagateFailure<U>(): Result<U>
      requires Err?
    {
      Err(error)
    }

    function Extract(): T
      requires Ok?
    {
      value
    }
  }
}
