/** The profile endpoint of the users controller: the stored user (created
    on first sight) plus a role read from the token's realm roles. */
module UsersController {

  import opened Seqs
  import opened Entities
  import opened Store
  import opened Claims
  import opened Responses
  import Users

  const Leader := "leader"
  const Freelancer := "freelancer"
  const ProfileRetrieved := "Profile retrieved successfully"

  /** The role shown with a profile: "leader" when the realm roles contain
      "leader", otherwise "freelancer". */
  function RoleOf(payload: TokenPayload): (role: string)
    ensures role == Leader <==> Leader in RealmRoles(payload)
    ensures role == Freelancer <==> Leader !in RealmRoles(payload)
    ensures role == Leader <==> HasRole(Some(payload), Leader)
  {
    var info := ExtractUserInfo(Some(payload));
    if info.Some? && Leader in info.value.roles then Leader else Freelancer
  }

  /** `{...user, role}` */
  datatype UserWithRole = UserWithRole(user: User, role: string)

  /** `getMyProfile`: get-or-create the caller, then answer with the user
      and the role in a success envelope. */
  function GetMyProfile(t: Tables, payload: TokenPayload, newId: string, now: int): (s: Step<BaseResponse<UserWithRole>>)
    ensures s.after == Users.GetOrCreateUser(t, payload, newId, now).after
    ensures s.result.Err? <==> Users.GetOrCreateUser(t, payload, newId, now).result.Err?
    ensures s.result.Ok? ==>
              var r := s.result.value;
              && r.success
              && r.message == Str(ProfileRetrieved)
              && r.data.user == Users.GetOrCreateUser(t, payload, newId, now).result.value
              && r.data.role == RoleOf(payload)
  {
    var created := Users.GetOrCreateUser(t, payload, newId, now);
    match created.result
    case Err(e) => Step(Err(e), created.after)
    case Ok(user) =>
      Step(Ok(SuccessResponse(UserWithRole(user, RoleOf(payload)), Some(ProfileRetrieved))), created.after)
  }

  /** The role comes from the token alone: two callers with the same claims
      see the same role whatever the stored tables hold. */
  lemma RoleIgnoresStoredState(t1: Tables, t2: Tables, payload: TokenPayload, id1: string, id2: string, now1: int, now2: int)
    requires GetMyProfile(t1, payload, id1, now1).result.Ok?
    requires GetMyProfile(t2, payload, id2, now2).result.Ok?
    ensures GetMyProfile(t1, payload, id1, now1).result.value.data.role
         == GetMyProfile(t2, payload, id2, now2).result.value.data.role
  {
  }
}
