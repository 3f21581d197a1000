/** The user part of `UsersService`: the local shadow of an identity-provider
    account, profile edits, a user's skills and the public profile with
    its rating aggregate. Operations that act for the caller first run
    get-or-create on the caller's token, as the source does. */
module Users {

  import opened Seqs
  import opened Text
  import opened Entities
  import opened Store
  import opened Claims

  const UserNotFound := NotFound("User not found")
  const SkillNotFound := NotFound("Skill not found")
  const UserSkillNotFound := NotFound("User skill not found")
  /** The database error raised when a new user's e-mail is already stored
      (`users.email` is a unique column). */
  const DuplicateEmail := QueryFailed("Duplicate entry for users.email")
  /** The database error raised when a new user has no e-mail (`users.email`
      is NOT NULL without a default). */
  const MissingEmail := QueryFailed("Field 'email' doesn't have a default value")
  /** The TypeError of `email.split` on a token without an e-mail. */
  const NoEmailToSplit := Crashed("Cannot read properties of undefined (reading 'split')")

  /** Every field is optional; only the supplied ones are written. */
  datatype UpdateProfileDto = UpdateProfileDto(bio: Option<string>, avatarUrl: Option<string>)

  datatype AddSkillDto = AddSkillDto(skillId: string, level: SkillLevel)

  /** The position of the user shadowing identity `sub`. */
  function UserIndexBySub(users: seq<User>, sub: string): (r: Option<nat>)
    ensures r.Some? ==> r.value < |users| && users[r.value].keycloakId == sub
    ensures r.Some? ==> forall k :: 0 <= k < r.value ==> users[k].keycloakId != sub
    ensures r.None? <==> forall u :: u in users ==> u.keycloakId != sub
  {
    FindFirst(users, (u: User) => u.keycloakId == sub)
  }

  /** The position of the user with primary key `id`. */
  function UserIndex(users: seq<User>, id: string): (r: Option<nat>)
    ensures r.Some? ==> r.value < |users| && users[r.value].id == id
    ensures r.None? <==> forall u :: u in users ==> u.id != id
  {
    FindFirst(users, (u: User) => u.id == id)
  }

  /** `email.split('@')[0]`: the address up to its first '@'. */
  function LocalPart(email: string): (r: string)
    ensures '@' !in r
    ensures IsPrefix(r, email)
    ensures |r| == |email| || email[|r|] == '@'
  {
    FirstPieceIsBeforeFirst(email, '@');
    SplitOn(email, '@')[0]
  }

  /** A new user's username: the preferred username unless it is absent or
      empty (the source's `||`), else the local part of the e-mail; with
      neither, `email.split` throws a TypeError. */
  function DefaultUsername(payload: TokenPayload): (r: Result<string>)
    ensures payload.preferredUsername.Some? && payload.preferredUsername.value != "" ==>
              r == Ok(payload.preferredUsername.value)
    ensures (payload.preferredUsername.None? || payload.preferredUsername.value == "") && payload.email.Some? ==>
              r == Ok(LocalPart(payload.email.value))
    ensures r.Err? <==> (payload.preferredUsername.None? || payload.preferredUsername.value == "") && payload.email.None?
    ensures r.Err? ==> r.error == NoEmailToSplit
  {
    if payload.preferredUsername.Some? && payload.preferredUsername.value != "" then Ok(payload.preferredUsername.value)
    else if payload.email.Some? then Ok(LocalPart(payload.email.value))
    else Err(NoEmailToSplit)
  }

  /** Some stored user already has this e-mail, up to case (the collation
      of the unique index). */
  predicate EmailTaken(users: seq<User>, email: string) {
    exists u :: u in users && Lower(u.email) == Lower(email)
  }

  /** `getOrCreateUser`: the user shadowing the token's `sub`, with its last
      login set to `now`; otherwise a new active user for it. */
  function GetOrCreateUser(t: Tables, payload: TokenPayload, newId: string, now: int): (s: Step<User>)
    ensures s.after.(users := t.users) == t
    ensures s.result.Ok? ==>
              && s.result.value.keycloakId == payload.sub
              && s.result.value.lastLoginAt == now
              && s.result.value in s.after.users
    ensures (exists u :: u in t.users && u.keycloakId == payload.sub) ==>
              && s.result.Ok?
              && exists k :: && 0 <= k < |t.users| && t.users[k].keycloakId == payload.sub
                             && s.result.value == t.users[k].(lastLoginAt := now)
                             && s.after.users == t.users[k := s.result.value]
    ensures (forall u :: u in t.users ==> u.keycloakId != payload.sub) && DefaultUsername(payload).Err? ==>
              s == Step(Err(NoEmailToSplit), t)
    ensures (forall u :: u in t.users ==> u.keycloakId != payload.sub) && DefaultUsername(payload).Ok?
            && payload.email.None? ==>
              s == Step(Err(MissingEmail), t)
    ensures (forall u :: u in t.users ==> u.keycloakId != payload.sub) && DefaultUsername(payload).Ok?
            && payload.email.Some? && !EmailTaken(t.users, payload.email.value) ==>
              && s.result.Ok?
              && s.result.value == User(newId, payload.sub, DefaultUsername(payload).value, payload.email.value,
                                        None, None, true, now)
              && s.after.users == t.users + [s.result.value]
    ensures (forall u :: u in t.users ==> u.keycloakId != payload.sub) && DefaultUsername(payload).Ok?
            && payload.email.Some? && EmailTaken(t.users, payload.email.value) ==>
              s == Step(Err(DuplicateEmail), t)
  {
    match UserIndexBySub(t.users, payload.sub)
    case Some(i) =>
      var user := t.users[i].(lastLoginAt := now);
      assert t.users[i := user][i] == user;
      Step(Ok(user), t.(users := t.users[i := user]))
    case None =>
      match DefaultUsername(payload)
      case Err(e) => Step(Err(e), t)
      case Ok(username) =>
        if payload.email.None? then Step(Err(MissingEmail), t)
        else if EmailTaken(t.users, payload.email.value) then Step(Err(DuplicateEmail), t)
        else
          var user := User(newId, payload.sub, username, payload.email.value, None, None, true, now);
          Step(Ok(user), t.(users := t.users + [user]))
  }

  /** `findUserById`: the user, or NotFound. */
  function FindUserById(t: Tables, id: string): (r: Result<User>)
    ensures r.Ok? ==> r.value in t.users && r.value.id == id
    ensures r.Err? <==> forall u :: u in t.users ==> u.id != id
    ensures r.Err? ==> r.error == UserNotFound
  {
    match UserIndex(t.users, id)
    case Some(i) => Ok(t.users[i])
    case None => Err(UserNotFound)
  }

  /** `updateProfile`: the caller's shadow with the supplied fields written
      over it and the last login set to `now`. */
  function UpdateProfile(t: Tables, payload: TokenPayload, dto: UpdateProfileDto, newId: string, now: int): (s: Step<User>)
    ensures var g := GetOrCreateUser(t, payload, newId, now);
            && (g.result.Err? ==> s == Step(Err(g.result.error), t))
            && (g.result.Ok? ==>
                  && s.result.Ok?
                  && s.result.value.bio == (if dto.bio.Some? then dto.bio else g.result.value.bio)
                  && s.result.value.avatarUrl == (if dto.avatarUrl.Some? then dto.avatarUrl else g.result.value.avatarUrl)
                  && s.result.value.lastLoginAt == now
                  && s.result.value.(bio := g.result.value.bio, avatarUrl := g.result.value.avatarUrl) == g.result.value
                  && s.result.value in s.after.users
                  && |s.after.users| == |g.after.users|
                  && (forall k :: 0 <= k < |g.after.users| && g.after.users[k].id != g.result.value.id ==>
                        s.after.users[k] == g.after.users[k])
                  && s.after.(users := t.users) == t)
  {
    var g := GetOrCreateUser(t, payload, newId, now);
    match g.result
    case Err(e) => Step(Err(e), g.after)
    case Ok(user) =>
      var updated := user.(bio := if dto.bio.Some? then dto.bio else user.bio,
                           avatarUrl := if dto.avatarUrl.Some? then dto.avatarUrl else user.avatarUrl,
                           lastLoginAt := now);
      match UserIndex(g.after.users, user.id)
      case None => Step(Ok(updated), g.after)
      case Some(i) =>
        assert g.after.users[i := updated][i] == updated;
        Step(Ok(updated), g.after.(users := g.after.users[i := updated]))
  }

  /** The position of the (user, skill) row. */
  function UserSkillIndex(userSkills: seq<UserSkill>, userId: string, skillId: string): (r: Option<nat>)
    ensures r.Some? ==> r.value < |userSkills| && UserSkillPair(userSkills[r.value]) == (userId, skillId)
    ensures r.None? <==> forall x :: x in userSkills ==> UserSkillPair(x) != (userId, skillId)
  {
    FindFirst(userSkills, (x: UserSkill) => x.userId == userId && x.skillId == skillId)
  }

  /** The rows with `row` written over the row of its pair, or appended
      when there is none (a TypeORM `save` of a found or a new entity). */
  function Upsert(rows: seq<UserSkill>, row: UserSkill): (r: seq<UserSkill>)
    ensures row in r
    ensures forall x :: UserSkillPair(x) != UserSkillPair(row) ==> multiset(r)[x] == multiset(rows)[x]
  {
    match UserSkillIndex(rows, row.userId, row.skillId)
    case Some(i) =>
      assert rows == rows[..i] + [rows[i]] + rows[i + 1..];
      assert rows[i := row] == rows[..i] + [row] + rows[i + 1..];
      rows[i := row]
    case None => rows + [row]
  }

  predicate SkillExists(skills: seq<Skill>, id: string) {
    exists k :: k in skills && k.id == id
  }

  /** `addSkillToUser`: NotFound for an unknown skill (the caller's shadow
      is still created or touched); otherwise the (caller, skill) row gets
      the requested level, updated in place if present, added if not. */
  function AddSkillToUser(t: Tables, payload: TokenPayload, dto: AddSkillDto, newId: string, now: int): (s: Step<UserSkill>)
    ensures s.after.userSkills == t.userSkills || s.result.Ok?
    ensures s.after.(users := t.users, userSkills := t.userSkills) == t
    ensures var g := GetOrCreateUser(t, payload, newId, now);
            && (g.result.Err? ==> s == Step(Err(g.result.error), t))
            && (g.result.Ok? && !SkillExists(t.skills, dto.skillId) ==> s == Step(Err(SkillNotFound), g.after))
            && (g.result.Ok? && SkillExists(t.skills, dto.skillId) ==>
                  && s.result == Ok(UserSkill(g.result.value.id, dto.skillId, dto.level))
                  && s.after.users == g.after.users
                  && s.result.value in s.after.userSkills
                  && forall x :: UserSkillPair(x) != (g.result.value.id, dto.skillId) ==>
                       multiset(s.after.userSkills)[x] == multiset(t.userSkills)[x])
  {
    var g := GetOrCreateUser(t, payload, newId, now);
    match g.result
    case Err(e) => Step(Err(e), g.after)
    case Ok(user) =>
      if !SkillExists(g.after.skills, dto.skillId) then Step(Err(SkillNotFound), g.after)
      else
        var row := UserSkill(user.id, dto.skillId, dto.level);
        Step(Ok(row), g.after.(userSkills := Upsert(g.after.userSkills, row)))
  }

  /** `removeSkillFromUser`: NotFound when the caller has no row for the
      skill; otherwise exactly that row goes. */
  function RemoveSkillFromUser(t: Tables, payload: TokenPayload, skillId: string, newId: string, now: int): (s: Step<()>)
    ensures s.after.(users := t.users, userSkills := t.userSkills) == t
    ensures var g := GetOrCreateUser(t, payload, newId, now);
            && (g.result.Err? ==> s == Step(Err(g.result.error), t))
            && (g.result.Ok? && (forall x :: x in t.userSkills ==> UserSkillPair(x) != (g.result.value.id, skillId)) ==>
                  s == Step(Err(UserSkillNotFound), g.after))
            && (g.result.Ok? && (exists x :: x in t.userSkills && UserSkillPair(x) == (g.result.value.id, skillId)) ==>
                  && s.result.Ok?
                  && s.after.users == g.after.users
                  && exists x :: && x in t.userSkills && UserSkillPair(x) == (g.result.value.id, skillId)
                                 && multiset(s.after.userSkills) == multiset(t.userSkills) - multiset{x})
  {
    var g := GetOrCreateUser(t, payload, newId, now);
    match g.result
    case Err(e) => Step(Err(e), g.after)
    case Ok(user) =>
      match UserSkillIndex(g.after.userSkills, user.id, skillId)
      case None => Step(Err(UserSkillNotFound), g.after)
      case Some(i) => Step(Ok(()), g.after.(userSkills := RemoveAt(g.after.userSkills, i)))
  }

  /** `getAllUsers`: the active users. */
  function GetAllUsers(t: Tables): (r: seq<User>)
    ensures forall u :: u in r <==> u in t.users && u.isActive
  {
    Filter(t.users, (u: User) => u.isActive)
  }

  // ---------------------------------------------------------------------
  // Public profile

  datatype SkillEntry = SkillEntry(id: string, name: string, level: SkillLevel)

  datatype RatingEntry = RatingEntry(
    rating: int,
    comment: Option<string>,
    raterUsername: Option<string>,
    projectTitle: Option<string>)

  /** `getUserProfile`'s result; `averageRating` is the exact mean. */
  datatype UserProfile = UserProfile(
    id: string,
    username: string,
    email: string,
    bio: Option<string>,
    avatarUrl: Option<string>,
    skills: seq<SkillEntry>,
    ratings: seq<RatingEntry>,
    averageRating: real,
    totalRatings: nat)

  /** The ratings a user has received. */
  function ReceivedRatings(t: Tables, userId: string): (r: seq<Rating>)
    ensures forall x :: x in r <==> x in t.ratings && x.ratedUserId == userId
  {
    Filter(t.ratings, (x: Rating) => x.ratedUserId == userId)
  }

  function Sum(ratings: seq<Rating>): int {
    if ratings == [] then 0 else ratings[0].rating + Sum(ratings[1..])
  }

  /** The mean rating, 0 when there is none. */
  function Mean(ratings: seq<Rating>): (r: real)
    ensures |ratings| == 0 ==> r == 0.0
    ensures |ratings| > 0 ==> r * |ratings| as real == Sum(ratings) as real
  {
    if |ratings| == 0 then 0.0 else Sum(ratings) as real / |ratings| as real
  }

  /** The name of the catalogue skill with primary key `id`, if stored. */
  function CatalogName(skills: seq<Skill>, id: string): (r: Option<string>)
    ensures r.None? <==> forall k :: k in skills ==> k.id != id
    ensures r.Some? ==> Skill(id, r.value) in skills
  {
    match FindFirst(skills, (k: Skill) => k.id == id)
    case None => None
    case Some(i) => Some(skills[i].name)
  }

  /** The user's skills joined with the skill catalogue: one entry per
      user-skill row whose skill is stored, in row order, carrying the
      skill's id and name and the row's level. */
  function SkillEntries(rows: seq<UserSkill>, skills: seq<Skill>): (r: seq<SkillEntry>)
    ensures |r| <= |rows|
    ensures forall e :: e in r ==>
              CatalogName(skills, e.id) == Some(e.name) && exists x :: x in rows && x.skillId == e.id && x.level == e.level
  {
    if rows == [] then []
    else
      var rest := SkillEntries(rows[1..], skills);
      assert forall x :: x in rows[1..] ==> x in rows;
      match CatalogName(skills, rows[0].skillId)
      case None => rest
      case Some(name) => [SkillEntry(rows[0].skillId, name, rows[0].level)] + rest
  }

  /** No row whose skill is stored is dropped from the profile. */
  lemma {:induction false} SkillEntriesComplete(rows: seq<UserSkill>, skills: seq<Skill>, x: UserSkill)
    requires x in rows && CatalogName(skills, x.skillId).Some?
    ensures SkillEntry(x.skillId, CatalogName(skills, x.skillId).value, x.level) in SkillEntries(rows, skills)
  {
    if x != rows[0] {
      assert x in rows[1..];
      SkillEntriesComplete(rows[1..], skills, x);
    }
  }

  /** When every row's skill is stored (the foreign key guarantees it), the
      entries are the rows, index by index. */
  lemma {:induction false} SkillEntriesExact(rows: seq<UserSkill>, skills: seq<Skill>)
    requires forall x :: x in rows ==> CatalogName(skills, x.skillId).Some?
    ensures var r := SkillEntries(rows, skills);
            && |r| == |rows|
            && forall k :: 0 <= k < |rows| ==>
                 r[k] == SkillEntry(rows[k].skillId, CatalogName(skills, rows[k].skillId).value, rows[k].level)
  {
    if rows != [] {
      assert forall x :: x in rows[1..] ==> x in rows;
      SkillEntriesExact(rows[1..], skills);
      assert rows[0] in rows;
    }
  }

  /** The username of the user with primary key `id`, if stored. */
  function UsernameOf(users: seq<User>, id: string): (r: Option<string>)
    ensures r.None? <==> forall u :: u in users ==> u.id != id
    ensures r.Some? ==> exists u :: u in users && u.id == id && u.username == r.value
  {
    match UserIndex(users, id)
    case None => None
    case Some(i) => Some(users[i].username)
  }

  /** The title of the project with primary key `id`, if stored. */
  function TitleOf(projects: seq<Project>, id: string): (r: Option<string>)
    ensures r.None? <==> forall p :: p in projects ==> p.id != id
    ensures r.Some? ==> exists p :: p in projects && p.id == id && p.title == r.value
  {
    match FindFirst(projects, (p: Project) => p.id == id)
    case None => None
    case Some(i) => Some(projects[i].title)
  }

  /** The received ratings joined with their rater and their project: the
      rater's username and the project's title, absent only when the row
      they point to is not stored. */
  function RatingEntries(t: Tables, ratings: seq<Rating>): (r: seq<RatingEntry>)
    ensures |r| == |ratings|
    ensures forall k :: 0 <= k < |ratings| ==>
              && r[k].rating == ratings[k].rating && r[k].comment == ratings[k].comment
              && (r[k].raterUsername.None? <==> forall u :: u in t.users ==> u.id != ratings[k].raterId)
              && (r[k].raterUsername.Some? ==>
                    exists u :: u in t.users && u.id == ratings[k].raterId && u.username == r[k].raterUsername.value)
              && (r[k].projectTitle.None? <==> forall p :: p in t.projects ==> p.id != ratings[k].projectId)
              && (r[k].projectTitle.Some? ==>
                    exists p :: p in t.projects && p.id == ratings[k].projectId && p.title == r[k].projectTitle.value)
  {
    seq(|ratings|, k requires 0 <= k < |ratings| =>
      RatingEntry(ratings[k].rating, ratings[k].comment,
                  UsernameOf(t.users, ratings[k].raterId), TitleOf(t.projects, ratings[k].projectId)))
  }

  /** The user-skill rows of `userId`. */
  function SkillRows(t: Tables, userId: string): (r: seq<UserSkill>)
    ensures forall x :: x in r <==> x in t.userSkills && x.userId == userId
  {
    Filter(t.userSkills, (x: UserSkill) => x.userId == userId)
  }

  /** `getUserProfile`: NotFound for an unknown user; otherwise the user's
      fields, skills and received ratings, their count and their mean. */
  function GetUserProfile(t: Tables, userId: string): (r: Result<UserProfile>)
    ensures r.Err? <==> FindUserById(t, userId).Err?
    ensures r.Err? ==> r.error == UserNotFound
    ensures r.Ok? ==>
              var user := FindUserById(t, userId).value;
              var received := ReceivedRatings(t, userId);
              && user in t.users
              && r.value.id == userId
              && r.value.username == user.username && r.value.email == user.email
              && r.value.bio == user.bio && r.value.avatarUrl == user.avatarUrl
              && r.value.skills == SkillEntries(SkillRows(t, userId), t.skills)
              && r.value.ratings == RatingEntries(t, received)
              && r.value.totalRatings == |received|
              && r.value.averageRating == Mean(received)
  {
    match FindUserById(t, userId)
    case Err(e) => Err(e)
    case Ok(user) =>
      var received := ReceivedRatings(t, userId);
      var mean := Mean(received);
      Ok(UserProfile(user.id, user.username, user.email, user.bio, user.avatarUrl,
                     SkillEntries(SkillRows(t, userId), t.skills), RatingEntries(t, received), mean, |received|))
  }

  /** Star ratings (1 to 5, as the rating form requires) sum to between
      one and five times their number. */
  lemma {:induction false} SumWithinStars(ratings: seq<Rating>)
    requires forall x :: x in ratings ==> 1 <= x.rating <= 5
    ensures |ratings| <= Sum(ratings) <= 5 * |ratings|
  {
    if ratings != [] {
      assert ratings[0] in ratings;
      assert forall x :: x in ratings[1..] ==> x in ratings;
      SumWithinStars(ratings[1..]);
    }
  }

  /** The mean of star ratings is itself a star value between 1 and 5. */
  lemma MeanWithinStars(ratings: seq<Rating>)
    requires forall x :: x in ratings ==> 1 <= x.rating <= 5
    requires |ratings| > 0
    ensures 1.0 <= Mean(ratings) <= 5.0
  {
    SumWithinStars(ratings);
    RatioBetween(Mean(ratings), |ratings| as real, Sum(ratings) as real);
  }

  /** If `q * n == s` with `n <= s <= 5 n` then `1 <= q <= 5`. */
  lemma RatioBetween(q: real, n: real, s: real)
    requires n > 0.0 && q * n == s && n <= s <= 5.0 * n
    ensures 1.0 <= q <= 5.0
  {
  }

  /** A profile's average rating lies between 1 and 5 once it has ratings. */
  lemma AverageWithinStars(t: Tables, userId: string)
    requires GetUserProfile(t, userId).Ok?
    requires forall x :: x in t.ratings ==> 1 <= x.rating <= 5
    requires GetUserProfile(t, userId).value.totalRatings > 0
    ensures 1.0 <= GetUserProfile(t, userId).value.averageRating <= 5.0
  {
    MeanWithinStars(ReceivedRatings(t, userId));
  }

  // ---------------------------------------------------------------------
  // Invariants and properties of several calls.

  lemma GetOrCreateUserConsistent(t: Tables, payload: TokenPayload, newId: string, now: int)
    requires Consistent(t)
    requires forall u :: u in t.users ==> u.id != newId
    ensures Consistent(GetOrCreateUser(t, payload, newId, now).after)
  {
    var s := GetOrCreateUser(t, payload, newId, now);
    match UserIndexBySub(t.users, payload.sub)
    case Some(i) =>
      UniqueByUpdate(t.users, i, s.result.value, UserKey);
      UniqueByUpdate(t.users, i, s.result.value, UserEmail);
      UniqueByUpdate(t.users, i, s.result.value, UserSub);
    case None =>
      if s.result.Ok? {
        UniqueByAppend(t.users, s.result.value, UserKey);
        UniqueByAppend(t.users, s.result.value, UserEmail);
        UniqueByAppend(t.users, s.result.value, UserSub);
      }
  }

  /** A second get-or-create for the same identity finds the shadow the
      first one returned and adds no user. */
  lemma GetOrCreateTwice(t: Tables, payload: TokenPayload, id1: string, id2: string, now1: int, now2: int)
    requires Consistent(t)
    requires forall u :: u in t.users ==> u.id != id1
    requires GetOrCreateUser(t, payload, id1, now1).result.Ok?
    ensures var s1 := GetOrCreateUser(t, payload, id1, now1);
            var s2 := GetOrCreateUser(s1.after, payload, id2, now2);
            && s2.result.Ok?
            && s2.result.value.id == s1.result.value.id
            && |s2.after.users| == |s1.after.users|
  {
    var s1 := GetOrCreateUser(t, payload, id1, now1);
    GetOrCreateUserConsistent(t, payload, id1, now1);
    var s2 := GetOrCreateUser(s1.after, payload, id2, now2);
    var j :| 0 <= j < |s1.after.users| && s1.after.users[j] == s1.result.value;
    var k :| 0 <= k < |s1.after.users| && s1.after.users[k].keycloakId == payload.sub
            && s2.result.value == s1.after.users[k].(lastLoginAt := now2);
    assert j == k;
  }

  lemma UpdateProfileConsistent(t: Tables, payload: TokenPayload, dto: UpdateProfileDto, newId: string, now: int)
    requires Consistent(t)
    requires forall u :: u in t.users ==> u.id != newId
    ensures Consistent(UpdateProfile(t, payload, dto, newId, now).after)
  {
    var g := GetOrCreateUser(t, payload, newId, now);
    GetOrCreateUserConsistent(t, payload, newId, now);
    if g.result.Ok? {
      var user := g.result.value;
      var i := UserIndex(g.after.users, user.id);
      if i.Some? {
        var updated := user.(bio := if dto.bio.Some? then dto.bio else user.bio,
                             avatarUrl := if dto.avatarUrl.Some? then dto.avatarUrl else user.avatarUrl,
                             lastLoginAt := now);
        assert g.after.users[i.value] == user by {
          var j :| 0 <= j < |g.after.users| && g.after.users[j] == user;
          assert UserKey(g.after.users[j]) == UserKey(g.after.users[i.value]);
        }
        UniqueByUpdate(g.after.users, i.value, updated, UserKey);
        UniqueByUpdate(g.after.users, i.value, updated, UserEmail);
        UniqueByUpdate(g.after.users, i.value, updated, UserSub);
      }
    }
  }

  /** On consistent tables `addSkillToUser` keeps them consistent and
      leaves exactly one row for the pair, carrying the requested level. */
  lemma AddSkillToUserUpsert(t: Tables, payload: TokenPayload, dto: AddSkillDto, newId: string, now: int)
    requires Consistent(t)
    requires forall u :: u in t.users ==> u.id != newId
    ensures var s := AddSkillToUser(t, payload, dto, newId, now);
            && Consistent(s.after)
            && (s.result.Ok? ==> forall x :: x in s.after.userSkills && UserSkillPair(x) == UserSkillPair(s.result.value) ==>
                                   x == s.result.value)
  {
    var g := GetOrCreateUser(t, payload, newId, now);
    GetOrCreateUserConsistent(t, payload, newId, now);
    var s := AddSkillToUser(t, payload, dto, newId, now);
    if s.result.Ok? {
      var user := g.result.value;
      match UserSkillIndex(t.userSkills, user.id, dto.skillId)
      case Some(i) =>
        UniqueByUpdate(t.userSkills, i, s.result.value, UserSkillPair);
      case None =>
        UniqueByAppend(t.userSkills, s.result.value, UserSkillPair);
      assert UserSkillsConsistent(s.after.userSkills);
      forall x | x in s.after.userSkills && UserSkillPair(x) == UserSkillPair(s.result.value) ensures x == s.result.value {
        var a :| 0 <= a < |s.after.userSkills| && s.after.userSkills[a] == x;
        var b :| 0 <= b < |s.after.userSkills| && s.after.userSkills[b] == s.result.value;
        assert a == b;
      }
    }
  }

  /** On consistent tables a removal keeps exactly the rows of other pairs. */
  lemma RemoveSkillFromUserExact(t: Tables, payload: TokenPayload, skillId: string, newId: string, now: int)
    requires Consistent(t)
    requires forall u :: u in t.users ==> u.id != newId
    ensures var s := RemoveSkillFromUser(t, payload, skillId, newId, now);
            && Consistent(s.after)
            && (s.result.Ok? ==>
                  var userId := GetOrCreateUser(t, payload, newId, now).result.value.id;
                  forall x :: x in s.after.userSkills <==> x in t.userSkills && UserSkillPair(x) != (userId, skillId))
  {
    var g := GetOrCreateUser(t, payload, newId, now);
    GetOrCreateUserConsistent(t, payload, newId, now);
    if g.result.Ok? {
      var i := UserSkillIndex(t.userSkills, g.result.value.id, skillId);
      if i.Some? {
        UniqueByRemove(t.userSkills, i.value, UserSkillPair);
      }
    }
  }
}

/** The writing operations of `UsersService` as a class over the shared
    database; the queries are the `Users` functions. */
module UsersService {

  import opened Seqs
  import opened Entities
  import opened Store
  import opened Claims
  import Users

  class UsersService {
    const db: Database

    constructor (db: Database)
      ensures this.db == db
    {
      this.db := db;
    }

    method GetOrCreateUser(payload: TokenPayload, newId: string, now: int) returns (r: Result<User>)
      requires db.Valid()
      requires forall u :: u in db.users ==> u.id != newId
      modifies db
      ensures db.Valid()
      ensures Step(r, db.Snapshot()) == Users.GetOrCreateUser(old(db.Snapshot()), payload, newId, now)
    {
      Users.GetOrCreateUserConsistent(db.Snapshot(), payload, newId, now);
      var i := Users.UserIndexBySub(db.users, payload.sub);
      if i.Some? {
        var user := db.users[i.value].(lastLoginAt := now);
        db.users := db.users[i.value := user];
        return Ok(user);
      }
      var username :- Users.DefaultUsername(payload);
      if payload.email.None? {
        return Err(Users.MissingEmail);
      }
      if Users.EmailTaken(db.users, payload.email.value) {
        return Err(Users.DuplicateEmail);
      }
      var user := User(newId, payload.sub, username, payload.email.value, None, None, true, now);
      db.users := db.users + [user];
      r := Ok(user);
    }

    method UpdateProfile(payload: TokenPayload, dto: Users.UpdateProfileDto, newId: string, now: int) returns (r: Result<User>)
      requires db.Valid()
      requires forall u :: u in db.users ==> u.id != newId
      modifies db
      ensures db.Valid()
      ensures Step(r, db.Snapshot()) == Users.UpdateProfile(old(db.Snapshot()), payload, dto, newId, now)
    {
      Users.UpdateProfileConsistent(db.Snapshot(), payload, dto, newId, now);
      var user :- GetOrCreateUser(payload, newId, now);
      user := user.(bio := if dto.bio.Some? then dto.bio else user.bio,
                    avatarUrl := if dto.avatarUrl.Some? then dto.avatarUrl else user.avatarUrl,
                    lastLoginAt := now);
      var i := Users.UserIndex(db.users, user.id);
      if i.Some? {
        db.users := db.users[i.value := user];
      }
      r := Ok(user);
    }

    method AddSkillToUser(payload: TokenPayload, dto: Users.AddSkillDto, newId: string, now: int) returns (r: Result<UserSkill>)
      requires db.Valid()
      requires forall u :: u in db.users ==> u.id != newId
      modifies db
      ensures db.Valid()
      ensures Step(r, db.Snapshot()) == Users.AddSkillToUser(old(db.Snapshot()), payload, dto, newId, now)
    {
      Users.AddSkillToUserUpsert(db.Snapshot(), payload, dto, newId, now);
      var user :- GetOrCreateUser(payload, newId, now);
      if !Users.SkillExists(db.skills, dto.skillId) {
        return Err(Users.SkillNotFound);
      }
      var row := UserSkill(user.id, dto.skillId, dto.level);
      db.userSkills := Users.Upsert(db.userSkills, row);
      r := Ok(row);
    }

    method RemoveSkillFromUser(payload: TokenPayload, skillId: string, newId: string, now: int) returns (r: Result<()>)
      requires db.Valid()
      requires forall u :: u in db.users ==> u.id != newId
      modifies db
      ensures db.Valid()
      ensures Step(r, db.Snapshot()) == Users.RemoveSkillFromUser(old(db.Snapshot()), payload, skillId, newId, now)
    {
      Users.RemoveSkillFromUserExact(db.Snapshot(), payload, skillId, newId, now);
      var user :- GetOrCreateUser(payload, newId, now);
      var i := Users.UserSkillIndex(db.userSkills, user.id, skillId);
      if i.None? {
        return Err(Users.UserSkillNotFound);
      }
      db.userSkills := RemoveAt(db.userSkills, i.value);
      r := Ok(());
    }
  }
}
