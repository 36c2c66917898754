/** backend/models/User.js: the user document, its enums, defaults, the
    non-negative wallet balance and the two unique indexes. */
module UserModel {
  import opened Common

  datatype Role = Student | Mentor | Admin

  /** `mentorStatus`; the source's value 'none' is `NotApplied` here. */
  datatype MentorStatus = NotApplied | Pending | Approved | Rejected

  function RoleName(r: Role): string
  {
    match r
    case Student => "student"
    case Mentor => "mentor"
    case Admin => "admin"
  }

  function MentorStatusName(s: MentorStatus): string
  {
    match s
    case NotApplied => "none"
    case Pending => "pending"
    case Approved => "approved"
    case Rejected => "rejected"
  }

  /** The enum check on `role`: exactly the three names are accepted. */
  function ParseRole(s: string): (r: Option<Role>)
    ensures r.Some? ==> RoleName(r.value) == s
    ensures r.None? ==> forall x :: RoleName(x) != s
  {
    if s == "student" then Some(Student)
    else if s == "mentor" then Some(Mentor)
    else if s == "admin" then Some(Admin)
    else None
  }

  /** The enum check on `mentorStatus`: exactly the four names are accepted. */
  function ParseMentorStatus(s: string): (r: Option<MentorStatus>)
    ensures r.Some? ==> MentorStatusName(r.value) == s
    ensures r.None? ==> forall x :: MentorStatusName(x) != s
  {
    if s == "none" then Some(NotApplied)
    else if s == "pending" then Some(Pending)
    else if s == "approved" then Some(Approved)
    else if s == "rejected" then Some(Rejected)
    else None
  }

  /** The wallet balance is in the smallest currency unit and is an integer here. */
  datatype User = User(
    googleId: Option<string>,
    email: string,
    name: string,
    picture: Option<string>,
    role: Role,
    mentorStatus: MentorStatus,
    balance: int,
    sessionsAttended: int)

  const DefaultBalance: int := 10

  /** A user document as the schema fills it in when only the required
      fields and the Google id are given. */
  function NewUser(googleId: Option<string>, email: string, name: string): (u: User)
    requires email != "" && name != ""
    ensures ValidUser(u)
    ensures u.balance == DefaultBalance && u.sessionsAttended == 0
    ensures u.role == Student && u.mentorStatus == NotApplied
    ensures u.email == email && u.name == name && u.googleId == googleId
  {
    User(googleId, email, name, None, Student, NotApplied, DefaultBalance, 0)
  }

  /** The schema's checks on a single document: required strings are
      non-empty and the balance passes both `min: 0` and the validator. */
  predicate ValidUser(u: User)
  {
    u.email != "" && u.name != "" && u.balance >= 0
  }

  /** The message Mongoose reports when saving `u`, or `None` when it saves. */
  function SaveError(u: User): (e: Option<string>)
    ensures e.None? <==> ValidUser(u)
    ensures u.email != "" && u.name != "" && u.balance < 0 ==> e == Some("Balance cannot be negative")
  {
    if u.email == "" then Some("Path `email` is required.")
    else if u.name == "" then Some("Path `name` is required.")
    else if u.balance < 0 then Some("Balance cannot be negative")
    else None
  }

  /** The unique indexes on `email` and on `googleId`. The googleId index is
      not sparse, so two users without a Google id also collide. */
  predicate UniqueKeys(users: map<Id, User>)
  {
    forall a, b :: a in users && b in users && a != b ==>
      users[a].email != users[b].email && users[a].googleId != users[b].googleId
  }

  predicate UsersOk(users: map<Id, User>)
  {
    (forall k :: k in users ==> ValidUser(users[k])) && UniqueKeys(users)
  }

  /** Changing a user's role, mentor status or balance keeps the collection
      valid as long as the new balance is not negative. */
  lemma {:induction false} UpdateKeepsUsersOk(users: map<Id, User>, k: Id, u: User)
    requires UsersOk(users) && k in users
    requires u.email == users[k].email && u.googleId == users[k].googleId
    requires u.name == users[k].name && u.balance >= 0
    ensures UsersOk(users[k := u])
  {
    var users' := users[k := u];
    forall a, b | a in users' && b in users' && a != b
      ensures users'[a].email != users'[b].email && users'[a].googleId != users'[b].googleId
    {
      assert users'[a].email == users[a].email && users'[a].googleId == users[a].googleId;
      assert users'[b].email == users[b].email && users'[b].googleId == users[b].googleId;
    }
  }
}
