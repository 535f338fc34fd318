/** The user directory behind `UsersService`: user records and the
    `findOne({ email })` / `findOne({ username })` lookups that the
    authentication service relies on. The table is kept in row order. The
    model's lookup scans for the first matching row; `findOne` without an
    ORDER BY returns some matching row, and the contracts promise only
    that. */
module Users {
  import opened Common

  /** The `Role` enum; always written qualified (`Role.User`), since `User`
      also names the record type. */
  datatype Role = User | Admin

  datatype User = User(id: Id, email: string, username: string, password: string, roles: seq<Role>)

  /** The rows of the user table, in the order they were inserted. */
  type Directory = seq<User>

  /** Email, username and id are unique columns of the user table. */
  ghost predicate UniqueKeys(users: Directory)
  {
    forall i, j :: 0 <= i < j < |users| ==>
      users[i].email != users[j].email &&
      users[i].username != users[j].username &&
      users[i].id != users[j].id
  }

  /** The `where` conditions the lookups use. */
  datatype UserFilter = ByEmail(email: string) | ByUsername(username: string)

  predicate Matches(user: User, where: UserFilter)
  {
    match where
    case ByEmail(email) => user.email == email
    case ByUsername(username) => user.username == username
  }

  /** `findOne({ where })`: a matching row, or null. */
  function FindOne(users: Directory, where: UserFilter): (r: Option<User>)
    ensures r.None? <==> forall i :: 0 <= i < |users| ==> !Matches(users[i], where)
    ensures r.Some? ==> r.value in users && Matches(r.value, where)
  {
    if users == [] then None
    else if Matches(users[0], where) then Some(users[0])
    else FindOne(users[1..], where)
  }

  /** `findOneByEmail`: a row with that email, or null. */
  function FindOneByEmail(users: Directory, email: string): (r: Option<User>)
    ensures r.None? <==> forall i :: 0 <= i < |users| ==> users[i].email != email
    ensures r.Some? ==> r.value in users && r.value.email == email
  {
    FindOne(users, ByEmail(email))
  }

  /** `findOneByUsername`: a row with that username, or null. */
  function FindOneByUsername(users: Directory, username: string): (r: Option<User>)
    ensures r.None? <==> forall i :: 0 <= i < |users| ==> users[i].username != username
    ensures r.Some? ==> r.value in users && r.value.username == username
  {
    FindOne(users, ByUsername(username))
  }

  /** In a directory with unique emails, the lookup finds THE user with that
      email, wherever it sits. */
  lemma FindOneByEmailUnique(users: Directory, k: nat)
    requires UniqueKeys(users) && k < |users|
    ensures FindOneByEmail(users, users[k].email) == Some(users[k])
  {
  }
}
