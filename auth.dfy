/** `AuthService` (`src/auth/auth.service.ts`): registration against the
    user directory, and login as a decision over the directory and the
    cryptographic oracles. bcrypt's salted `hash` is random, so each
    registration is given the hash it produced; bcrypt's `compare` and the
    JWT signer are function parameters. */
module Auth {
  import opened Common
  import opened Users

  datatype RegisterData = RegisterData(username: string, email: string, password: string)

  /** What `bcrypt.compare` does: resolve with a boolean, or throw. */
  datatype Comparison = Compared(matches: bool) | Threw

  /** The JWT payload `{ userId, roles }`. */
  datatype TokenPayload = TokenPayload(userId: Id, roles: seq<Role>)

  const EmailTaken := "User with that email already exists"
  const UsernameTaken := "User with that username already exists"
  const WrongCredentials := "Wrong credentials provided"

  /** The row `usersService.create({ ...registrationData, password })`
      inserts: the column default gives it the single role User. */
  function NewUser(id: Id, data: RegisterData, hashed: string): (u: User)
    ensures u.id == id && u.email == data.email && u.username == data.username
    ensures u.password == hashed && u.roles == [Role.User]
  {
    User.User(id, data.email, data.username, hashed, [Role.User])
  }

  /** `verifyPassword`: the comparison's answer, with a throw read as no
      match. */
  function VerifyPassword(password: string, hashed: string,
                          compare: (string, string) -> Comparison): (ok: bool)
    ensures ok <==> compare(password, hashed) == Compared(true)
  {
    match compare(password, hashed)
    case Compared(matches) => matches
    case Threw => false
  }

  /** `getAuthenticatedUser`: the stored user with that email, provided the
      password verifies against the stored hash; an unknown email and a
      wrong password fail with the same message. */
  function GetAuthenticatedUser(users: Directory, email: string, password: string,
                                compare: (string, string) -> Comparison): (r: Result<User>)
    ensures r.Err? ==> r.error == BadRequest(WrongCredentials)
    ensures r.Ok? <==>
      FindOneByEmail(users, email).Some? &&
      VerifyPassword(password, FindOneByEmail(users, email).value.password, compare)
    ensures r.Ok? ==> r.value in users && r.value.email == email
  {
    match FindOneByEmail(users, email)
    case None => Err(BadRequest(WrongCredentials))
    case Some(user) =>
      if VerifyPassword(password, user.password, compare) then Ok(user)
      else Err(BadRequest(WrongCredentials))
  }

  /** `signToken`: signs the user's id and roles and nothing else. */
  function SignToken(user: User, sign: TokenPayload -> string): (token: string)
  {
    sign(TokenPayload(user.id, user.roles))
  }

  /** Only the user's id and roles enter the signed payload: email,
      username and password hash never reach the signer. */
  lemma TokenDependsOnlyOnIdAndRoles(u: User, v: User, sign: TokenPayload -> string)
    requires u.id == v.id && u.roles == v.roles
    ensures SignToken(u, sign) == SignToken(v, sign)
  {
  }

  /** `login`: authenticate, then sign; any authentication failure is the
      login's failure. */
  function Login(users: Directory, email: string, password: string,
                 compare: (string, string) -> Comparison,
                 sign: TokenPayload -> string): (r: Result<string>)
    ensures r.Err? <==> GetAuthenticatedUser(users, email, password, compare).Err?
    ensures r.Err? ==> r.error == BadRequest(WrongCredentials)
    ensures r.Ok? ==> exists u :: u in users && u.email == email &&
                                  r.value == sign(TokenPayload(u.id, u.roles))
  {
    match GetAuthenticatedUser(users, email, password, compare)
    case Err(e) => Err(e)
    case Ok(user) => Ok(SignToken(user, sign))
  }

  /** An unknown email and a wrong password get the same answer. */
  lemma LoginIndistinguishable(users: Directory, unknown: string, anyPassword: string,
                               known: string, wrongPassword: string,
                               compare: (string, string) -> Comparison,
                               sign: TokenPayload -> string)
    requires forall i :: 0 <= i < |users| ==> users[i].email != unknown
    requires FindOneByEmail(users, known).Some?
    requires !VerifyPassword(wrongPassword, FindOneByEmail(users, known).value.password, compare)
    ensures Login(users, unknown, anyPassword, compare, sign) ==
            Login(users, known, wrongPassword, compare, sign)
  {
  }

  /** A freshly registered user logs in with the password they registered
      with, and the token carries their id and the default role, provided
      bcrypt's `compare` accepts the password against the hash it made. */
  lemma RegisteredUserCanLogIn(users: Directory, data: RegisterData, id: Id, hashed: string,
                               compare: (string, string) -> Comparison,
                               sign: TokenPayload -> string)
    requires UniqueKeys(users + [NewUser(id, data, hashed)])
    requires compare(data.password, hashed) == Compared(true)
    ensures Login(users + [NewUser(id, data, hashed)], data.email, data.password, compare, sign)
            == Ok(sign(TokenPayload(id, [Role.User])))
  {
    var after := users + [NewUser(id, data, hashed)];
    FindOneByEmailUnique(after, |users|);
  }

  class AuthService {
    /** The user table behind `UsersService`, in insertion order. */
    var users: Directory

    ghost predicate Valid()
      reads this
    {
      UniqueKeys(users)
    }

    constructor ()
      ensures Valid() && users == []
    {
      users := [];
    }

    /** `register`: the email is looked up first, then the username; only
        when both are free is exactly one user appended, with `hashed` (what
        `bcrypt.hash(password, 10)` resolved with) in place of the password.
        `newId` is the id the database generates. */
    method Register(data: RegisterData, hashed: string, newId: Id) returns (r: Result<User>)
      requires Valid()
      requires forall i :: 0 <= i < |users| ==> users[i].id != newId
      modifies this
      ensures Valid()
      ensures FindOneByEmail(old(users), data.email).Some? ==>
        r == Err(BadRequest(EmailTaken)) && users == old(users)
      ensures FindOneByEmail(old(users), data.email).None? &&
              FindOneByUsername(old(users), data.username).Some? ==>
        r == Err(BadRequest(UsernameTaken)) && users == old(users)
      ensures FindOneByEmail(old(users), data.email).None? &&
              FindOneByUsername(old(users), data.username).None? ==>
        r == Ok(NewUser(newId, data, hashed)) && users == old(users) + [r.value]
    {
      var foundEmail := FindOneByEmail(users, data.email);
      if foundEmail.Some? {
        return Err(BadRequest(EmailTaken));
      }
      var foundUsername := FindOneByUsername(users, data.username);
      if foundUsername.Some? {
        return Err(BadRequest(UsernameTaken));
      }
      var created := NewUser(newId, data, hashed);
      users := users + [created];
      r := Ok(created);
    }
  }
}
