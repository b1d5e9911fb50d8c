/**
 * Registration and login over the user table. Password hashing and
 * comparison are parameters (`hash` is the hash of the submitted password,
 * `matches` the bcrypt comparison); the signed token is represented by its
 * payload.
 */
module AuthService {
  import opened Common
  import opened Store
  import opened AuthDto

  /** The JWT payload: subject and role. */
  datatype TokenPayload = TokenPayload(sub: Id, role: Role)

  datatype Session = Session(user: UserView, token: TokenPayload)

  predicate EmailTaken(users: map<Id, User>, email: string) {
    exists id :: id in users && users[id].email == email
  }

  /** The user table's unique index on email. */
  predicate EmailsUnique(users: map<Id, User>) {
    forall a, b :: a in users && b in users && users[a].email == users[b].email ==> a == b
  }

  /** The row a registration inserts: the role defaults to CLIENT and the
      account is active. */
  function NewUser(input: RegisterInput, hash: string): (u: User)
    ensures u.email == input.email && u.password == hash
    ensures u.role == input.role.GetOr(Client) && u.active
    ensures input.role.None? ==> u.role == Client
  {
    User(input.email, hash, input.firstName, input.lastName, input.role.GetOr(Client), true)
  }

  /** `registerUser`. `id` is the generated id of the new row. */
  method RegisterUser(db: Db, id: Id, input: RegisterInput, hash: string) returns (r: Result<Session>)
    requires id !in db.users
    modifies db`users, db`carts
    ensures EmailTaken(old(db.users), input.email) ==>
      r == Failure(Http(409, "Email already in use")) && unchanged(db)
    ensures !EmailTaken(old(db.users), input.email) ==>
      r == Success(Session(ViewOf(id, NewUser(input, hash)), TokenPayload(id, NewUser(input, hash).role)))
      && db.users == old(db.users)[id := NewUser(input, hash)]
      && db.carts == old(db.carts)[id := map[]]
    ensures old(EmailsUnique(db.users)) ==> EmailsUnique(db.users)
  {
    if exists other :: other in db.users && db.users[other].email == input.email {
      return Failure(Http(409, "Email already in use"));
    }
    var user := NewUser(input, hash);
    db.users := db.users[id := user];
    db.carts := db.carts[id := map[]];
    return Success(Session(ViewOf(id, user), TokenPayload(id, user.role)));
  }

  /** `loginUser`: an unknown email and a wrong password give the same 401;
      a disabled account gives 403 before the password is compared. */
  method LoginUser(users: map<Id, User>, input: LoginInput, matches: (string, string) -> bool)
    returns (r: Result<Session>)
    requires EmailsUnique(users)
    ensures !EmailTaken(users, input.email) ==> r == Failure(Http(401, "Invalid credentials"))
    ensures forall id :: id in users && users[id].email == input.email ==>
      (!users[id].active ==> r == Failure(Http(403, "Account is disabled")))
      && (users[id].active && !matches(input.password, users[id].password) ==>
            r == Failure(Http(401, "Invalid credentials")))
      && (users[id].active && matches(input.password, users[id].password) ==>
            r == Success(Session(ViewOf(id, users[id]), TokenPayload(id, users[id].role))))
  {
    if !(exists id :: id in users && users[id].email == input.email) {
      return Failure(Http(401, "Invalid credentials"));
    }
    var id :| id in users && users[id].email == input.email;
    var user := users[id];
    if !user.active {
      return Failure(Http(403, "Account is disabled"));
    }
    if !matches(input.password, user.password) {
      return Failure(Http(401, "Invalid credentials"));
    }
    return Success(Session(ViewOf(id, user), TokenPayload(id, user.role)));
  }
}
