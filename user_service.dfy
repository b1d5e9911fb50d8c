/**
 * User administration: lookup, listing, profile update and the role and
 * status writes. `hash` is the hash of a submitted password.
 */
module UserService {
  import opened Common
  import opened Store
  import opened UserDto
  import opened AuthService

  /** `getUserById`. */
  function GetUserById(users: map<Id, User>, userId: Id): (r: Result<UserView>)
    ensures r.Success? <==> userId in users
    ensures r.Success? ==> r.value == ViewOf(userId, users[userId])
    ensures r.Failure? ==> r.error == Http(404, "User not found")
  {
    if userId in users then Success(ViewOf(userId, users[userId])) else Failure(Http(404, "User not found"))
  }

  /** `listUsers` over the table in its listing order (newest first). */
  function ListUsers(table: seq<(Id, User)>, role: Option<Role>): (r: seq<UserView>)
    ensures |r| <= |table|
    ensures role.None? ==> |r| == |table|
    ensures forall k :: 0 <= k < |r| ==> role.None? || r[k].role == role.value
    ensures forall k :: 0 <= k < |r| ==> exists i :: 0 <= i < |table| && r[k] == ViewOf(table[i].0, table[i].1)
  {
    if |table| == 0 then []
    else
      var rest := ListUsers(table[1..], role);
      assert forall k :: 0 <= k < |rest| ==> exists i :: 0 <= i < |table| && rest[k] == ViewOf(table[i].0, table[i].1) by {
        forall k | 0 <= k < |rest|
          ensures exists i :: 0 <= i < |table| && rest[k] == ViewOf(table[i].0, table[i].1)
        {
          var i :| 0 <= i < |table[1..]| && rest[k] == ViewOf(table[1..][i].0, table[1..][i].1);
          assert rest[k] == ViewOf(table[i + 1].0, table[i + 1].1);
        }
      }
      if role.None? || table[0].1.role == role.value then [ViewOf(table[0].0, table[0].1)] + rest
      else rest
  }

  /** Every user with the requested role is listed. */
  lemma {:induction false} ListUsersComplete(table: seq<(Id, User)>, role: Option<Role>, i: nat)
    requires i < |table| && (role.None? || table[i].1.role == role.value)
    ensures ViewOf(table[i].0, table[i].1) in ListUsers(table, role)
  {
    if i > 0 {
      ListUsersComplete(table[1..], role, i - 1);
    }
  }

  /** `if (value)`: a present, non-empty string. */
  predicate Truthy(s: Option<string>) {
    s.Some? && s.value != ""
  }

  predicate NothingToWrite(p: ProfileInput) {
    !Truthy(p.firstName) && !Truthy(p.lastName) && !Truthy(p.email) && !Truthy(p.password)
  }

  /** The row after a profile update: each truthy field replaces the stored
      one, the password by its hash; role and active never change. */
  function PatchedUser(u: User, p: ProfileInput, hash: string): (v: User)
    ensures v.firstName == (if Truthy(p.firstName) then p.firstName.value else u.firstName)
    ensures v.lastName == (if Truthy(p.lastName) then p.lastName.value else u.lastName)
    ensures v.email == (if Truthy(p.email) then p.email.value else u.email)
    ensures v.password == (if Truthy(p.password) then hash else u.password)
    ensures v.role == u.role && v.active == u.active
    ensures NothingToWrite(p) ==> v == u
  {
    u.(firstName := if Truthy(p.firstName) then p.firstName.value else u.firstName,
       lastName := if Truthy(p.lastName) then p.lastName.value else u.lastName,
       email := if Truthy(p.email) then p.email.value else u.email,
       password := if Truthy(p.password) then hash else u.password)
  }

  /** `updateUserProfile`. With nothing to write it is `getUserById`. An
      email held by another user is a 409; an unknown user is a missing
      record for the database. */
  method UpdateUserProfile(db: Db, userId: Id, p: ProfileInput, hash: string) returns (r: Result<UserView>)
    modifies db`users
    ensures NothingToWrite(p) ==> r == GetUserById(old(db.users), userId) && unchanged(db)
    ensures !NothingToWrite(p) && userId !in old(db.users) ==> r == Failure(RecordNotFound) && unchanged(db)
    ensures (!NothingToWrite(p) && userId in old(db.users) && Truthy(p.email)
      && exists other :: other in old(db.users) && other != userId && old(db.users)[other].email == p.email.value) ==>
        r == Failure(Http(409, "Email already in use")) && unchanged(db)
    ensures (!NothingToWrite(p) && userId in old(db.users)
      && !(Truthy(p.email) && exists other :: other in old(db.users) && other != userId && old(db.users)[other].email == p.email.value)) ==>
        r.Success?
    ensures r.Success? && !NothingToWrite(p) ==>
      userId in old(db.users)
      && db.users == old(db.users)[userId := PatchedUser(old(db.users)[userId], p, hash)]
      && r.value == ViewOf(userId, db.users[userId])
    ensures old(EmailsUnique(db.users)) ==> EmailsUnique(db.users)
  {
    if NothingToWrite(p) {
      return GetUserById(db.users, userId);
    }
    if userId !in db.users {
      return Failure(RecordNotFound);
    }
    if Truthy(p.email) && exists other :: other in db.users && other != userId && db.users[other].email == p.email.value {
      return Failure(Http(409, "Email already in use"));
    }
    var updated := PatchedUser(db.users[userId], p, hash);
    db.users := db.users[userId := updated];
    return Success(ViewOf(userId, updated));
  }

  /** `updateUserRole`: only the role changes. */
  method UpdateUserRole(db: Db, userId: Id, role: Role) returns (r: Result<UserView>)
    modifies db`users
    ensures userId !in old(db.users) ==> r == Failure(RecordNotFound) && unchanged(db)
    ensures userId in old(db.users) ==>
      db.users == old(db.users)[userId := old(db.users)[userId].(role := role)]
      && r == Success(ViewOf(userId, db.users[userId]))
  {
    if userId !in db.users {
      return Failure(RecordNotFound);
    }
    db.users := db.users[userId := db.users[userId].(role := role)];
    return Success(ViewOf(userId, db.users[userId]));
  }

  /** `updateUserStatus`: only the active flag changes. */
  method UpdateUserStatus(db: Db, userId: Id, active: bool) returns (r: Result<UserView>)
    modifies db`users
    ensures userId !in old(db.users) ==> r == Failure(RecordNotFound) && unchanged(db)
    ensures userId in old(db.users) ==>
      db.users == old(db.users)[userId := old(db.users)[userId].(active := active)]
      && r == Success(ViewOf(userId, db.users[userId]))
  {
    if userId !in db.users {
      return Failure(RecordNotFound);
    }
    db.users := db.users[userId := db.users[userId].(active := active)];
    return Success(ViewOf(userId, db.users[userId]));
  }

  /** `deleteUser`. */
  method DeleteUser(db: Db, userId: Id) returns (r: Result<()>)
    modifies db`users
    ensures userId !in old(db.users) ==> r == Failure(RecordNotFound) && unchanged(db)
    ensures userId in old(db.users) ==> r == Success(()) && db.users == old(db.users) - {userId}
  {
    if userId !in db.users {
      return Failure(RecordNotFound);
    }
    db.users := db.users - {userId};
    return Success(());
  }
}
