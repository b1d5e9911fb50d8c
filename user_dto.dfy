/**
 * The user-administration request schemas: profile update, role update,
 * status update and the user-list query. The email format check is a
 * parameter (`isEmail`); JSON values are given with their JSON type.
 */
module UserDto {
  import opened Common
  import opened Store

  /** A JSON scalar as it arrives in a request body. */
  datatype Json = JBool(b: bool) | JNumber(n: real) | JString(s: string) | JNull

  datatype ProfileInput = ProfileInput(
    firstName: Option<string>, lastName: Option<string>, email: Option<string>, password: Option<string>)

  /** `updateProfileSchema`: every field optional; a present name is
      non-empty, a present email well formed, a present password at least
      eight characters. */
  function ParseProfile(p: ProfileInput, isEmail: string -> bool): (r: Option<ProfileInput>)
    ensures r.Some? <==>
      (p.firstName.Some? ==> |p.firstName.value| >= 1)
      && (p.lastName.Some? ==> |p.lastName.value| >= 1)
      && (p.email.Some? ==> isEmail(p.email.value))
      && (p.password.Some? ==> |p.password.value| >= 8)
    ensures r.Some? ==> r.value == p
  {
    if (p.firstName.Some? ==> |p.firstName.value| >= 1)
      && (p.lastName.Some? ==> |p.lastName.value| >= 1)
      && (p.email.Some? ==> isEmail(p.email.value))
      && (p.password.Some? ==> |p.password.value| >= 8)
    then Some(p) else None
  }

  /** An empty profile update is valid. */
  lemma EmptyProfileAccepted(isEmail: string -> bool)
    ensures ParseProfile(ProfileInput(None, None, None, None), isEmail) == Some(ProfileInput(None, None, None, None))
  {
  }

  /** `updateUserRoleSchema`: exactly the three role names. */
  function ParseRoleUpdate(role: string): (r: Option<Role>)
    ensures r.Some? <==> role in {"CLIENT", "SELLER", "ADMIN"}
    ensures r.Some? ==> RoleName(r.value) == role
  {
    ParseRole(role)
  }

  /** `updateUserStatusSchema`: `active` must be a JSON boolean. */
  function ParseStatusUpdate(active: Option<Json>): (r: Option<bool>)
    ensures r.Some? <==> active.Some? && active.value.JBool?
    ensures r.Some? ==> r.value == active.value.b
  {
    if active.Some? && active.value.JBool? then Some(active.value.b) else None
  }

  /** `listUsersQuerySchema`: an absent role is accepted as no filter; a
      present one is upper-cased and must then be a role name. */
  function ParseListUsersQuery(role: Option<string>): (r: Option<Option<Role>>)
    ensures role.None? ==> r == Some(None)
    ensures role.Some? ==> (r.Some? <==> ToUpper(role.value) in {"CLIENT", "SELLER", "ADMIN"})
    ensures role.Some? && r.Some? ==> r.value.Some? && RoleName(r.value.value) == ToUpper(role.value)
  {
    if role.None? then Some(None)
    else
      match ParseRole(ToUpper(role.value))
      case Some(x) => Some(Some(x))
      case None => None
  }

  /** Any spelling of a role name, whatever its letter case, selects that
      role. */
  lemma ListQueryIgnoresCase(role: Role, s: string)
    requires ToUpper(s) == RoleName(role)
    ensures ParseListUsersQuery(Some(s)) == Some(Some(role))
  {
    RoleNameRoundTrip(role);
  }

  lemma LowerCaseSellerAccepted()
    ensures ParseListUsersQuery(Some("seller")) == Some(Some(Seller))
  {
    assert ToUpper("seller") == "SELLER";
  }
}
