/**
 * The register and login request schemas. The email format check is a
 * parameter (`isEmail`).
 */
module AuthDto {
  import opened Common
  import opened Store

  datatype RawRegister = RawRegister(
    email: string, password: string, firstName: string, lastName: string, role: Option<string>)

  datatype RegisterInput = RegisterInput(
    email: string, password: string, firstName: string, lastName: string, role: Option<Role>)

  datatype LoginInput = LoginInput(email: string, password: string)

  /** `registerSchema`: a well-formed email, a password of at least eight
      characters, non-empty names and, optionally, one of the role names. */
  function ParseRegister(raw: RawRegister, isEmail: string -> bool): (r: Option<RegisterInput>)
    ensures r.Some? <==>
      isEmail(raw.email) && |raw.password| >= 8 && |raw.firstName| >= 1 && |raw.lastName| >= 1
      && (raw.role.Some? ==> raw.role.value in {"CLIENT", "SELLER", "ADMIN"})
    ensures r.Some? ==> (r.value.email == raw.email && r.value.password == raw.password
      && r.value.firstName == raw.firstName && r.value.lastName == raw.lastName
      && (r.value.role.Some? <==> raw.role.Some?)
      && (r.value.role.Some? ==> RoleName(r.value.role.value) == raw.role.value))
  {
    var role := if raw.role.Some? then ParseRole(raw.role.value) else None;
    if isEmail(raw.email) && |raw.password| >= 8 && |raw.firstName| >= 1 && |raw.lastName| >= 1
      && (raw.role.Some? ==> role.Some?)
    then Some(RegisterInput(raw.email, raw.password, raw.firstName, raw.lastName, role))
    else None
  }

  /** `loginSchema`: a well-formed email and a password of at least eight
      characters. */
  function ParseLogin(raw: LoginInput, isEmail: string -> bool): (r: Option<LoginInput>)
    ensures r.Some? <==> isEmail(raw.email) && |raw.password| >= 8
    ensures r.Some? ==> r.value == raw
  {
    if isEmail(raw.email) && |raw.password| >= 8 then Some(raw) else None
  }

  /** Every password a registration accepts is also accepted at login. */
  lemma RegisteredPasswordPassesLogin(raw: RawRegister, isEmail: string -> bool)
    requires ParseRegister(raw, isEmail).Some?
    ensures ParseLogin(LoginInput(raw.email, raw.password), isEmail).Some?
  {
  }
}
