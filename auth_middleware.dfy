/**
 * The request authentication middleware: Bearer token extraction, token
 * verification (a parameter returning the decoded claims, or nothing when
 * the signature or expiry check fails) and the role gate.
 */
module AuthMiddleware {
  import opened Common

  /** The decoded JWT claims, and the user attached to an authenticated
      request. */
  datatype Claims = Claims(sub: string, role: string)

  datatype RequestUser = RequestUser(id: string, role: string)

  /** The token is the header after "Bearer ", only when the header starts
      with exactly that prefix. */
  function ExtractToken(header: Option<string>): (r: Option<string>)
    ensures r.Some? <==> header.Some? && StartsWith(header.value, "Bearer ")
    ensures r.Some? ==> header.value == "Bearer " + r.value
  {
    if header.Some? && StartsWith(header.value, "Bearer ") then Some(header.value[7..]) else None
  }

  lemma ExtractTokenRoundTrip(token: string)
    ensures ExtractToken(Some("Bearer " + token)) == Some(token)
  {
    assert ("Bearer " + token)[..7] == "Bearer ";
    assert ("Bearer " + token)[7..] == token;
  }

  /** `authenticate`: a missing, non-Bearer or empty token and a token that
      does not verify are 401s with distinct messages; otherwise the
      request's user is the token's subject and role. */
  function Authenticate(header: Option<string>, verify: string -> Option<Claims>): (r: Result<RequestUser>)
    ensures (ExtractToken(header).None? || ExtractToken(header).value == "") ==>
      r == Failure(Http(401, "Authentication token is missing"))
    ensures r.Success? ==>
      ExtractToken(header).Some? && ExtractToken(header).value != ""
      && verify(ExtractToken(header).value).Some?
      && r.value.id == verify(ExtractToken(header).value).value.sub
      && r.value.role == verify(ExtractToken(header).value).value.role
    ensures (ExtractToken(header).Some? && ExtractToken(header).value != ""
      && verify(ExtractToken(header).value).None?) ==>
        r == Failure(Http(401, "Invalid authentication token"))
  {
    var token := ExtractToken(header);
    if token.None? || token.value == "" then Failure(Http(401, "Authentication token is missing"))
    else match verify(token.value)
      case None => Failure(Http(401, "Invalid authentication token"))
      case Some(claims) => Success(RequestUser(claims.sub, claims.role))
  }

  /** A header carrying a token that verifies authenticates its subject. */
  lemma AuthenticateSignedToken(token: string, verify: string -> Option<Claims>)
    requires token != "" && verify(token).Some?
    ensures Authenticate(Some("Bearer " + token), verify)
         == Success(RequestUser(verify(token).value.sub, verify(token).value.role))
  {
    ExtractTokenRoundTrip(token);
  }

  /** "Bearer " alone is a missing token, not an invalid one. */
  lemma BareBearerIsMissing(verify: string -> Option<Claims>)
    ensures Authenticate(Some("Bearer "), verify) == Failure(Http(401, "Authentication token is missing"))
  {
    assert "Bearer " == "Bearer " + "";
    ExtractTokenRoundTrip("");
  }

  /** `authorizeRoles(...roles)`: 401 without a user, 403 when the role is
      not listed (exact string match), success otherwise. */
  function AuthorizeRoles(roles: seq<string>, user: Option<RequestUser>): (r: Result<()>)
    ensures user.None? ==> r == Failure(Http(401, "Unauthenticated"))
    ensures user.Some? && user.value.role !in roles ==>
      r == Failure(Http(403, "You are not allowed to perform this action"))
    ensures r.Success? <==> user.Some? && user.value.role in roles
  {
    if user.None? then Failure(Http(401, "Unauthenticated"))
    else if user.value.role !in roles then Failure(Http(403, "You are not allowed to perform this action"))
    else Success(())
  }

  /** The role check is case sensitive: a lower-case role is refused by an
      upper-case list. */
  lemma RoleMatchIsExact()
    ensures AuthorizeRoles(["ADMIN"], Some(RequestUser("u", "admin"))).Failure?
  {
  }
}
