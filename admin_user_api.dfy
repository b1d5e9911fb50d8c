// The admin user list as the storefront sees it: server roles mapped to the
// storefront's roles and back, and the server user mapped to a display row.

module AdminUserApi {
  import opened Common
  import Store
  import MockAuth

  datatype RawAdminUser = RawAdminUser(id: string, email: string, firstName: string, lastName: string,
                                       role: Store.Role, active: bool, createdAt: string)

  datatype AdminUserDto = AdminUserDto(id: string, name: string, email: string, role: MockAuth.Role,
                                       active: bool, createdAt: string)

  /** `mapRole`: ADMIN and SELLER map to their storefront names, anything
      else to client. */
  function MapRole(role: Store.Role): (r: MockAuth.Role)
    ensures r == MockAuth.Admin <==> role == Store.Admin
    ensures r == MockAuth.Seller <==> role == Store.Seller
  {
    match role
    case Admin => MockAuth.Admin
    case Seller => MockAuth.Seller
    case _ => MockAuth.Client
  }

  /** The role sent by `updateAdminUserRole`: admin and seller map to their
      server names, anything else to CLIENT. */
  function RolePayload(role: MockAuth.Role): (r: Store.Role)
    ensures r == Store.Admin <==> role == MockAuth.Admin
    ensures r == Store.Seller <==> role == MockAuth.Seller
  {
    if role == MockAuth.Admin then Store.Admin
    else if role == MockAuth.Seller then Store.Seller
    else Store.Client
  }

  /** The two mappings are inverse to each other. */
  lemma RoleRoundTrips(front: MockAuth.Role, server: Store.Role)
    ensures MapRole(RolePayload(front)) == front
    ensures RolePayload(MapRole(server)) == server
  {
  }

  /** `mapUser`. */
  function MapUser(u: RawAdminUser): (r: AdminUserDto)
    ensures r.id == u.id && r.email == u.email && r.active == u.active && r.createdAt == u.createdAt
    ensures r.role == MapRole(u.role)
    ensures r.name == [] || (!IsSpace(r.name[0]) && !IsSpace(r.name[|r.name| - 1]))
  {
    AdminUserDto(u.id, Trim(u.firstName + " " + u.lastName), u.email, MapRole(u.role), u.active, u.createdAt)
  }

  /** With both names present and free of surrounding whitespace, the
      display name is "first last". */
  lemma MapUserName(u: RawAdminUser)
    requires |u.firstName| > 0 && |u.lastName| > 0
    requires !IsSpace(u.firstName[0]) && !IsSpace(u.lastName[|u.lastName| - 1])
    ensures MapUser(u).name == u.firstName + " " + u.lastName
  {
    var s := u.firstName + " " + u.lastName;
    assert s[0] == u.firstName[0] && s[|s| - 1] == u.lastName[|u.lastName| - 1];
    TrimOfTrimmed(s);
  }

  /** A user without a last name is shown by the first name alone, without
      the joining space. */
  lemma MapUserFirstNameOnly(u: RawAdminUser)
    requires |u.firstName| > 0 && u.lastName == []
    requires !IsSpace(u.firstName[0]) && !IsSpace(u.firstName[|u.firstName| - 1])
    ensures MapUser(u).name == u.firstName
  {
    var s := u.firstName + " " + u.lastName;
    assert s == u.firstName + " ";
    assert TrimStart(s) == s;
    assert s[..|s| - 1] == u.firstName;
    assert TrimEnd(s) == TrimEnd(u.firstName);
    assert TrimEnd(u.firstName) == u.firstName;
  }
}
