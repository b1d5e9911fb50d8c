// The storefront's mock sign-in: `login` accepts anyone and keeps the user
// in a single storage slot, `logout` empties it, and `getCurrentUser` reads
// it back. The generated ids and tokens are parameters.

module MockAuth {
  import opened Common

  /** The storefront's roles. */
  datatype Role = Admin | Seller | Client

  datatype AuthUser = AuthUser(id: string, name: string, role: Role, email: string, token: string)

  /** The content of the storage slot: nothing, a stored user, or text that
      does not parse. */
  datatype Slot = Empty | Stored(user: AuthUser) | Unparsable

  /** The first piece of `s.split(sep)` is the text before the first
      separator. */
  lemma FirstPiece(s: string, sep: char)
    ensures var p := Split(s, sep)[0];
      && sep !in p && p <= s && (|p| == |s| || s[|p|] == sep)
  {
    var parts := Split(s, sep);
    JoinSplit(s, sep);
    if |parts| > 1 {
      assert Join(parts, [sep]) == parts[0] + [sep] + Join(parts[1..], [sep]);
    }
  }

  /** `email.split("@")[0] || "Utilisateur"`. */
  function DisplayName(email: string): (name: string)
    ensures name == "Utilisateur" || (name <= email && '@' !in name && (|name| == |email| || email[|name|] == '@'))
    ensures |name| >= 1
  {
    FirstPiece(email, '@');
    var part := Split(email, '@')[0];
    if part == "" then "Utilisateur" else part
  }

  /** The name is the text before the first "@", or "Utilisateur" when that
      text is empty. */
  lemma DisplayNameCases(email: string, before: string, after: string)
    requires email == before + after && '@' !in before && (after == [] || after[0] == '@')
    ensures DisplayName(email) == if before == "" then "Utilisateur" else before
  {
    var p := Split(email, '@')[0];
    FirstPiece(email, '@');
    assert |p| == |before|;
    assert p == email[..|p|] && before == email[..|before|];
  }

  /** `getCurrentUser` on a given slot: the stored user, or null. */
  function CurrentUser(slot: Slot): (r: Option<AuthUser>)
    ensures r.Some? <==> slot.Stored?
    ensures r.Some? ==> r.value == slot.user
  {
    if slot.Stored? then Some(slot.user) else None
  }

  class AuthStore {
    var slot: Slot

    constructor(initial: Slot)
      ensures slot == initial
    {
      slot := initial;
    }

    /** `login`: always succeeds; the user has the given email and role and
        is what the slot now holds. */
    method Login(email: string, password: string, role: Role, freshId: string, freshToken: string)
      returns (user: AuthUser)
      modifies this
      ensures user == AuthUser(freshId, DisplayName(email), role, email, freshToken)
      ensures slot == Stored(user)
    {
      user := AuthUser(freshId, DisplayName(email), role, email, freshToken);
      slot := Stored(user);
    }

    /** `logout`: empties the slot. */
    method Logout()
      modifies this
      ensures slot == Empty
    {
      slot := Empty;
    }

    /** `getCurrentUser`: reads the slot without changing it. */
    method GetCurrentUser() returns (r: Option<AuthUser>)
      ensures r == CurrentUser(slot)
    {
      r := CurrentUser(slot);
    }
  }

  /** After `login` the current user is the logged-in one; after `logout`
      there is none. */
  method LoginThenLogout(store: AuthStore, email: string, password: string, role: Role, freshId: string, freshToken: string)
    returns (afterLogin: Option<AuthUser>, afterLogout: Option<AuthUser>)
    modifies store
    ensures afterLogin.Some? && afterLogin.value.email == email && afterLogin.value.role == role
    ensures afterLogout.None?
  {
    var user := store.Login(email, password, role, freshId, freshToken);
    afterLogin := store.GetCurrentUser();
    store.Logout();
    afterLogout := store.GetCurrentUser();
  }
}
