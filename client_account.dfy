// The customer's account page: the profile changes it sends, the name in its
// title and the colour of each order's status. The server's answers are
// parameters.

module ClientAccount {
  import opened Common
  import Store
  import UserDto

  datatype AccountProfile = AccountProfile(id: string, email: string, firstName: string, lastName: string)

  datatype ProfileForm = ProfileForm(firstName: string, lastName: string, email: string, password: string)

  datatype AlertKind = SuccessAlert | ErrorAlert

  datatype Alert = Alert(kind: AlertKind, message: string)

  datatype StatusClass = Ok | Warn | Danger

  /** How a request ended: its value, or a thrown error with its message
      (`None` for a value that is not an `Error`). */
  datatype Reply<T> = Done(value: T) | Thrown(message: Option<string>)

  const NothingToSave: string := "Aucune modification à enregistrer."
  const Saved: string := "Profil mis à jour avec succès."
  const SaveFailed: string := "Impossible de mettre à jour votre profil"

  /** A name or email field enters the payload, trimmed, when it is not blank
      and differs from the stored value. */
  function Changed(input: string, current: string): (r: Option<string>)
    ensures r.Some? <==> !IsBlank(input) && Trim(input) != current
    ensures r.Some? ==> r.value == Trim(input)
  {
    if !IsBlank(input) && Trim(input) != current then Some(Trim(input)) else None
  }

  /** The profile update built from the form. */
  function Payload(form: ProfileForm, profile: AccountProfile): UserDto.ProfileInput {
    UserDto.ProfileInput(
      Changed(form.firstName, profile.firstName),
      Changed(form.lastName, profile.lastName),
      Changed(form.email, profile.email),
      if IsBlank(form.password) then None else Some(Trim(form.password)))
  }

  predicate IsEmpty(p: UserDto.ProfileInput) {
    p.firstName.None? && p.lastName.None? && p.email.None? && p.password.None?
  }

  /** The payload is empty exactly when no name or email was changed and no
      password was typed; a sent field always differs from the stored one. */
  lemma PayloadSpec(form: ProfileForm, profile: AccountProfile)
    ensures var p := Payload(form, profile);
      && (IsEmpty(p) <==>
            (IsBlank(form.firstName) || Trim(form.firstName) == profile.firstName)
            && (IsBlank(form.lastName) || Trim(form.lastName) == profile.lastName)
            && (IsBlank(form.email) || Trim(form.email) == profile.email)
            && IsBlank(form.password))
      && (p.firstName.Some? ==> p.firstName.value != profile.firstName)
      && (p.lastName.Some? ==> p.lastName.value != profile.lastName)
      && (p.email.Some? ==> p.email.value != profile.email)
  {
  }

  /** The server's profile schema accepts what the page sends exactly when a
      sent email is well formed and a sent password has at least eight
      characters after trimming; the names it sends are never empty. */
  lemma PayloadMeetsSchema(form: ProfileForm, profile: AccountProfile, isEmail: string -> bool)
    ensures var p := Payload(form, profile);
      UserDto.ParseProfile(p, isEmail).Some? <==>
        (p.email.Some? ==> isEmail(p.email.value)) && (p.password.Some? ==> |Trim(form.password)| >= 8)
  {
  }

  /** The title: the present names joined by a space, else the profile's
      email, else the signed-in user's email, else "Mon compte". */
  function DisplayName(profile: Option<AccountProfile>, userEmail: Option<string>): (r: string)
    ensures r != ""
  {
    var names := if profile.None? then "" else JoinNames(profile.value.firstName, profile.value.lastName);
    if names != "" then names
    else if profile.Some? && profile.value.email != "" then profile.value.email
    else if userEmail.Some? && userEmail.value != "" then userEmail.value
    else "Mon compte"
  }

  /** `[first, last].filter(Boolean).join(" ")`. */
  function JoinNames(first: string, last: string): string {
    if first != "" && last != "" then first + " " + last else first + last
  }

  /** The title for a loaded profile with both names is "first last"; with
      neither name it is the first non-empty email, or "Mon compte". */
  lemma DisplayNameCases(profile: Option<AccountProfile>, userEmail: Option<string>)
    ensures profile.Some? && profile.value.firstName != "" && profile.value.lastName != "" ==>
      DisplayName(profile, userEmail) == profile.value.firstName + " " + profile.value.lastName
    ensures profile.Some? && profile.value.firstName != "" && profile.value.lastName == "" ==>
      DisplayName(profile, userEmail) == profile.value.firstName
    ensures (profile.None? || (profile.value.firstName == "" && profile.value.lastName == "")) ==>
      DisplayName(profile, userEmail) ==
        if profile.Some? && profile.value.email != "" then profile.value.email
        else if userEmail.Some? && userEmail.value != "" then userEmail.value
        else "Mon compte"
  {
  }

  /** The colour of an order's status. */
  function StatusClassOf(s: Store.OrderStatus): (c: StatusClass)
    ensures c == Ok <==> s == Store.Paid || s == Store.Delivered
    ensures c == Danger <==> s == Store.Failed
    ensures c == Warn <==> s == Store.Pending || s == Store.Cancelled || s == Store.Shipped
  {
    match s
    case Paid | Delivered => Ok
    case Failed => Danger
    case Pending | Cancelled | Shipped => Warn
  }

  class Account {
    var profile: Option<AccountProfile>
    var form: ProfileForm
    var alert: Option<Alert>
    var saving: bool

    constructor()
      ensures profile.None? && form == ProfileForm("", "", "", "") && alert.None? && !saving
    {
      profile := None;
      form := ProfileForm("", "", "", "");
      alert := None;
      saving := false;
    }

    /** `handleSubmit`. Nothing happens before the profile is loaded; an
        empty payload raises an error alert and sends nothing; otherwise the
        payload is sent, and on success the new profile is kept and the
        password cleared before the session refresh. `update` is the server's
        answer, `refresh` how refreshing the session ended. */
    method HandleSubmit(update: Reply<AccountProfile>, refresh: Reply<()>) returns (sent: Option<UserDto.ProfileInput>)
      modifies this
      ensures old(profile).None? ==>
        sent.None? && profile == old(profile) && form == old(form) && alert == old(alert) && saving == old(saving)
      ensures old(profile).Some? && IsEmpty(Payload(old(form), old(profile).value)) ==>
        sent.None? && alert == Some(Alert(ErrorAlert, NothingToSave))
        && profile == old(profile) && form == old(form) && saving == old(saving)
      ensures old(profile).Some? && !IsEmpty(Payload(old(form), old(profile).value)) ==>
        sent == Some(Payload(old(form), old(profile).value)) && !saving
      ensures old(profile).Some? && !IsEmpty(Payload(old(form), old(profile).value)) && update.Done? ==>
        profile == Some(update.value) && form == old(form).(password := "")
        && alert == Some(if refresh.Done? then Alert(SuccessAlert, Saved)
                         else Alert(ErrorAlert, refresh.message.GetOr(SaveFailed)))
      ensures old(profile).Some? && !IsEmpty(Payload(old(form), old(profile).value)) && update.Thrown? ==>
        profile == old(profile) && form == old(form) && alert == Some(Alert(ErrorAlert, update.message.GetOr(SaveFailed)))
    {
      if profile.None? {
        return None;
      }
      var payload := Payload(form, profile.value);
      if IsEmpty(payload) {
        alert := Some(Alert(ErrorAlert, NothingToSave));
        return None;
      }
      sent := Some(payload);
      saving := true;
      match update {
        case Done(updated) =>
          profile := Some(updated);
          form := form.(password := "");
          match refresh {
            case Done(_) => alert := Some(Alert(SuccessAlert, Saved));
            case Thrown(message) => alert := Some(Alert(ErrorAlert, message.GetOr(SaveFailed)));
          }
        case Thrown(message) =>
          alert := Some(Alert(ErrorAlert, message.GetOr(SaveFailed)));
      }
      saving := false;
    }
  }
}
