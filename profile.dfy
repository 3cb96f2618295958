/**
 * The profile page (src/pages/ProfilePage.tsx): the edit form's schema, its values taken from
 * the signed-in user, the update body it sends, and the guard on the disconnect button.
 */
module Profile {
  import opened Wrappers
  import opened Text
  import opened Types
  import opened Register

  datatype ProfileForm = ProfileForm(name: string, caregiverEmail: Option<string>, whatsappPhone: Option<string>)

  /** The update body: a null clears a field on the server, so "" is sent as null, never left out. */
  datatype ProfileUpdateRequest = ProfileUpdateRequest(
    name: string,
    caregiverEmail: Nullable<string>,
    whatsappPhone: Nullable<string>)

  /** The schema: a non-empty name, an optional caregiver email, and the registration phone rule. */
  predicate ProfileValid(f: ProfileForm, emailOk: string -> bool) {
    |f.name| >= 1 && OptionalEmailOk(f.caregiverEmail, emailOk) && PhoneFieldOk(f.whatsappPhone)
  }

  /** The form's values: the user's name, and "" for a caregiver or phone the user does not have. */
  function InitialValues(user: SafeUser): (f: ProfileForm)
    ensures f.name == user.name
    ensures f.caregiverEmail.Some? && f.whatsappPhone.Some?
    ensures user.caregiverEmail.None? ==> f.caregiverEmail == Some([])
    ensures user.whatsappPhone.None? ==> f.whatsappPhone == Some([])
    ensures user.caregiverEmail.Some? ==> f.caregiverEmail == user.caregiverEmail
    ensures user.whatsappPhone.Some? ==> f.whatsappPhone == user.whatsappPhone
  {
    ProfileForm(user.name, Some(user.caregiverEmail.GetOr([])), Some(user.whatsappPhone.GetOr([])))
  }

  /** `value || null`. */
  function EmptyToNull(o: Option<string>): (r: Nullable<string>)
    ensures r.Null? <==> !Truthy(o)
    ensures r.Present? ==> o == Some(r.value)
    ensures !r.Absent?
  {
    if Truthy(o) then Present(o.value) else Null
  }

  /** Submit: the name as typed; an empty caregiver or phone is sent as an explicit null. */
  function UpdateBody(f: ProfileForm): (r: ProfileUpdateRequest)
    ensures r.name == f.name
    ensures r.caregiverEmail == EmptyToNull(f.caregiverEmail)
    ensures r.whatsappPhone == EmptyToNull(f.whatsappPhone)
  {
    ProfileUpdateRequest(f.name, EmptyToNull(f.caregiverEmail), EmptyToNull(f.whatsappPhone))
  }

  /**
   * Editing only the name enables Save exactly when the name changed, and the body then
   * sends the new name with the user's own caregiver email and phone, a missing or empty one
   * as null; nothing is left out of the body.
   */
  lemma NameOnlyEditEchoesUser(user: SafeUser, name: string)
    ensures var f := InitialValues(user).(name := name);
      SaveEnabled(f, user) <==> name != user.name
    ensures var r := UpdateBody(InitialValues(user).(name := name));
      r.name == name
      && (r.caregiverEmail.Null? <==> !Truthy(user.caregiverEmail))
      && (r.whatsappPhone.Null? <==> !Truthy(user.whatsappPhone))
      && (Truthy(user.caregiverEmail) ==> r.caregiverEmail == Present(user.caregiverEmail.value))
      && (Truthy(user.whatsappPhone) ==> r.whatsappPhone == Present(user.whatsappPhone.value))
  {
  }

  /**
   * The form as loaded passes the schema exactly when the stored user does: an absent
   * caregiver email or phone loads as "", which the schema accepts like an absent one.
   */
  lemma InitialFormValidIff(user: SafeUser, emailOk: string -> bool)
    ensures ProfileValid(InitialValues(user), emailOk)
      <==> |user.name| >= 1 && OptionalEmailOk(user.caregiverEmail, emailOk) && PhoneFieldOk(user.whatsappPhone)
  {
  }

  /** Save is enabled only once the form differs from the values it was loaded with. */
  function SaveEnabled(current: ProfileForm, user: SafeUser): (r: bool)
    ensures r <==> current != InitialValues(user)
  {
    current != InitialValues(user)
  }

  /** The confirm button disconnects only a target link that has a doctor id, and sends that id. */
  function DisconnectRequest(target: Option<DoctorLink>): (r: Option<string>)
    ensures r.Some? <==> target.Some? && target.value.doctorId != []
    ensures r.Some? ==> r.value == target.value.doctorId
  {
    if target.Some? && target.value.doctorId != [] then Some(target.value.doctorId) else None
  }
}
