/**
 * The sign-up form (src/pages/RegisterPage.tsx): its validation schema, the phone rule it
 * shares with the profile form, and the mapping from form values to the registration body.
 * Email syntax is decided by the validation library; here it is the parameter `emailOk`.
 */
module Register {
  import opened Wrappers
  import opened Text
  import opened Types

  // ---------------------------------------------------------------- the phone rule

  /**
   * `\d{min,max}$` anchored at the end: between `min` and `max` ASCII digits and nothing else,
   * consumed one character at a time as the regular expression does.
   */
  predicate DigitRun(s: string, min: nat, max: nat)
    decreases |s|
  {
    if s == [] then min == 0
    else IsDigit(s[0]) && max > 0 && DigitRun(s[1..], if min == 0 then 0 else min - 1, max - 1)
  }

  /** `^\+[1-9]\d{6,19}$`. */
  predicate PhoneRegex(s: string) {
    |s| >= 2 && s[0] == '+' && '1' <= s[1] <= '9' && DigitRun(s[2..], 6, 19)
  }

  /** A bounded digit run is exactly a digit string whose length lies in the bounds. */
  lemma {:induction false} DigitRunIff(s: string, min: nat, max: nat)
    ensures DigitRun(s, min, max) <==> min <= |s| <= max && AllDigits(s)
    decreases |s|
  {
    if s != [] && max > 0 {
      DigitRunIff(s[1..], if min == 0 then 0 else min - 1, max - 1);
      if AllDigits(s) {
        assert AllDigits(s[1..]);
      }
      if IsDigit(s[0]) && AllDigits(s[1..]) {
        assert forall i :: 0 <= i < |s| ==> IsDigit(s[i]) by {
          forall i | 0 <= i < |s| ensures IsDigit(s[i]) {
            if i > 0 { assert s[i] == s[1..][i - 1]; }
          }
        }
      }
    }
  }

  /**
   * The phone rule in plain terms: "+", a digit 1-9, then only digits, 8 to 21 characters in
   * all — up to 20 digits, more than the 15 that ITU-T Recommendation E.164 allows.
   */
  lemma PhoneRegexIff(s: string)
    ensures PhoneRegex(s) <==>
      8 <= |s| <= 21 && s[0] == '+' && '1' <= s[1] <= '9' && AllDigits(s[2..])
  {
    if |s| >= 2 {
      DigitRunIff(s[2..], 6, 19);
    }
  }

  /** The placeholder number the pages show is accepted. */
  lemma PlaceholderAccepted()
    ensures PhoneRegex("+919876543210")
  {
    var s := "+919876543210";
    assert |s| == 13 && s[0] == '+' && s[1] == '9';
    forall i | 2 <= i < |s| ensures IsDigit(s[i]) {
    }
    assert forall i :: 0 <= i < |s| - 2 ==> s[2..][i] == s[i + 2];
    PhoneRegexIff(s);
  }

  /** Numbers of 16 to 20 digits, beyond the 15 digits of E.164, are accepted. */
  lemma LongerThanE164Accepted(s: string)
    requires 17 <= |s| <= 21 && s[0] == '+' && '1' <= s[1] <= '9' && AllDigits(s[2..])
    ensures PhoneRegex(s) && |s| - 1 > 15
  {
    PhoneRegexIff(s);
  }

  /** A leading zero, too few digits, or a missing plus are refused. */
  lemma MalformedRejected()
    ensures !PhoneRegex("+0123456789") && !PhoneRegex("+123456") && !PhoneRegex("919876543210")
  {
  }

  /** `.optional().or(z.literal(""))` around the phone regex: left out, empty, or well formed. */
  predicate PhoneFieldOk(phone: Option<string>) {
    phone.None? || phone.value == [] || PhoneRegex(phone.value)
  }

  /** The same wrapper around an email check. */
  predicate OptionalEmailOk(email: Option<string>, emailOk: string -> bool) {
    email.None? || email.value == [] || emailOk(email.value)
  }

  // ---------------------------------------------------------------- the form

  datatype RegisterForm = RegisterForm(
    name: string,
    email: string,
    password: string,
    role: Role,
    whatsappPhone: Option<string>,
    caregiverEmail: Option<string>)

  datatype RegisterRequest = RegisterRequest(
    email: string,
    password: string,
    name: string,
    role: Role,
    whatsappPhone: Option<string>,
    caregiverEmail: Option<string>)

  /** The form starts with only the role set, to PATIENT. */
  function InitialForm(): (f: RegisterForm)
    ensures f.role == Patient && f.whatsappPhone.None? && f.caregiverEmail.None?
  {
    RegisterForm([], [], [], Patient, None, None)
  }

  /** The schema: name of at least 2 characters, a valid email, a password of at least 8, and the optional fields. */
  predicate RegisterValid(f: RegisterForm, emailOk: string -> bool) {
    |f.name| >= 2 && emailOk(f.email) && |f.password| >= 8
    && PhoneFieldOk(f.whatsappPhone) && OptionalEmailOk(f.caregiverEmail, emailOk)
  }

  /** The untouched form never validates: the name is too short. */
  lemma InitialFormInvalid(emailOk: string -> bool)
    ensures !RegisterValid(InitialForm(), emailOk)
  {
  }

  /** The caregiver inputs are shown only while PATIENT is selected. */
  function CaregiverShown(role: Role): (r: bool)
    ensures r <==> role == Patient
  {
    role.Patient?
  }

  /** `onSubmit`: every field as typed, except that an empty phone or caregiver email is left out. */
  function RegisterPayload(f: RegisterForm): (r: RegisterRequest)
    ensures r.name == f.name && r.email == f.email && r.password == f.password && r.role == f.role
    ensures r.whatsappPhone.Some? <==> Truthy(f.whatsappPhone)
    ensures r.caregiverEmail.Some? <==> Truthy(f.caregiverEmail)
    ensures r.whatsappPhone.Some? ==> r.whatsappPhone == f.whatsappPhone
    ensures r.caregiverEmail.Some? ==> r.caregiverEmail == f.caregiverEmail
  {
    RegisterRequest(f.email, f.password, f.name, f.role,
      EmptyToNone(f.whatsappPhone.GetOr([])), EmptyToNone(f.caregiverEmail.GetOr([])))
  }

  /** A body built from a valid form carries a phone only when it is well formed, and an email only when it passes the check. */
  lemma ValidPayloadFields(f: RegisterForm, emailOk: string -> bool)
    requires RegisterValid(f, emailOk)
    ensures var r := RegisterPayload(f);
      (r.whatsappPhone.Some? ==> PhoneRegex(r.whatsappPhone.value))
      && (r.caregiverEmail.Some? ==> emailOk(r.caregiverEmail.value))
      && |r.name| >= 2 && |r.password| >= 8
  {
  }

  /**
   * Hiding the caregiver section does not clear it: a caregiver email typed while PATIENT was
   * selected is still sent after switching to DOCTOR.
   */
  lemma DoctorMayCarryCaregiver(f: RegisterForm)
    requires f.role == Doctor && Truthy(f.caregiverEmail)
    ensures !CaregiverShown(f.role) && RegisterPayload(f).caregiverEmail == f.caregiverEmail
  {
  }
}
