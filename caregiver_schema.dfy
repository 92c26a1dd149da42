/** The caregiver form schemas (src/schemas/caregiver.ts): the invitation
    an organisation sends, and the form a caregiver fills in to accept it. */
module CaregiverSchema {
  import opened Common
  import opened ZodRules

  const PasswordsDiffer := "Passwords do not match"

  /** `InviteCaregiverSchema`'s input. */
  datatype InviteCaregiverData = InviteCaregiverData(email: string, role: string)

  function ParseInviteCaregiver(d: InviteCaregiverData, isEmail: string -> bool): (r: Result<InviteCaregiverData, seq<Issue>>)
    ensures r.Ok? <==> isEmail(d.email) && d.role != ""
    ensures r.Ok? ==> r.value == d
    ensures r.Err? && d.role == "" ==> Issue("role", "Caregiver's role is required") in r.error
  {
    Parse(Email(d.email, isEmail, "email", "Invalid email format")
      + Min(d.role, 1, "role", "Caregiver's role is required"), d)
  }

  /** `caregiverAcceptOrganizationInvitationSchema`'s input. */
  datatype AcceptInvitationData = AcceptInvitationData(
    firstName: string, lastName: string, password: string, passwordConfirmation: string)

  /** Names of 1 to 100 characters, passwords of 8 to 128. */
  predicate WithinBounds(d: AcceptInvitationData) {
    && 1 <= |d.firstName| <= 100 && 1 <= |d.lastName| <= 100
    && 8 <= |d.password| <= 128 && 8 <= |d.passwordConfirmation| <= 128
  }

  function AcceptInvitationIssues(d: AcceptInvitationData): seq<Issue> {
    Min(d.firstName, 1, "first_name", "First name is required")
      + Max(d.firstName, 100, "first_name", "First name is too long")
      + Min(d.lastName, 1, "last_name", "Last name is required")
      + Max(d.lastName, 100, "last_name", "Last name is too long")
      + Min(d.password, 8, "password", "Password must be at least 8 characters")
      + Max(d.password, 128, "password", "Password is too long")
      + Min(d.passwordConfirmation, 8, "password_confirmation", "Password confirmation must be at least 8 characters")
      + Max(d.passwordConfirmation, 128, "password_confirmation", "Password confirmation is too long")
      + Check(d.password == d.passwordConfirmation, "password_confirmation", PasswordsDiffer)
  }

  function ParseAcceptInvitation(d: AcceptInvitationData): (r: Result<AcceptInvitationData, seq<Issue>>)
    ensures r.Ok? <==> WithinBounds(d) && d.password == d.passwordConfirmation
    ensures r.Ok? ==> r.value == d
  {
    Parse(AcceptInvitationIssues(d), d)
  }

  /** The mismatch is reported at `password_confirmation` exactly when the
      two passwords differ, whatever else is wrong. */
  lemma {:induction false} MismatchReported(d: AcceptInvitationData)
    ensures ReportedAt(AcceptInvitationIssues(d), "password_confirmation", PasswordsDiffer) <==>
      d.password != d.passwordConfirmation
  {
    var fields :=
      Min(d.firstName, 1, "first_name", "First name is required")
      + Max(d.firstName, 100, "first_name", "First name is too long")
      + Min(d.lastName, 1, "last_name", "Last name is required")
      + Max(d.lastName, 100, "last_name", "Last name is too long")
      + Min(d.password, 8, "password", "Password must be at least 8 characters")
      + Max(d.password, 128, "password", "Password is too long")
      + Min(d.passwordConfirmation, 8, "password_confirmation", "Password confirmation must be at least 8 characters")
      + Max(d.passwordConfirmation, 128, "password_confirmation", "Password confirmation is too long");
    assert forall i :: 0 <= i < |fields| ==> fields[i].message != PasswordsDiffer;
    assert AcceptInvitationIssues(d) == fields + Check(d.password == d.passwordConfirmation, "password_confirmation", PasswordsDiffer);
  }
}
