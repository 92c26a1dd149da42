/** The authentication form schemas (src/schemas/auth/auth-schema.ts):
    which inputs each accepts, the issues it reports otherwise, and the
    value it parses to. */
module AuthSchema {
  import opened Common
  import opened ZodRules

  const PasswordTooShort := "Password must be at least 8 characters"
  const PasswordNoUpper := "Password must contain at least one uppercase letter"
  const PasswordNoLower := "Password must contain at least one lowercase letter"
  const PasswordNoDigit := "Password must contain at least one number"
  const InvalidEmail := "Invalid email address"
  const PasswordsDiffer := "Passwords don't match"

  /** The password rule shared by signup, new and changed passwords:
      at least 8 characters, with an upper-case letter, a lower-case letter
      and a digit. */
  predicate StrongPassword(p: string) {
    |p| >= 8 && HasUpper(p) && HasLower(p) && HasDigit(p)
  }

  /** The issues of the shared password rule, one per failing check, in the
      order the checks are written. */
  function PasswordIssues(p: string, path: string): (r: seq<Issue>)
    ensures r == [] <==> StrongPassword(p)
    ensures forall i :: 0 <= i < |r| ==> r[i].path == path
    ensures ReportedAt(r, path, PasswordTooShort) <==> |p| < 8
    ensures ReportedAt(r, path, PasswordNoUpper) <==> !HasUpper(p)
    ensures ReportedAt(r, path, PasswordNoLower) <==> !HasLower(p)
    ensures ReportedAt(r, path, PasswordNoDigit) <==> !HasDigit(p)
  {
    Min(p, 8, path, PasswordTooShort)
      + Check(HasUpper(p), path, PasswordNoUpper)
      + Check(HasLower(p), path, PasswordNoLower)
      + Check(HasDigit(p), path, PasswordNoDigit)
  }

  /** `OrganizationSignupSchema`'s input and parsed value. */
  datatype OrganizationSignupData = OrganizationSignupData(
    name: string, email: string, password: string, acronym: string,
    phone: Option<string>, address: Option<string>)

  function SignupIssues(d: OrganizationSignupData, isEmail: string -> bool): seq<Issue> {
    Min(d.name, 2, "name", "Organization name must be at least 2 characters")
      + Email(d.email, isEmail, "email", InvalidEmail)
      + PasswordIssues(d.password, "password")
      + Min(d.acronym, 2, "acronym", "Acronym must be at least 2 characters")
      + Max(d.acronym, 10, "acronym", "Acronym must not exceed 10 characters")
  }

  /** `OrganizationSignupSchema.safeParse`: the acronym is upper-cased in
      the parsed value; the optional phone and address pass through. */
  function ParseOrganizationSignup(d: OrganizationSignupData, isEmail: string -> bool): (r: Result<OrganizationSignupData, seq<Issue>>)
    ensures r.Ok? <==>
      |d.name| >= 2 && isEmail(d.email) && StrongPassword(d.password) && 2 <= |d.acronym| <= 10
    ensures r.Ok? ==> r.value == d.(acronym := UpperString(d.acronym))
  {
    Parse(SignupIssues(d, isEmail), d.(acronym := UpperString(d.acronym)))
  }

  /** `LoginSchema`'s input; `remember_me` is optional. */
  datatype LoginData = LoginData(email: string, password: string, rememberMe: Option<bool>)

  function ParseLogin(d: LoginData, isEmail: string -> bool): (r: Result<LoginData, seq<Issue>>)
    ensures r.Ok? <==> isEmail(d.email) && d.password != ""
    ensures r.Ok? ==> r.value == d
  {
    Parse(Email(d.email, isEmail, "email", InvalidEmail)
      + Min(d.password, 1, "password", "Password is required"), d)
  }

  /** `ForgotPasswordSchema`. */
  function ParseForgotPassword(email: string, isEmail: string -> bool): (r: Result<string, seq<Issue>>)
    ensures r.Ok? <==> isEmail(email)
    ensures r.Err? ==> r.error == [Issue("email", InvalidEmail)]
  {
    Parse(Email(email, isEmail, "email", InvalidEmail), email)
  }

  /** `SetNewPasswordSchema`'s input. */
  datatype SetNewPasswordData = SetNewPasswordData(newPassword: string, confirmPassword: string)

  function SetNewPasswordIssues(d: SetNewPasswordData): seq<Issue> {
    PasswordIssues(d.newPassword, "new_password")
      + Check(d.newPassword == d.confirmPassword, "confirm_password", PasswordsDiffer)
  }

  function ParseSetNewPassword(d: SetNewPasswordData): (r: Result<SetNewPasswordData, seq<Issue>>)
    ensures r.Ok? <==> StrongPassword(d.newPassword) && d.newPassword == d.confirmPassword
    ensures r.Ok? ==> r.value == d
  {
    Parse(SetNewPasswordIssues(d), d)
  }

  /** `VerifyAccountSchema`: a non-empty token. */
  function ParseVerifyAccount(token: string): (r: Result<string, seq<Issue>>)
    ensures r.Ok? <==> token != ""
    ensures r.Err? ==> r.error == [Issue("token", "Verification token is required")]
  {
    Parse(Min(token, 1, "token", "Verification token is required"), token)
  }

  /** `ChangePasswordSchema`'s input. */
  datatype ChangePasswordData = ChangePasswordData(currentPassword: string, newPassword: string, confirmNewPassword: string)

  function ChangePasswordIssues(d: ChangePasswordData): seq<Issue> {
    Min(d.currentPassword, 1, "current_password", "Current password is required")
      + PasswordIssues(d.newPassword, "new_password")
      + Check(d.newPassword == d.confirmNewPassword, "confirm_new_password", PasswordsDiffer)
  }

  function ParseChangePassword(d: ChangePasswordData): (r: Result<ChangePasswordData, seq<Issue>>)
    ensures r.Ok? <==>
      d.currentPassword != "" && StrongPassword(d.newPassword) && d.newPassword == d.confirmNewPassword
    ensures r.Ok? ==> r.value == d
  {
    Parse(ChangePasswordIssues(d), d)
  }

  /** The set-new-password mismatch is reported at `confirm_password`
      exactly when the two passwords differ, also when the new password
      breaks the rule, and only there. */
  lemma {:induction false} SetNewPasswordMismatch(d: SetNewPasswordData)
    ensures ReportedAt(SetNewPasswordIssues(d), "confirm_password", PasswordsDiffer) <==>
      d.newPassword != d.confirmPassword
    ensures forall i :: 0 <= i < |SetNewPasswordIssues(d)| ==>
      SetNewPasswordIssues(d)[i].path in {"new_password", "confirm_password"}
  {
    var pw := PasswordIssues(d.newPassword, "new_password");
    var refine := Check(d.newPassword == d.confirmPassword, "confirm_password", PasswordsDiffer);
    assert Issue("confirm_password", PasswordsDiffer) !in pw;
    assert SetNewPasswordIssues(d) == pw + refine;
  }

  /** The change-password mismatch is reported at `confirm_new_password`
      exactly when the new passwords differ, and a missing current password
      is reported on its own field. */
  lemma {:induction false} ChangePasswordMismatch(d: ChangePasswordData)
    ensures ReportedAt(ChangePasswordIssues(d), "confirm_new_password", PasswordsDiffer) <==>
      d.newPassword != d.confirmNewPassword
    ensures ReportedAt(ChangePasswordIssues(d), "current_password", "Current password is required") <==>
      d.currentPassword == ""
  {
    var cur := Min(d.currentPassword, 1, "current_password", "Current password is required");
    var pw := PasswordIssues(d.newPassword, "new_password");
    var refine := Check(d.newPassword == d.confirmNewPassword, "confirm_new_password", PasswordsDiffer);
    var mismatch := Issue("confirm_new_password", PasswordsDiffer);
    var missing := Issue("current_password", "Current password is required");
    assert ChangePasswordIssues(d) == cur + pw + refine;
    assert mismatch !in cur && mismatch !in pw;
    assert missing !in pw && missing !in refine;
  }

  /** The parsed acronym is upper case throughout: parsing it again does
      not change it. */
  lemma {:induction false} ParsedAcronymIsStable(d: OrganizationSignupData, isEmail: string -> bool)
    requires ParseOrganizationSignup(d, isEmail).Ok?
    ensures ParseOrganizationSignup(ParseOrganizationSignup(d, isEmail).value, isEmail)
      == ParseOrganizationSignup(d, isEmail)
  {
    var v := ParseOrganizationSignup(d, isEmail).value;
    assert UpperString(UpperString(d.acronym)) == UpperString(d.acronym);
    assert v.(acronym := UpperString(v.acronym)) == v;
  }
}
