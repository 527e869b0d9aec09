/**
 * The sign-in page (client/src/pages/auth-page.tsx): the login and registration form
 * validators, the payload sent on registration, and the redirect of a signed-in user.
 */
module AuthPage {
  import opened Wrappers
  import opened Schema

  datatype Field = Username | Password | ConfirmPassword | Name

  /** One validation message, attached to the field it is shown under. */
  datatype FieldError = FieldError(field: Field, message: string)

  const ShortUsername := FieldError(Username, "Username must be at least 3 characters")
  const ShortPassword := FieldError(Password, "Password must be at least 6 characters")
  const MissingConfirmation := FieldError(ConfirmPassword, "Please confirm your password")
  const ShortName := FieldError(Name, "Name must be at least 2 characters")
  const PasswordMismatch := FieldError(ConfirmPassword, "Passwords do not match")

  /** The issues `loginFormSchema` reports, field by field. */
  function LoginFormErrors(d: LoginData): (r: seq<FieldError>)
    ensures r == [] <==> ValidLogin(d)
    ensures ShortUsername in r <==> |d.username| < 3
    ensures ShortPassword in r <==> |d.password| < 6
    ensures forall e :: e in r ==> e.field == Username || e.field == Password
  {
    (if |d.username| < 3 then [ShortUsername] else []) +
    (if |d.password| < 6 then [ShortPassword] else [])
  }

  datatype RegisterForm = RegisterForm(username: string, password: string, confirmPassword: string, name: string)

  /**
   * The issues `registerFormSchema` reports. The length rules only mark the form dirty, so the
   * password-equality refinement is checked as well and its message goes on `confirmPassword`.
   */
  function RegisterFormErrors(f: RegisterForm): (r: seq<FieldError>)
    ensures r == [] <==>
      |f.username| >= 3 && |f.password| >= 6 && |f.confirmPassword| >= 1 && |f.name| >= 2 &&
      f.password == f.confirmPassword
    ensures PasswordMismatch in r <==> f.password != f.confirmPassword
    ensures ShortName in r <==> |f.name| < 2
    ensures MissingConfirmation in r <==> f.confirmPassword == ""
  {
    (if |f.username| < 3 then [ShortUsername] else []) +
    (if |f.password| < 6 then [ShortPassword] else []) +
    (if |f.confirmPassword| < 1 then [MissingConfirmation] else []) +
    (if |f.name| < 2 then [ShortName] else []) +
    (if f.password != f.confirmPassword then [PasswordMismatch] else [])
  }

  /** `onRegisterSubmit`: the form without `confirmPassword`, which is exactly the user insert shape. */
  function RegisterPayload(f: RegisterForm): (r: InsertUser)
    ensures r.username == f.username && r.password == f.password && r.name == f.name
  {
    InsertUser(f.username, f.password, f.name)
  }

  /** Whoever registers through the form can later pass the login validator with the same credentials. */
  lemma RegisteredCredentialsPassLogin(f: RegisterForm)
    requires RegisterFormErrors(f) == []
    ensures LoginFormErrors(LoginData(RegisterPayload(f).username, RegisterPayload(f).password)) == []
  {
  }

  /** A mismatched confirmation is refused even when every length rule holds. */
  lemma MismatchAloneRefuses(f: RegisterForm)
    requires |f.username| >= 3 && |f.password| >= 6 && |f.confirmPassword| >= 1 && |f.name| >= 2
    requires f.password != f.confirmPassword
    ensures RegisterFormErrors(f) == [PasswordMismatch]
  {
  }

  datatype AuthView = RedirectTo(path: string) | ShowForms

  /** A signed-in user is sent to the dashboard and sees no form. */
  function View(user: Option<User>): (r: AuthView)
    ensures r == ShowForms <==> user.None?
    ensures user.Some? ==> r == RedirectTo("/")
  {
    if user.Some? then RedirectTo("/") else ShowForms
  }
}
