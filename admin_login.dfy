/** The admin login page (src/pages/AdminLogin.jsx): a two-field form checked
    against one fixed account. */
module AdminLogin {
  import opened Wrappers

  datatype LoginForm = LoginForm(username: string, password: string)

  /** The two inputs; each names the field it writes. */
  datatype LoginField = Username | Password

  const AdminUsername: string := "admin"
  const AdminPassword: string := "1234"

  /** Where a successful login leads. */
  const Dashboard: string := "/admin/dashboard"

  const WrongCredentials: string := "Username atau password salah!"

  /** `handleChange`: the named field takes the value, the other stays. */
  function SetField(f: LoginForm, field: LoginField, value: string): (g: LoginForm)
    ensures field == Username ==> g == LoginForm(value, f.password)
    ensures field == Password ==> g == LoginForm(f.username, value)
  {
    match field
    case Username => f.(username := value)
    case Password => f.(password := value)
  }

  /** The credential check of `handleSubmit`: exact, case-sensitive
      comparison with the one account, untrimmed. */
  predicate Accepted(f: LoginForm) {
    f.username == AdminUsername && f.password == AdminPassword
  }

  /** Exactly one form is accepted. */
  lemma OnlyTheAdminAccount(f: LoginForm)
    ensures Accepted(f) <==> f == LoginForm("admin", "1234")
  {
  }

  /** Typing the two credentials into an empty form, in either order, gives
      the form the check accepts. */
  lemma TypingCredentialsLogsIn(f: LoginForm)
    ensures Accepted(SetField(SetField(f, Username, "admin"), Password, "1234"))
    ensures Accepted(SetField(SetField(f, Password, "1234"), Username, "admin"))
  {
  }

  class AdminLoginPage {
    var formData: LoginForm
    var error: string

    constructor ()
      ensures formData == LoginForm("", "") && error == ""
    {
      formData := LoginForm("", "");
      error := "";
    }

    /** `handleChange`. */
    method HandleChange(field: LoginField, value: string)
      modifies this`formData
      ensures formData == SetField(old(formData), field, value)
    {
      formData := SetField(formData, field, value);
    }

    /** `handleSubmit`, returning where it navigates: the dashboard with the
      error cleared when the credentials are the admin's, otherwise nowhere
      and the error message. */
    method HandleSubmit() returns (target: Option<string>)
      modifies this`error
      ensures target.Some? <==> Accepted(formData)
      ensures Accepted(formData) ==> target == Some(Dashboard) && error == ""
      ensures !Accepted(formData) ==> error == WrongCredentials
    {
      if Accepted(formData) {
        error := "";
        target := Some(Dashboard);
      } else {
        error := WrongCredentials;
        target := None;
      }
    }
  }
}
