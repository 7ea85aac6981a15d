/** The login form: two credential fields, an error message, and a fixed
    administrator account checked in the browser. `onLogin` is modelled by
    the flag `HandleSubmit` returns. */
module Login {

  datatype Credentials = Credentials(username: string, password: string)

  const AdminUsername: string := "admin"
  const AdminPassword: string := "admin123"
  const InvalidMessage: string := "Invalid credentials. Use admin/admin123"

  /** Exact, case-sensitive comparison of both fields, with no trimming. */
  predicate Authentic(c: Credentials)
  {
    c.username == AdminUsername && c.password == AdminPassword
  }

  /** The `error` state a submit leaves: empty exactly when the credentials
      are accepted, the fixed message otherwise. */
  function ErrorAfterSubmit(c: Credentials): (e: string)
    ensures e == "" <==> Authentic(c)
    ensures !Authentic(c) ==> e == InvalidMessage
  {
    if Authentic(c) then "" else InvalidMessage
  }

  class LoginForm {
    var credentials: Credentials
    var error: string

    constructor ()
      ensures credentials == Credentials("", "") && error == ""
    {
      credentials := Credentials("", "");
      error := "";
    }

    /** The username input's `onChange`: the password is kept. */
    method SetUsername(username: string)
      modifies this`credentials
      ensures credentials == Credentials(username, old(credentials).password)
    {
      credentials := credentials.(username := username);
    }

    /** The password input's `onChange`: the username is kept. */
    method SetPassword(password: string)
      modifies this`credentials
      ensures credentials == Credentials(old(credentials).username, password)
    {
      credentials := credentials.(password := password);
    }

    /** `handleSubmit`: on the admin account clear `error` and call `onLogin`
        once (`loggedIn`); otherwise set the fixed message and do not call it. */
    method HandleSubmit() returns (loggedIn: bool)
      modifies this`error
      ensures loggedIn <==> Authentic(credentials)
      ensures error == ErrorAfterSubmit(credentials)
    {
      if Authentic(credentials) {
        error := "";
        loggedIn := true;
      } else {
        error := InvalidMessage;
        loggedIn := false;
      }
    }
  }
}
