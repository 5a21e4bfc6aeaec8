/** The login form (components/LoginPage.tsx): any non-empty e-mail and
    password log in; otherwise a fixed error message is shown. */
module LoginPage {

  const MissingCredentialsMessage := "Por favor, preencha o e-mail e a senha."

  class LoginForm {
    var email: string
    var password: string
    var error: string

    constructor ()
      ensures email == "" && password == "" && error == ""
    {
      email := "";
      password := "";
      error := "";
    }

    method SetEmail(s: string)
      modifies this
      ensures email == s && password == old(password) && error == old(error)
    {
      email := s;
    }

    method SetPassword(s: string)
      modifies this
      ensures password == s && email == old(email) && error == old(error)
    {
      password := s;
    }

    /** `{error && <p>…</p>}`: the error line is shown when it is non-empty. */
    predicate ShowsError()
      reads this
      ensures error == MissingCredentialsMessage ==> ShowsError()
      ensures error == "" ==> !ShowsError()
    {
      error != ""
    }

    /** `handleFormSubmit`: `loginCalled` says whether `onLogin` fired. */
    method HandleFormSubmit() returns (loginCalled: bool)
      modifies this
      ensures loginCalled <==> email != "" && password != ""
      ensures error == if loginCalled then "" else MissingCredentialsMessage
      ensures ShowsError() <==> !loginCalled
      ensures email == old(email) && password == old(password)
    {
      if email != "" && password != "" {
        error := "";
        loginCalled := true;
      } else {
        error := MissingCredentialsMessage;
        loginCalled := false;
      }
    }
  }
}
