/** The login page: both fields required, then one login request. */
module Login {
  import opened Common
  import opened AuthApi

  const FieldsRequired := "Veuillez renseigner email et mot de passe."
  const LoginFailed := "Échec de la connexion"
  const NetworkError := "Erreur réseau"

  /** `!email || !password`: the message exactly when a field is empty
      (fields are not trimmed here). */
  function Validate(email: string, password: string): (r: Option<string>)
    ensures r.None? <==> email != "" && password != ""
    ensures r.Some? ==> r.value == FieldsRequired
  {
    if email == "" || password == "" then Some(FieldsRequired) else None
  }

  /** The state of the `Login` page (the inputs' `onChange` handlers assign the fields). */
  class LoginPage {
    var email: string
    var password: string
    var loading: bool
    var error: string

    constructor ()
      ensures email == "" && password == "" && !loading && error == ""
    {
      email, password, loading, error := "", "", false, "";
    }

    /** `handleSubmit`: an empty field sets the required-fields message and
        returns before any request and before `loading` is set. Otherwise one
        login request is sent; a failed reply shows the server's error or the
        fixed fallback, an unreadable one the network message, and a success
        hands the token to `login` and leaves no error. `loading` ends false. */
    method HandleSubmit(reply: AuthReply) returns (effects: seq<AuthEffect>)
      modifies this`loading, this`error
      ensures Validate(email, password).Some? ==>
                effects == [] && error == FieldsRequired && loading == old(loading)
      ensures Validate(email, password).None? ==>
                && !loading && |effects| >= 1 && effects[0] == LoginRequest(email, password)
                && (reply.NoReply? ==> |effects| == 1 && error == NetworkError)
                && (reply.Answered? && !IsOk(reply.status) ==>
                      |effects| == 1 && error == ServerErrorOr(reply.body, LoginFailed))
                && (Succeeded(reply) ==> effects == [effects[0], StoreToken(reply.body.token)] && error == "")
    {
      error := "";
      effects := [];
      var check := Validate(email, password);
      if check.Some? {
        error := check.value;
        return;
      }
      loading := true;
      effects := [LoginRequest(email, password)];
      match reply {
        case NoReply =>
          error := NetworkError;
        case Answered(status, body) =>
          if !IsOk(status) {
            error := ServerErrorOr(body, LoginFailed);
          } else {
            effects := effects + [StoreToken(body.token)];
          }
      }
      loading := false;
    }
  }
}
