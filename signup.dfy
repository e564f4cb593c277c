/** The signup page: ordered field checks, then registration followed by an
    automatic login. */
module Signup {
  import opened Common
  import opened Text
  import opened AuthApi

  const NameRequired := "Le nom est requis."
  const EmailRequired := "L'email est requis."
  const PasswordRequired := "Le mot de passe est requis."
  const PasswordTooShort := "Le mot de passe doit contenir au moins 6 caractères."
  const PasswordMismatch := "Les mots de passe ne correspondent pas."
  const AutoLoginFailed := "Inscription réussie mais connexion automatique impossible. Connecte-toi manuellement."
  const NetworkError := "Erreur réseau, réessaie."

  const RegisterFailedPrefix := "Erreur inscription ("

  /** `Erreur inscription (${regRes.status})`: the fixed prefix, then the
      status in decimal, then a closing parenthesis. */
  function RegisterFailed(status: nat): (m: string)
    ensures |RegisterFailedPrefix| < |m| - 1 && m[..|RegisterFailedPrefix|] == RegisterFailedPrefix
    ensures m[|m| - 1] == ')'
    ensures var digits := m[|RegisterFailedPrefix|..|m| - 1];
            && AllDigits(digits) && DigitsValue(digits) == status
            && (|digits| == 1 || digits[0] != '0')
  {
    var m := RegisterFailedPrefix + Decimal(status) + ")";
    assert m[|RegisterFailedPrefix|..|m| - 1] == Decimal(status);
    m
  }

  /** The fields a registration may be sent with: a name and an email that
      are not blank, a password of at least six characters, confirmed. */
  predicate Acceptable(name: string, email: string, password: string, confirm: string)
  {
    !IsBlank(name) && !IsBlank(email) && |password| >= 6 && password == confirm
  }

  /** The checks of `handleSubmit`, in order; the first that fails gives the
      message, and there is none exactly when the fields are acceptable. */
  function Validate(name: string, email: string, password: string, confirm: string): (r: Option<string>)
    ensures r.None? <==> Acceptable(name, email, password, confirm)
  {
    if IsBlank(name) then Some(NameRequired)
    else if IsBlank(email) then Some(EmailRequired)
    else if password == "" then Some(PasswordRequired)
    else if |password| < 6 then Some(PasswordTooShort)
    else if password != confirm then Some(PasswordMismatch)
    else None
  }

  /** Each message is given exactly when its check fails and every earlier
      check passes: an empty password is reported as missing, not as short. */
  lemma FirstFailingCheckWins(name: string, email: string, password: string, confirm: string)
    ensures var r := Validate(name, email, password, confirm);
            && (r == Some(NameRequired) <==> IsBlank(name))
            && (r == Some(EmailRequired) <==> !IsBlank(name) && IsBlank(email))
            && (r == Some(PasswordRequired) <==> !IsBlank(name) && !IsBlank(email) && password == "")
            && (r == Some(PasswordTooShort) <==>
                  !IsBlank(name) && !IsBlank(email) && password != "" && |password| < 6)
            && (r == Some(PasswordMismatch) <==>
                  !IsBlank(name) && !IsBlank(email) && |password| >= 6 && password != confirm)
  {
  }

  /** A six-character password that matches its confirmation passes the
      length check and the others. */
  lemma SixCharacterPasswordPasses(name: string, email: string, password: string)
    requires !IsBlank(name) && !IsBlank(email) && |password| == 6
    ensures Validate(name, email, password, password) == None
  {
  }

  /** The state of the `Signup` page (the inputs' `onChange` handlers assign the fields). */
  class SignupPage {
    var name: string
    var email: string
    var password: string
    var passwordConfirm: string
    var loading: bool
    var error: string

    constructor ()
      ensures name == "" && email == "" && password == "" && passwordConfirm == ""
      ensures !loading && error == ""
    {
      name, email, password, passwordConfirm := "", "", "", "";
      loading, error := false, "";
    }

    /** What a submission with acceptable fields leaves behind, given the two
        replies: registration is sent; when it fails, its error (or the status
        fallback) is shown and no login is attempted; when it succeeds the
        login is sent, and its failure shows its error or the fixed fallback,
        while its success hands the token to `login` and leaves no error.
        `loading` is false again. */
    predicate Settled(register: AuthReply, autoLogin: AuthReply, effects: seq<AuthEffect>)
      reads this
    {
      var registration := RegisterRequest(email, password, name);
      var autoLoginRequest := LoginRequest(email, password);
      && !loading
      && (register.NoReply? ==> effects == [registration] && error == NetworkError)
      && (register.Answered? && !IsOk(register.status) ==>
            && effects == [registration]
            && error == ServerErrorOr(register.body, RegisterFailed(register.status)))
      && (Succeeded(register) && autoLogin.NoReply? ==>
            effects == [registration, autoLoginRequest] && error == NetworkError)
      && (Succeeded(register) && autoLogin.Answered? && !IsOk(autoLogin.status) ==>
            && effects == [registration, autoLoginRequest]
            && error == ServerErrorOr(autoLogin.body, AutoLoginFailed))
      && (Succeeded(register) && Succeeded(autoLogin) ==>
            && effects == [registration, autoLoginRequest, StoreToken(autoLogin.body.token)]
            && error == "")
    }

    /** `handleSubmit`: a failed check sets its message and returns before any
        request and before `loading` is set; acceptable fields are sent for
        registration and then for login, as `Settled` describes. */
    method HandleSubmit(register: AuthReply, autoLogin: AuthReply) returns (effects: seq<AuthEffect>)
      modifies this`loading, this`error
      ensures Validate(name, email, password, passwordConfirm).Some? ==>
                && effects == [] && loading == old(loading)
                && error == Validate(name, email, password, passwordConfirm).value
      ensures Validate(name, email, password, passwordConfirm).None? ==> Settled(register, autoLogin, effects)
    {
      error := "";
      effects := [];
      var check := Validate(name, email, password, passwordConfirm);
      if check.Some? {
        error := check.value;
        return;
      }
      effects := Register(register, autoLogin);
    }

    /** The `try` block of `handleSubmit`, once the checks have passed and
        the error has been cleared. */
    method Register(register: AuthReply, autoLogin: AuthReply) returns (effects: seq<AuthEffect>)
      requires error == ""
      modifies this`loading, this`error
      ensures Settled(register, autoLogin, effects)
    {
      loading := true;
      var registration := RegisterRequest(email, password, name);
      var autoLoginRequest := LoginRequest(email, password);
      effects := [registration];
      match register {
        case NoReply =>
          error := NetworkError;
        case Answered(status, body) =>
          if !IsOk(status) {
            error := ServerErrorOr(body, RegisterFailed(status));
          } else {
            effects := [registration, autoLoginRequest];
            match autoLogin {
              case NoReply =>
                error := NetworkError;
              case Answered(loginStatus, loginBody) =>
                if !IsOk(loginStatus) {
                  error := ServerErrorOr(loginBody, AutoLoginFailed);
                } else {
                  effects := [registration, autoLoginRequest, StoreToken(loginBody.token)];
                }
            }
          }
      }
      loading := false;
    }
  }
}
