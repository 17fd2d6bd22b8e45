/** src/screens/login/useLoginViewModel.ts: the sign-in form and the password-recovery modal. */
module Login {
  import opened Wrappers
  import opened Alerts
  import opened AuthContext

  /** `result.message || 'Erro desconhecido'`. */
  function ErrorShown(r: LoginResult): string {
    if r.message.None? || r.message.value == "" then "Erro desconhecido" else r.message.value
  }

  /** `login` always supplies a non-empty message on failure, so the 'Erro desconhecido'
      fallback never applies: the error shown is the session's own message. */
  lemma UnknownErrorUnreachable(errorMessage: string)
    ensures ErrorShown(LoginResult(false, Some(FailureMessage(errorMessage)))) == FailureMessage(errorMessage)
  {
  }

  class LoginViewModel {
    var loginInput: string
    var senha: string
    var error: string
    var isLoading: bool
    var modalVisible: bool
    var recoveryEmail: string

    constructor ()
      ensures loginInput == "" && senha == "" && error == "" && !isLoading && !modalVisible && recoveryEmail == ""
    {
      loginInput := "";
      senha := "";
      error := "";
      isLoading := false;
      modalVisible := false;
      recoveryEmail := "";
    }

    /** `validarLogin`: `response` is the sign-in endpoint's answer. Returns whether the
        screen moves on to the campaign search, and the dialog shown. */
    method ValidarLogin(auth: AuthSession, response: Result<User, string>) returns (navigated: bool, alert: Option<Alert>)
      modifies this`error, this`isLoading, auth
      ensures loginInput == "" || senha == "" ==>
        error == "Preencha todos os campos." && isLoading == old(isLoading) && !navigated &&
        auth.user == old(auth.user) && auth.passwordAuth == old(auth.passwordAuth)
      ensures loginInput != "" && senha != "" ==> !isLoading && (navigated <==> response.Success?)
      ensures alert.Some? <==> navigated
      ensures navigated ==> alert == Some(Alert("Login realizado com sucesso!", ""))
      ensures loginInput != "" && senha != "" && response.Success? ==>
        error == "" && auth.user == Some(response.value) && auth.passwordAuth == Some(senha)
      ensures loginInput != "" && senha != "" && response.Failure? ==>
        error == FailureMessage(response.error) &&
        auth.user == old(auth.user) && auth.passwordAuth == old(auth.passwordAuth)
    {
      if loginInput == "" || senha == "" {
        error := "Preencha todos os campos.";
        return false, None;
      }
      error := "";
      isLoading := true;
      var result := auth.Login(loginInput, senha, response);
      isLoading := false;
      if result.success {
        navigated, alert := true, Some(Alert("Login realizado com sucesso!", ""));
      } else {
        error := ErrorShown(result);
        navigated, alert := false, None;
      }
    }

    /** `handleSendRecovery`: an address without '@' is refused and nothing changes; otherwise
        the modal closes and the field is cleared. */
    method HandleSendRecovery() returns (alert: Alert)
      modifies this`modalVisible, this`recoveryEmail
      ensures '@' !in old(recoveryEmail) ==>
        alert == Alert("Erro", "Digite um e-mail válido.") &&
        modalVisible == old(modalVisible) && recoveryEmail == old(recoveryEmail)
      ensures '@' in old(recoveryEmail) ==>
        alert == Alert("Recuperação enviada", "Enviamos um e-mail para " + old(recoveryEmail) + ".") &&
        !modalVisible && recoveryEmail == ""
    {
      if '@' !in recoveryEmail {
        return Alert("Erro", "Digite um e-mail válido.");
      }
      alert := Alert("Recuperação enviada", "Enviamos um e-mail para " + recoveryEmail + ".");
      modalVisible := false;
      recoveryEmail := "";
    }
  }
}
