/** src/context/AuthContext.tsx: the session, a signed-in user and the password typed at sign-in. */
module AuthContext {
  import opened Wrappers

  /** A user account as the backend returns it. */
  datatype User = User(
    id: int,
    nome: string,
    email: string,
    dtNascimento: string,
    senha: Option<string>,
    imgUsuario: string,
    tpUsuario: int)

  /** What `login` resolves to; `message` is absent on success. */
  datatype LoginResult = LoginResult(success: bool, message: Option<string>)

  /** `error.message || 'Email ou senha incorretos'`. */
  function FailureMessage(errorMessage: string): (m: string)
    ensures m != ""
    ensures errorMessage != "" ==> m == errorMessage
  {
    if errorMessage == "" then "Email ou senha incorretos" else errorMessage
  }

  /** The provider's two state fields. */
  class AuthSession {
    var user: Option<User>
    var passwordAuth: Option<string>

    /** A full session (both set) or none (both null); `setUser` alone can leave a session partial. */
    ghost predicate Consistent()
      reads this
    {
      user.Some? <==> passwordAuth.Some?
    }

    constructor ()
      ensures user.None? && passwordAuth.None?
      ensures Consistent()
    {
      user := None;
      passwordAuth := None;
    }

    /** `logout`. */
    method Logout()
      modifies this
      ensures user.None? && passwordAuth.None?
      ensures Consistent()
    {
      user := None;
      passwordAuth := None;
    }

    /** `login`: `response` is what the sign-in endpoint answers for `(loginInput, senha)`. */
    method Login(loginInput: string, senha: string, response: Result<User, string>) returns (r: LoginResult)
      modifies this
      ensures response.Success? ==>
        user == Some(response.value) && passwordAuth == Some(senha) && r == LoginResult(true, None)
      ensures response.Failure? ==>
        user == old(user) && passwordAuth == old(passwordAuth) &&
        r == LoginResult(false, Some(FailureMessage(response.error)))
      ensures old(Consistent()) ==> Consistent()
      ensures r.success <==> response.Success?
    {
      match response
      case Success(usuario) =>
        user := Some(usuario);
        passwordAuth := Some(senha);
        r := LoginResult(true, None);
      case Failure(e) =>
        r := LoginResult(false, Some(FailureMessage(e)));
    }

    /** The raw `setUser`: only `user` changes. */
    method SetUser(u: Option<User>)
      modifies this`user
      ensures user == u
    {
      user := u;
    }
  }

  /** The Google sign-in path calls `setUser` on a fresh session: a user with no stored password. */
  method GoogleSession(u: User) returns (s: AuthSession)
    ensures fresh(s)
    ensures s.user == Some(u) && s.passwordAuth.None?
    ensures !s.Consistent()
  {
    s := new AuthSession();
    s.SetUser(Some(u));
  }
}
