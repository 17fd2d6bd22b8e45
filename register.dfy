/** src/screens/Register/useRegisterViewModel.ts: the sign-up form, its e-mail and password
    checks, and the request chain that creates the account and signs in. */
module Register {
  import opened Wrappers
  import opened Alerts
  import opened Text
  import opened Dates
  import opened AuthContext

  /** The characters the regular-expression class `\s` matches in JavaScript. */
  predicate IsJsWhitespace(c: char) {
    c == '\t' || c == '\n' || c == '\U{000B}' || c == '\U{000C}' || c == '\r' || c == ' '
    || c == '\U{00A0}' || c == '\U{1680}' || ('\U{2000}' <= c <= '\U{200A}')
    || c == '\U{2028}' || c == '\U{2029}' || c == '\U{202F}' || c == '\U{205F}'
    || c == '\U{3000}' || c == '\U{FEFF}'
  }

  /** `[^\s@]+`: a non-empty run with no whitespace and no '@'. */
  predicate Segment(x: string) {
    |x| > 0 && forall k :: 0 <= k < |x| ==> x[k] != '@' && !IsJsWhitespace(x[k])
  }

  /** The whole string matches `^[^\s@]+@[^\s@]+\.[^\s@]+$`: the '@' sits at `i` and the chosen '.' at `j`. */
  ghost predicate EmailPattern(s: string) {
    exists i, j :: 0 < i && i + 1 < j && j + 1 < |s| && s[i] == '@' && s[j] == '.'
      && Segment(s[..i]) && Segment(s[i + 1..j]) && Segment(s[j + 1..])
  }

  predicate NoWhitespace(s: string) {
    forall k :: 0 <= k < |s| ==> !IsJsWhitespace(s[k])
  }

  /** `validarEmail`, decided without backtracking: exactly one '@' with a non-empty local
      part, no whitespace, and a '.' in the domain that is neither its first nor its last character. */
  function ValidarEmail(email: string): bool {
    var parts := Split(email, '@');
    |parts| == 2 && |parts[0]| > 0 && |parts[1]| >= 3 && NoWhitespace(email)
    && '.' in parts[1][1..|parts[1]| - 1]
  }

  /** A non-empty slice of a whitespace-free string with no '@' in it is a `[^\s@]+` run. */
  lemma SliceIsSegment(s: string, lo: nat, hi: nat)
    requires lo < hi <= |s| && NoWhitespace(s) && '@' !in s[lo..hi]
    ensures Segment(s[lo..hi])
  {
    var x := s[lo..hi];
    forall t | 0 <= t < |x| ensures x[t] != '@' && !IsJsWhitespace(x[t]) {
      assert x[t] == s[lo + t];
      assert x[t] in x;
    }
  }

  /** Splitting on the only '@' of a string gives the two sides. */
  lemma SplitAtOnlyAt(a: string, d: string)
    requires '@' !in a && '@' !in d
    ensures Split(a + ['@'] + d, '@') == [a, d]
  {
    assert Join([a, d], '@') == a + ['@'] + d by {
      assert [a, d][1..] == [d];
    }
    SplitJoin([a, d], '@');
  }

  /** Two fields from `split('@')` are the text around the only '@'. */
  lemma TwoFields(email: string)
    requires |Split(email, '@')| == 2
    ensures email == Split(email, '@')[0] + ['@'] + Split(email, '@')[1]
  {
    var parts := Split(email, '@');
    assert parts[1..] == [parts[1]];
    assert Join(parts, '@') == parts[0] + ['@'] + Join(parts[1..], '@');
  }

  lemma ValidarEmailMatches(email: string)
    requires ValidarEmail(email)
    ensures EmailPattern(email)
  {
    var parts := Split(email, '@');
    var a, d := parts[0], parts[1];
    TwoFields(email);
    var inner := d[1..|d| - 1];
    var k :| 0 <= k < |inner| && inner[k] == '.';
    var i, j := |a|, |a| + k + 2;
    assert email[..i] == a;
    assert email[i + 1..j] == d[..k + 1];
    assert email[j + 1..] == d[k + 2..];
    assert email[j] == d[k + 1] == '.';
    assert '@' !in d[..k + 1] && '@' !in d[k + 2..] by {
      assert '@' !in d;
    }
    SliceIsSegment(email, 0, i);
    SliceIsSegment(email, i + 1, j);
    SliceIsSegment(email, j + 1, |email|);
  }

  /** The whole string is free of whitespace when its three runs are. */
  lemma PatternHasNoWhitespace(email: string, i: nat, j: nat)
    requires 0 < i && i + 1 < j && j + 1 < |email| && email[i] == '@' && email[j] == '.'
    requires Segment(email[..i]) && Segment(email[i + 1..j]) && Segment(email[j + 1..])
    ensures NoWhitespace(email)
  {
    var a, b, c := email[..i], email[i + 1..j], email[j + 1..];
    forall t | 0 <= t < |email| ensures !IsJsWhitespace(email[t]) {
      if t < i {
        assert email[t] == a[t];
      } else if i < t < j {
        assert email[t] == b[t - i - 1];
      } else if j < t {
        assert email[t] == c[t - j - 1];
      }
    }
  }

  lemma MatchAtIsValidarEmail(email: string, i: nat, j: nat)
    requires 0 < i && i + 1 < j && j + 1 < |email| && email[i] == '@' && email[j] == '.'
    requires Segment(email[..i]) && Segment(email[i + 1..j]) && Segment(email[j + 1..])
    ensures ValidarEmail(email)
  {
    var a, b, c := email[..i], email[i + 1..j], email[j + 1..];
    var d := email[i + 1..];
    assert email == a + ['@'] + d;
    assert d == b + ['.'] + c;
    assert '@' !in a by {
      forall t | 0 <= t < |a| ensures a[t] != '@' { }
    }
    assert '@' !in d by {
      forall t | 0 <= t < |b| ensures b[t] != '@' { }
      forall t | 0 <= t < |c| ensures c[t] != '@' { }
    }
    SplitAtOnlyAt(a, d);
    PatternHasNoWhitespace(email, i, j);
    assert d[1..|d| - 1][j - i - 2] == '.';
  }

  lemma MatchIsValidarEmail(email: string)
    requires EmailPattern(email)
    ensures ValidarEmail(email)
  {
    var i, j :| 0 < i && i + 1 < j && j + 1 < |email| && email[i] == '@' && email[j] == '.'
      && Segment(email[..i]) && Segment(email[i + 1..j]) && Segment(email[j + 1..]);
    MatchAtIsValidarEmail(email, i, j);
  }

  /** `validarEmail` accepts exactly the strings the regular expression matches. */
  lemma ValidarEmailIsPattern(email: string)
    ensures ValidarEmail(email) <==> EmailPattern(email)
  {
    if ValidarEmail(email) {
      ValidarEmailMatches(email);
    }
    if EmailPattern(email) {
      MatchIsValidarEmail(email);
    }
  }

  /** Any `a@b.c` built from three whitespace- and '@'-free non-empty parts is accepted. */
  lemma ValidarEmailAccepts(a: string, b: string, c: string)
    requires Segment(a) && Segment(b) && Segment(c)
    ensures ValidarEmail(a + "@" + b + "." + c)
  {
    var s := a + "@" + b + "." + c;
    var i, j := |a|, |a| + 1 + |b|;
    assert s[..i] == a && s[i + 1..j] == b && s[j + 1..] == c;
    assert s[i] == '@' && s[j] == '.';
    ValidarEmailIsPattern(s);
  }

  /** A string without '@' is refused. */
  lemma NoAtRejected(email: string)
    requires '@' !in email
    ensures !ValidarEmail(email)
  {
    SplitNone(email, '@');
  }

  const SenhasDiferentes := "As senhas não coincidem."
  const SenhaCurta := "A senha deve ter no mínimo 6 caracteres."

  /** The password message of `handleCadastro`: mismatch is checked before length. */
  function SenhaErro(senha: string, confirmarSenha: string): (e: string)
    ensures e == "" <==> senha == confirmarSenha && |senha| >= 6
    ensures senha != confirmarSenha ==> e == SenhasDiferentes
    ensures senha == confirmarSenha && |senha| < 6 ==> e == SenhaCurta
  {
    if senha != confirmarSenha then SenhasDiferentes
    else if |senha| < 6 then SenhaCurta
    else ""
  }

  /** Whose side the new account is on. */
  datatype TipoUsuario = Doar | Receber

  /** `tp_usuario`: 1 for a donor, 2 otherwise. */
  function TpUsuario(t: TipoUsuario): (n: int)
    ensures n == 1 <==> t == Doar
    ensures n == 1 || n == 2
  {
    if t == Doar then 1 else 2
  }

  /** The sign-up fields. */
  datatype CadastroForm = CadastroForm(
    email: string,
    senha: string,
    confirmarSenha: string,
    nome: string,
    nascimento: string,
    imagemBase64: Option<string>,
    tipoUsuario: TipoUsuario)

  predicate CamposVazios(f: CadastroForm) {
    f.nome == "" || f.nascimento == "" || f.email == "" || f.senha == ""
  }

  /** The final value of `valido`. */
  predicate CadastroValido(f: CadastroForm) {
    ValidarEmail(f.email) && SenhaErro(f.senha, f.confirmarSenha) == "" && !CamposVazios(f)
  }

  /** The form is accepted exactly when the e-mail matches, the passwords agree and have at
      least 6 characters, and name and birth date are filled in. */
  lemma CadastroValidoIff(f: CadastroForm)
    ensures CadastroValido(f) <==>
      EmailPattern(f.email) && f.senha == f.confirmarSenha && |f.senha| >= 6 && f.nome != "" && f.nascimento != ""
  {
    ValidarEmailIsPattern(f.email);
  }

  /** The body sent to the sign-up endpoint. */
  datatype UserData = UserData(imgUsuario: string, nome: string, email: string, senha: string, dtNascimento: string, tpUsuario: int)

  /** The alert of the `catch`: `Alert.alert('Erro', error.message || fallback)`. */
  function CatchAlert(message: string): (a: Alert)
    ensures a.title == "Erro" && a.message != ""
    ensures message != "" ==> a.message == message
  {
    Alert("Erro", if message == "" then "Erro ao cadastrar. Verifique os dados e tente novamente." else message)
  }

  class RegisterViewModel {
    var form: CadastroForm
    var emailErro: string
    var senhaErro: string
    var isLoading: bool

    constructor ()
      ensures form == CadastroForm("", "", "", "", "", None, Doar)
      ensures emailErro == "" && senhaErro == "" && !isLoading
    {
      form := CadastroForm("", "", "", "", "", None, Doar);
      emailErro := "";
      senhaErro := "";
      isLoading := false;
    }

    /** `handleCadastro`. `parse` is `new Date`, `createUser` the sign-up endpoint and
        `loginResponse` the sign-in endpoint's answer; `rangeErrorMessage` is the engine's message
        for the RangeError `toISOString` throws on an invalid date. Returns the body sent, the
        alert shown and whether the screen moves to the sign-in screen. */
    method HandleCadastro(auth: AuthSession, parse: DateParser, createUser: UserData -> Result<(), string>,
                          loginResponse: Result<User, string>, rangeErrorMessage: string)
      returns (sent: Option<UserData>, alert: Option<Alert>, toLogin: bool)
      modifies this`emailErro, this`senhaErro, this`isLoading, auth
      ensures emailErro == (if ValidarEmail(form.email) then "" else "Digite um e-mail válido.")
      ensures senhaErro == SenhaErro(form.senha, form.confirmarSenha)
      ensures !CadastroValido(form) ==>
        && sent.None? && !toLogin && isLoading == old(isLoading)
        && alert == (if CamposVazios(form) then Some(Alert("Atenção", "Por favor, preencha todos os campos.")) else None)
        && auth.user == old(auth.user) && auth.passwordAuth == old(auth.passwordAuth)
      ensures CadastroValido(form) ==> !isLoading && alert.Some?
      ensures CadastroValido(form) && parse(form.nascimento).None? ==>
        && sent.None? && !toLogin && alert == Some(CatchAlert(rangeErrorMessage))
        && auth.user == old(auth.user) && auth.passwordAuth == old(auth.passwordAuth)
      ensures CadastroValido(form) && parse(form.nascimento).Some? ==>
        sent == Some(UserData(form.imagemBase64.GetOr(""), form.nome, form.email, form.senha,
                              parse(form.nascimento).value.iso, TpUsuario(form.tipoUsuario)))
      ensures sent.Some? && createUser(sent.value).Failure? ==>
        && !toLogin && alert == Some(CatchAlert(createUser(sent.value).error))
        && auth.user == old(auth.user) && auth.passwordAuth == old(auth.passwordAuth)
      ensures sent.Some? && createUser(sent.value).Success? && loginResponse.Success? ==>
        !toLogin && alert == Some(Alert("Sucesso!", "Cadastro realizado com sucesso!")) &&
        auth.user == Some(loginResponse.value) && auth.passwordAuth == Some(form.senha)
      ensures sent.Some? && createUser(sent.value).Success? && loginResponse.Failure? ==>
        toLogin && alert == Some(Alert("Cadastro Realizado", "Seu cadastro foi concluído. Por favor, faça o login.")) &&
        auth.user == old(auth.user) && auth.passwordAuth == old(auth.passwordAuth)
    {
      sent, alert, toLogin := None, None, false;
      var valido := true;
      if !ValidarEmail(form.email) {
        emailErro := "Digite um e-mail válido.";
        valido := false;
      } else {
        emailErro := "";
      }
      if form.senha != form.confirmarSenha {
        senhaErro := SenhasDiferentes;
        valido := false;
      } else if |form.senha| < 6 {
        senhaErro := SenhaCurta;
        valido := false;
      } else {
        senhaErro := "";
      }
      if form.nome == "" || form.nascimento == "" || form.email == "" || form.senha == "" {
        alert := Some(Alert("Atenção", "Por favor, preencha todos os campos."));
        valido := false;
      }
      if valido {
        isLoading := true;
        var nascimento := parse(form.nascimento);
        if nascimento.None? {
          isLoading := false;
          alert := Some(CatchAlert(rangeErrorMessage));
          return;
        }
        var userData := UserData(form.imagemBase64.GetOr(""), form.nome, form.email, form.senha,
                                 nascimento.value.iso, TpUsuario(form.tipoUsuario));
        sent := Some(userData);
        var created := createUser(userData);
        if created.Failure? {
          isLoading := false;
          alert := Some(CatchAlert(created.error));
          return;
        }
        var loginResult := auth.Login(form.email, form.senha, loginResponse);
        isLoading := false;
        if loginResult.success {
          alert := Some(Alert("Sucesso!", "Cadastro realizado com sucesso!"));
        } else {
          alert := Some(Alert("Cadastro Realizado", "Seu cadastro foi concluído. Por favor, faça o login."));
          toLogin := true;
        }
      }
    }
  }
}
