/** src/screens/AlterarDados/useAlterarDadosViewModel.ts: saving changes to the signed-in account. */
module AlterarDados {
  import opened Wrappers
  import opened Alerts
  import opened Dates
  import opened AuthContext
  import Register

  /** The JSON values the update body holds. */
  datatype Json = JStr(s: string) | JNum(n: int)

  /** The form fields `handleSalvar` reads. `imagemBase64` is set only by the image picker. */
  datatype PerfilForm = PerfilForm(
    email: string,
    nome: string,
    nascimento: string,
    imagemBase64: Option<string>,
    tipoUsuario: Register.TipoUsuario,
    mostrarCamposSenha: bool,
    senhaAtualParaTroca: string,
    novaSenha: string,
    confirmarNovaSenha: string)

  /** Where `handleSalvar` stops. `InvalidDate` is the RangeError thrown outside the `try`. */
  datatype SaveOutcome =
    | NoUser
    | SenhaAtualRequired
    | SenhaCurta
    | SenhasDiferentes
    | SessaoInvalida
    | InvalidDate
    | UpdateFailed(message: string)
    | Saved

  /** The password guard chain; on success, `senhaParaValidacao`. In change mode the length
      check comes before the mismatch check. */
  function Guard(form: PerfilForm, passwordAuth: Option<string>): (g: Result<string, SaveOutcome>)
    ensures g.Success? ==> g.value != ""
    ensures g.Success? && form.mostrarCamposSenha ==>
      g.value == form.senhaAtualParaTroca && |form.novaSenha| >= 6 && form.novaSenha == form.confirmarNovaSenha
    ensures !form.mostrarCamposSenha ==>
      g == if passwordAuth.GetOr("") == "" then Failure(SessaoInvalida) else Success(passwordAuth.value)
    ensures form.mostrarCamposSenha && form.senhaAtualParaTroca == "" ==> g == Failure(SenhaAtualRequired)
    ensures form.mostrarCamposSenha && form.senhaAtualParaTroca != "" && |form.novaSenha| < 6 ==> g == Failure(SenhaCurta)
    ensures form.mostrarCamposSenha && form.senhaAtualParaTroca != "" && |form.novaSenha| >= 6 && form.novaSenha != form.confirmarNovaSenha ==>
      g == Failure(SenhasDiferentes)
  {
    if form.mostrarCamposSenha then
      if form.senhaAtualParaTroca == "" then Failure(SenhaAtualRequired)
      else if |form.novaSenha| < 6 then Failure(SenhaCurta)
      else if form.novaSenha != form.confirmarNovaSenha then Failure(SenhasDiferentes)
      else Success(form.senhaAtualParaTroca)
    else
      var secret := passwordAuth.GetOr("");
      if secret == "" then Failure(SessaoInvalida) else Success(secret)
  }

  /** A new password that is both too short and unconfirmed is reported here as too short,
      while the sign-up form reports the same pair as a mismatch. */
  lemma CheckOrderDiffersFromRegister(form: PerfilForm, passwordAuth: Option<string>)
    requires form.mostrarCamposSenha && form.senhaAtualParaTroca != ""
    requires |form.novaSenha| < 6 && form.novaSenha != form.confirmarNovaSenha
    ensures Guard(form, passwordAuth) == Failure(SenhaCurta)
    ensures Register.SenhaErro(form.novaSenha, form.confirmarNovaSenha) == Register.SenhasDiferentes
  {
  }

  predicate NewImage(form: PerfilForm) {
    form.imagemBase64.Some? && form.imagemBase64.value != ""
  }

  /** `dadosParaAtualizar` as it stands when it is sent. */
  function Payload(form: PerfilForm, secret: string, iso: string): (m: map<string, Json>)
    ensures "img_usuario" in m <==> NewImage(form)
    ensures "nova_senha" in m <==> form.mostrarCamposSenha && form.novaSenha != ""
    ensures m.Keys - {"img_usuario", "nova_senha"} == {"nome", "email", "dt_nascimento", "tp_usuario", "senha_atual"}
    ensures m["senha_atual"] == JStr(secret) && m["dt_nascimento"] == JStr(iso)
    ensures m["tp_usuario"] == JNum(Register.TpUsuario(form.tipoUsuario))
    ensures m["nome"] == JStr(form.nome) && m["email"] == JStr(form.email)
    ensures NewImage(form) ==> m["img_usuario"] == JStr(form.imagemBase64.value)
    ensures "nova_senha" in m ==> m["nova_senha"] == JStr(form.novaSenha)
  {
    var base := map["nome" := JStr(form.nome), "email" := JStr(form.email), "dt_nascimento" := JStr(iso),
      "tp_usuario" := JNum(Register.TpUsuario(form.tipoUsuario)), "senha_atual" := JStr(secret)];
    var withImage := if NewImage(form) then base["img_usuario" := JStr(form.imagemBase64.value)] else base;
    if form.mostrarCamposSenha && form.novaSenha != "" then withImage["nova_senha" := JStr(form.novaSenha)] else withImage
  }

  /** Once the guard passes, the body carries a new password exactly in change-password mode. */
  lemma NovaSenhaIffChangeMode(form: PerfilForm, passwordAuth: Option<string>, iso: string)
    requires Guard(form, passwordAuth).Success?
    ensures "nova_senha" in Payload(form, Guard(form, passwordAuth).value, iso) <==> form.mostrarCamposSenha
  {
  }

  /** `finalUserObject`: the session user with the edited fields; the picture is kept unless one was picked. */
  function UpdatedUser(u: User, form: PerfilForm, iso: string): (r: User)
    ensures r.id == u.id && r.senha == u.senha
    ensures r.nome == form.nome && r.email == form.email && r.dtNascimento == iso
    ensures r.tpUsuario == Register.TpUsuario(form.tipoUsuario)
    ensures r.imgUsuario == form.imagemBase64.GetOr(u.imgUsuario)
  {
    u.(nome := form.nome, email := form.email, dtNascimento := iso,
       tpUsuario := Register.TpUsuario(form.tipoUsuario),
       imgUsuario := if form.imagemBase64.Some? then form.imagemBase64.value else u.imgUsuario)
  }

  class AlterarDadosViewModel {
    var form: PerfilForm
    var erroSenha: string
    var isLoading: bool

    constructor (initial: PerfilForm)
      ensures form == initial && erroSenha == "" && !isLoading
    {
      form := initial;
      erroSenha := "";
      isLoading := false;
    }

    /** Builds `dadosParaAtualizar` field by field. */
    method BuildPayload(secret: string, iso: string) returns (dados: map<string, Json>)
      ensures dados == Payload(form, secret, iso)
    {
      dados := map["nome" := JStr(form.nome), "email" := JStr(form.email), "dt_nascimento" := JStr(iso),
        "tp_usuario" := JNum(Register.TpUsuario(form.tipoUsuario)), "senha_atual" := JStr(secret)];
      if form.imagemBase64.Some? && form.imagemBase64.value != "" {
        dados := dados["img_usuario" := JStr(form.imagemBase64.value)];
      }
      if form.mostrarCamposSenha && form.novaSenha != "" {
        dados := dados["nova_senha" := JStr(form.novaSenha)];
      }
    }

    /** `handleSalvar`. `parse` is `new Date` and `updateUser` the account endpoint. */
    method HandleSalvar(auth: AuthSession, parse: DateParser, updateUser: (int, map<string, Json>) -> Result<(), string>)
      returns (outcome: SaveOutcome, alert: Option<Alert>)
      modifies this`erroSenha, this`isLoading, auth`user
      ensures auth.passwordAuth == old(auth.passwordAuth)
      ensures old(auth.user).None? ==>
        outcome == NoUser && alert.None? && isLoading == old(isLoading) && erroSenha == old(erroSenha) &&
        auth.user == old(auth.user)
      ensures old(auth.user).Some? && Guard(form, auth.passwordAuth).Failure? ==>
        && outcome == Guard(form, auth.passwordAuth).error
        && !isLoading && auth.user == old(auth.user)
        && (outcome == SenhaCurta ==> erroSenha == "A nova senha precisa ter no mínimo 6 caracteres." && alert.None?)
        && (outcome == SenhasDiferentes ==> erroSenha == "As novas senhas não coincidem." && alert.None?)
        && (outcome == SenhaAtualRequired ==> erroSenha == old(erroSenha) && alert.Some? && alert.value.title == "Atenção")
        && (outcome == SessaoInvalida ==> erroSenha == old(erroSenha) && alert.Some? && alert.value.title == "Erro de Autenticação")
      ensures old(auth.user).Some? && Guard(form, auth.passwordAuth).Success? && parse(form.nascimento).None? ==>
        outcome == InvalidDate && isLoading && erroSenha == "" && auth.user == old(auth.user)
      ensures old(auth.user).Some? && Guard(form, auth.passwordAuth).Success? && parse(form.nascimento).Some? ==>
        var iso := parse(form.nascimento).value.iso;
        var sent := Payload(form, Guard(form, auth.passwordAuth).value, iso);
        && !isLoading && erroSenha == ""
        && (updateUser(old(auth.user).value.id, sent).Success? ==>
              outcome == Saved && auth.user == Some(UpdatedUser(old(auth.user).value, form, iso)) &&
              alert == Some(Alert("Sucesso", "Dados atualizados com sucesso!")))
        && (updateUser(old(auth.user).value.id, sent).Failure? ==>
              outcome.UpdateFailed? && outcome.message != "" && auth.user == old(auth.user) &&
              alert == Some(Alert("Erro", outcome.message)))
    {
      alert := None;
      if auth.user.None? {
        return NoUser, None;
      }
      var user := auth.user.value;
      isLoading := true;

      var senhaParaValidacao := "";
      if form.mostrarCamposSenha {
        if form.senhaAtualParaTroca == "" {
          alert := Some(Alert("Atenção", "Para trocar a senha, você precisa digitar sua senha atual."));
          isLoading := false;
          return SenhaAtualRequired, alert;
        }
        if |form.novaSenha| < 6 {
          erroSenha := "A nova senha precisa ter no mínimo 6 caracteres.";
          isLoading := false;
          return SenhaCurta, None;
        }
        if form.novaSenha != form.confirmarNovaSenha {
          erroSenha := "As novas senhas não coincidem.";
          isLoading := false;
          return SenhasDiferentes, None;
        }
        senhaParaValidacao := form.senhaAtualParaTroca;
      } else {
        senhaParaValidacao := auth.passwordAuth.GetOr("");
      }

      if senhaParaValidacao == "" {
        alert := Some(Alert("Erro de Autenticação", "Sua sessão é inválida. Por favor, faça o login novamente."));
        isLoading := false;
        return SessaoInvalida, alert;
      }
      erroSenha := "";

      var nascimento := parse(form.nascimento);
      if nascimento.None? {
        return InvalidDate, None;
      }
      var dados := BuildPayload(senhaParaValidacao, nascimento.value.iso);

      var response := updateUser(user.id, dados);
      match response {
        case Success(_) =>
          auth.SetUser(Some(UpdatedUser(user, form, nascimento.value.iso)));
          outcome, alert := Saved, Some(Alert("Sucesso", "Dados atualizados com sucesso!"));
        case Failure(e) =>
          var message := if e == "" then "Não foi possível atualizar os dados." else e;
          outcome, alert := UpdateFailed(message), Some(Alert("Erro", message));
      }
      isLoading := false;
    }
  }
}
