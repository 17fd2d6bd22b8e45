/** src/screens/EditarDoacao.tsx: the edit-campaign form, loaded from a campaign and saved as a partial update. */
module EditarDoacao {
  import opened Wrappers
  import opened Alerts
  import opened Seqs
  import opened Campaigns

  /** The JSON values the update body holds. */
  datatype Json = JStr(s: string) | JBool(b: bool)

  /** The keys every update body carries. */
  const BaseKeys: set<string> := {"titulo", "subtitulo", "descricao", "fg_dinheiro", "fg_alimentacao", "fg_vestuario"}

  /** The form fields read by `handleSalvar`; `imagemBase64` is set only by the image picker. */
  datatype EditForm = EditForm(
    titulo: string,
    responsavel: string,
    tipos: seq<string>,
    imagemBase64: Option<string>,
    descricao: string)

  predicate NewImage(form: EditForm) {
    form.imagemBase64.Some? && form.imagemBase64.value != ""
  }

  /** The `dadosDoacao` object as it stands when it is sent. */
  function Payload(form: EditForm): (m: map<string, Json>)
    ensures m.Keys == BaseKeys + (if NewImage(form) then {"imagem_base64"} else {})
    ensures "valor_levantado" !in m && "meta_doacoes" !in m
    ensures m["fg_dinheiro"] == JBool("Dinheiro" in form.tipos)
    ensures m["fg_alimentacao"] == JBool("Alimentação" in form.tipos)
    ensures m["fg_vestuario"] == JBool("Utensílios/Vestimenta" in form.tipos)
    ensures m["titulo"] == JStr(form.titulo) && m["subtitulo"] == JStr(form.responsavel) && m["descricao"] == JStr(form.descricao)
    ensures NewImage(form) ==> m["imagem_base64"] == JStr(form.imagemBase64.value)
  {
    var f := FlagsOf(form.tipos, FormVocabulary);
    var base := map["titulo" := JStr(form.titulo), "subtitulo" := JStr(form.responsavel),
      "descricao" := JStr(form.descricao), "fg_dinheiro" := JBool(f.dinheiro),
      "fg_alimentacao" := JBool(f.alimentacao), "fg_vestuario" := JBool(f.vestuario)];
    if NewImage(form) then base["imagem_base64" := JStr(form.imagemBase64.value)] else base
  }

  /** The flags of the body, read back. */
  function PayloadFlags(m: map<string, Json>): Option<Flags> {
    if "fg_dinheiro" in m && "fg_alimentacao" in m && "fg_vestuario" in m
       && m["fg_dinheiro"].JBool? && m["fg_alimentacao"].JBool? && m["fg_vestuario"].JBool?
    then Some(Flags(m["fg_dinheiro"].b, m["fg_alimentacao"].b, m["fg_vestuario"].b))
    else None
  }

  /** Round trip: loading a campaign's flags as tipos and saving them unchanged writes the same flags back. */
  lemma LoadSaveRoundTrip(c: Campaign, form: EditForm)
    requires form.tipos == TagsOf(FlagsOfCampaign(c), FormVocabulary)
    ensures PayloadFlags(Payload(form)) == Some(FlagsOfCampaign(c))
  {
    FlagsTagsRoundTrip(FlagsOfCampaign(c), FormVocabulary);
  }

  /** The required-fields guard of `handleSalvar`. */
  predicate MissingRequired(form: EditForm) {
    form.titulo == "" || form.responsavel == "" || |form.tipos| == 0 || form.descricao == ""
  }

  /** `tiposAtuais`, built by one `push` per true flag. */
  method TiposAtuais(c: Campaign) returns (tipos: seq<string>)
    ensures tipos == TagsOf(FlagsOfCampaign(c), FormVocabulary)
  {
    tipos := [];
    if c.fgDinheiro {
      tipos := tipos + ["Dinheiro"];
    }
    if c.fgAlimentacao {
      tipos := tipos + ["Alimentação"];
    }
    if c.fgVestuario {
      tipos := tipos + ["Utensílios/Vestimenta"];
    }
  }

  /** The edit screen's form state. */
  class EditarDoacaoScreen {
    var isLoading: bool
    var titulo: string
    var responsavel: string
    var tipos: seq<string>
    var imagemBase64: Option<string>
    var descricao: string

    constructor ()
      ensures isLoading && titulo == "" && responsavel == "" && tipos == [] && imagemBase64.None? && descricao == ""
    {
      isLoading := true;
      titulo := "";
      responsavel := "";
      tipos := [];
      imagemBase64 := None;
      descricao := "";
    }

    function Form(): EditForm
      reads this
    {
      EditForm(titulo, responsavel, tipos, imagemBase64, descricao)
    }

    /** `buscarDadosDoacao`: `response` is the fetched campaign. On failure the fields stay as they were. */
    method Load(response: Result<Campaign, string>) returns (alert: Option<Alert>)
      modifies this
      ensures !isLoading && imagemBase64 == old(imagemBase64)
      ensures response.Success? ==>
        && alert.None?
        && titulo == response.value.titulo
        && responsavel == response.value.subtitulo.GetOr("")
        && descricao == response.value.descricao
        && tipos == TagsOf(FlagsOfCampaign(response.value), FormVocabulary)
      ensures response.Failure? ==>
        alert == Some(Alert("Erro", "Não foi possível carregar os dados da doação.")) &&
        titulo == old(titulo) && responsavel == old(responsavel) && descricao == old(descricao) && tipos == old(tipos)
    {
      match response {
        case Success(data) =>
          titulo := data.titulo;
          responsavel := data.subtitulo.GetOr("");
          descricao := data.descricao;
          tipos := TiposAtuais(data);
          alert := None;
        case Failure(_) =>
          alert := Some(Alert("Erro", "Não foi possível carregar os dados da doação."));
      }
      isLoading := false;
    }

    /** `alternarTipo`. */
    method AlternarTipo(t: string)
      modifies this`tipos
      ensures tipos == Toggle(old(tipos), t)
      ensures t in tipos <==> t !in old(tipos)
      ensures forall u :: u != t ==> (u in tipos <==> u in old(tipos))
    {
      tipos := Toggle(tipos, t);
    }

    /** `handleSalvar` up to the request: the guard, then `dadosDoacao` built field by field,
        with the image added only when one was picked. Returns the body, or None when refused. */
    method BuildUpdate() returns (dados: Option<map<string, Json>>)
      ensures MissingRequired(Form()) <==> dados.None?
      ensures dados.Some? ==> dados.value == Payload(Form())
    {
      if titulo == "" || responsavel == "" || |tipos| == 0 || descricao == "" {
        return None;
      }
      var f := FlagsOf(tipos, FormVocabulary);
      var dadosDoacao := map[];
      dadosDoacao := dadosDoacao["titulo" := JStr(titulo)];
      dadosDoacao := dadosDoacao["subtitulo" := JStr(responsavel)];
      dadosDoacao := dadosDoacao["descricao" := JStr(descricao)];
      dadosDoacao := dadosDoacao["fg_dinheiro" := JBool(f.dinheiro)];
      dadosDoacao := dadosDoacao["fg_alimentacao" := JBool(f.alimentacao)];
      dadosDoacao := dadosDoacao["fg_vestuario" := JBool(f.vestuario)];
      if imagemBase64.Some? && imagemBase64.value != "" {
        dadosDoacao := dadosDoacao["imagem_base64" := JStr(imagemBase64.value)];
      }
      dados := Some(dadosDoacao);
    }
  }

  /** The alert after the request. */
  function SaveAlert(response: Result<(), string>): Alert {
    ResultAlert(response, Alert("Sucesso!", "Doação atualizada com sucesso!"), "Não foi possível atualizar a doação.")
  }
}
