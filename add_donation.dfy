/** src/screens/AddDonation.tsx: the create-campaign form, its type toggle and its submit guard chain. */
module AddDonation {
  import opened Wrappers
  import opened Alerts
  import opened Seqs
  import opened Campaigns
  import opened AuthContext

  /** The form fields read by `handleSubmit`. */
  datatype AddForm = AddForm(
    title: string,
    need: string,
    responsible: string,
    types: seq<string>,
    chavePix: string,
    imageBase64: Option<string>,
    location: Option<Coord>,
    description: string)

  /** `campaignData`, the body sent to the create endpoint; `metaDoacoes` is None where `Number(need)` is NaN. */
  datatype CampaignData = CampaignData(
    idOrganizador: int,
    titulo: string,
    subtitulo: string,
    descricao: string,
    imagemBase64: string,
    chavePix: Option<string>,
    metaDoacoes: Option<real>,
    fgDinheiro: bool,
    fgAlimentacao: bool,
    fgVestuario: bool,
    localizacao: Option<Coord>)

  /** Where `handleSubmit` stops: one of its three guards, or the request. */
  datatype SubmitOutcome = LoginRequired | MissingFields | PixKeyRequired | Submit(data: CampaignData)

  /** `Number(s)`; None stands for NaN. */
  type ToNumber = string -> Option<real>

  predicate MissingRequired(form: AddForm) {
    form.title == "" || form.need == "" || form.responsible == "" || |form.types| == 0 || form.description == ""
  }

  /** The `campaignData` literal. */
  function CampaignDataOf(user: User, form: AddForm, toNumber: ToNumber): (d: CampaignData)
    ensures d.chavePix.Some? <==> "Dinheiro" in form.types
    ensures d.chavePix.Some? ==> d.chavePix.value == form.chavePix
    ensures d.fgDinheiro == ("Dinheiro" in form.types)
    ensures d.fgAlimentacao == ("Alimentação" in form.types)
    ensures d.fgVestuario == ("Utensílios/Vestimenta" in form.types)
    ensures d.localizacao == form.location
    ensures d.idOrganizador == user.id && d.subtitulo == form.responsible
    ensures d.imagemBase64 == form.imageBase64.GetOr("")
    ensures d.titulo == form.title && d.descricao == form.description && d.metaDoacoes == toNumber(form.need)
  {
    var f := FlagsOf(form.types, FormVocabulary);
    CampaignData(user.id, form.title, form.responsible, form.description,
      if form.imageBase64.Some? then form.imageBase64.value else "",
      if "Dinheiro" in form.types then Some(form.chavePix) else None,
      toNumber(form.need), f.dinheiro, f.alimentacao, f.vestuario,
      if form.location.Some? then Some(Coord(form.location.value.latitude, form.location.value.longitude)) else None)
  }

  /** `handleSubmit` up to the request: login first, then the required fields, then the PIX key. */
  function HandleSubmit(user: Option<User>, form: AddForm, toNumber: ToNumber): (o: SubmitOutcome)
    ensures user.None? <==> o == LoginRequired
    ensures o == MissingFields <==> user.Some? && MissingRequired(form)
    ensures o == PixKeyRequired <==> user.Some? && !MissingRequired(form) && "Dinheiro" in form.types && form.chavePix == ""
    ensures o.Submit? ==> o.data == CampaignDataOf(user.value, form, toNumber)
  {
    if user.None? then LoginRequired
    else if MissingRequired(form) then MissingFields
    else if "Dinheiro" in form.types && form.chavePix == "" then PixKeyRequired
    else Submit(CampaignDataOf(user.value, form, toNumber))
  }

  /** A submitted campaign that accepts money always carries a non-empty PIX key, and a
      submitted campaign always accepts at least one kind of donation when its tags are the form's. */
  lemma SubmittedMoneyCampaignHasKey(user: Option<User>, form: AddForm, toNumber: ToNumber)
    requires HandleSubmit(user, form, toNumber).Submit?
    ensures var d := HandleSubmit(user, form, toNumber).data;
      d.fgDinheiro ==> d.chavePix.Some? && d.chavePix.value != ""
    ensures (forall t :: t in form.types ==> t in [FormVocabulary.money, FormVocabulary.food, FormVocabulary.goods]) ==>
      var d := HandleSubmit(user, form, toNumber).data;
      d.fgDinheiro || d.fgAlimentacao || d.fgVestuario
  {
    var d := HandleSubmit(user, form, toNumber).data;
    assert form.types[0] in form.types;
  }

  /** The alert after the request: success, or the error's message with a fallback. */
  function RequestAlert(response: Result<(), string>): Alert {
    ResultAlert(response, Alert("Sucesso!", "Campanha criada com sucesso!"), "Não foi possível criar a campanha.")
  }

  /** The screen's `types` state. */
  class AddDonationScreen {
    var types: seq<string>

    constructor ()
      ensures types == []
    {
      types := [];
    }

    /** `toggleType`. */
    method ToggleType(t: string)
      modifies this
      ensures types == Toggle(old(types), t)
      ensures t in types <==> t !in old(types)
      ensures forall u :: u != t ==> (u in types <==> u in old(types))
    {
      types := Toggle(types, t);
    }
  }
}
