/** src/context/DonationsContext.tsx: the in-memory campaign list shared by the screens. */
module DonationsContext {
  import opened Wrappers
  import opened Campaigns

  /** `valor_levantado + amount`: a null amount adds as 0. */
  function RaisedPlus(raised: Option<real>, amount: real): real {
    (if raised.None? then 0.0 else raised.value) + amount
  }

  /** One entry after `updateDonation`: only `valor_levantado` changes. */
  function Credited(d: Campaign, amount: real): Campaign {
    d.(valorLevantado := Some(RaisedPlus(d.valorLevantado, amount)))
  }

  /** `updateDonation(id, amount)` on a list: the `map` that credits every entry with that id. */
  function Credit(ds: seq<Campaign>, id: string, amount: real): (r: seq<Campaign>)
    ensures |r| == |ds|
    ensures forall i :: 0 <= i < |ds| ==> r[i] == if ds[i].id == id then Credited(ds[i], amount) else ds[i]
    decreases |ds|
  {
    if |ds| == 0 then []
    else [if ds[0].id == id then Credited(ds[0], amount) else ds[0]] + Credit(ds[1..], id, amount)
  }

  /** Entries with another id are untouched; entries with the id gain `amount` and keep every other field. */
  lemma CreditOnlyTouchesTarget(ds: seq<Campaign>, id: string, amount: real, i: nat)
    requires i < |ds|
    ensures Credit(ds, id, amount)[i].id == ds[i].id
    ensures ds[i].id != id ==> Credit(ds, id, amount)[i] == ds[i]
    ensures ds[i].id == id ==>
      && Credit(ds, id, amount)[i].valorLevantado == Some(RaisedPlus(ds[i].valorLevantado, amount))
      && Credit(ds, id, amount)[i].(valorLevantado := ds[i].valorLevantado) == ds[i]
  {
  }

  /** Crediting an id no entry carries leaves the list as it was. */
  lemma CreditAbsentIsIdentity(ds: seq<Campaign>, id: string, amount: real)
    requires forall d :: d in ds ==> d.id != id
    ensures Credit(ds, id, amount) == ds
  {
  }

  /** Two credits to the same id add up. */
  lemma CreditTwiceAdds(ds: seq<Campaign>, id: string, a: real, b: real)
    ensures Credit(Credit(ds, id, a), id, b) == Credit(ds, id, a + b)
  {
    var lhs := Credit(Credit(ds, id, a), id, b);
    var rhs := Credit(ds, id, a + b);
    forall i | 0 <= i < |ds|
      ensures lhs[i] == rhs[i]
    {
      if ds[i].id == id {
        assert RaisedPlus(Some(RaisedPlus(ds[i].valorLevantado, a)), b) == RaisedPlus(ds[i].valorLevantado, a + b);
      }
    }
  }

  /** The amount raised by an entry, null read as 0. */
  function Raised(d: Campaign): real {
    if d.valorLevantado.None? then 0.0 else d.valorLevantado.value
  }

  /** The sum of the amounts raised over a list. */
  function TotalRaised(ds: seq<Campaign>): real
    decreases |ds|
  {
    if |ds| == 0 then 0.0 else Raised(ds[0]) + TotalRaised(ds[1..])
  }

  /** How many entries carry the id. */
  function CountId(ds: seq<Campaign>, id: string): nat
    decreases |ds|
  {
    if |ds| == 0 then 0 else (if ds[0].id == id then 1 else 0) + CountId(ds[1..], id)
  }

  /** Crediting `amount` to an id raises the list's total by `amount` per entry with that id. */
  lemma {:induction false} CreditTotal(ds: seq<Campaign>, id: string, amount: real)
    ensures TotalRaised(Credit(ds, id, amount)) == TotalRaised(ds) + amount * (CountId(ds, id) as real)
    decreases |ds|
  {
    if |ds| > 0 {
      CreditTotal(ds[1..], id, amount);
      assert Credit(ds, id, amount)[1..] == Credit(ds[1..], id, amount);
    }
  }

  /** The untyped `donationData` the create screen hands to `addDonation`. */
  datatype NewDonationData = NewDonationData(
    titulo: string,
    subtitulo: Option<string>,
    descricao: string,
    imagemBase64: string,
    metaDoacoes: Option<real>,
    types: seq<string>,
    chavePix: Option<string>,
    location: Option<Coord>,
    idOrganizador: int)

  /** `donationPayload`, the body sent to the create endpoint. */
  datatype DonationPayload = DonationPayload(
    titulo: string,
    subtitulo: Option<string>,
    descricao: string,
    imagemBase64: string,
    metaDoacoes: Option<real>,
    valorLevantado: real,
    fgDinheiro: bool,
    fgAlimentacao: bool,
    fgVestuario: bool,
    chavePix: Option<string>,
    localizacao: Coord,
    idOrganizador: int)

  /** Building the payload reads `donationData.location.latitude`, which throws when no location was given. */
  function BuildPayload(data: NewDonationData): (r: Result<DonationPayload, string>)
    ensures r.Failure? <==> data.location.None?
    ensures r.Success? ==>
      && r.value.valorLevantado == 0.0
      && (r.value.fgDinheiro <==> "Dinheiro" in data.types)
      && (r.value.fgAlimentacao <==> "Alimentação" in data.types)
      && (r.value.fgVestuario <==> "Utensílio" in data.types)
      && r.value.localizacao == data.location.value
      && r.value.titulo == data.titulo && r.value.subtitulo == data.subtitulo
      && r.value.descricao == data.descricao && r.value.imagemBase64 == data.imagemBase64
      && r.value.metaDoacoes == data.metaDoacoes
      && r.value.chavePix == data.chavePix && r.value.idOrganizador == data.idOrganizador
  {
    if data.location.None? then Failure(MissingLocationError)
    else
      var f := FlagsOf(data.types, SearchVocabulary);
      Success(DonationPayload(data.titulo, data.subtitulo, data.descricao, data.imagemBase64, data.metaDoacoes,
        0.0, f.dinheiro, f.alimentacao, f.vestuario, data.chavePix, data.location.value, data.idOrganizador))
  }

  /** The create form's 'Utensílios/Vestimenta' tag is not the tag read here, so the clothing flag is lost. */
  lemma FormClothingTagLost(data: NewDonationData)
    requires data.location.Some?
    requires data.types == ["Utensílios/Vestimenta"]
    ensures BuildPayload(data).Success? && !BuildPayload(data).value.fgVestuario
  {
  }

  /** The two campaigns the list starts with; their image URIs come from bundled assets. */
  function SeedDonations(ajudeRsUri: string, doctorsUri: string): seq<Campaign> {
    [ Campaign("1", "Ajude o RS", Some("Enchentes no Sul do Brasil"), Some(3000.0), Some(10000.0), ajudeRsUri,
        "Estamos arrecadando agasalhos para doar neste inverno.", false, true, true,
        Some(Coord(-30.0346, -51.2177)), Some("doe@ajuders.org")),
      Campaign("2", "Ajuda Médica", Some("Médicos sem Fronteiras"), Some(5000.0), Some(15000.0), doctorsUri,
        "Estamos comprando medicamentos.", true, false, false,
        Some(Coord(-23.5505, -46.6333)), Some("123.456.789-00")) ]
  }

  /** The provider's `donations` state. */
  class DonationsStore {
    var donations: seq<Campaign>

    constructor (ajudeRsUri: string, doctorsUri: string)
      ensures donations == SeedDonations(ajudeRsUri, doctorsUri)
    {
      donations := SeedDonations(ajudeRsUri, doctorsUri);
    }

    /** `updateDonation`. */
    method UpdateDonation(id: string, amount: real)
      modifies this
      ensures donations == Credit(old(donations), id, amount)
      ensures TotalRaised(donations) == TotalRaised(old(donations)) + amount * (CountId(old(donations), id) as real)
    {
      CreditTotal(donations, id, amount);
      donations := Credit(donations, id, amount);
    }

    /** `addDonation`: builds the payload, calls the create endpoint (`criar`), and appends the
        campaign it returns. Returns the error that is thrown, if any; on error the list is unchanged. */
    method AddDonation(data: NewDonationData, criar: DonationPayload -> Result<Campaign, string>) returns (error: Option<string>)
      modifies this
      ensures match BuildPayload(data)
        case Failure(e) => error == Some(e) && donations == old(donations)
        case Success(p) =>
          match criar(p)
          case Success(c) => error.None? && donations == old(donations) + [c]
          case Failure(e) => error == Some(e) && donations == old(donations)
      ensures error.None? ==> |donations| == |old(donations)| + 1 && donations[..|old(donations)|] == old(donations)
    {
      var payload := BuildPayload(data);
      if payload.Failure? {
        return Some(payload.error);
      }
      var response := criar(payload.value);
      match response
      case Success(c) =>
        donations := donations + [c];
        error := None;
      case Failure(e) =>
        error := Some(e);
    }
  }
}
