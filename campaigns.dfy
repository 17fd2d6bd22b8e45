/** The campaign record (`Donation` in src/context/DonationsContext.tsx) and the
    mapping between its three donation-type flags and the type tags the screens show. */
module Campaigns {
  import opened Wrappers
  import opened Seqs

  /** A geographic coordinate in decimal degrees. */
  datatype Coord = Coord(latitude: real, longitude: real)

  /** A campaign as the backend returns it; the amounts may be null or missing. */
  datatype Campaign = Campaign(
    id: string,
    titulo: string,
    subtitulo: Option<string>,
    valorLevantado: Option<real>,
    metaDoacoes: Option<real>,
    imagemBase64: string,
    descricao: string,
    fgDinheiro: bool,
    fgAlimentacao: bool,
    fgVestuario: bool,
    localizacao: Option<Coord>,
    chavePix: Option<string>)

  /** Stands for the TypeError thrown when a missing `localizacao` or `location` is read.
      Its message is the JavaScript engine's wording, which the model does not fix. */
  const MissingLocationError := "TypeError"

  /** `x || d` on a nullable number: null, undefined and 0 all fall back to `d`. */
  function OrDefault(x: Option<real>, d: real): real {
    if x.Some? && x.value != 0.0 then x.value else d
  }

  /** The three accepted-donation-type flags `fg_dinheiro`, `fg_alimentacao`, `fg_vestuario`. */
  datatype Flags = Flags(dinheiro: bool, alimentacao: bool, vestuario: bool)

  function FlagsOfCampaign(c: Campaign): Flags {
    Flags(c.fgDinheiro, c.fgAlimentacao, c.fgVestuario)
  }

  /** The labels a screen uses for money, food and goods. */
  datatype Vocabulary = Vocabulary(money: string, food: string, goods: string)

  /** Labels of the search filter and of the campaign-list context. */
  const SearchVocabulary := Vocabulary("Dinheiro", "Alimentação", "Utensílio")

  /** Labels of the create and edit forms. */
  const FormVocabulary := Vocabulary("Dinheiro", "Alimentação", "Utensílios/Vestimenta")

  predicate Distinct(v: Vocabulary) {
    v.money != v.food && v.food != v.goods && v.money != v.goods
  }

  /** The tags of the true flags, in the fixed order money, food, goods. */
  function TagsOf(f: Flags, v: Vocabulary): seq<string> {
    (if f.dinheiro then [v.money] else [])
    + (if f.alimentacao then [v.food] else [])
    + (if f.vestuario then [v.goods] else [])
  }

  /** `types.includes(label)` for each of the three labels. */
  function FlagsOf(tags: seq<string>, v: Vocabulary): Flags {
    Flags(v.money in tags, v.food in tags, v.goods in tags)
  }

  /** The derived tags are exactly the labels of the true flags, in the order money, food, goods. */
  lemma TagsOfSpec(f: Flags, v: Vocabulary)
    ensures forall t :: t in TagsOf(f, v) <==>
      (f.dinheiro && t == v.money) || (f.alimentacao && t == v.food) || (f.vestuario && t == v.goods)
    ensures Subsequence(TagsOf(f, v), [v.money, v.food, v.goods])
    ensures |TagsOf(f, v)| == (if f.dinheiro then 1 else 0) + (if f.alimentacao then 1 else 0) + (if f.vestuario then 1 else 0)
  {
    var all := [v.money, v.food, v.goods];
    var tail := [v.food, v.goods];
    var last := [v.goods];
    var g := if f.vestuario then [v.goods] else [];
    var fg := (if f.alimentacao then [v.food] else []) + g;
    assert all[1..] == tail && tail[1..] == last && last[1..] == [];
    assert Subsequence(g, last) by {
      if f.vestuario { assert g[1..] == []; }
    }
    assert Subsequence(fg, tail) by {
      if f.alimentacao { assert fg[1..] == g; }
    }
    assert TagsOf(f, v) == (if f.dinheiro then [v.money] else []) + fg;
    if f.dinheiro {
      assert TagsOf(f, v)[1..] == fg;
    }
  }

  /** Round trip: flags -> tags -> flags gives back the flags, for any vocabulary of distinct labels. */
  lemma FlagsTagsRoundTrip(f: Flags, v: Vocabulary)
    requires Distinct(v)
    ensures FlagsOf(TagsOf(f, v), v) == f
  {
    TagsOfSpec(f, v);
  }

  /** The two vocabularies disagree on the goods label: tags made by the forms, read back with
      the search/context labels, never set the goods flag. */
  lemma VocabulariesDisagreeOnGoods(f: Flags)
    ensures FlagsOf(TagsOf(f, FormVocabulary), SearchVocabulary) == f.(vestuario := false)
  {
    TagsOfSpec(f, FormVocabulary);
    assert SearchVocabulary.goods != FormVocabulary.goods;
    assert SearchVocabulary.goods != FormVocabulary.money && SearchVocabulary.goods != FormVocabulary.food;
  }
}
