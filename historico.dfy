/** src/screens/HistoricoDoacao.tsx: the donation-history list filtered by donor or
    campaign name and by an inclusive range of calendar days. */
module HistoricoDoacao {
  import opened Wrappers
  import opened Text
  import opened Seqs
  import opened Dates

  /** A property of a loosely typed record: its key is missing, or present with a
      null/undefined value, or present with a string. */
  datatype Field = Missing | Null | Str(s: string)

  /** `(item.key || '')` */
  function OrEmpty(f: Field): string {
    if f.Str? then f.s else ""
  }

  /** A history record: a donation made (campaign title and organizer) or a donation
      received (donor name); `date` may be null or malformed. */
  datatype HistoryItem = HistoryItem(
    id: string,
    date: Option<string>,
    donorName: Field,
    tituloCampanha: Field,
    nomeOrganizador: Field,
    valor: Option<real>)

  /** `!dateString` */
  predicate DateMissing(date: Option<string>) {
    date.None? || date.value == ""
  }

  /** `formatarDataSegura`: the pt-BR date, or a placeholder for a missing or invalid date. */
  function FormatarDataSegura(date: Option<string>, parse: DateParser): (r: string)
    ensures DateMissing(date) ==> r == "Data Indefinida"
    ensures !DateMissing(date) && parse(date.value).None? ==> r == "Data Inválida"
    ensures !DateMissing(date) && parse(date.value).Some? ==> r == parse(date.value).value.localeBR
  {
    if DateMissing(date) then "Data Indefinida"
    else match parse(date.value)
      case None => "Data Inválida"
      case Some(d) => d.localeBR
  }

  /** `formatarDataISO`: the ISO calendar day, or '' exactly when the date is missing or unparseable. */
  function FormatarDataISO(date: Option<string>, parse: DateParser): (r: string)
    ensures r == "" <==> DateMissing(date) || parse(date.value).None?
    ensures r != "" ==> r == IsoDay(parse(date.value).value) && 'T' !in r
  {
    if DateMissing(date) then ""
    else match parse(date.value)
      case None => ""
      case Some(d) => IsoDay(d)
  }

  /** The two date helpers reject the same records: the ISO day is '' exactly when the
      display helper shows one of its two placeholders (for a parser whose pt-BR dates are
      never those placeholders). */
  lemma DateHelpersAgree(date: Option<string>, parse: DateParser)
    requires forall s :: parse(s).Some? ==> parse(s).value.localeBR != "Data Indefinida" && parse(s).value.localeBR != "Data Inválida"
    ensures FormatarDataISO(date, parse) == "" <==>
      FormatarDataSegura(date, parse) == "Data Indefinida" || FormatarDataSegura(date, parse) == "Data Inválida"
  {
  }

  /** The three filter inputs: name query, `dataDe` and `dataAte` ('' meaning unbounded). */
  datatype Query = Query(buscaNome: string, dataDe: string, dataAte: string)

  /** The text the name query is matched against, chosen by which keys the record has. */
  function NomeDoItem(item: HistoryItem): string {
    if item.donorName != Missing then OrEmpty(item.donorName)
    else if item.tituloCampanha != Missing then OrEmpty(item.tituloCampanha) + " " + OrEmpty(item.nomeOrganizador)
    else ""
  }

  /** Inclusive lower bound, compared as strings. */
  predicate AfterDataDe(day: string, q: Query) {
    q.dataDe == "" || LexLe(q.dataDe, day)
  }

  /** Inclusive upper bound, compared as strings. */
  predicate BeforeDataAte(day: string, q: Query) {
    q.dataAte == "" || LexLe(day, q.dataAte)
  }

  /** Case-insensitive substring match; an empty query matches every record. */
  predicate MatchesNome(item: HistoryItem, q: Query) {
    q.buscaNome == "" || Includes(Lower(NomeDoItem(item)), Lower(q.buscaNome))
  }

  /** The predicate of the `filter` call. */
  predicate Keeps(item: HistoryItem, q: Query, parse: DateParser) {
    var day := FormatarDataISO(item.date, parse);
    day != "" && AfterDataDe(day, q) && BeforeDataAte(day, q) && MatchesNome(item, q)
  }

  /** `historicoFiltrado`: for a non-array history, []; otherwise the records with a usable
      date inside both bounds whose name matches, in their original order. */
  function HistoricoFiltrado(historico: Option<seq<HistoryItem>>, q: Query, parse: DateParser): (r: seq<HistoryItem>)
    ensures historico.None? ==> r == []
    ensures historico.Some? ==> Subsequence(r, historico.value)
    ensures historico.Some? ==> forall x :: x in r <==>
      && x in historico.value
      && FormatarDataISO(x.date, parse) != ""
      && AfterDataDe(FormatarDataISO(x.date, parse), q)
      && BeforeDataAte(FormatarDataISO(x.date, parse), q)
      && MatchesNome(x, q)
  {
    match historico
    case None => []
    case Some(items) => Filter(x => Keeps(x, q, parse), items)
  }

  /** A record whose date is missing or unparseable is dropped, even with no bound set. */
  lemma UndatedRecordDropped(items: seq<HistoryItem>, q: Query, parse: DateParser, x: HistoryItem)
    requires x in items && (DateMissing(x.date) || parse(x.date.value).None?)
    ensures x !in HistoricoFiltrado(Some(items), q, parse)
  {
  }

  /** With no name and no bounds, exactly the dated records stay. */
  lemma NoFiltersKeepsDatedRecords(items: seq<HistoryItem>, parse: DateParser)
    ensures forall x :: x in HistoricoFiltrado(Some(items), Query("", "", ""), parse) <==>
      x in items && FormatarDataISO(x.date, parse) != ""
  {
  }

  /** A lower bound after the upper bound leaves nothing. */
  lemma InvertedRangeIsEmpty(items: seq<HistoryItem>, q: Query, parse: DateParser)
    requires q.dataDe != "" && q.dataAte != "" && !LexLe(q.dataDe, q.dataAte)
    ensures HistoricoFiltrado(Some(items), q, parse) == []
  {
    forall i | 0 <= i < |items| ensures !Keeps(items[i], q, parse) {
      var day := FormatarDataISO(items[i].date, parse);
      if LexLe(q.dataDe, day) && LexLe(day, q.dataAte) {
        LexLeTransitive(q.dataDe, day, q.dataAte);
      }
    }
    FilterKeepsNone(x => Keeps(x, q, parse), items);
  }

  /** The name match ignores the case of the query. */
  lemma NomeMatchIgnoresQueryCase(item: HistoryItem, q: Query)
    ensures MatchesNome(item, q) == MatchesNome(item, q.(buscaNome := Lower(q.buscaNome)))
  {
    LowerIdempotent(q.buscaNome);
  }

  /** The query "ana" finds a received donation from "Ana Silva". */
  lemma NomeMatchExample(id: string, date: Option<string>, valor: Option<real>)
    ensures MatchesNome(HistoryItem(id, date, Str("Ana Silva"), Missing, Missing, valor), Query("ana", "", ""))
  {
    assert Lower("Ana Silva")[0..3] == "ana";
    assert OccursAt(Lower("Ana Silva"), Lower("ana"), 0);
  }
}
