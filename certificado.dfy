/** src/screens/CertificadoDoacao.tsx: complementary hours and the donor name on a certificate. */
module CertificadoDoacao {
  import opened Wrappers
  import opened Campaigns

  /** `VALOR_POR_HORA`: each 20 reais donated is one certified hour. */
  const ValorPorHora: real := 20.0

  /** `valor || 0`. */
  function ValorDoado(valor: Option<real>): real {
    OrDefault(valor, 0.0)
  }

  /** `Math.floor(valorDoado / VALOR_POR_HORA)`: the whole hours the donation pays for. */
  function HorasCertificadas(valor: Option<real>): (h: int)
    ensures (h as real) * ValorPorHora <= ValorDoado(valor) < ((h + 1) as real) * ValorPorHora
  {
    (ValorDoado(valor) / ValorPorHora).Floor
  }

  /** A missing or zero value certifies no hours. */
  lemma NoValueNoHours(valor: Option<real>)
    requires valor.None? || valor == Some(0.0)
    ensures HorasCertificadas(valor) == 0
  {
  }

  /** A non-negative donation certifies a non-negative number of hours. */
  lemma NonNegativeHours(valor: real)
    requires valor >= 0.0
    ensures HorasCertificadas(Some(valor)) >= 0
  {
  }

  /** Donating more never certifies fewer hours. */
  lemma HorasMonotone(v1: real, v2: real)
    requires 0.0 <= v1 <= v2
    ensures HorasCertificadas(Some(v1)) <= HorasCertificadas(Some(v2))
  {
    var h1 := HorasCertificadas(Some(v1));
    var h2 := HorasCertificadas(Some(v2));
    assert (h1 as real) * ValorPorHora <= v2 < ((h2 + 1) as real) * ValorPorHora;
  }

  /** `donorName || fallback`. */
  function NomeOu(donorName: Option<string>, fallback: string): (r: string)
    ensures donorName.None? || donorName == Some("") ==> r == fallback
    ensures donorName.Some? && donorName.value != "" ==> r == donorName.value
  {
    if donorName.Some? && donorName.value != "" then donorName.value else fallback
  }

  /** The name written into the PDF. */
  function NomeNoPdf(donorName: Option<string>): string {
    NomeOu(donorName, "Anônimo")
  }

  /** The name shown on screen. */
  function NomeNaTela(donorName: Option<string>): string {
    NomeOu(donorName, "Doador Anônimo")
  }

  /** For an anonymous donor the PDF and the screen show different names; otherwise the same. */
  lemma AnonymousNamesDiffer(donorName: Option<string>)
    ensures NomeNoPdf(donorName) == NomeNaTela(donorName) <==> donorName.Some? && donorName.value != ""
  {
  }
}
