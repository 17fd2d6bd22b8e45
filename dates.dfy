/** The part of JavaScript's `Date` the screens use: parsing a string, `toISOString`
    and `toLocaleDateString('pt-BR')`. Parsing itself is foreign and is passed in. */
module Dates {
  import opened Wrappers
  import opened Text

  /** A string `toISOString()` can produce: it starts with the year, so it is
      never empty and never starts with 'T'. */
  type IsoString = s: string | |s| > 0 && s[0] != 'T' witness "1970-01-01T00:00:00.000Z"

  /** A valid `Date`, seen through `toISOString()` and `toLocaleDateString('pt-BR')`. */
  datatype JsDate = JsDate(iso: IsoString, localeBR: string)

  /** `new Date(s)`: None when the result's `getTime()` is NaN. */
  type DateParser = string -> Option<JsDate>

  /** `d.toISOString().split('T')[0]`: the calendar day, the non-empty part of the ISO string before its first 'T'. */
  function IsoDay(d: JsDate): (r: string)
    ensures r != "" && r <= d.iso && 'T' !in r
    ensures |r| < |d.iso| ==> d.iso[|r|] == 'T'
  {
    FirstField(d.iso, 'T')
  }
}
