/** src/components/InputDate.tsx: a date field that stores `YYYY-MM-DD` and shows `DD/MM/YYYY`. */
module InputDate {
  import opened Wrappers
  import opened Text
  import opened Dates

  /** A destructured element of `split`: past the end it is `undefined`, which prints as 'undefined'. */
  function PartOr(parts: seq<string>, i: nat): string {
    if i < |parts| then parts[i] else "undefined"
  }

  /** `formatDateForDisplay`. */
  function FormatDateForDisplay(dateString: string): (r: string)
    ensures dateString == "" <==> r == ""
    ensures dateString != "" ==> '/' in r
  {
    if dateString == "" then ""
    else
      var parts := Split(dateString, '-');
      var r := PartOr(parts, 2) + "/" + PartOr(parts, 1) + "/" + PartOr(parts, 0);
      assert r[|PartOr(parts, 2)|] == '/';
      r
  }

  /** `Y-M-D` becomes `D/M/Y` with the three parts kept verbatim. */
  lemma YmdToDmy(y: string, m: string, d: string)
    requires '-' !in y && '-' !in m && '-' !in d
    ensures FormatDateForDisplay(y + "-" + m + "-" + d) == d + "/" + m + "/" + y
  {
    var s := y + "-" + m + "-" + d;
    assert s == y + ['-'] + (m + ['-'] + d);
    SplitCons(y, '-', m + ['-'] + d);
    SplitCons(m, '-', d);
    SplitNone(d, '-');
  }

  /** A value without '-' is shown with 'undefined' for the day and month. */
  lemma NoDashShowsUndefined(s: string)
    requires s != "" && '-' !in s
    ensures FormatDateForDisplay(s) == "undefined/undefined/" + s
  {
    SplitNone(s, '-');
  }

  /** `displayText`. */
  function DisplayText(value: string, placeholder: string): string {
    if value != "" then FormatDateForDisplay(value) else placeholder
  }

  /** The placeholder is shown exactly when the value is empty (for a placeholder without '/'). */
  lemma PlaceholderIffEmpty(value: string, placeholder: string)
    requires '/' !in placeholder
    ensures DisplayText(value, placeholder) == placeholder <==> value == ""
  {
  }

  /** The picker's visibility. */
  class DatePickerState {
    var showPicker: bool

    constructor ()
      ensures !showPicker
    {
      showPicker := false;
    }

    /** Pressing the field. */
    method Open()
      modifies this
      ensures showPicker
    {
      showPicker := true;
    }

    /** `onChangeDate`: the picker stays open only on iOS; a picked date is emitted as its ISO day. */
    method OnChangeDate(isIos: bool, selectedDate: Option<JsDate>) returns (emitted: Option<string>)
      modifies this
      ensures showPicker == isIos
      ensures emitted.Some? <==> selectedDate.Some?
      ensures selectedDate.Some? ==>
        emitted.value == IsoDay(selectedDate.value) && emitted.value <= selectedDate.value.iso && 'T' !in emitted.value
    {
      showPicker := isIos;
      emitted := None;
      if selectedDate.Some? {
        emitted := Some(IsoDay(selectedDate.value));
      }
    }
  }

  /** A picked date is stored as the day part of its ISO string and shown back as `D/M/Y`. */
  lemma PickedDateShown(y: string, m: string, d: string, time: string, localeBR: string)
    requires y != ""
    requires '-' !in y && '-' !in m && '-' !in d
    requires 'T' !in y && 'T' !in m && 'T' !in d
    ensures var day := y + "-" + m + "-" + d;
      var iso: IsoString := day + "T" + time;
      IsoDay(JsDate(iso, localeBR)) == day && FormatDateForDisplay(IsoDay(JsDate(iso, localeBR))) == d + "/" + m + "/" + y
  {
    var day := y + "-" + m + "-" + d;
    assert y[0] in y;
    assert day[0] == y[0];
    var iso: IsoString := day + "T" + time;
    assert 'T' !in day by {
      assert day == y + ['-'] + m + ['-'] + d;
    }
    FirstFieldPrefix(day, 'T', time);
    YmdToDmy(y, m, d);
  }
}
