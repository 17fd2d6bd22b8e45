/** The `Alert.alert(title, message)` dialogs the screens raise, as values. */
module Alerts {
  import opened Wrappers

  /** A dialog; a title-only `Alert.alert(title)` has message "". */
  datatype Alert = Alert(title: string, message: string)

  /** The dialog after a request whose rejection is shown as
      `Alert.alert('Erro', error.message || fallback)`. */
  function ResultAlert(response: Result<(), string>, success: Alert, fallback: string): (a: Alert)
    requires success.title != "Erro" && fallback != ""
    ensures response.Success? <==> a == success
    ensures response.Failure? ==> a.title == "Erro" && a.message != ""
    ensures response.Failure? && response.error != "" ==> a.message == response.error
  {
    match response
    case Success(_) => success
    case Failure(e) => Alert("Erro", if e == "" then fallback else e)
  }
}
