/** The toast notifications the dashboard shows, as values, and the toast
    library that shows them. */
module Toasts {
  import opened Common

  datatype ToastKind = Success | Error | Warning | Info

  datatype Toast = Toast(kind: ToastKind, message: string)

  /** A report an export handler downloads, under its file name, and the
      toast the handler shows once the download was started. */
  datatype Export = Export(fileName: string, csv: string, toast: Toast)

  /** A toast library, told apart by the kinds of toast it has a method for.
      The dashboard imports `react-hot-toast`, whose default export has
      `toast.success` and `toast.error` but neither `toast.warning` nor
      `toast.info`: calling one of those throws a TypeError and shows
      nothing. `FullToasts` stands for a library with all four methods, the
      one the alert code is written against. */
  datatype ToastLibrary = HotToast | FullToasts
  {
    predicate Has(kind: ToastKind)
    {
      this == FullToasts || kind == Success || kind == Error
    }
  }

  /** The kind of toast an alert of this severity asks for: an error for
      `high`, a warning for `medium`, information for every other
      severity. */
  function SeverityKind(severity: string): ToastKind
  {
    match severity
    case "high" => Error
    case "medium" => Warning
    case _ => Info
  }

  /** The toast for a new alert: `TYPE: message`, an error toast for
      severity `high`, a warning for `medium` and an information toast for
      every other severity. */
  function SeverityToast(alertType: string, message: string, severity: string): (t: Toast)
    ensures t.message == Upper(alertType) + ": " + message
    ensures t.kind == Error <==> severity == "high"
    ensures t.kind == Warning <==> severity == "medium"
    ensures t.kind == Info <==> severity != "high" && severity != "medium"
  {
    Toast(SeverityKind(severity), Upper(alertType) + ": " + message)
  }

  /** With `react-hot-toast` only the toast of a `high` alert can be shown;
      a library with all four kinds shows every severity's toast. */
  lemma SeverityToastShown(severity: string)
    ensures HotToast.Has(SeverityKind(severity)) <==> severity == "high"
    ensures FullToasts.Has(SeverityKind(severity))
  {
  }
}
