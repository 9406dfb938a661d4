/** The source management page: a fixed table of log sources whose status
    column combines the status with the source's error text. */
module SourcePage {
  import opened Text

  /** The parts of a source row the status column reads; `errors` is null
      for a source without errors. */
  datatype SourceRow = SourceRow(source: string, status: string, errors: Option<string>)

  function SourceRows(): (rows: seq<SourceRow>)
    ensures |rows| == 5
  {
    [ SourceRow("Windows Domain " + "Controllers", "active", None),
      SourceRow("Linux Web Servers", "active", Some("2 errors")),
      SourceRow("Cisco Network Switches", "error", Some("15 errors")),
      SourceRow("Application Servers", "active", Some("1 errors")),
      SourceRow("Security Scanners", "inactive", None) ]
  }

  /** JavaScript truthiness of `errors`: null and the empty string are false. */
  predicate HasErrors(errors: Option<string>) {
    errors.Some? && errors.value != ""
  }

  datatype Icon = CheckCircle | AlertTriangle | XCircle

  /** A badge, and below it the error text when the branch shows one. */
  datatype SourceBadge = SourceBadge(caption: string, icon: Icon, color: string, note: Option<Option<string>>)

  /** `getStatusBadge(status, errors)`. */
  function StatusBadge(status: string, errors: Option<string>): (b: Option<SourceBadge>)
    ensures status == "active" && !HasErrors(errors) ==> b == Some(SourceBadge("active", CheckCircle, "green", None))
    ensures status == "active" && HasErrors(errors) ==> b == Some(SourceBadge("active", CheckCircle, "green", Some(errors)))
    ensures status == "error" ==> b == Some(SourceBadge("error", AlertTriangle, "red", Some(errors)))
    ensures status == "inactive" ==> b == Some(SourceBadge("inactive", XCircle, "slate", None))
    ensures b.Some? <==> status in ["active", "error", "inactive"]
  {
    if status == "active" && !HasErrors(errors) then Some(SourceBadge("active", CheckCircle, "green", None))
    else if status == "active" && HasErrors(errors) then Some(SourceBadge("active", CheckCircle, "green", Some(errors)))
    else if status == "error" then Some(SourceBadge("error", AlertTriangle, "red", Some(errors)))
    else if status == "inactive" then Some(SourceBadge("inactive", XCircle, "slate", None))
    else None
  }

  /** The caption is the status itself whenever there is a badge. */
  lemma CaptionIsStatus(status: string, errors: Option<string>)
    ensures StatusBadge(status, errors).Some? ==> StatusBadge(status, errors).value.caption == status
  {
  }

  /** An inactive source never shows its errors, and an active one shows them
      exactly when there are some. */
  lemma ErrorTextShown(status: string, errors: Option<string>)
    ensures status == "inactive" ==> StatusBadge(status, errors).value.note.None?
    ensures status == "active" ==> (StatusBadge(status, errors).value.note.Some? <==> HasErrors(errors))
    ensures status == "error" ==> StatusBadge(status, errors).value.note == Some(errors)
  {
  }

  /** What the table shows for its rows: the first row a plain badge, the
      second its error text, the last no error text. */
  lemma TableBadges()
    ensures StatusBadge(SourceRows()[0].status, SourceRows()[0].errors).value.note.None?
    ensures StatusBadge(SourceRows()[1].status, SourceRows()[1].errors).value.note == Some(Some("2 errors"))
    ensures StatusBadge(SourceRows()[4].status, SourceRows()[4].errors).value.note.None?
  {
  }
}
