/** The compact forms table: the same toggle as the managed list, and its
    own status text. */
module FormsTable {
  import opened ManageForms

  /** The table's toggle flips only the forms with the given id; every
      other field, the length and the order are kept. */
  lemma ToggleKeepsRest(forms: seq<FormSummary>, id: string, i: int)
    requires 0 <= i < |forms|
    ensures |ToggleForm(forms, id)| == |forms|
    ensures ToggleForm(forms, id)[i].id == forms[i].id
    ensures ToggleForm(forms, id)[i].title == forms[i].title
    ensures ToggleForm(forms, id)[i].responseCount == forms[i].responseCount
    ensures ToggleForm(forms, id)[i].isActive == (forms[i].isActive != (forms[i].id == id))
  {
  }

  /** The status column: "Active" or "Disabled". */
  function StatusText(isActive: bool): (text: string)
    ensures isActive <==> text == "Active"
    ensures !isActive ==> text == "Disabled"
  {
    if isActive then "Active" else "Disabled"
  }

  /** The two pages name an inactive form differently and an active one alike. */
  lemma StatusTextsDiffer(isActive: bool)
    ensures StatusText(isActive) == StatusLabel(isActive) <==> isActive
  {
  }
}
