/** The administrator's list of forms: toggling a form on or off, deleting
    it after a confirmation, the title search, and copying a public link. */
module ManageForms {
  import opened Collections
  import opened Strings
  import opened Schema

  /** A form as the list shows it (`_id` is `id`). */
  datatype FormSummary = FormSummary(id: string, title: string, isActive: bool, responseCount: Option<nat>)

  /** The list update after a toggle request: the forms with the given id
      flip `isActive`; every other form, the length and the order stay. */
  function ToggleForm(forms: seq<FormSummary>, id: string): (r: seq<FormSummary>)
    ensures |r| == |forms|
    ensures forall i :: 0 <= i < |forms| && forms[i].id != id ==> r[i] == forms[i]
    ensures forall i :: 0 <= i < |forms| && forms[i].id == id ==>
      r[i].isActive == !forms[i].isActive && r[i] == forms[i].(isActive := r[i].isActive)
  {
    Map(forms, (f: FormSummary) => if f.id == id then f.(isActive := !f.isActive) else f)
  }

  /** Toggling the same form twice restores the list. */
  lemma ToggleTwice(forms: seq<FormSummary>, id: string)
    ensures ToggleForm(ToggleForm(forms, id), id) == forms
  {
    var once := ToggleForm(forms, id);
    var twice := ToggleForm(once, id);
    assert forall i :: 0 <= i < |forms| ==> once[i].id == forms[i].id;
    assert forall i :: 0 <= i < |forms| ==> twice[i] == forms[i];
  }

  /** Toggles of different forms commute. */
  lemma ToggleCommutes(forms: seq<FormSummary>, a: string, b: string)
    ensures ToggleForm(ToggleForm(forms, a), b) == ToggleForm(ToggleForm(forms, b), a)
  {
    var ab := ToggleForm(ToggleForm(forms, a), b);
    var ba := ToggleForm(ToggleForm(forms, b), a);
    assert forall i :: 0 <= i < |forms| ==> ab[i] == ba[i];
  }

  /** `deleteForm`: nothing changes when the confirmation is declined;
      otherwise exactly the forms with the given id go, and the others
      stay, each as often as before, in their order. */
  function DeleteForm(forms: seq<FormSummary>, id: string, confirmed: bool): (r: seq<FormSummary>)
    ensures !confirmed ==> r == forms
    ensures confirmed ==> forall f :: f in r <==> f in forms && f.id != id
    ensures confirmed ==> forall f: FormSummary :: f.id != id ==> multiset(r)[f] == multiset(forms)[f]
    ensures confirmed ==> IsSubsequence(r, forms)
  {
    if !confirmed then forms
    else
      var keep := (f: FormSummary) => f.id != id;
      FilterSpec(forms, keep);
      Filter(forms, keep)
  }

  /** The search rule: the lowercased title includes the lowercased search. */
  predicate TitleMatches(f: FormSummary, search: string)
  {
    Contains(Lower(f.title), Lower(search))
  }

  /** `filteredForms`: the forms whose title matches the search, in the
      order of the list, each as often as in the list. */
  function FilteredForms(forms: seq<FormSummary>, search: string): (r: seq<FormSummary>)
    ensures forall f :: f in r <==> f in forms && TitleMatches(f, search)
    ensures forall f :: TitleMatches(f, search) ==> multiset(r)[f] == multiset(forms)[f]
    ensures IsSubsequence(r, forms)
  {
    var keep := (f: FormSummary) => TitleMatches(f, search);
    FilterSpec(forms, keep);
    Filter(forms, keep)
  }

  /** An empty search shows every form. */
  lemma {:induction false} EmptySearchShowsAll(forms: seq<FormSummary>)
    ensures FilteredForms(forms, "") == forms
  {
    forall i | 0 <= i < |forms|
      ensures TitleMatches(forms[i], "")
    {
      ContainsEmpty(Lower(forms[i].title));
    }
    FilterKeepsAll(forms, (f: FormSummary) => TitleMatches(f, ""));
  }

  /** Lowercasing twice is lowercasing once. */
  lemma LowerIdempotent(s: string)
    ensures Lower(Lower(s)) == Lower(s)
  {
    assert forall i :: 0 <= i < |s| ==> LowerChar(LowerChar(s[i])) == LowerChar(s[i]);
  }

  /** The search ignores the case of what is typed. */
  lemma {:induction false} SearchIgnoresCase(forms: seq<FormSummary>, search: string)
    ensures FilteredForms(forms, Lower(search)) == FilteredForms(forms, search)
  {
    LowerIdempotent(search);
    FilterSamePredicate(forms, (f: FormSummary) => TitleMatches(f, Lower(search)), (f: FormSummary) => TitleMatches(f, search));
  }

  /** What `copyLink` leaves behind: the clipboard and the row marked as copied. */
  datatype CopyState = CopyState(clipboard: Option<string>, copiedId: Option<string>)

  /** `copyLink`: an inactive form's link is not copied and nothing
      changes; otherwise its public link goes to the clipboard and the row
      is marked as copied. */
  function CopyLink(s: CopyState, origin: string, id: string, isActive: bool): (r: CopyState)
    ensures !isActive ==> r == s
    ensures isActive ==> r.copiedId == Some(id) && r.clipboard == Some(origin + "/form/" + id)
  {
    if !isActive then s else CopyState(Some(PublicLink(origin, id)), Some(id))
  }

  /** The response count shown: a missing count is shown as 0. */
  function ResponseCountShown(f: FormSummary): (n: nat)
    ensures f.responseCount.None? ==> n == 0
    ensures f.responseCount.Some? ==> n == f.responseCount.value
  {
    f.responseCount.GetOr(0)
  }

  /** The status badge of the list. */
  function StatusLabel(isActive: bool): (text: string)
    ensures isActive <==> text == "Active"
    ensures !isActive ==> text == "Inactive"
  {
    if isActive then "Active" else "Inactive"
  }
}
