# Form builder: the in-memory form model

This project models, in Dafny, the logic that sits under the pages of a
React form builder: the administrator edits a form (a title, a
description and a list of questions, each with a type, a prompt, a
required flag and, for choice types, a list of options), publishes it,
manages the list of forms, and reads the responses; respondents fill the
public form, which is validated before it is submitted.

The model has one module per page, over two shared modules:

- `Collections`, `Strings`: `map`, `filter`, `join`, decimal rendering of
  numbers, `trim`, ASCII `toLowerCase`, `includes`.
- `Schema`: question types and their display names, the stored question,
  answers (`Scalar` text or a `List` of checkbox choices) and the id
  supply that stands for `crypto.randomUUID` (a counter: the n-th id is
  `"id-" + n`, proved injective).
- `EditForm` (src/pages/EditForm.jsx): pure functions from the old
  question list to the new one. Questions and options are addressed by
  id. Loading gives every question and every plain option an id; saving
  strips the option ids again. The load/save round trip is proved.
- `CreateForm` (src/pages/CreateForm.jsx): a class `CreatePage` with a
  class `QuestionObject` per question, since the page mutates its question
  objects in place and addresses them by position. A `created` flag
  freezes every edit once the form is published; publishing refuses a
  title that is blank after trimming.
- `PublicForm` (src/pages/PublicForm.jsx): the required-answer check (a
  loop filling an error map), the answer-map handlers, and a class `Page`
  for submit and reset.
- `FormResponses` (src/pages/FormResponses.jsx): the export row builder
  and the chart counting loops, each proved against a specification
  function; the table-cell rule.
- `ManageForms` (src/pages/ManageForms.jsx) and `FormsTable`
  (src/components/FormsTable.jsx): toggle, delete, search, copy link and
  the status texts.

The id supply is passed in as `next: nat` and the functions return the
next unused position. Network calls are steps assumed to succeed: a
posted create request or response is appended to a `sent` log, and the id
the server assigns to a new form is an argument.

## Model

| member | source | states |
|---|---|---|
| Strings.TrimsToEmpty | src/pages/CreateForm.jsx:94 | the title check `!title.trim()` holds exactly for a title made only of white space and line terminators (the empty title included) |
| Strings.TrimEmptyIffBlank | src/pages/CreateForm.jsx:94 | `title.trim()` is empty exactly when every character of the title is white space or a line terminator |
| Strings.ContainsIff | src/pages/ManageForms.jsx:59 | `includes` holds exactly when the search string occurs at some position of the title |
| Schema.FormatType | src/pages/CreateForm.jsx:8-23 | the five known types get their display names ("Short Answer", "Paragraph", "Multiple Choice", "Checkboxes", "Dropdown"), and the result equals the type string exactly when the type is not one of the five; shared with src/pages/EditForm.jsx:7-22 |
| Schema.FreshIdInjective | src/pages/EditForm.jsx:37 | the id supply never hands out the same id for two positions |
| EditForm.LoadOptions | src/pages/EditForm.jsx:38-42 | one option per stored option in the same order; an option object is kept as it is; a plain label becomes an option with that label and the id at the supply position after those of the plain labels before it (one new id per `randomUUID` call); exactly one position is consumed per plain label |
| EditForm.LoadQuestion | src/pages/EditForm.jsx:35-43 | every field is kept; a falsy id is replaced by the id at the current supply position and a present one kept; the options take the positions after it; an absent option list becomes empty; one position is consumed per fresh id and no more |
| EditForm.LoadQuestions | src/pages/EditForm.jsx:35-43 | one loaded question per stored question, same number and order; question i draws its fresh ids from the positions after those of the questions before it |
| EditForm.Load | src/pages/EditForm.jsx:34-47 | title and description as stored; an absent question list becomes empty; every question loaded as above, and the supply advanced by exactly the number of fresh ids issued |
| EditForm.SlotIdIsFresh | src/pages/EditForm.jsx:37-40 | the id loading puts at a question or option that needs one is the fresh id at that place's supply position |
| EditForm.SlotPositionsDistinct | src/pages/EditForm.jsx:35-43 | two different places that need a fresh id take different supply positions |
| EditForm.LoadIssuesDistinctIds | src/pages/EditForm.jsx:35-43 | one load never gives the same fresh id to two places (two id-less questions, two plain options, or a question and an option), as every `randomUUID` call gives a new id |
| EditForm.Save | src/pages/EditForm.jsx:140-147 | the save payload keeps title, description and every question field, in order, and turns each option into its plain label |
| EditForm.SaveAfterLoad | src/pages/EditForm.jsx:140-147 | saving right after loading a stored form whose questions all have ids gives the stored form back, except that an absent question list and absent option lists come back empty and option objects come back as their labels |
| EditForm.SaveLoadedQuestion | src/pages/EditForm.jsx:140-147 | saving one loaded question that had an id gives the stored question with its options reduced to labels, whatever supply position it was loaded at |
| EditForm.SaveLoadRoundTrip | src/pages/EditForm.jsx:140-147 | a form as saving stores it (lists present, ids present, plain options) survives load then save unchanged |
| EditForm.ReloadEquivalent | src/pages/EditForm.jsx:35-43 | for a stored form whose questions all have ids, the saved result is the same whatever supply positions the two loads start at (option ids are dropped on save); a question without an id gets different ids from the two loads, so it is excluded |
| EditForm.LoadIdempotent | src/pages/EditForm.jsx:38-42 | loading an already editable document (question ids present, options as objects) gives back the same ids and labels and consumes no id |
| EditForm.LoadEmbeddedQuestion | src/pages/EditForm.jsx:37-42 | a question with an id whose options are objects needs no fresh id, and loading it gives it back at any supply position |
| EditForm.AddQuestion | src/pages/EditForm.jsx:54-68 | exactly one question is appended at the end with a fresh id, the given type, an empty prompt, not required, and one option "Option 1" with the next fresh id after the question's, for radio, checkbox and dropdown, none otherwise; the earlier questions are unchanged |
| EditForm.UpdateLabel | src/pages/EditForm.jsx:70-76 | questions whose id matches get the new prompt and nothing else changes in them; every other question, the length and the order are unchanged |
| EditForm.UpdateLabelLastWins | src/pages/EditForm.jsx:70-76 | two prompt edits of the same question leave only the second |
| EditForm.ToggleRequired | src/pages/EditForm.jsx:78-84 | questions whose id matches flip their required flag and nothing else; every other question, the length and the order are unchanged |
| EditForm.ToggleRequiredTwice | src/pages/EditForm.jsx:78-84 | toggling the same question twice restores the list |
| EditForm.AddOption | src/pages/EditForm.jsx:86-103 | each question whose id matches gets one option appended, labelled "Option n+1" for its n previous options, with a fresh id of its own: the k-th matching question gets the id at supply position next + k, as `randomUUID` is called once per match; its earlier options and every other question are unchanged; one id is consumed per matching question |
| EditForm.MatchesOfUnique | src/pages/EditForm.jsx:86-103 | when question ids are distinct, at most one question matches, so `addOption` consumes at most one id, and exactly one when a question has the id |
| EditForm.UpdateOption | src/pages/EditForm.jsx:105-118 | in matching questions only the label of options with the matching id changes; option count, order, ids and other labels are unchanged |
| EditForm.DeleteOption | src/pages/EditForm.jsx:120-131 | in matching questions exactly the options with the matching id are removed, the rest keep their order and multiplicity; other questions are unchanged |
| EditForm.DeleteQuestion | src/pages/EditForm.jsx:133-135 | exactly the questions with the matching id are removed; the rest stay, each as often as before, in their relative order |
| EditForm.AddThenDeleteQuestion | src/pages/EditForm.jsx:133-135 | deleting the question just added (its id unused before) restores the list |
| EditForm.AddThenDeleteOption | src/pages/EditForm.jsx:120-131 | with distinct question ids, deleting the option just added to a question restores the list |
| EditForm.UpdateOptionAfterDelete | src/pages/EditForm.jsx:105-131 | renaming one option and deleting another commute: edits reach options by id whatever deletions happened before |
| CreateForm.QuestionObject.constructor | src/pages/CreateForm.jsx:40-49 | a new question has the given id and type, an empty prompt, is not required, and has options ["Option 1"] for radio, checkbox and dropdown and [] otherwise |
| CreateForm.CreatePage.constructor | src/pages/CreateForm.jsx:26-31 | the page opens drafting, with empty title, description and questions and no form id or link |
| CreateForm.CreatePage.SetTitle | src/pages/CreateForm.jsx:135 | typing sets the title and nothing else |
| CreateForm.CreatePage.SetDescription | src/pages/CreateForm.jsx:146 | typing sets the description and nothing else |
| CreateForm.CreatePage.AddQuestion | src/pages/CreateForm.jsx:36-51 | refused once published; otherwise appends one new question with the next fresh id (as the constructor states) and leaves the earlier ones unchanged |
| CreateForm.CreatePage.UpdateLabel | src/pages/CreateForm.jsx:53-58 | refused once published; otherwise only the question at position i gets the new prompt |
| CreateForm.CreatePage.ToggleRequired | src/pages/CreateForm.jsx:60-65 | refused once published; otherwise only the question at position i flips its flag |
| CreateForm.CreatePage.AddOption | src/pages/CreateForm.jsx:67-72 | refused once published; otherwise only question qi gets "Option n+1" appended to its n options |
| CreateForm.CreatePage.UpdateOption | src/pages/CreateForm.jsx:74-79 | refused once published; otherwise only position oi of question qi changes |
| CreateForm.CreatePage.DeleteOption | src/pages/CreateForm.jsx:81-86 | refused once published; otherwise position oi of question qi is removed and every later option moves down one place; a position past the end removes nothing |
| CreateForm.CreatePage.DeleteQuestion | src/pages/CreateForm.jsx:88-91 | refused once published; otherwise the question at position i is removed and the others keep their order; a position past the end removes nothing |
| CreateForm.CreatePage.Publish | src/pages/CreateForm.jsx:93-109 | a title blank after trimming sends nothing and changes nothing, so the page stays drafting; otherwise exactly one create request carries title, description and questions, and the page records the assigned id, its public link `origin/form/id`, and becomes published |
| CreateForm.PublishedIsFrozen | src/pages/CreateForm.jsx:36-91 | once published, every edit leaves the questions unchanged and the page stays published, whatever the arguments |
| PublicForm.Validate | src/pages/PublicForm.jsx:30-41 | the error map has a key exactly for the ids of required questions whose answer is undefined, "" or an empty list; a question that is not required never causes one; every message is "This question is required"; the map is empty exactly when every required question is answered |
| PublicForm.SetAnswer | src/pages/PublicForm.jsx:146 | a text, paragraph, radio or dropdown change stores exactly the typed value under the question's id, adds no other key and leaves every other key unchanged; the question is answered afterwards exactly when the value is not "" (shared with lines 161, 178 and 218) |
| PublicForm.SetAnswerLastWins | src/pages/PublicForm.jsx:146 | typing twice in one field keeps only the last value |
| PublicForm.Choose | src/pages/PublicForm.jsx:196-201 | checking appends the option to the previous list (or to [] when there is none); unchecking removes every occurrence of it and keeps the other choices with their multiplicity and order; other keys are unchanged |
| PublicForm.CheckThenUncheck | src/pages/PublicForm.jsx:196-201 | checking an unchecked box and unchecking it again restores the previous choices, and the question is answered afterwards exactly when it was before |
| PublicForm.Page.constructor | src/pages/PublicForm.jsx:10-12 | the page opens with no answers, no errors and not submitted |
| PublicForm.Page.Submit | src/pages/PublicForm.jsx:27-55 | answers are never changed; with an unanswered required question the error map is stored, nothing is posted and `submitted` is unchanged; otherwise errors are cleared, exactly one submission with the form id and the answers is posted, and `submitted` becomes true |
| PublicForm.Page.Reset | src/pages/PublicForm.jsx:57-61 | answers and errors become empty and `submitted` false |
| PublicForm.Page.Type | src/pages/PublicForm.jsx:144-147 | a field change updates the answer map as SetAnswer states and leaves errors and `submitted` alone |
| PublicForm.Page.Tick | src/pages/PublicForm.jsx:195-203 | a checkbox change updates the answer map as Choose states and leaves errors and `submitted` alone |
| FormResponses.Lookup | src/pages/FormResponses.jsx:41 | an answer is found exactly when the response has an answer map holding the question id, and it is the answer stored there (the chart's lookup on line 69 is the same) |
| FormResponses.ExportCell | src/pages/FormResponses.jsx:42 | a list answer is joined with ", ", a text answer is itself, a missing answer is "" |
| FormResponses.TableCell | src/pages/FormResponses.jsx:237-239 | a truthy answer shows as its export cell (a list joined with ", ", non-empty text as it is), a falsy one (missing or "") as "-" |
| FormResponses.BuildRow | src/pages/FormResponses.jsx:39-44 | the row has one column per question label, and under each label the cell of the last question carrying it |
| FormResponses.ExportRows | src/pages/FormResponses.jsx:38-45 | exactly one row per response, in fetch order, each built as BuildRow states |
| FormResponses.CellOfLast | src/pages/FormResponses.jsx:42 | the cell under a label is the export cell of the last question carrying that label |
| FormResponses.DistinctLabelsRow | src/pages/FormResponses.jsx:42 | when labels are distinct, every question's column holds its own answer |
| FormResponses.Contribution | src/pages/FormResponses.jsx:70-78 | a falsy answer adds no vote, a list answer adds one vote per element, and a non-empty text answer (radio, dropdown) adds one vote for its text |
| FormResponses.VotesSize | src/pages/FormResponses.jsx:68-79 | the number of votes equals the list lengths plus the number of truthy text answers |
| FormResponses.CountOne | src/pages/FormResponses.jsx:74 | one increment of the count of a (0 when absent) adds exactly one vote for a |
| FormResponses.CountEach | src/pages/FormResponses.jsx:72-75 | the inner loop adds one vote per element of a list answer, duplicates included |
| FormResponses.ChartCounts | src/pages/FormResponses.jsx:65-79 | the counting loops leave in `stats` exactly the values voted for, each with its number of votes |
| FormResponses.ChartData | src/pages/FormResponses.jsx:81-84 | the entries are exactly the (name, count) pairs of `stats`, with distinct names |
| FormResponses.ChartEntriesCounted | src/pages/FormResponses.jsx:66-84 | every chart entry names a value voted for and carries its vote count, at least 1 |
| FormResponses.TotalIsVotes | src/pages/FormResponses.jsx:68-79 | the counts of the chart add up to the number of votes |
| ManageForms.ToggleForm | src/pages/ManageForms.jsx:26-30 | forms whose id matches flip `isActive` and keep every other field; other forms, the length and the order are unchanged |
| ManageForms.ToggleTwice | src/pages/ManageForms.jsx:26-30 | toggling the same id twice restores the list |
| ManageForms.ToggleCommutes | src/pages/ManageForms.jsx:26-30 | toggles of two ids commute |
| ManageForms.DeleteForm | src/pages/ManageForms.jsx:45-55 | a declined confirmation changes nothing; otherwise exactly the forms with the id are removed, the others stay with their multiplicity and order |
| ManageForms.FilteredForms | src/pages/ManageForms.jsx:58-60 | the forms whose lowercased title includes the lowercased search, each as often as in the list, as a subsequence in list order |
| ManageForms.EmptySearchShowsAll | src/pages/ManageForms.jsx:58-60 | an empty search shows every form |
| ManageForms.LowerIdempotent | src/pages/ManageForms.jsx:59 | lowercasing twice is lowercasing once |
| ManageForms.SearchIgnoresCase | src/pages/ManageForms.jsx:58-60 | the search result does not depend on the case of what is typed |
| ManageForms.CopyLink | src/pages/ManageForms.jsx:34-42 | an inactive form's link is not copied and nothing changes; otherwise the clipboard holds `origin/form/id` and the row is marked as copied |
| ManageForms.ResponseCountShown | src/pages/ManageForms.jsx:132 | a missing response count is shown as 0, a present one as it is |
| ManageForms.StatusLabel | src/pages/ManageForms.jsx:124 | "Active" exactly for an active form, "Inactive" otherwise |
| FormsTable.ToggleKeepsRest | src/components/FormsTable.jsx:14-16 | the table's toggle (the same list update as the managed list's, so ToggleTwice covers line 15) flips `isActive` only for the matching id and keeps id, title, response count, length and order |
| FormsTable.StatusText | src/components/FormsTable.jsx:32 | "Active" exactly for an active form, "Disabled" otherwise |
| FormsTable.StatusTextsDiffer | src/components/FormsTable.jsx:32 | the table and the managed list show the same text exactly for active forms |

## Left out

- Network calls (`api.get`, `post`, `put`, `patch`, `delete`) are steps assumed to succeed; their failure paths, the loading flag and the page shown for a missing form (src/pages/PublicForm.jsx:15-24, the 404 check) are not modelled. Requests that matter are appended to a `sent` log.
- `crypto.randomUUID` is a counter passed in and returned; each call takes the next position and `FreshId` positions are distinct. Fresh ids are not proved different from ids already stored in the form, and the id-based editing lemmas require the fresh id to be unused in the draft.
- Each awaited request is one atomic step together with the state update after it. In the source, `created` is set only after `api.post` resolves (src/pages/CreateForm.jsx:99-108), so edits are still accepted and the create button can post again while the request is pending. The same holds for `submit` (src/pages/PublicForm.jsx:49-54). These interleavings are not modelled.
- `alert`, `navigate`, the clipboard write itself, the `setTimeout` that clears the copied mark, and `window.confirm` (an input) are left out or become inputs.
- XLSX, Blob and `saveAs` (src/pages/FormResponses.jsx:47-61) and the recharts rendering: only the row building and the counts are modelled.
- FormResponses.ChartData: a set of entries; the order `Object.entries` gives (integer-like keys first) is not claimed, and keys that clash with object prototype names are treated as ordinary strings.
- FormResponses.BuildRow: rows are maps from label to cell, so a later question overwrites an earlier one with the same label; the column order of the sheet is not modelled.
- ManageForms.FilteredForms: `toLowerCase` is ASCII only; Unicode case mapping is out of scope.
- The `...q` spread carries fields of a stored question the model does not know; questions have exactly the fields id, type, prompt (the source's `label`), required and options.
- PublicForm.Choose: requires that the question's entry holds no non-empty text, because spreading a string into a list (`[...prev, opt]`) would split it into characters; a checkbox question's entry is only ever written by checkbox handlers.
- CreateForm.CreatePage.UpdateOption: requires `oi` to be a position of the option list; assigning past the end of a JavaScript array leaves holes that `seq<string>` cannot hold. The other positional edits require a valid question position because the source throws on a missing question.
- CreateForm.CreatePage.SetTitle: the title and description inputs and the create button are disabled once published (src/pages/CreateForm.jsx:133, 144, 261); the handlers themselves have no guard, and the model follows the handlers, so `Publish` and the setters are not refused after publication.
- The EditForm title and description inputs (plain setters) and the save `alert` are not modelled separately.
- The creation flow addresses questions by position, as its code does, although the editing page addresses them by id; the model follows each page's code.
- FormsTable's toggle maps the list it captured rather than the latest state; in this sequential model the two are the same.
- Response `_id` keys and the response index column of the table are display only.
