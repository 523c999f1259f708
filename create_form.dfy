/** The creation page: a draft edited by position until it is published
    (`drafting` -> `published`), after which every edit is refused. The
    page copies its question array before each edit but assigns the fields
    of the question objects themselves (`c[i].label = v`,
    `options.push`, `options[oi] = v`, `options.splice`), so the questions
    are objects here and the edits are methods that assign their fields. */
module CreateForm {
  import opened Collections
  import opened Strings
  import opened Schema

  /** A question object of the creation page. */
  class QuestionObject {
    const id: string
    const qtype: string
    var prompt: string
    var required: bool
    var options: seq<string>

    /** The question `addQuestion` creates: empty prompt, not required,
        and "Option 1" for a choice type. */
    constructor (id: string, qtype: string)
      ensures Value() == FormQuestion(id, qtype, "", false, InitialOptions(qtype))
    {
      this.id := id;
      this.qtype := qtype;
      prompt := "";
      required := false;
      options := InitialOptions(qtype);
    }

    /** The question as it is sent to the server. */
    function Value(): FormQuestion
      reads this
    {
      FormQuestion(id, qtype, prompt, required, options)
    }
  }

  /** The values of a list of question objects, in order. */
  function Values(qs: seq<QuestionObject>): (r: seq<FormQuestion>)
    reads qs
    ensures |r| == |qs|
    ensures forall i :: 0 <= i < |qs| ==> r[i] == qs[i].Value()
  {
    seq(|qs|, i reads qs requires 0 <= i < |qs| => qs[i].Value())
  }

  /** The page's header fields and publication state. */
  datatype Header = Header(title: string, description: string, formId: Option<string>, publicLink: string, created: bool, sent: seq<FormDocument>)

  class CreatePage {
    var title: string
    var description: string
    var questions: seq<QuestionObject>
    var formId: Option<string>
    var publicLink: string
    /** `created`: false while drafting, true once published. */
    var created: bool
    /** The position of the id supply standing for `crypto.randomUUID`. */
    var nextId: nat
    /** The create requests sent to the server so far. */
    var sent: seq<FormDocument>

    /** No question object occurs twice in the list: every edit reaches
        exactly one question. */
    ghost predicate Valid()
      reads this
    {
      forall i, j :: 0 <= i < j < |questions| ==> questions[i] != questions[j]
    }

    /** The questions as they are shown and sent. */
    function View(): seq<FormQuestion>
      reads this, questions
    {
      Values(questions)
    }

    function HeaderOf(): Header
      reads this
    {
      Header(title, description, formId, publicLink, created, sent)
    }

    /** The page as it opens: nothing typed, drafting. */
    constructor ()
      ensures Valid() && View() == []
      ensures HeaderOf() == Header("", "", None, "", false, [])
    {
      title, description, questions := "", "", [];
      formId, publicLink, created := None, "", false;
      nextId, sent := 0, [];
    }

    /** Typing in the title field. */
    method SetTitle(value: string)
      modifies this
      ensures HeaderOf() == old(HeaderOf()).(title := value)
      ensures questions == old(questions) && nextId == old(nextId)
    {
      title := value;
    }

    /** Typing in the description field. */
    method SetDescription(value: string)
      modifies this
      ensures HeaderOf() == old(HeaderOf()).(description := value)
      ensures questions == old(questions) && nextId == old(nextId)
    {
      description := value;
    }

    /** `addQuestion(type)`: refused once published; otherwise appends a new
        question with the next fresh id and leaves the others as they were. */
    method AddQuestion(qtype: string)
      requires Valid()
      modifies this
      ensures Valid() && HeaderOf() == old(HeaderOf())
      ensures old(created) ==> questions == old(questions) && nextId == old(nextId)
      ensures !old(created) ==> (nextId == old(nextId) + 1 &&
        View() == old(View()) + [FormQuestion(FreshId(old(nextId)), qtype, "", false, InitialOptions(qtype))])
    {
      if created {
        return;
      }
      var q := new QuestionObject(FreshId(nextId), qtype);
      questions := questions + [q];
      nextId := nextId + 1;
    }

    /** `updateLabel(i, v)`: refused once published; otherwise sets the
        prompt of question i only. */
    method UpdateLabel(i: nat, value: string)
      requires Valid()
      requires !created ==> i < |questions|
      modifies questions
      ensures Valid() && unchanged(this)
      ensures old(created) ==> View() == old(View())
      ensures !old(created) ==> View() == old(View())[i := old(View())[i].(prompt := value)]
    {
      if created {
        return;
      }
      questions[i].prompt := value;
    }

    /** `toggleRequired(i)`: refused once published; otherwise flips the
        flag of question i only. */
    method ToggleRequired(i: nat)
      requires Valid()
      requires !created ==> i < |questions|
      modifies questions
      ensures Valid() && unchanged(this)
      ensures old(created) ==> View() == old(View())
      ensures !old(created) ==> View() == old(View())[i := old(View())[i].(required := !old(View())[i].required)]
    {
      if created {
        return;
      }
      questions[i].required := !questions[i].required;
    }

    /** `addOption(qi)`: refused once published; otherwise appends
        "Option n+1" to the n options of question qi only. */
    method AddOption(qi: nat)
      requires Valid()
      requires !created ==> qi < |questions|
      modifies questions
      ensures Valid() && unchanged(this)
      ensures old(created) ==> View() == old(View())
      ensures !old(created) ==>
        var q := old(View())[qi];
        View() == old(View())[qi := q.(options := q.options + [OptionLabel(|q.options| + 1)])]
    {
      if created {
        return;
      }
      var q := questions[qi];
      q.options := q.options + [OptionLabel(|q.options| + 1)];
    }

    /** `updateOption(qi, oi, v)`: refused once published; otherwise sets
        option oi of question qi only. */
    method UpdateOption(qi: nat, oi: nat, value: string)
      requires Valid()
      requires !created ==> qi < |questions| && oi < |questions[qi].options|
      modifies questions
      ensures Valid() && unchanged(this)
      ensures old(created) ==> View() == old(View())
      ensures !old(created) ==>
        var q := old(View())[qi];
        View() == old(View())[qi := q.(options := q.options[oi := value])]
    {
      if created {
        return;
      }
      var q := questions[qi];
      q.options := q.options[oi := value];
    }

    /** `deleteOption(qi, oi)`: refused once published; otherwise removes
        option oi of question qi, so every later option moves down one
        place (`splice(oi, 1)` past the end removes nothing). */
    method DeleteOption(qi: nat, oi: nat)
      requires Valid()
      requires !created ==> qi < |questions|
      modifies questions
      ensures Valid() && unchanged(this)
      ensures old(created) ==> View() == old(View())
      ensures !old(created) ==>
        var q := old(View())[qi];
        View() == old(View())[qi := q.(options := if oi < |q.options| then q.options[..oi] + q.options[oi + 1..] else q.options)]
    {
      if created {
        return;
      }
      var q := questions[qi];
      if oi < |q.options| {
        q.options := q.options[..oi] + q.options[oi + 1..];
      }
    }

    /** `deleteQuestion(i)`: refused once published; otherwise removes the
        question at position i and keeps the others in order (no question
        is at a position past the end, so nothing is removed then). */
    method DeleteQuestion(i: nat)
      requires Valid()
      modifies this
      ensures Valid() && HeaderOf() == old(HeaderOf()) && nextId == old(nextId)
      ensures old(created) || i >= |old(questions)| ==> questions == old(questions)
      ensures !old(created) && i < |old(questions)| ==> View() == old(View())[..i] + old(View())[i + 1..]
    {
      if created {
        return;
      }
      if i < |questions| {
        questions := questions[..i] + questions[i + 1..];
      }
    }

    /** `createForm`: a title that is blank after trimming is refused before
        any request is sent and nothing changes; otherwise the draft is
        sent, the id the server assigns is recorded with its public link,
        and the page is published. */
    method Publish(origin: string, assignedId: string) returns (posted: bool)
      requires Valid()
      modifies this
      ensures Valid() && questions == old(questions) && nextId == old(nextId)
      ensures posted <==> !IsBlank(old(title))
      ensures !posted ==> HeaderOf() == old(HeaderOf())
      ensures posted ==> HeaderOf() == Header(old(title), old(description), Some(assignedId),
        PublicLink(origin, assignedId), true, old(sent) + [FormDocument(old(title), old(description), old(View()))])
    {
      if TrimsToEmpty(title) {
        return false;
      }
      var draft := FormDocument(title, description, View());
      sent, formId, publicLink, created := sent + [draft], Some(assignedId), PublicLink(origin, assignedId), true;
      posted := true;
    }
  }

  /** Once published, the page stays published and every edit leaves the
      questions as they are, whatever the arguments. */
  method PublishedIsFrozen(page: CreatePage, qtype: string, i: nat, oi: nat, value: string, origin: string, newId: string)
    requires page.Valid() && page.created
    modifies page, page.questions
    ensures page.created && page.View() == old(page.View())
  {
    page.AddQuestion(qtype);
    page.UpdateLabel(i, value);
    page.ToggleRequired(i);
    page.AddOption(i);
    page.UpdateOption(i, oi, value);
    page.DeleteOption(i, oi);
    page.DeleteQuestion(i);
    var _ := page.Publish(origin, newId);
  }
}
