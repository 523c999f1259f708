/** The respondent's page: an answer map keyed by question id, the
    required-answer check run on submit, and the handlers that fill the
    answer map. */
module PublicForm {
  import opened Collections
  import opened Schema

  /** The one message every validation error carries. */
  const RequiredMessage: string := "This question is required"

  /** `answers[id]` is `undefined`, `""` or an empty array. */
  predicate Unanswered(answers: map<string, Answer>, id: string)
  {
    id !in answers || answers[id] == Scalar("") || answers[id] == List([])
  }

  /** Some required question with this id is left unanswered. A question
      that is not required never makes an id missing. */
  predicate Missing(questions: seq<FormQuestion>, answers: map<string, Answer>, id: string)
  {
    exists q :: q in questions && q.required && q.id == id && Unanswered(answers, id)
  }

  predicate AllRequiredAnswered(questions: seq<FormQuestion>, answers: map<string, Answer>)
  {
    forall q :: q in questions && q.required ==> !Unanswered(answers, q.id)
  }

  /** `errors` is the error map of a submission: one entry, carrying the
      required message, for exactly the ids that are missing. */
  predicate IsErrorMap(errors: map<string, string>, questions: seq<FormQuestion>, answers: map<string, Answer>)
  {
    (forall id :: id in errors ==> Missing(questions, answers, id) && errors[id] == RequiredMessage) &&
    (forall q :: q in questions && q.required && Unanswered(answers, q.id) ==> q.id in errors)
  }

  /** The `forEach` of `submit` that fills `newErrors`. */
  method Validate(questions: seq<FormQuestion>, answers: map<string, Answer>) returns (errors: map<string, string>)
    ensures IsErrorMap(errors, questions, answers)
    ensures errors == map[] <==> AllRequiredAnswered(questions, answers)
  {
    errors := map[];
    for k := 0 to |questions|
      invariant IsErrorMap(errors, questions[..k], answers)
    {
      var q := questions[k];
      assert questions[..k + 1] == questions[..k] + [q];
      if q.required && (q.id !in answers || answers[q.id] == Scalar("") || answers[q.id] == List([])) {
        errors := errors[q.id := RequiredMessage];
        assert Missing(questions[..k + 1], answers, q.id);
      }
    }
    assert questions[..|questions|] == questions;
    if errors != map[] {
      var id :| id in errors;
      var q :| q in questions && q.required && q.id == id && Unanswered(answers, id);
    }
  }

  /** The text, paragraph, radio and dropdown handlers: `{...answers,
      [q.id]: value}`. The question counts as answered afterwards exactly
      when the value is not empty (the dropdown's placeholder is `""`). */
  function SetAnswer(answers: map<string, Answer>, qid: string, value: string): (r: map<string, Answer>)
    ensures r.Keys == answers.Keys + {qid}
    ensures r[qid] == Scalar(value)
    ensures forall k :: k in answers && k != qid ==> r[k] == answers[k]
    ensures !Unanswered(r, qid) <==> value != ""
  {
    answers[qid := Scalar(value)]
  }

  /** Typing twice in the same field keeps only the last value. */
  lemma SetAnswerLastWins(answers: map<string, Answer>, qid: string, v: string, w: string)
    ensures SetAnswer(SetAnswer(answers, qid, v), qid, w) == SetAnswer(answers, qid, w)
  {
  }

  /** A checkbox question's entry holds no typed text: it is absent, empty
      text or a list. (`[...prev, opt]` would spread a non-empty string
      into its characters.) */
  predicate NoTextAt(answers: map<string, Answer>, qid: string)
  {
    qid in answers && answers[qid].Scalar? ==> answers[qid].value == ""
  }

  /** `answers[q.id] || []`: the list a checkbox handler starts from. */
  function PreviousChoices(answers: map<string, Answer>, qid: string): seq<string>
  {
    if qid in answers && answers[qid].List? then answers[qid].items else []
  }

  /** The checkbox handler: checking appends the option to the previous
      list; unchecking removes every occurrence of it and keeps the other
      choices, each as often as before, in order. Other keys are untouched. */
  function Choose(answers: map<string, Answer>, qid: string, opt: string, checked: bool): (r: map<string, Answer>)
    requires NoTextAt(answers, qid)
    ensures r.Keys == answers.Keys + {qid}
    ensures forall k :: k in answers && k != qid ==> r[k] == answers[k]
    ensures r[qid].List?
    ensures checked ==> r[qid].items == PreviousChoices(answers, qid) + [opt]
    ensures !checked ==> opt !in r[qid].items
    ensures !checked ==> forall o :: o != opt ==> multiset(r[qid].items)[o] == multiset(PreviousChoices(answers, qid))[o]
    ensures !checked ==> IsSubsequence(r[qid].items, PreviousChoices(answers, qid))
  {
    var prev := PreviousChoices(answers, qid);
    var keep := (o: string) => o != opt;
    FilterSpec(prev, keep);
    answers[qid := List(if checked then prev + [opt] else Filter(prev, keep))]
  }

  /** Checking a box that was not checked and then unchecking it brings the
      previous choices back, and the question is answered afterwards
      exactly when it was before. */
  lemma {:induction false} CheckThenUncheck(answers: map<string, Answer>, qid: string, opt: string)
    requires NoTextAt(answers, qid)
    requires opt !in PreviousChoices(answers, qid)
    ensures Choose(Choose(answers, qid, opt, true), qid, opt, false)[qid] == List(PreviousChoices(answers, qid))
    ensures Unanswered(Choose(Choose(answers, qid, opt, true), qid, opt, false), qid) <==> Unanswered(answers, qid)
  {
    var prev := PreviousChoices(answers, qid);
    var keep := (o: string) => o != opt;
    FilterAppend(prev, opt, keep);
    FilterKeepsAll(prev, keep);
  }

  /** A response sent to the server. */
  datatype Submission = Submission(formId: string, answers: map<string, Answer>)

  /** The page state of one loaded form. */
  class Page {
    const formId: string
    const questions: seq<FormQuestion>
    var answers: map<string, Answer>
    var errors: map<string, string>
    var submitted: bool
    /** The responses posted so far. */
    var sent: seq<Submission>

    constructor (formId: string, questions: seq<FormQuestion>)
      ensures this.formId == formId && this.questions == questions
      ensures answers == map[] && errors == map[] && !submitted && sent == []
    {
      this.formId := formId;
      this.questions := questions;
      answers, errors, submitted, sent := map[], map[], false, [];
    }

    /** `submit`: with a required question unanswered, the errors are shown
        and nothing is posted; otherwise the errors are cleared, the
        answers are posted, and the page shows its thank-you state. The
        answers are left as they are either way. */
    method Submit() returns (posted: bool)
      modifies this
      ensures answers == old(answers)
      ensures posted <==> AllRequiredAnswered(questions, answers)
      ensures !posted ==> (IsErrorMap(errors, questions, answers) && errors != map[] &&
        submitted == old(submitted) && sent == old(sent))
      ensures posted ==> errors == map[] && submitted && sent == old(sent) + [Submission(formId, answers)]
    {
      var newErrors := Validate(questions, answers);
      if newErrors != map[] {
        errors := newErrors;
        return false;
      }
      errors := map[];
      sent := sent + [Submission(formId, answers)];
      submitted := true;
      posted := true;
    }

    /** `resetForm`: a blank page again; what was posted stays posted. */
    method Reset()
      modifies this
      ensures answers == map[] && errors == map[] && !submitted && sent == old(sent)
    {
      answers, errors, submitted := map[], map[], false;
    }

    /** A text, paragraph, radio or dropdown change. */
    method Type(qid: string, value: string)
      modifies this
      ensures answers == SetAnswer(old(answers), qid, value)
      ensures errors == old(errors) && submitted == old(submitted) && sent == old(sent)
    {
      answers := SetAnswer(answers, qid, value);
    }

    /** A checkbox change. */
    method Tick(qid: string, opt: string, checked: bool)
      requires NoTextAt(answers, qid)
      modifies this
      ensures answers == Choose(old(answers), qid, opt, checked)
      ensures errors == old(errors) && submitted == old(submitted) && sent == old(sent)
    {
      answers := Choose(answers, qid, opt, checked);
    }
  }
}
