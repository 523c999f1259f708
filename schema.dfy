/** What every page shares: the question types, the persisted shape of a
    question, a respondent's answer, and the supply of client-side ids. */
module Schema {
  import opened Strings

  /** The types whose questions carry a list of options. */
  predicate IsChoiceType(qtype: string)
  {
    qtype == "radio" || qtype == "checkbox" || qtype == "dropdown"
  }

  /** The five types the builders offer. */
  predicate IsKnownType(qtype: string)
  {
    qtype == "text" || qtype == "textarea" || IsChoiceType(qtype)
  }

  /** `formatType`: the display name of a question type. The five known
      types get five distinct names, none equal to its own type string;
      any other type is shown as it is. */
  function FormatType(qtype: string): (r: string)
    ensures r == qtype <==> !IsKnownType(qtype)
    ensures qtype == "text" ==> r == "Short Answer"
    ensures qtype == "textarea" ==> r == "Paragraph"
    ensures qtype == "radio" ==> r == "Multiple Choice"
    ensures qtype == "checkbox" ==> r == "Checkboxes"
    ensures qtype == "dropdown" ==> r == "Dropdown"
  {
    match qtype
    case "text" => "Short Answer"
    case "textarea" => "Paragraph"
    case "radio" => "Multiple Choice"
    case "checkbox" => "Checkboxes"
    case "dropdown" => "Dropdown"
    case _ => qtype
  }

  /** The default label `Option ${n}` of the n-th option. */
  function OptionLabel(n: nat): string
  {
    "Option " + NatToString(n)
  }

  /** The option labels a new question starts with. */
  function InitialOptions(qtype: string): seq<string>
  {
    if IsChoiceType(qtype) then [OptionLabel(1)] else []
  }

  /** The n-th identifier handed out by the id supply that stands for
      `crypto.randomUUID`. */
  function FreshId(n: nat): string
  {
    "id-" + NatToString(n)
  }

  /** The supply never hands out the same identifier twice. */
  lemma FreshIdInjective(m: nat, n: nat)
    requires FreshId(m) == FreshId(n)
    ensures m == n
  {
    assert FreshId(m)[3..] == NatToString(m);
    assert FreshId(n)[3..] == NatToString(n);
    NatToStringInjective(m, n);
  }

  /** `${origin}/form/${id}`: the public link of a form. */
  function PublicLink(origin: string, formId: string): string
  {
    origin + "/form/" + formId
  }

  /** A respondent's answer: one string (text, paragraph, radio, dropdown)
      or a list of strings (checkboxes). */
  datatype Answer = Scalar(value: string) | List(items: seq<string>)

  /** A question as the server stores and serves it: options are plain labels.
      (`prompt` is the source's `label`, a reserved word in Dafny.) */
  datatype FormQuestion = FormQuestion(id: string, qtype: string, prompt: string, required: bool, options: seq<string>)

  /** The body of a create request. */
  datatype FormDocument = FormDocument(title: string, description: string, questions: seq<FormQuestion>)
}
