/** The edit page's draft: a stored form is loaded into an editable draft
    whose options carry ids, edited by seven operations that address
    questions and options by id, and saved back with the option ids
    stripped. Every operation builds a new question list from the old one;
    nothing is updated in place. */
module EditForm {
  import opened Collections
  import opened Strings
  import opened Schema

  /** An option of the editable draft. (`text` is the source's `label`.) */
  datatype OptionItem = OptionItem(id: string, text: string)

  /** An option as the server may return it: a plain label (what saving
      stores), or an option object that is kept as it is. */
  datatype WireOption = Plain(text: string) | Keyed(item: OptionItem)

  /** A question as the server returns it. A falsy id (missing, null or
      empty) is the empty string; a missing `options` list is None. */
  datatype WireQuestion = WireQuestion(id: string, qtype: string, prompt: string, required: bool, options: Option<seq<WireOption>>)

  /** A form as the server returns it, and the payload that saving sends. */
  datatype WireForm = WireForm(title: string, description: string, questions: Option<seq<WireQuestion>>)

  /** A question of the editable draft. */
  datatype Question = Question(id: string, qtype: string, prompt: string, required: bool, options: seq<OptionItem>)

  /** The page state the editor works on. */
  datatype Draft = Draft(title: string, description: string, questions: seq<Question>)

  // ---------------------------------------------------------------- loading

  /** 1 for a plain label, which loading gives a fresh id; 0 for an option
      object, which it keeps. */
  function PlainWeight(o: WireOption): nat
  {
    if o.Plain? then 1 else 0
  }

  /** The number of fresh ids loading issues for one stored question: one
      for a falsy question id, one per plain label. */
  function FreshCount(q: WireQuestion): nat
  {
    (if q.id == "" then 1 else 0) + Sum(q.options.GetOr([]), PlainWeight)
  }

  /** What loading makes of one stored option with the supply at `at`: an
      option object is kept, a plain label gets the id at `at`. */
  predicate LoadedOption(o: WireOption, item: OptionItem, at: nat)
  {
    match o
    case Keyed(it) => item == it
    case Plain(t) => item == OptionItem(FreshId(at), t)
  }

  /** The options loaded from `os` with the supply at `next`: one per stored
      option, in order. Every `randomUUID` call gives a new id, so the plain
      label at j takes the position after those of the plain labels before it. */
  predicate LoadedOptions(os: seq<WireOption>, items: seq<OptionItem>, next: nat)
  {
    |items| == |os| &&
    forall j {:trigger items[j]} :: 0 <= j < |os| ==> LoadedOption(os[j], items[j], next + Sum(os[..j], PlainWeight))
  }

  /** What loading makes of one stored question with the supply at `next`:
      same type, prompt and flag; the id kept when present, the id at `next`
      when falsy; then the options, drawing from the positions after it; a
      missing list becomes empty. */
  predicate LoadedQuestion(q: WireQuestion, l: Question, next: nat)
  {
    && l.qtype == q.qtype && l.prompt == q.prompt && l.required == q.required
    && (if q.id == "" then l.id == FreshId(next) else l.id == q.id)
    && LoadedOptions(q.options.GetOr([]), l.options, next + (if q.id == "" then 1 else 0))
  }

  /** `(q.options || []).map(...)`: wraps each plain label in an option
      object with a fresh id, in order; option objects are left untouched. */
  function LoadOptions(os: seq<WireOption>, next: nat): (r: (seq<OptionItem>, nat))
    ensures LoadedOptions(os, r.0, next)
    ensures r.1 == next + Sum(os, PlainWeight)
    decreases |os|
  {
    if os == [] then ([], next)
    else
      var init := os[..|os| - 1];
      var (items, n) := LoadOptions(init, next);
      var item := match os[|os| - 1]
        case Plain(t) => OptionItem(FreshId(n), t)
        case Keyed(it) => it;
      assert LoadedOptions(os, items + [item], next) by {
        forall j | 0 <= j < |os|
          ensures LoadedOption(os[j], (items + [item])[j], next + Sum(os[..j], PlainWeight))
        {
          if j < |init| {
            assert init[..j] == os[..j] && init[j] == os[j];
          }
        }
      }
      (items + [item], n + PlainWeight(os[|os| - 1]))
  }

  /** Normalises one stored question: `{...q, id: q.id || uuid, options: ...}`. */
  function LoadQuestion(q: WireQuestion, next: nat): (r: (Question, nat))
    ensures LoadedQuestion(q, r.0, next)
    ensures r.1 == next + FreshCount(q)
  {
    var (id, n1) := if q.id == "" then (FreshId(next), next + 1) else (q.id, next);
    var (opts, n2) := LoadOptions(q.options.GetOr([]), n1);
    (Question(id, q.qtype, q.prompt, q.required, opts), n2)
  }

  /** The questions loaded from `qs` with the supply at `next`: one per
      stored question, in order; question i draws its ids from the
      positions after those the questions before it used. */
  predicate LoadedQuestions(qs: seq<WireQuestion>, ds: seq<Question>, next: nat)
  {
    |ds| == |qs| &&
    forall i {:trigger ds[i]} :: 0 <= i < |qs| ==> LoadedQuestion(qs[i], ds[i], next + Sum(qs[..i], FreshCount))
  }

  /** One more question at the end draws from the positions after those of
      the questions before it. */
  lemma LoadedQuestionsSnoc(qs: seq<WireQuestion>, loaded: seq<Question>, last: Question, next: nat)
    requires qs != []
    requires LoadedQuestions(qs[..|qs| - 1], loaded, next)
    requires LoadedQuestion(qs[|qs| - 1], last, next + Sum(qs[..|qs| - 1], FreshCount))
    ensures LoadedQuestions(qs, loaded + [last], next)
  {
    var init := qs[..|qs| - 1];
    forall i | 0 <= i < |qs|
      ensures LoadedQuestion(qs[i], (loaded + [last])[i], next + Sum(qs[..i], FreshCount))
    {
      if i < |init| {
        assert init[..i] == qs[..i] && init[i] == qs[i];
        assert (loaded + [last])[i] == loaded[i];
      } else {
        assert (loaded + [last])[i] == last && qs[..i] == init;
      }
    }
  }

  /** `(questions || []).map(...)`: normalises every question, keeping their
      number and order. */
  function LoadQuestions(qs: seq<WireQuestion>, next: nat): (r: (seq<Question>, nat))
    ensures LoadedQuestions(qs, r.0, next)
    ensures r.1 == next + Sum(qs, FreshCount)
    decreases |qs|
  {
    if qs == [] then ([], next)
    else
      var init := qs[..|qs| - 1];
      var (loaded, n) := LoadQuestions(init, next);
      var (last, n') := LoadQuestion(qs[|qs| - 1], n);
      LoadedQuestionsSnoc(qs, loaded, last, next);
      (loaded + [last], n')
  }

  /** Loading a stored form into the page: title and description as they
      are, questions normalised in order. */
  function Load(doc: WireForm, next: nat): (r: (Draft, nat))
    ensures r.0.title == doc.title && r.0.description == doc.description
    ensures LoadedQuestions(doc.questions.GetOr([]), r.0.questions, next)
    ensures r.1 == next + Sum(doc.questions.GetOr([]), FreshCount)
  {
    var (qs, n) := LoadQuestions(doc.questions.GetOr([]), next);
    (Draft(doc.title, doc.description, qs), n)
  }

  /** A place in a loaded draft that may receive a fresh id: the id of
      question i, or that of option j of question i. */
  datatype Slot = QuestionSlot(i: nat) | OptionSlot(i: nat, j: nat)

  /** Loading `qs` issues a fresh id at slot `s`: the stored question there
      has a falsy id, or the stored option there is a plain label. */
  predicate IssuesAt(qs: seq<WireQuestion>, s: Slot)
  {
    s.i < |qs| &&
    match s
    case QuestionSlot(i) => qs[i].id == ""
    case OptionSlot(i, j) => j < |qs[i].options.GetOr([])| && qs[i].options.GetOr([])[j].Plain?
  }

  /** The id at slot `s` of a draft's questions. */
  function IdAt(ds: seq<Question>, s: Slot): string
    requires s.i < |ds| && (s.OptionSlot? ==> s.j < |ds[s.i].options|)
  {
    match s
    case QuestionSlot(i) => ds[i].id
    case OptionSlot(i, j) => ds[i].options[j].id
  }

  /** The supply position loading takes the id at slot `s` from. */
  function SlotPosition(qs: seq<WireQuestion>, next: nat, s: Slot): nat
    requires IssuesAt(qs, s)
  {
    var start := next + Sum(qs[..s.i], FreshCount);
    match s
    case QuestionSlot(_) => start
    case OptionSlot(i, j) => start + (if qs[i].id == "" then 1 else 0) + Sum(qs[i].options.GetOr([])[..j], PlainWeight)
  }

  /** The id loading puts at a slot is the one at the slot's position. */
  lemma SlotIdIsFresh(doc: WireForm, next: nat, s: Slot)
    requires IssuesAt(doc.questions.GetOr([]), s)
    ensures s.i < |Load(doc, next).0.questions|
    ensures s.OptionSlot? ==> s.j < |Load(doc, next).0.questions[s.i].options|
    ensures IdAt(Load(doc, next).0.questions, s) == FreshId(SlotPosition(doc.questions.GetOr([]), next, s))
  {
    var qs := doc.questions.GetOr([]);
    var l := Load(doc, next).0.questions[s.i];
    assert LoadedQuestion(qs[s.i], l, next + Sum(qs[..s.i], FreshCount));
  }

  /** Question i draws its ids from the positions after those of the
      questions before it and before those of the questions after it; its
      own id comes before those of its options. */
  lemma {:induction false} SlotPositionWithin(qs: seq<WireQuestion>, next: nat, s: Slot)
    requires IssuesAt(qs, s)
    ensures next + Sum(qs[..s.i], FreshCount) <= SlotPosition(qs, next, s) < next + Sum(qs[..s.i + 1], FreshCount)
    ensures s.OptionSlot? && qs[s.i].id == "" ==> next + Sum(qs[..s.i], FreshCount) < SlotPosition(qs, next, s)
  {
    SumPrefix(qs, FreshCount, s.i, s.i + 1);
    if s.OptionSlot? {
      var os := qs[s.i].options.GetOr([]);
      SumPrefix(os, PlainWeight, s.j, |os|);
      assert os[..|os|] == os;
    }
  }

  /** Two different slots that receive fresh ids take different positions. */
  lemma {:induction false} SlotPositionsDistinct(qs: seq<WireQuestion>, next: nat, s: Slot, t: Slot)
    requires IssuesAt(qs, s) && IssuesAt(qs, t) && s != t
    ensures SlotPosition(qs, next, s) != SlotPosition(qs, next, t)
  {
    SlotPositionWithin(qs, next, s);
    SlotPositionWithin(qs, next, t);
    if s.i < t.i {
      SumPrefix(qs, FreshCount, s.i, t.i);
    } else if t.i < s.i {
      SumPrefix(qs, FreshCount, t.i, s.i);
    } else if s.OptionSlot? && t.OptionSlot? {
      var os := qs[s.i].options.GetOr([]);
      if s.j < t.j {
        SumPrefix(os, PlainWeight, s.j, t.j);
      } else {
        SumPrefix(os, PlainWeight, t.j, s.j);
      }
    }
  }

  /** Every `randomUUID` call gives a new id, so one load never gives the
      same fresh id to two places: two id-less questions, two plain
      options, or a question and an option. */
  lemma LoadIssuesDistinctIds(doc: WireForm, next: nat, s: Slot, t: Slot)
    requires IssuesAt(doc.questions.GetOr([]), s) && IssuesAt(doc.questions.GetOr([]), t) && s != t
    ensures s.i < |Load(doc, next).0.questions| && t.i < |Load(doc, next).0.questions|
    ensures s.OptionSlot? ==> s.j < |Load(doc, next).0.questions[s.i].options|
    ensures t.OptionSlot? ==> t.j < |Load(doc, next).0.questions[t.i].options|
    ensures IdAt(Load(doc, next).0.questions, s) != IdAt(Load(doc, next).0.questions, t)
  {
    var qs := doc.questions.GetOr([]);
    SlotIdIsFresh(doc, next, s);
    SlotIdIsFresh(doc, next, t);
    SlotPositionsDistinct(qs, next, s, t);
    if IdAt(Load(doc, next).0.questions, s) == IdAt(Load(doc, next).0.questions, t) {
      FreshIdInjective(SlotPosition(qs, next, s), SlotPosition(qs, next, t));
    }
  }

  // ---------------------------------------------------------------- saving

  function SaveOptions(os: seq<OptionItem>): seq<WireOption>
  {
    Map(os, (o: OptionItem) => Plain(o.text))
  }

  function SaveQuestion(q: Question): WireQuestion
  {
    WireQuestion(q.id, q.qtype, q.prompt, q.required, Some(SaveOptions(q.options)))
  }

  /** The `saveForm` payload: the questions in order with every field kept,
      except that each option is reduced to its label, so no option id is
      ever sent. */
  function Save(d: Draft): (w: WireForm)
    ensures w.title == d.title && w.description == d.description && w.questions.Some?
    ensures |w.questions.value| == |d.questions|
    ensures forall i :: 0 <= i < |d.questions| ==>
      var q, s := d.questions[i], w.questions.value[i];
      && s.id == q.id && s.qtype == q.qtype && s.prompt == q.prompt && s.required == q.required
      && s.options.Some? && |s.options.value| == |q.options|
      && forall j :: 0 <= j < |q.options| ==> s.options.value[j] == Plain(q.options[j].text)
  {
    WireForm(d.title, d.description, Some(Map(d.questions, SaveQuestion)))
  }

  /** The label a stored option stands for. */
  function LabelOf(o: WireOption): string
  {
    match o
    case Plain(t) => t
    case Keyed(it) => it.text
  }

  /** A stored question with its absent option list made empty and its
      options reduced to labels. */
  function FlattenQuestion(q: WireQuestion): WireQuestion
  {
    q.(options := Some(Map(q.options.GetOr([]), (o: WireOption) => Plain(LabelOf(o)))))
  }

  /** A stored form with its absent lists made empty and every option
      reduced to its label. */
  function Flatten(doc: WireForm): WireForm
  {
    WireForm(doc.title, doc.description, Some(Map(doc.questions.GetOr([]), FlattenQuestion)))
  }

  /** Every question of the stored form has an id. */
  predicate HasQuestionIds(doc: WireForm)
  {
    forall i :: 0 <= i < |doc.questions.GetOr([])| ==> doc.questions.GetOr([])[i].id != ""
  }

  /** A form as saving stores it: both lists present, every question with
      an id, every option a plain label. */
  predicate IsStoredForm(doc: WireForm)
  {
    && doc.questions.Some?
    && forall i :: 0 <= i < |doc.questions.value| ==>
      var q := doc.questions.value[i];
      && q.id != "" && q.options.Some?
      && forall j :: 0 <= j < |q.options.value| ==> q.options.value[j].Plain?
  }

  /** Saving one loaded question gives the stored question with only its
      option labels, whatever position the supply was at. */
  lemma {:induction false} SaveLoadedQuestion(q: WireQuestion, l: Question, at: nat)
    requires q.id != "" && LoadedQuestion(q, l, at)
    ensures SaveQuestion(l) == FlattenQuestion(q)
  {
    var os := q.options.GetOr([]);
    var saved := SaveOptions(l.options);
    var flat := Map(os, (o: WireOption) => Plain(LabelOf(o)));
    forall j | 0 <= j < |os| ensures saved[j] == flat[j] {
      assert LoadedOption(os[j], l.options[j], at + Sum(os[..j], PlainWeight));
    }
    assert saved == flat;
  }

  /** Saving right after loading gives back the stored form with only the
      option labels, whatever ids the supply handed out meanwhile. */
  lemma SaveAfterLoad(doc: WireForm, next: nat)
    requires HasQuestionIds(doc)
    ensures Save(Load(doc, next).0) == Flatten(doc)
  {
    var d := Load(doc, next).0;
    var qs := doc.questions.GetOr([]);
    var saved := Save(d).questions.value;
    var flat := Flatten(doc).questions.value;
    assert saved == flat by {
      forall i | 0 <= i < |qs| ensures saved[i] == flat[i] {
        SaveLoadedQuestion(qs[i], d.questions[i], next + Sum(qs[..i], FreshCount));
      }
    }
  }

  /** The load/save round trip: a stored form comes back unchanged. */
  lemma SaveLoadRoundTrip(doc: WireForm, next: nat)
    requires IsStoredForm(doc)
    ensures Save(Load(doc, next).0) == doc
  {
    SaveAfterLoad(doc, next);
    var qs := doc.questions.value;
    forall i | 0 <= i < |qs| ensures FlattenQuestion(qs[i]) == qs[i] {
      var os := qs[i].options.value;
      var plain := Map(os, (o: WireOption) => Plain(LabelOf(o)));
      assert plain == os by {
        forall j | 0 <= j < |os| ensures plain[j] == os[j] {
          assert os[j].Plain?;
        }
      }
    }
    assert Map(qs, FlattenQuestion) == qs;
  }

  /** Loading the same stored form twice gives drafts that save identically:
      same labels in the same order, only the fresh option ids differ. */
  lemma ReloadEquivalent(doc: WireForm, n1: nat, n2: nat)
    requires HasQuestionIds(doc)
    ensures Save(Load(doc, n1).0) == Save(Load(doc, n2).0)
  {
    SaveAfterLoad(doc, n1);
    SaveAfterLoad(doc, n2);
  }

  /** A question of the draft as a stored question whose options are
      option objects. */
  function EmbedQuestion(q: Question): WireQuestion
  {
    WireQuestion(q.id, q.qtype, q.prompt, q.required, Some(Map(q.options, (o: OptionItem) => Keyed(o))))
  }

  /** A draft as a stored form whose options are option objects. */
  function Embed(d: Draft): WireForm
  {
    WireForm(d.title, d.description, Some(Map(d.questions, EmbedQuestion)))
  }

  /** An embedded question with an id needs no fresh id, and loading it
      gives it back, wherever the supply stands. */
  lemma {:induction false} LoadEmbeddedQuestion(q: Question, l: Question, at: nat)
    requires q.id != ""
    ensures FreshCount(EmbedQuestion(q)) == 0
    ensures LoadedQuestion(EmbedQuestion(q), l, at) ==> l == q
  {
    var os := EmbedQuestion(q).options.value;
    assert forall j :: 0 <= j < |os| ==> os[j] == Keyed(q.options[j]);
    SumZero(os, PlainWeight);
    if LoadedQuestion(EmbedQuestion(q), l, at) {
      forall j | 0 <= j < |q.options| ensures l.options[j] == q.options[j] {
        assert os[j] == Keyed(q.options[j]);
      }
    }
  }

  /** Loading is idempotent on an editable document: ids, labels and
      order come back as they were and no id is consumed. */
  lemma LoadIdempotent(d: Draft, next: nat)
    requires forall i :: 0 <= i < |d.questions| ==> d.questions[i].id != ""
    ensures Load(Embed(d), next) == (d, next)
  {
    var qs := Embed(d).questions.value;
    var r := Load(Embed(d), next);
    assert r.1 == next by {
      forall i | 0 <= i < |qs| ensures FreshCount(qs[i]) == 0 {
        LoadEmbeddedQuestion(d.questions[i], d.questions[i], next);
      }
      SumZero(qs, FreshCount);
    }
    assert r.0.questions == d.questions by {
      forall i | 0 <= i < |qs| ensures r.0.questions[i] == d.questions[i] {
        LoadEmbeddedQuestion(d.questions[i], r.0.questions[i], next + Sum(qs[..i], FreshCount));
      }
    }
  }

  // ---------------------------------------------------------------- editing

  /** `addQuestion(type)`: appends one question with a fresh id, an empty
      prompt, not required, and for a choice type one option "Option 1"
      with a fresh id; the earlier questions stay as they were. */
  function AddQuestion(qs: seq<Question>, qtype: string, next: nat): (r: (seq<Question>, nat))
    ensures |r.0| == |qs| + 1 && r.0[..|qs|] == qs
    ensures r.0[|qs|].id == FreshId(next) && r.0[|qs|].qtype == qtype
    ensures r.0[|qs|].prompt == "" && !r.0[|qs|].required
    ensures Map(r.0[|qs|].options, (o: OptionItem) => o.text) == InitialOptions(qtype)
    ensures forall j :: 0 <= j < |r.0[|qs|].options| ==> r.0[|qs|].options[j].id == FreshId(next + 1 + j)
    ensures r.1 == next + 1 + |InitialOptions(qtype)|
  {
    var opts := if IsChoiceType(qtype) then [OptionItem(FreshId(next + 1), OptionLabel(1))] else [];
    (qs + [Question(FreshId(next), qtype, "", false, opts)], next + 1 + |opts|)
  }

  /** `updateLabel(qId, value)`: every question with id qId gets the new
      prompt and keeps everything else; every other question is unchanged. */
  function UpdateLabel(qs: seq<Question>, qId: string, value: string): (r: seq<Question>)
    ensures |r| == |qs|
    ensures forall i :: 0 <= i < |qs| && qs[i].id != qId ==> r[i] == qs[i]
    ensures forall i :: 0 <= i < |qs| && qs[i].id == qId ==> r[i].prompt == value && r[i].(prompt := qs[i].prompt) == qs[i]
  {
    Map(qs, (q: Question) => if q.id == qId then q.(prompt := value) else q)
  }

  /** Two prompt edits of the same question leave only the second. */
  lemma UpdateLabelLastWins(qs: seq<Question>, qId: string, v1: string, v2: string)
    ensures UpdateLabel(UpdateLabel(qs, qId, v1), qId, v2) == UpdateLabel(qs, qId, v2)
  {
    var a, b := UpdateLabel(UpdateLabel(qs, qId, v1), qId, v2), UpdateLabel(qs, qId, v2);
    forall i | 0 <= i < |qs| ensures a[i] == b[i] {
    }
  }

  /** `toggleRequired(qId)`: flips the flag of every question with id qId
      and keeps everything else; every other question is unchanged. */
  function ToggleRequired(qs: seq<Question>, qId: string): (r: seq<Question>)
    ensures |r| == |qs|
    ensures forall i :: 0 <= i < |qs| && qs[i].id != qId ==> r[i] == qs[i]
    ensures forall i :: 0 <= i < |qs| && qs[i].id == qId ==> r[i].required == !qs[i].required && r[i].(required := qs[i].required) == qs[i]
  {
    Map(qs, (q: Question) => if q.id == qId then q.(required := !q.required) else q)
  }

  /** Toggling the same question twice restores the list. */
  lemma ToggleRequiredTwice(qs: seq<Question>, qId: string)
    ensures ToggleRequired(ToggleRequired(qs, qId), qId) == qs
  {
    var a := ToggleRequired(ToggleRequired(qs, qId), qId);
    forall i | 0 <= i < |qs| ensures a[i] == qs[i] {
    }
  }

  /** How many questions have id qId. */
  function Matches(qs: seq<Question>, qId: string): nat
    decreases |qs|
  {
    if qs == [] then 0 else Matches(qs[..|qs| - 1], qId) + (if qs[|qs| - 1].id == qId then 1 else 0)
  }

  /** The question ids of the draft are distinct. */
  predicate UniqueIds(qs: seq<Question>)
  {
    forall i, j :: 0 <= i < j < |qs| ==> qs[i].id != qs[j].id
  }

  lemma {:induction false} MatchesOfUnique(qs: seq<Question>, qId: string)
    requires UniqueIds(qs)
    ensures Matches(qs, qId) <= 1
    ensures forall i :: 0 <= i < |qs| && qs[i].id == qId ==> Matches(qs, qId) == 1
    decreases |qs|
  {
    if qs != [] {
      var init := qs[..|qs| - 1];
      MatchesOfUnique(init, qId);
      if qs[|qs| - 1].id == qId {
        NoMatches(init, qId);
      }
    }
  }

  lemma {:induction false} NoMatches(qs: seq<Question>, qId: string)
    requires forall i :: 0 <= i < |qs| ==> qs[i].id != qId
    ensures Matches(qs, qId) == 0
    decreases |qs|
  {
    if qs != [] {
      NoMatches(qs[..|qs| - 1], qId);
    }
  }

  /** What `addOption(qId)` makes of one question with the supply at `at`:
      a question with id qId gets one more option at the end, labelled
      "Option n+1" for its previous count n, with the id at `at`; its
      earlier options and other fields stay. Any other question stays. */
  predicate OptionAdded(q: Question, a: Question, qId: string, at: nat)
  {
    if q.id != qId then a == q
    else
      var n := |q.options|;
      && |a.options| == n + 1 && a.options[..n] == q.options
      && a.options[n] == OptionItem(FreshId(at), OptionLabel(n + 1))
      && a.(options := q.options) == q
  }

  /** `ds` is `qs` after `addOption(qId)` with the supply at `next`: each
      question as `OptionAdded` states, the one at i with the supply moved
      past the matching questions before it. */
  predicate OptionsAdded(qs: seq<Question>, ds: seq<Question>, qId: string, next: nat)
  {
    |ds| == |qs| &&
    forall i {:trigger ds[i]} :: 0 <= i < |qs| ==> OptionAdded(qs[i], ds[i], qId, next + Matches(qs[..i], qId))
  }

  /** One more question at the end takes the supply position after the
      matching questions before it. */
  lemma OptionsAddedSnoc(qs: seq<Question>, done: seq<Question>, last: Question, qId: string, next: nat)
    requires qs != []
    requires OptionsAdded(qs[..|qs| - 1], done, qId, next)
    requires OptionAdded(qs[|qs| - 1], last, qId, next + Matches(qs[..|qs| - 1], qId))
    ensures OptionsAdded(qs, done + [last], qId, next)
  {
    var init := qs[..|qs| - 1];
    forall i | 0 <= i < |qs|
      ensures OptionAdded(qs[i], (done + [last])[i], qId, next + Matches(qs[..i], qId))
    {
      if i < |init| {
        assert init[..i] == qs[..i] && init[i] == qs[i];
        assert (done + [last])[i] == done[i];
      } else {
        assert (done + [last])[i] == last && qs[..i] == init;
      }
    }
  }

  /** `addOption(qId)`: every question is mapped as `OptionAdded` states.
      `randomUUID` is called once per matching question, so the k-th
      matching question gets the id at position next + k, and one id is
      consumed per matching question. */
  function AddOption(qs: seq<Question>, qId: string, next: nat): (r: (seq<Question>, nat))
    ensures OptionsAdded(qs, r.0, qId, next)
    ensures r.1 == next + Matches(qs, qId)
    decreases |qs|
  {
    if qs == [] then ([], next)
    else
      var init := qs[..|qs| - 1];
      var (done, n) := AddOption(init, qId, next);
      var q := qs[|qs| - 1];
      var last := if q.id == qId then q.(options := q.options + [OptionItem(FreshId(n), OptionLabel(|q.options| + 1))]) else q;
      assert OptionAdded(q, last, qId, n) by {
        if q.id == qId {
          assert last.options[..|q.options|] == q.options;
        }
      }
      OptionsAddedSnoc(qs, done, last, qId, next);
      (done + [last], n + (if q.id == qId then 1 else 0))
  }

  /** `updateOption(qId, optId, value)`: in every question with id qId,
      every option with id optId gets the new label; the option count,
      order, every id and every other label stay, whatever was deleted
      before; every other question is unchanged. */
  function UpdateOption(qs: seq<Question>, qId: string, optId: string, value: string): (r: seq<Question>)
    ensures |r| == |qs|
    ensures forall i :: 0 <= i < |qs| && qs[i].id != qId ==> r[i] == qs[i]
    ensures forall i :: 0 <= i < |qs| && qs[i].id == qId ==>
      && r[i].(options := qs[i].options) == qs[i]
      && |r[i].options| == |qs[i].options|
      && forall j :: 0 <= j < |qs[i].options| ==>
        && r[i].options[j].id == qs[i].options[j].id
        && r[i].options[j].text == (if qs[i].options[j].id == optId then value else qs[i].options[j].text)
  {
    Map(qs, (q: Question) => if q.id == qId then q.(options := RenameOption(q.options, optId, value)) else q)
  }

  function RenameOption(os: seq<OptionItem>, optId: string, value: string): seq<OptionItem>
  {
    Map(os, (o: OptionItem) => if o.id == optId then o.(text := value) else o)
  }

  function RemoveOption(os: seq<OptionItem>, optId: string): (r: seq<OptionItem>)
    ensures IsSubsequence(r, os)
    ensures forall o :: o in r <==> o in os && o.id != optId
    ensures forall o: OptionItem :: o.id != optId ==> multiset(r)[o] == multiset(os)[o]
  {
    var keep := (o: OptionItem) => o.id != optId;
    FilterSpec(os, keep);
    Filter(os, keep)
  }

  /** `deleteOption(qId, optId)`: in every question with id qId, exactly the
      options with id optId are removed and the rest keep their relative
      order; every other question is unchanged. */
  function DeleteOption(qs: seq<Question>, qId: string, optId: string): (r: seq<Question>)
    ensures |r| == |qs|
    ensures forall i :: 0 <= i < |qs| && qs[i].id != qId ==> r[i] == qs[i]
    ensures forall i :: 0 <= i < |qs| && qs[i].id == qId ==>
      && r[i].(options := qs[i].options) == qs[i]
      && IsSubsequence(r[i].options, qs[i].options)
      && (forall o :: o in r[i].options <==> o in qs[i].options && o.id != optId)
      && (forall o: OptionItem :: o.id != optId ==> multiset(r[i].options)[o] == multiset(qs[i].options)[o])
  {
    Map(qs, (q: Question) => if q.id == qId then q.(options := RemoveOption(q.options, optId)) else q)
  }

  /** `deleteQuestion(qId)`: exactly the questions with id qId are removed,
      with their options; the rest keep their relative order. */
  function DeleteQuestion(qs: seq<Question>, qId: string): (r: seq<Question>)
    ensures IsSubsequence(r, qs)
    ensures forall q :: q in r <==> q in qs && q.id != qId
    ensures forall q: Question :: q.id != qId ==> multiset(r)[q] == multiset(qs)[q]
  {
    var keep := (q: Question) => q.id != qId;
    FilterSpec(qs, keep);
    Filter(qs, keep)
  }

  /** Deleting a question right after adding it restores the list, as long
      as the supply's id was not in use. */
  lemma AddThenDeleteQuestion(qs: seq<Question>, qtype: string, next: nat)
    requires forall i :: 0 <= i < |qs| ==> qs[i].id != FreshId(next)
    ensures DeleteQuestion(AddQuestion(qs, qtype, next).0, FreshId(next)) == qs
  {
    var added := AddQuestion(qs, qtype, next).0;
    assert added == qs + [added[|qs|]];
    FilterAppend(qs, added[|qs|], (q: Question) => q.id != FreshId(next));
    FilterKeepsAll(qs, (q: Question) => q.id != FreshId(next));
  }

  /** Removing by id the option appended with an unused id restores the question. */
  lemma RemoveAppended(q: Question, a: Question, id: string)
    requires a.(options := q.options) == q
    requires |a.options| == |q.options| + 1 && a.options[..|q.options|] == q.options
    requires a.options[|q.options|].id == id
    requires forall j :: 0 <= j < |q.options| ==> q.options[j].id != id
    ensures a.(options := RemoveOption(a.options, id)) == q
  {
    var keep := (o: OptionItem) => o.id != id;
    assert a.options == q.options + [a.options[|q.options|]];
    FilterAppend(q.options, a.options[|q.options|], keep);
    FilterKeepsAll(q.options, keep);
  }

  /** One question of `AddThenDeleteOption`. */
  lemma AddThenDeleteOptionAt(qs: seq<Question>, qId: string, next: nat, i: int)
    requires UniqueIds(qs) && 0 <= i < |qs|
    requires forall j :: 0 <= j < |qs[i].options| ==> qs[i].options[j].id != FreshId(next)
    ensures DeleteOption(AddOption(qs, qId, next).0, qId, FreshId(next))[i] == qs[i]
  {
    var added := AddOption(qs, qId, next).0;
    var r := DeleteOption(added, qId, FreshId(next));
    assert OptionAdded(qs[i], added[i], qId, next + Matches(qs[..i], qId));
    if qs[i].id == qId {
      NoMatches(qs[..i], qId);
      assert r[i] == added[i].(options := RemoveOption(added[i].options, FreshId(next)));
      RemoveAppended(qs[i], added[i], FreshId(next));
    }
  }

  /** Deleting the option that `addOption` just added restores the list,
      when question ids are distinct and the supply's id was not in use. */
  lemma AddThenDeleteOption(qs: seq<Question>, qId: string, next: nat)
    requires UniqueIds(qs)
    requires forall i, j :: 0 <= i < |qs| && 0 <= j < |qs[i].options| ==> qs[i].options[j].id != FreshId(next)
    ensures DeleteOption(AddOption(qs, qId, next).0, qId, FreshId(next)) == qs
  {
    var r := DeleteOption(AddOption(qs, qId, next).0, qId, FreshId(next));
    forall i | 0 <= i < |qs| ensures r[i] == qs[i] {
      AddThenDeleteOptionAt(qs, qId, next, i);
    }
  }

  /** Option edits address options by id, not by position: renaming option
      b after deleting option a is the same as renaming b first and then
      deleting a. */
  lemma UpdateOptionAfterDelete(qs: seq<Question>, qId: string, a: string, b: string, value: string)
    requires a != b
    ensures UpdateOption(DeleteOption(qs, qId, a), qId, b, value) == DeleteOption(UpdateOption(qs, qId, b, value), qId, a)
  {
    var left, right := UpdateOption(DeleteOption(qs, qId, a), qId, b, value), DeleteOption(UpdateOption(qs, qId, b, value), qId, a);
    forall i | 0 <= i < |qs| ensures left[i] == right[i] {
      if qs[i].id == qId {
        FilterMapCommute(qs[i].options, (o: OptionItem) => o.id != a, (o: OptionItem) => if o.id == b then o.(text := value) else o);
      }
    }
  }
}
