/** The responses page: one export row per response, the answer counts
    behind each question's chart, and the rule for a table cell. */
module FormResponses {
  import opened Collections
  import opened Schema

  /** A stored response; its answer map may be missing altogether. */
  datatype Response = Response(answers: Option<map<string, Answer>>)

  /** `r.answers?.[qid]`. */
  function Lookup(r: Response, qid: string): (ans: Option<Answer>)
    ensures ans.Some? <==> r.answers.Some? && qid in r.answers.value
    ensures ans.Some? ==> ans.value == r.answers.value[qid]
  {
    match r.answers
    case None => None
    case Some(m) => if qid in m then Some(m[qid]) else None
  }

  /** JavaScript truthiness of an answer: an array always, text when it is
      not empty, `undefined` never. */
  predicate Truthy(ans: Option<Answer>)
  {
    ans.Some? && (ans.value.List? || ans.value.value != "")
  }

  /** The export cell `Array.isArray(ans) ? ans.join(", ") : ans || ""`. */
  function ExportCell(ans: Option<Answer>): (cell: string)
    ensures ans.Some? && ans.value.List? ==> cell == Join(ans.value.items, ", ")
    ensures ans.Some? && ans.value.Scalar? ==> cell == ans.value.value
    ensures ans.None? ==> cell == ""
  {
    if ans.Some? && ans.value.List? then Join(ans.value.items, ", ")
    else if Truthy(ans) then ans.value.value
    else ""
  }

  /** The table cell: as in the export, except that a falsy answer shows `-`. */
  function TableCell(ans: Option<Answer>): (cell: string)
    ensures Truthy(ans) ==> cell == ExportCell(ans)
    ensures !Truthy(ans) ==> cell == "-"
    ensures ans.Some? && ans.value.List? ==> cell == Join(ans.value.items, ", ")
    ensures ans.Some? && ans.value.Scalar? && ans.value.value != "" ==> cell == ans.value.value
  {
    if Truthy(ans) then ExportCell(ans) else "-"
  }

  /** The labels of the questions: the columns of the export. */
  function Labels(questions: seq<FormQuestion>): set<string>
  {
    set q | q in questions :: q.prompt
  }

  /** The cell under label `lbl`: that of the last question carrying it. */
  function CellUnder(questions: seq<FormQuestion>, lbl: string, r: Response): string
    decreases |questions|
  {
    if questions == [] then ""
    else
      var q := questions[|questions| - 1];
      if q.prompt == lbl then ExportCell(Lookup(r, q.id)) else CellUnder(questions[..|questions| - 1], lbl, r)
  }

  /** `row` is the export row of response `r`: one column per question
      label, and under each label the cell of the last question carrying it
      (the assignment `row[q.label] = …` of a later question overwrites an
      earlier one). */
  predicate IsRow(row: map<string, string>, questions: seq<FormQuestion>, r: Response)
  {
    row.Keys == Labels(questions) &&
    forall lbl :: lbl in row ==> row[lbl] == CellUnder(questions, lbl, r)
  }

  /** The `forEach` that builds one export row. */
  method BuildRow(questions: seq<FormQuestion>, r: Response) returns (row: map<string, string>)
    ensures IsRow(row, questions, r)
  {
    row := map[];
    for k := 0 to |questions|
      invariant IsRow(row, questions[..k], r)
    {
      var q := questions[k];
      var ans := Lookup(r, q.id);
      row := row[q.prompt := ExportCell(ans)];
      assert questions[..k + 1][..k] == questions[..k];
      assert Labels(questions[..k + 1]) == Labels(questions[..k]) + {q.prompt} by {
        assert forall p :: p in questions[..k + 1] <==> p in questions[..k] || p == q;
      }
    }
    assert questions[..|questions|] == questions;
  }

  /** `responses.map(...)`: one row per response, in the order fetched. */
  method ExportRows(questions: seq<FormQuestion>, responses: seq<Response>) returns (rows: seq<map<string, string>>)
    ensures |rows| == |responses|
    ensures forall i :: 0 <= i < |rows| ==> IsRow(rows[i], questions, responses[i])
  {
    rows := [];
    for i := 0 to |responses|
      invariant |rows| == i
      invariant forall j :: 0 <= j < i ==> IsRow(rows[j], questions, responses[j])
    {
      var row := BuildRow(questions, responses[i]);
      rows := rows + [row];
    }
  }

  /** No later question carries the label of question `k`. */
  predicate LastWithLabel(questions: seq<FormQuestion>, k: int)
    requires 0 <= k < |questions|
  {
    forall j :: k < j < |questions| ==> questions[j].prompt != questions[k].prompt
  }

  /** The cell under a label is the answer to the last question carrying it. */
  lemma {:induction false} CellOfLast(questions: seq<FormQuestion>, k: int, r: Response)
    requires 0 <= k < |questions| && LastWithLabel(questions, k)
    ensures CellUnder(questions, questions[k].prompt, r) == ExportCell(Lookup(r, questions[k].id))
    decreases |questions|
  {
    var n := |questions| - 1;
    if k < n {
      var init := questions[..n];
      assert init[k] == questions[k];
      assert LastWithLabel(init, k);
      CellOfLast(init, k, r);
    }
  }

  /** With distinct labels, every question's column holds its own answer. */
  lemma DistinctLabelsRow(row: map<string, string>, questions: seq<FormQuestion>, r: Response, k: int)
    requires IsRow(row, questions, r)
    requires forall i, j :: 0 <= i < j < |questions| ==> questions[i].prompt != questions[j].prompt
    requires 0 <= k < |questions|
    ensures questions[k].prompt in row
    ensures row[questions[k].prompt] == ExportCell(Lookup(r, questions[k].id))
  {
    assert questions[k] in questions;
    CellOfLast(questions, k, r);
  }

  /** What one response adds to a question's chart: nothing for a falsy
      answer, one vote for a text answer, one per element of a list. */
  function Contribution(ans: Option<Answer>): (votes: multiset<string>)
    ensures !Truthy(ans) ==> votes == multiset{}
    ensures ans.Some? && ans.value.List? ==> votes == multiset(ans.value.items)
    ensures Truthy(ans) && ans.value.Scalar? ==> votes == multiset{ans.value.value}
  {
    if !Truthy(ans) then multiset{}
    else if ans.value.List? then multiset(ans.value.items)
    else multiset{ans.value.value}
  }

  /** The votes cast for question `qid` by the responses, in fetch order. */
  function Votes(responses: seq<Response>, qid: string): multiset<string>
    decreases |responses|
  {
    if responses == [] then multiset{}
    else Votes(responses[..|responses| - 1], qid) + Contribution(Lookup(responses[|responses| - 1], qid))
  }

  /** The number of counted elements: array lengths plus truthy texts. */
  function Counted(responses: seq<Response>, qid: string): nat
    decreases |responses|
  {
    if responses == [] then 0
    else
      var ans := Lookup(responses[|responses| - 1], qid);
      Counted(responses[..|responses| - 1], qid) +
        (if !Truthy(ans) then 0 else if ans.value.List? then |ans.value.items| else 1)
  }

  /** As many votes are cast as elements are counted. */
  lemma {:induction false} VotesSize(responses: seq<Response>, qid: string)
    ensures |Votes(responses, qid)| == Counted(responses, qid)
    decreases |responses|
  {
    if responses != [] {
      VotesSize(responses[..|responses| - 1], qid);
    }
  }

  /** `stats` holds, for every value voted for, its number of votes, and
      nothing else. */
  predicate Tallies(stats: map<string, nat>, votes: multiset<string>)
  {
    (forall a :: a in stats ==> a in votes && stats[a] == votes[a]) &&
    (forall a :: a in votes ==> a in stats)
  }

  /** One more vote for `a`: `stats[a] = (stats[a] || 0) + 1`. */
  lemma CountOne(stats: map<string, nat>, votes: multiset<string>, a: string)
    requires Tallies(stats, votes)
    ensures Tallies(stats[a := (if a in stats then stats[a] else 0) + 1], votes + multiset{a})
  {
  }

  /** The inner loop of `getChartData`: one vote per element of a list answer. */
  method CountEach(stats0: map<string, nat>, items: seq<string>, ghost votes: multiset<string>) returns (stats: map<string, nat>)
    requires Tallies(stats0, votes)
    ensures Tallies(stats, votes + multiset(items))
  {
    stats := stats0;
    for j := 0 to |items|
      invariant Tallies(stats, votes + multiset(items[..j]))
    {
      var a := items[j];
      CountOne(stats, votes + multiset(items[..j]), a);
      assert multiset(items[..j + 1]) == multiset(items[..j]) + multiset{a} by {
        assert items[..j + 1] == items[..j] + [a];
      }
      stats := stats[a := (if a in stats then stats[a] else 0) + 1];
    }
    assert items[..|items|] == items;
  }

  /** The counting loops of `getChartData`. */
  method ChartCounts(responses: seq<Response>, qid: string) returns (stats: map<string, nat>)
    ensures Tallies(stats, Votes(responses, qid))
  {
    stats := map[];
    for i := 0 to |responses|
      invariant Tallies(stats, Votes(responses[..i], qid))
    {
      ghost var before := Votes(responses[..i], qid);
      var ans := Lookup(responses[i], qid);
      assert Votes(responses[..i + 1], qid) == before + Contribution(ans) by {
        assert responses[..i + 1][..i] == responses[..i];
      }
      if Truthy(ans) {
        match ans.value
        case List(items) =>
          stats := CountEach(stats, items, before);
        case Scalar(s) =>
          CountOne(stats, before, s);
          stats := stats[s := (if s in stats then stats[s] else 0) + 1];
      }
    }
    assert responses[..|responses|] == responses;
  }

  /** One slice of a chart. */
  datatype ChartEntry = ChartEntry(name: string, value: nat)

  /** `Object.entries(stats)` as a set: no order is claimed. */
  function ChartData(stats: map<string, nat>): (entries: set<ChartEntry>)
    ensures forall e :: e in entries <==> e.name in stats && e.value == stats[e.name]
    ensures forall e, f :: e in entries && f in entries && e.name == f.name ==> e == f
  {
    set a | a in stats :: ChartEntry(a, stats[a])
  }

  /** Every chart entry names a value that was voted for and carries its
      number of votes, which is at least one. */
  lemma ChartEntriesCounted(stats: map<string, nat>, votes: multiset<string>, e: ChartEntry)
    requires Tallies(stats, votes)
    requires e in ChartData(stats)
    ensures e.value == votes[e.name] && e.value >= 1
  {
  }

  /** The sum of the counts of a map. */
  ghost function Total(stats: map<string, nat>): nat
    decreases |stats.Keys|
  {
    if stats == map[] then 0
    else
      var a :| a in stats;
      stats[a] + Total(stats - {a})
  }

  /** Removing every copy of one value from a multiset. */
  lemma {:induction false} SizeWithout(votes: multiset<string>, a: string)
    ensures |votes| == votes[a] + |votes[a := 0]|
    decreases votes[a]
  {
    if votes[a] > 0 {
      var fewer := votes - multiset{a};
      assert fewer[a := 0] == votes[a := 0];
      SizeWithout(fewer, a);
    }
  }

  /** The chart's counts add up to the number of votes. */
  lemma {:induction false} TotalIsVotes(stats: map<string, nat>, votes: multiset<string>)
    requires Tallies(stats, votes)
    ensures Total(stats) == |votes|
    decreases |stats.Keys|
  {
    if stats == map[] {
      assert votes == multiset{};
    } else {
      var a :| a in stats && Total(stats) == stats[a] + Total(stats - {a});
      TotalIsVotes(stats - {a}, votes[a := 0]);
      SizeWithout(votes, a);
    }
  }
}
