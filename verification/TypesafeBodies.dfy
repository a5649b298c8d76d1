/** What a posted body says: each part of it, and that together they leave no doubt of what is asked. */
module TypesafeBodies {
  import opened Text
  import opened Collections
  import opened Judgment
  import opened ProviderProtocol
  import opened Grouping
  import opened Batching
  import opened Typesafe
  import Canonical

  /** The named parts a body consists of, down to the question under a key. */
  function Part(v: Value, name: string): Value { PartOf(v, name) }

  function QuestionIn(body: Value, key: string): Value { Part(Part(body, "questions"), key) }

  function RowsIn(body: Value): Value { Part(Part(body, "state"), "rows") }

  /** The question says what request `q` asks about row `i`. */
  ghost predicate Puts(question: Value, q: JudgmentRequest, i: nat) {
    match q.kind
    case Noul =>
      question == Object(map[
        "type" := Str("noul"),
        "instructions" := Str("Evaluate whether state.condition holds for state.rows[" + NatText(i)
                              + "]. Answer with the probability that it holds.")])
    case Choice =>
      && question.Object? && question.fields.Keys == {"type", "instructions", "criteria"}
      && Part(question, "type") == Str("choice")
      && Part(question, "instructions")
         == Str("Caller question: " + OrEmpty(q.question)
                + "\nSelect the single candidate label that best answers this question for state.rows[" + NatText(i) + "].")
      && Part(question, "criteria").Object? && Part(question, "criteria").fields.Keys == Elements(q.choices)
      && forall c :: c in q.choices ==> Part(question, "criteria").fields[c] == Null
  }

  /** A body that asks these requests: the model; a row per request, in order; the condition of a yes/no
      question; and under each request's key the question about its own row, and nothing else. */
  ghost predicate Says(body: Value, model: string, requests: seq<JudgmentRequest>)
    requires requests != []
  {
    && body.Object? && body.fields.Keys == {"model", "state", "questions"}
    && Part(body, "model") == Str(model)
    && Part(body, "state").Object? && Part(body, "questions").Object?
    && Part(body, "state").fields.Keys == (if requests[0].kind == Noul then {"rows", "condition"} else {"rows"})
    && (requests[0].kind == Noul ==> Part(Part(body, "state"), "condition") == Str(OrEmpty(requests[0].criterion)))
    && RowsIn(body).Array? && |RowsIn(body).items| == |requests|
    && (forall i :: 0 <= i < |requests| ==> RowsIn(body).items[i] == Row(requests[i]))
    && Part(body, "questions").fields.Keys == Elements(RequestKeys(requests))
    && forall i :: 0 <= i < |requests| ==> Puts(QuestionIn(body, requests[i].requestKey), requests[i], i)
  }

  lemma QuestionPuts(q: JudgmentRequest, i: nat)
    ensures Puts(QuestionAt(q, i), q, i)
  {
    if q.kind == Noul {
      assert NOUL_LEAD + (NatText(i) + NOUL_TAIL) == NOUL_LEAD + NatText(i) + NOUL_TAIL;
    } else {
      var question := OrEmpty(q.question);
      assert ChoiceInstructions(question, i) == CHOICE_LEAD + question + CHOICE_MIDDLE + NatText(i) + CHOICE_TAIL;
      CriteriaKeys(q.choices);
    }
  }

  lemma CriteriaKeys(choices: seq<string>)
    ensures CriteriaOf(choices).Keys == Elements(choices)
  {
  }

  lemma {:induction false} QuestionKeys(requests: seq<JudgmentRequest>)
    ensures QuestionsOf(requests).Keys == Elements(RequestKeys(requests))
  {
    hide QuestionAt;
    if requests != [] {
      var n := |requests| - 1;
      QuestionKeys(requests[..n]);
      assert RequestKeys(requests) == RequestKeys(requests[..n]) + [requests[n].requestKey];
    }
  }

  /** What is posted says exactly what the requests ask. */
  lemma BodySays(model: string, requests: seq<JudgmentRequest>)
    requires requests != [] && Distinct(RequestKeys(requests))
    ensures Says(BodyOf(model, requests), model, requests)
  {
    hide Puts, QuestionAt, QuestionsOf, Row, Distinct;
    QuestionKeys(requests);
    forall i | 0 <= i < |requests|
      ensures Puts(QuestionIn(BodyOf(model, requests), requests[i].requestKey), requests[i], i)
    {
      QuestionByKey(requests, i);
      QuestionPuts(requests[i], i);
    }
  }

  // ---- A body determines its requests

  /** A text without the digits at its end. */
  function BeforeDigits(s: string): string {
    if s != "" && IsDigit(s[|s| - 1]) then BeforeDigits(s[..|s| - 1]) else s
  }

  lemma {:induction false} DigitsAtEnd(a: string, x: string)
    requires AllDigits(x) && a != "" && !IsDigit(a[|a| - 1])
    ensures BeforeDigits(a + x) == a
  {
    if x == "" {
      assert a + x == a;
    } else {
      assert (a + x)[..|a + x| - 1] == a + x[..|x| - 1];
      DigitsAtEnd(a, x[..|x| - 1]);
    }
  }

  lemma TailCut(x: string, y: string, tail: string)
    requires x + tail == y + tail
    ensures x == y
  {
    assert (x + tail)[..|x|] == x && (y + tail)[..|y|] == y && |x| == |y|;
  }

  lemma LeadCut(lead: string, x: string, y: string)
    requires lead + x == lead + y
    ensures x == y
  {
    assert (lead + x)[|lead|..] == x && (lead + y)[|lead|..] == y;
  }

  /** The instructions give back the caller's question and the row. */
  lemma ChoiceTextDetermines(x: string, y: string, i: nat, j: nat)
    requires ChoiceInstructions(x, i) == ChoiceInstructions(y, j)
    ensures x == y && i == j
  {
    hide NatText, CHOICE_LEAD, CHOICE_TAIL;
    var before, before' := CHOICE_LEAD + x + CHOICE_MIDDLE, CHOICE_LEAD + y + CHOICE_MIDDLE;
    assert before + (NatText(i) + CHOICE_TAIL) == (before + NatText(i)) + CHOICE_TAIL;
    assert before' + (NatText(j) + CHOICE_TAIL) == (before' + NatText(j)) + CHOICE_TAIL;
    TailCut(before + NatText(i), before' + NatText(j), CHOICE_TAIL);
    var m := CHOICE_MIDDLE[|CHOICE_MIDDLE| - 1];
    assert m == '[' && before[|before| - 1] == m && before'[|before'| - 1] == m;
    DigitsAtEnd(before, NatText(i));
    DigitsAtEnd(before', NatText(j));
    LeadCut(before, NatText(i), NatText(j));
    NatTextInjective(i, j);
    TailCut(CHOICE_LEAD + x, CHOICE_LEAD + y, CHOICE_MIDDLE);
    LeadCut(CHOICE_LEAD, x, y);
  }

  /** A question determines its kind, its row, its text and its set of labels. */
  lemma QuestionDetermines(q: JudgmentRequest, r: JudgmentRequest, i: nat, j: nat)
    requires QuestionAt(q, i) == QuestionAt(r, j)
    ensures q.kind == r.kind && i == j
    ensures q.kind == Choice ==> OrEmpty(q.question) == OrEmpty(r.question) && Elements(q.choices) == Elements(r.choices)
  {
    hide NoulInstructions, ChoiceInstructions, CriteriaOf;
    assert Part(QuestionAt(q, i), "type") == Part(QuestionAt(r, j), "type");
    assert "noul"[0] != "choice"[0];
    assert q.kind == r.kind;
    assert Part(QuestionAt(q, i), "instructions") == Part(QuestionAt(r, j), "instructions");
    if q.kind == Noul {
      NoulNamesRow(i, j);
    } else {
      ChoiceTextDetermines(OrEmpty(q.question), OrEmpty(r.question), i, j);
      assert Part(QuestionAt(q, i), "criteria") == Part(QuestionAt(r, j), "criteria");
      CriteriaKeys(q.choices);
      CriteriaKeys(r.choices);
    }
  }

  /** The two requests ask the same, up to the order of labels. */
  ghost predicate SameAsked(q: JudgmentRequest, r: JudgmentRequest) {
    && q.requestKey == r.requestKey && q.kind == r.kind && q.state == r.state
    && q.criterion == r.criterion && q.question == r.question && Elements(q.choices) == Elements(r.choices)
  }

  /** What the adapter may be handed: well-made requests that share one question. */
  ghost predicate Askable(requests: seq<JudgmentRequest>) {
    && requests != [] && Distinct(RequestKeys(requests))
    && (forall i :: 0 <= i < |requests| ==> WellMade(requests[i]))
    && forall i :: 0 <= i < |requests| ==> SameQuestion(requests[i], requests[0])
  }

  /** Nothing of what is asked is lost on the way: equal bodies are those of requests that ask the same,
      position by position. */
  lemma BodyDetermines(model: string, model': string, qs: seq<JudgmentRequest>, rs: seq<JudgmentRequest>)
    requires Askable(qs) && Askable(rs) && BodyOf(model, qs) == BodyOf(model', rs)
    ensures model == model' && |qs| == |rs|
    ensures forall i :: 0 <= i < |qs| ==> SameAsked(qs[i], rs[i])
  {
    hide QuestionAt, QuestionsOf, Row, WellMade, SameQuestion, Distinct;
    var body := BodyOf(model, qs);
    BodyParts(model, qs);
    BodyParts(model', rs);
    forall i | 0 <= i < |qs|
      ensures SameAsked(qs[i], rs[i])
    {
      RequestDetermined(qs, rs, i);
    }
  }

  lemma BodyParts(model: string, requests: seq<JudgmentRequest>)
    requires requests != []
    ensures var body := BodyOf(model, requests);
            && Part(body, "model") == Str(model) && Part(body, "state") == Object(StateOf(requests))
            && Part(body, "questions") == Object(QuestionsOf(requests)) && RowsIn(body) == Array(Rows(requests))
            && Part(Part(body, "state"), "condition")
               == if requests[0].kind == Noul then Str(OrEmpty(requests[0].criterion)) else Null
  {
    hide QuestionsOf, Row;
  }

  lemma RequestDetermined(qs: seq<JudgmentRequest>, rs: seq<JudgmentRequest>, i: nat)
    requires Askable(qs) && Askable(rs) && |qs| == |rs| && i < |qs|
    requires QuestionsOf(qs) == QuestionsOf(rs) && Rows(qs) == Rows(rs)
    requires qs[0].kind == Noul && rs[0].kind == Noul ==> OrEmpty(qs[0].criterion) == OrEmpty(rs[0].criterion)
    ensures SameAsked(qs[i], rs[i])
  {
    hide QuestionAt, QuestionsOf, Distinct, Row;
    QuestionByKey(qs, i);
    QuestionKeys(rs);
    var j :| 0 <= j < |rs| && RequestKeys(rs)[j] == qs[i].requestKey;
    QuestionByKey(rs, j);
    QuestionDetermines(qs[i], rs[j], i, j);
    assert Rows(qs)[i] == Row(qs[i]) && Rows(rs)[i] == Row(rs[i]);
    RowDeterminesState(qs[i], rs[i]);
    assert SameQuestion(qs[i], qs[0]) && SameQuestion(rs[i], rs[0]);
  }

  /** Every batch the executor makes is of this kind, so its body says what the batch's groups ask, each
      under its positional key. */
  lemma BatchSays(a: Adapter, groups: seq<Group>, indices: seq<nat>)
    requires BatchOf(a, groups, indices)
    ensures Askable(RequestsFor(groups, indices))
    ensures Says(BodyOf(a.model, RequestsFor(groups, indices)), a.model, RequestsFor(groups, indices))
  {
    hide BatchKey, RequestsFor, Distinct, Says, WithinChoices, Canonical.IsEncoded;
    var requests := RequestsFor(groups, indices);
    KeysOfBatch(groups, indices);
    forall i | 0 <= i < |requests|
      ensures WellMade(requests[i]) && SameQuestion(requests[i], requests[0])
    {
      assert requests[i] == Rekeyed(groups, indices[i], i) && requests[0] == Rekeyed(groups, indices[0], 0);
      assert SameBatchContext(groups[indices[i]].identity, groups[indices[0]].identity);
    }
    BodySays(a.model, requests);
  }

  /** No more labels than the service takes, if it says so. */
  ghost predicate FewLabels(a: Adapter, q: JudgmentRequest) {
    q.kind == Choice && a.maxChoices.Some? ==> |q.choices| <= a.maxChoices.value
  }

  /** What is posted for well-made requests: one on its own, or several with different keys that share one
      question when batching is verified; each within the label limit, and of a size the JSON library can
      tell. So `BodyDetermines` is about everything that is ever posted. */
  lemma PostsIff(a: Adapter, requests: seq<JudgmentRequest>)
    requires forall i :: 0 <= i < |requests| ==> WellMade(requests[i])
    ensures Posts(a, requests) <==>
      && Askable(requests) && (forall i :: 0 <= i < |requests| ==> FewLabels(a, requests[i]))
      && a.library.size(BodyOf(a.model, requests)).Some?
      && (|requests| > 1 ==> a.multiStateBatch == Verified)
  {
    hide Canonical.IsEncoded, BodyOf;
    forall i | 0 <= i < |requests|
      ensures WithinChoices(a, requests[i]) <==> FewLabels(a, requests[i])
    {
    }
    if |requests| == 1 {
      assert Distinct(RequestKeys(requests));
    } else if requests != [] {
      assert Complete(requests[0]);
    }
  }
}
