/** The TypeSafe adapter's request bodies and strict reading of its responses. */
module Typesafe {
  import opened Text
  import opened Collections
  import opened Judgment
  import opened Errors
  import opened ProviderProtocol
  import opened Grouping
  import opened Planning
  import opened Batching
  import Canonical
  import WorkerRuntime
  import Executor
  import BatchExecutor
  import BatchQuery

  /** A JSON document; numbers are their text. */
  datatype Value =
    | Null
    | Bool(b: bool)
    | Number(text: string)
    | Str(s: string)
    | Array(items: seq<Value>)
    | Object(fields: map<string, Value>)

  /** What the JSON library says of a document: its serialized size, when it can be serialized, and
      the readings of a number. */
  datatype Library = Library(
    size: Value -> Option<nat>,
    asF64: string -> Option<real>,
    asU64: string -> Option<nat>)

  datatype Adapter = Adapter(
    model: string,
    multiStateBatch: CapabilityStatus,
    maxChoices: Option<nat>,
    library: Library)

  // ---- State rows

  function Tagged(tag: string, v: Value): Value { Object(map["t" := Str(tag), "v" := v]) }

  function ToJson(v: Canonical.TypedValue): Value
    decreases v
  {
    match v
    case Null => Object(map["t" := Str("null")])
    case Bool(b) => Tagged("bool", Bool(b))
    case Int(i) => Tagged("int", Str(IntText(i)))
    case UInt(u) => Tagged("uint", Str(NatText(u)))
    case Float(f) => Tagged("float", if f.Finite? then Number(f.text) else Null)
    case Decimal(text) => Tagged("decimal", Str(text))
    case BigInt(text) => Tagged("int128", Str(text))
    case UBigInt(text) => Tagged("uint128", Str(text))
    case Text(text) => Tagged("text", Str(text))
    case Struct(fields) => Object(map["t" := Str("struct"), "f" := Object(JsonFields(fields))])
  }

  function JsonFields(fields: seq<Canonical.Field>): map<string, Value>
    decreases fields
  {
    if fields == [] then map[]
    else
      var last := fields[|fields| - 1];
      JsonFields(fields[..|fields| - 1])[last.name := ToJson(last.value)]
  }

  method ToJsonValue(v: Canonical.TypedValue) returns (r: Value)
    ensures r == ToJson(v)
    decreases v
  {
    match v
    case Struct(fields) =>
      var fill: map<string, Value> := map[];
      for i := 0 to |fields|
        invariant fill == JsonFields(fields[..i])
      {
        var x := ToJsonValue(fields[i].value);
        fill := fill[fields[i].name := x];
        assert fields[..i + 1][..i] == fields[..i];
      }
      assert fields[..|fields|] == fields;
      r := Object(map["t" := Str("struct"), "f" := Object(fill)]);
    case _ => r := ToJson(v);
  }

  /** A text state is sent as a plain string, any other as its tagged tree. */
  function Row(q: JudgmentRequest): Value {
    if q.state.value.Text? then Str(q.state.value.text) else ToJson(q.state.value)
  }

  method StateRow(q: JudgmentRequest) returns (r: Value)
    ensures r == Row(q)
  {
    if q.state.value.Text? {
      r := Str(q.state.value.text);
    } else {
      r := ToJsonValue(q.state.value);
    }
  }

  lemma {:induction false} JsonKeys(fields: seq<Canonical.Field>, name: string)
    ensures name in JsonFields(fields) <==> exists i :: 0 <= i < |fields| && fields[i].name == name
  {
    if fields != [] {
      var n := |fields| - 1;
      JsonKeys(fields[..n], name);
      assert forall i :: 0 <= i < n ==> fields[..n][i] == fields[i];
    }
  }

  lemma JsonSnoc(fields: seq<Canonical.Field>)
    requires fields != []
    ensures var last := fields[|fields| - 1];
            JsonFields(fields) == JsonFields(fields[..|fields| - 1])[last.name := ToJson(last.value)]
  {
    hide ToJson;
  }

  lemma LastIsGreatest(fields: seq<Canonical.Field>)
    requires fields != [] && Canonical.Ascending(fields)
    ensures var last := fields[|fields| - 1];
            && last.name !in JsonFields(fields[..|fields| - 1])
            && (forall name :: name in JsonFields(fields) ==> name == last.name || Canonical.Before(name, last.name))
  {
    hide Canonical.Before, JsonFields, ToJson;
    var last := fields[|fields| - 1];
    JsonKeys(fields[..|fields| - 1], last.name);
    Canonical.BeforeTotal(last.name, last.name);
    forall name | name in JsonFields(fields)
      ensures name == last.name || Canonical.Before(name, last.name)
    {
      JsonKeys(fields, name);
    }
  }

  lemma MapWithout<K, V>(m: map<K, V>, k: K, v: V)
    requires k !in m
    ensures m[k := v] - {k} == m && m[k := v][k] == v && k in m[k := v]
  {
  }

  lemma FieldValuesJson(xs: seq<Canonical.Field>, ys: seq<Canonical.Field>)
    requires xs != [] && ys != [] && Canonical.Ascending(xs) && Canonical.Ascending(ys)
    requires JsonFields(xs) == JsonFields(ys)
    ensures xs[|xs| - 1].name == ys[|ys| - 1].name
    ensures ToJson(xs[|xs| - 1].value) == ToJson(ys[|ys| - 1].value)
    ensures JsonFields(xs[..|xs| - 1]) == JsonFields(ys[..|ys| - 1])
  {
    hide Canonical.Before, Canonical.Ascending, JsonFields, ToJson;
    LastIsGreatest(xs);
    LastIsGreatest(ys);
    JsonSnoc(xs);
    JsonSnoc(ys);
    var x, y := xs[|xs| - 1], ys[|ys| - 1];
    MapWithout(JsonFields(xs[..|xs| - 1]), x.name, ToJson(x.value));
    MapWithout(JsonFields(ys[..|ys| - 1]), y.name, ToJson(y.value));
    Canonical.BeforeTotal(x.name, y.name);
  }

  lemma InitAscending(fields: seq<Canonical.Field>)
    requires fields != [] && Canonical.WellFormed(Canonical.Struct(fields))
    ensures Canonical.WellFormed(Canonical.Struct(fields[..|fields| - 1]))
    ensures Canonical.WellFormed(fields[|fields| - 1].value) && Canonical.Ascending(fields)
  {
    var init := fields[..|fields| - 1];
    assert forall f :: f in init ==> f in fields;
  }

  lemma JsonNonEmpty(fields: seq<Canonical.Field>)
    requires fields != []
    ensures fields[|fields| - 1].name in JsonFields(fields)
  {
    JsonSnoc(fields);
  }

  /** The tagged tree sent to the service determines the typed value it was made from. */
  lemma {:induction false} FieldsJsonInjective(xs: seq<Canonical.Field>, ys: seq<Canonical.Field>)
    requires Canonical.WellFormed(Canonical.Struct(xs)) && Canonical.WellFormed(Canonical.Struct(ys))
    requires JsonFields(xs) == JsonFields(ys)
    ensures xs == ys
    decreases xs
  {
    hide Canonical.Ascending, Canonical.WellFormed, ToJson;
    if xs == [] {
      if ys != [] {
        JsonNonEmpty(ys);
      }
    } else {
      var n, m := |xs| - 1, |ys| - 1;
      assert xs[n].name in JsonFields(xs);
      InitAscending(xs);
      InitAscending(ys);
      FieldValuesJson(xs, ys);
      ToJsonInjective(xs[n].value, ys[m].value);
      FieldsJsonInjective(xs[..n], ys[..m]);
      assert xs == xs[..n] + [xs[n]] && ys == ys[..m] + [ys[m]];
    }
  }

  function TagOf(v: Value): string {
    if v.Object? && "t" in v.fields && v.fields["t"].Str? then v.fields["t"].s else ""
  }

  function PartOf(v: Value, part: string): Value {
    if v.Object? && part in v.fields then v.fields[part] else Null
  }

  lemma JsonParts(v: Canonical.TypedValue)
    requires Canonical.WellFormed(v)
    ensures TagOf(ToJson(v))
         == match v
            case Null => "null" case Bool(_) => "bool" case Int(_) => "int" case UInt(_) => "uint"
            case Float(_) => "float" case Decimal(_) => "decimal" case BigInt(_) => "int128" case UBigInt(_) => "uint128"
            case Text(_) => "text" case Struct(_) => "struct"
    ensures v.Bool? ==> PartOf(ToJson(v), "v") == Bool(v.b)
    ensures v.Int? ==> PartOf(ToJson(v), "v") == Str(IntText(v.i))
    ensures v.UInt? ==> PartOf(ToJson(v), "v") == Str(NatText(v.u))
    ensures v.Float? ==> PartOf(ToJson(v), "v") == Number(v.f.text)
    ensures v.Decimal? || v.BigInt? || v.UBigInt? || v.Text? ==> PartOf(ToJson(v), "v") == Str(v.text)
    ensures v.Struct? ==> PartOf(ToJson(v), "f") == Object(JsonFields(v.fields))
  {
    hide JsonFields;
  }

  lemma {:induction false} ToJsonInjective(v: Canonical.TypedValue, w: Canonical.TypedValue)
    requires Canonical.WellFormed(v) && Canonical.WellFormed(w) && ToJson(v) == ToJson(w)
    ensures v == w
    decreases v
  {
    JsonParts(v);
    JsonParts(w);
    hide ToJson, TagOf, PartOf;
    match v
    case Int(i) =>
      ParseIntText(i);
      ParseIntText(w.i);
    case UInt(u) => NatTextInjective(u, w.u);
    case Struct(fields) => FieldsJsonInjective(fields, w.fields);
    case _ =>
  }

  /** The row sent for a state determines the state. */
  lemma RowDeterminesState(q: JudgmentRequest, q': JudgmentRequest)
    requires Canonical.IsEncoded(q.state) && Canonical.IsEncoded(q'.state) && Row(q) == Row(q')
    ensures q.state == q'.state
  {
    if !q.state.value.Text? && !q'.state.value.Text? {
      ToJsonInjective(q.state.value, q'.state.value);
    }
  }

  // ---- Questions

  const NOUL_LEAD := "Evaluate whether state.condition holds for state.rows["
  const NOUL_TAIL := "]. Answer with the probability that it holds."
  const CHOICE_LEAD := "Caller question: "
  const CHOICE_MIDDLE := "\nSelect the single candidate label that best answers this question for state.rows["
  const CHOICE_TAIL := "]."

  function OrEmpty(s: Option<string>): string { if s.Some? then s.value else "" }

  function NoulInstructions(row: nat): string { NOUL_LEAD + (NatText(row) + NOUL_TAIL) }

  function ChoiceInstructions(question: string, row: nat): string {
    (CHOICE_LEAD + question + CHOICE_MIDDLE) + (NatText(row) + CHOICE_TAIL)
  }

  function CriteriaOf(choices: seq<string>): map<string, Value> { map c | c in choices :: Null }

  /** The question put about row `row`. */
  function QuestionAt(q: JudgmentRequest, row: nat): Value {
    match q.kind
    case Noul => Object(map["type" := Str("noul"), "instructions" := Str(NoulInstructions(row))])
    case Choice =>
      Object(map["criteria" := Object(CriteriaOf(q.choices)), "type" := Str("choice"),
                 "instructions" := Str(ChoiceInstructions(OrEmpty(q.question), row))])
  }

  /** The questions by key; on a repeated key the last one stands. */
  function QuestionsOf(requests: seq<JudgmentRequest>): map<string, Value> {
    if requests == [] then map[]
    else
      var n := |requests| - 1;
      QuestionsOf(requests[..n])[requests[n].requestKey := QuestionAt(requests[n], n)]
  }

  function Rows(requests: seq<JudgmentRequest>): (rows: seq<Value>)
    ensures |rows| == |requests|
  {
    seq(|requests|, i requires 0 <= i < |requests| => Row(requests[i]))
  }

  function StateOf(requests: seq<JudgmentRequest>): map<string, Value>
    requires requests != []
  {
    var rows := map["rows" := Array(Rows(requests))];
    if requests[0].kind == Noul then rows["condition" := Str(OrEmpty(requests[0].criterion))] else rows
  }

  function BodyOf(model: string, requests: seq<JudgmentRequest>): Value
    requires requests != []
  {
    Object(map["model" := Str(model), "state" := Object(StateOf(requests)), "questions" := Object(QuestionsOf(requests))])
  }

  method Criteria(choices: seq<string>) returns (criteria: map<string, Value>)
    ensures criteria == CriteriaOf(choices)
  {
    criteria := map[];
    for i := 0 to |choices|
      invariant criteria == CriteriaOf(choices[..i])
    {
      criteria := criteria[choices[i] := Null];
    }
    assert choices[..|choices|] == choices;
  }

  /** `build_body`: one row, one question. */
  method BuildBody(a: Adapter, q: JudgmentRequest) returns (body: Value)
    ensures body == BodyOf(a.model, [q])
  {
    hide CriteriaOf, NoulInstructions, ChoiceInstructions;
    var row := StateRow(q);
    var state := map["rows" := Array([row])];
    var question: map<string, Value> := map[];
    match q.kind {
      case Noul =>
        state := state["condition" := Str(OrEmpty(q.criterion))];
        question := map["type" := Str("noul"), "instructions" := Str(NoulInstructions(0))];
      case Choice =>
        var criteria := Criteria(q.choices);
        question := map["criteria" := Object(criteria)];
        question := question["type" := Str("choice")]["instructions" := Str(ChoiceInstructions(OrEmpty(q.question), 0))];
    }
    assert Rows([q]) == [row];
    assert [q][..0] == [];
    assert QuestionsOf([q]) == map[q.requestKey := QuestionAt(q, 0)];
    body := Object(map["model" := Str(a.model), "state" := Object(state),
                       "questions" := Object(map[q.requestKey := Object(question)])]);
  }

  /** The capabilities the adapter declares: both kinds, no batch limit of its own. */
  function Declared(a: Adapter): Capabilities {
    Capabilities(Verified, Verified, a.multiStateBatch, None, a.maxChoices)
  }

  /** `check_request_capabilities`, the adapter's own check of its choice limit. */
  predicate WithinChoices(a: Adapter, q: JudgmentRequest) {
    Declared(a).Admits(q.kind, q.choices)
  }

  predicate SameQuestion(q: JudgmentRequest, r: JudgmentRequest) {
    q.kind == r.kind && q.criterion == r.criterion && q.question == r.question && q.choices == r.choices
  }

  predicate Complete(q: JudgmentRequest) {
    match q.kind case Noul => q.criterion.Some? case Choice => q.question.Some?
  }

  /** What `build_batch_body` accepts: a single judgment, or judgments with distinct keys that ask one
      complete question within the choice limit. */
  predicate Buildable(a: Adapter, requests: seq<JudgmentRequest>) {
    && requests != []
    && (|requests| > 1 ==>
          && Distinct(RequestKeys(requests))
          && Complete(requests[0])
          && forall i :: 0 <= i < |requests| ==> WithinChoices(a, requests[i]) && SameQuestion(requests[i], requests[0]))
  }

  method CheckBatch(a: Adapter, requests: seq<JudgmentRequest>) returns (r: Result<()>)
    requires requests != []
    ensures r.Ok? <==>
      && Distinct(RequestKeys(requests))
      && forall i :: 0 <= i < |requests| ==> WithinChoices(a, requests[i]) && SameQuestion(requests[i], requests[0])
    ensures r.Err? ==> r.error.kind == Configuration
  {
    hide WithinChoices, SameQuestion;
    ghost var requestKeys := RequestKeys(requests);
    var keys := {};
    for i := 0 to |requests|
      invariant keys == Elements(requestKeys[..i]) && Distinct(requestKeys[..i])
      invariant forall k :: 0 <= k < i ==> WithinChoices(a, requests[k]) && SameQuestion(requests[k], requests[0])
    {
      var request := requests[i];
      assert requestKeys[i] == request.requestKey;
      if !WithinChoices(a, request) {
        return Err(TOO_MANY_CHOICES);
      }
      if request.requestKey in keys {
        return Err(REPEATED_QUESTION_KEYS);
      }
      keys := keys + {request.requestKey};
      if !SameQuestion(request, requests[0]) {
        return Err(MIXED_QUESTIONS);
      }
      assert requestKeys[..i + 1] == requestKeys[..i] + [request.requestKey];
    }
    assert requestKeys[..|requests|] == requestKeys;
    return Ok(());
  }

  method BuildQuestions(requests: seq<JudgmentRequest>) returns (r: Result<map<string, Value>>)
    ensures r.Ok? <==> forall i :: 0 <= i < |requests| ==> requests[i].kind == Choice ==> requests[i].question.Some?
    ensures r.Ok? ==> r.value == QuestionsOf(requests)
    ensures r.Err? ==> r.error.kind == Configuration
  {
    hide CriteriaOf, NoulInstructions, ChoiceInstructions;
    var questions: map<string, Value> := map[];
    for i := 0 to |requests|
      invariant questions == QuestionsOf(requests[..i])
      invariant forall k :: 0 <= k < i ==> requests[k].kind == Choice ==> requests[k].question.Some?
    {
      var request := requests[i];
      var question: map<string, Value> := map[];
      match request.kind {
        case Noul =>
          question := map["type" := Str("noul"), "instructions" := Str(NoulInstructions(i))];
        case Choice =>
          var criteria := Criteria(request.choices);
          question := map["criteria" := Object(criteria)];
          if request.question.None? {
            return Err(QUESTION_MISSING);
          }
          question := question["type" := Str("choice")];
          question := question["instructions" := Str(ChoiceInstructions(request.question.value, i))];
      }
      assert Object(question) == QuestionAt(request, i);
      questions := questions[request.requestKey := Object(question)];
      assert requests[..i + 1][..i] == requests[..i];
    }
    assert requests[..|requests|] == requests;
    return Ok(questions);
  }

  method StateRows(requests: seq<JudgmentRequest>) returns (rows: seq<Value>)
    ensures rows == Rows(requests)
  {
    rows := [];
    for i := 0 to |requests|
      invariant rows == Rows(requests)[..i]
    {
      var row := StateRow(requests[i]);
      rows := rows + [row];
    }
  }

  /** `build_batch_body`. */
  method BuildBatchBody(a: Adapter, requests: seq<JudgmentRequest>) returns (r: Result<Value>)
    ensures r.Ok? <==> Buildable(a, requests)
    ensures r.Ok? ==> r.value == BodyOf(a.model, requests)
    ensures r.Err? ==> r.error.kind == Configuration
  {
    hide QuestionsOf, Rows, WithinChoices, Distinct;
    if requests == [] {
      return Err(BATCH_EMPTY);
    }
    if |requests| == 1 {
      assert requests == [requests[0]];
      var body := BuildBody(a, requests[0]);
      return Ok(body);
    }
    var checked := CheckBatch(a, requests);
    if checked.Err? {
      return Err(checked.error);
    }
    var rows := StateRows(requests);
    var state := map["rows" := Array(rows)];
    if requests[0].kind == Noul {
      if requests[0].criterion.None? {
        return Err(CRITERION_MISSING);
      }
      state := state["condition" := Str(requests[0].criterion.value)];
    }
    var questions := BuildQuestions(requests);
    if questions.Err? {
      return Err(questions.error);
    }
    return Ok(Object(map["model" := Str(a.model), "state" := Object(state), "questions" := Object(questions.value)]));
  }

  // ---- Measuring and sending

  function SizeOrMax(a: Adapter, body: Value): nat {
    match a.library.size(body) case Some(n) => n case None => USIZE_MAX
  }

  /** The adapter's size estimate: the size of the body, or the machine maximum when there is none. */
  function Estimate(a: Adapter, requests: seq<JudgmentRequest>): nat {
    if Buildable(a, requests) then SizeOrMax(a, BodyOf(a.model, requests)) else USIZE_MAX
  }

  method EstimateRequestBytes(a: Adapter, requests: seq<JudgmentRequest>) returns (n: nat)
    ensures n == Estimate(a, requests)
  {
    var body := BuildBatchBody(a, requests);
    if body.Err? {
      return USIZE_MAX;
    }
    n := SizeOrMax(a, body.value);
  }

  /** The requests for which something is posted: the body can be built and serialized, a request sent
      alone is within the choice limit, and several need the verified capability. */
  predicate Posts(a: Adapter, requests: seq<JudgmentRequest>) {
    && Buildable(a, requests) && a.library.size(BodyOf(a.model, requests)).Some?
    && (if |requests| == 1 then WithinChoices(a, requests[0]) else a.multiStateBatch == Verified)
  }

  /** The body `judge_many` posts, if it posts one. */
  method PostedBody(a: Adapter, requests: seq<JudgmentRequest>) returns (posted: Result<Value>)
    ensures posted.Ok? ==> requests != [] && posted.value == BodyOf(a.model, requests)
    ensures posted.Ok? <==> Posts(a, requests)
  {
    var body;
    if |requests| == 1 {
      assert requests == [requests[0]];
      if !WithinChoices(a, requests[0]) {
        return Err(TOO_MANY_CHOICES);
      }
      body := BuildBody(a, requests[0]);
    } else {
      if a.multiStateBatch == Unknown {
        return Err(BATCHING_UNVERIFIED);
      }
      if a.multiStateBatch == Unsupported {
        return Err(BATCHING_UNSUPPORTED);
      }
      var built := BuildBatchBody(a, requests);
      if built.Err? {
        return built;
      }
      body := built.value;
    }
    if a.library.size(body).None? {
      return Err(NOT_SERIALIZABLE);
    }
    return Ok(body);
  }

  /** The body sent is the body measured: a batch whose estimate meets a limit below the machine
      maximum is buildable and serializable, and what is posted for it has exactly that size. */
  lemma SentIsMeasured(a: Adapter, requests: seq<JudgmentRequest>, limit: nat)
    requires Estimate(a, requests) <= limit < USIZE_MAX
    ensures Buildable(a, requests)
    ensures a.library.size(BodyOf(a.model, requests)) == Some(Estimate(a, requests))
  {
  }

  // ---- Batches of the executor

  /** The groups of one batch: well-made requests of one context, within the choice limit. */
  ghost predicate BatchOf(a: Adapter, groups: seq<Group>, indices: seq<nat>) {
    && indices != [] && InRange(indices, |groups|)
    && (forall k :: 0 <= k < |indices| ==>
          var g := groups[indices[k]];
          WellMade(g.request) && Identifies(g.identity, g.request) && WithinChoices(a, g.request))
    && forall k, m :: 0 <= k < |indices| && 0 <= m < |indices| ==>
         SameBatchContext(groups[indices[k]].identity, groups[indices[m]].identity)
  }

  /** The executor runs with this adapter: it reads its capabilities, measures with it, and gets an error
      when nothing is posted. */
  ghost predicate RunsWith(p: WorkerRuntime.Provider, a: Adapter) {
    && p.capabilities == Declared(a) && p.model == a.model
    && (forall requests :: p.estimate(requests) == Estimate(a, requests))
    && forall n: nat, requests :: !Posts(a, requests) ==> p.respond(n, requests).Err?
  }

  /** Every batch the executor plans over groups that passed its checks is of this kind. */
  lemma PlannedBatchOf(a: Adapter, p: WorkerRuntime.Provider, groups: seq<Group>, indices: seq<nat>)
    requires Executor.GroupsOk(p, groups) && BatchQuery.AllCapable(p, groups) && p.capabilities == Declared(a)
    requires indices != [] && InRange(indices, |groups|) && OneContext(indices, BatchExecutor.IdsOf(groups))
    ensures BatchOf(a, groups, indices)
  {
    hide WellMade, Identifies, SameBatchContext, Declared;
    forall k | 0 <= k < |indices|
      ensures var g := groups[indices[k]];
              WellMade(g.request) && Identifies(g.identity, g.request) && WithinChoices(a, g.request)
    {
      assert Executor.GroupOk(p, groups[indices[k]]) && BatchQuery.Capable(p, groups[indices[k]]);
    }
  }

  lemma KeysOfBatch(groups: seq<Group>, indices: seq<nat>)
    requires InRange(indices, |groups|)
    ensures Distinct(RequestKeys(RequestsFor(groups, indices)))
  {
    hide BatchKey;
    var keys := RequestKeys(RequestsFor(groups, indices));
    forall i, j | 0 <= i < j < |keys|
      ensures keys[i] != keys[j]
    {
      if keys[i] == keys[j] {
        BatchKeysDistinct(i, j);
      }
    }
  }

  /** The body builder accepts every batch the executor makes. */
  lemma ExecutorBatchesBuild(a: Adapter, groups: seq<Group>, indices: seq<nat>)
    requires BatchOf(a, groups, indices)
    ensures Buildable(a, RequestsFor(groups, indices))
  {
    hide BatchKey, RequestsFor, RequestKeys, Distinct;
    KeysOfBatch(groups, indices);
    var requests := RequestsFor(groups, indices);
    forall i | 0 <= i < |requests|
      ensures WithinChoices(a, requests[i]) && SameQuestion(requests[i], requests[0])
    {
      assert requests[i] == Rekeyed(groups, indices[i], i) && requests[0] == Rekeyed(groups, indices[0], 0);
      assert SameBatchContext(groups[indices[i]].identity, groups[indices[0]].identity);
    }
    assert requests[0] == Rekeyed(groups, indices[0], 0);
  }

  /** The body builder accepts every batch of the executor's plan, whatever its size. */
  lemma PlanBuilds(a: Adapter, p: WorkerRuntime.Provider, groups: seq<Group>, c: BatchQuery.Claims,
                   fits: seq<nat> -> bool, batches: seq<seq<nat>>, b: nat)
    requires Executor.GroupsOk(p, groups) && BatchQuery.AllCapable(p, groups) && p.capabilities == Declared(a)
    requires BatchQuery.Classified(c, BatchExecutor.IdsOf(groups), |groups|)
    requires BatchQuery.PlanAll(c.partitions, fits) == Some(batches) && b < |batches|
    ensures BatchOf(a, groups, batches[b]) && Buildable(a, RequestsFor(groups, batches[b]))
  {
    BatchQuery.PlanIsRight(c.partitions, fits, BatchExecutor.IdsOf(groups));
    PlannedBatchOf(a, p, groups, batches[b]);
    ExecutorBatchesBuild(a, groups, batches[b]);
  }

  /** What is posted for the requests has the measured size, within the byte limit. */
  ghost predicate PostedWithin(a: Adapter, requests: seq<JudgmentRequest>, maxBytes: nat) {
    Posts(a, requests) && a.library.size(BodyOf(a.model, requests)).value <= maxBytes
  }

  /** Every batch the executor hands over, in successful and in failed runs, is posted at the size that
      was measured, within the byte limit. The checked groups and the verified capability are what the
      executor guarantees whenever it hands over a batch. */
  lemma SentBatchesArePosted(a: Adapter, p: WorkerRuntime.Provider, groups: seq<Group>, maxJudgments: nat, maxBytes: nat,
                             s: WorkerRuntime.Snapshot, t: WorkerRuntime.Snapshot, batches: seq<seq<nat>>, b: nat)
    requires RunsWith(p, a) && maxBytes < USIZE_MAX && b < |batches|
    requires BatchQuery.AllCapable(p, groups) && p.capabilities.multiStateBatch == Verified
    requires BatchExecutor.SentWithinLimits(groups, BatchFits(groups, p.estimate, maxJudgments, maxBytes), s, t, batches)
    ensures InRange(batches[b], |groups|) && |batches[b]| <= maxJudgments
    ensures PostedWithin(a, RequestsFor(groups, batches[b]), maxBytes)
  {
    hide BodyOf, BatchKey;
    var requests := RequestsFor(groups, batches[b]);
    SentIsMeasured(a, requests, maxBytes);
    var g := groups[batches[b][0]];
    assert requests[0] == Rekeyed(groups, batches[b][0], 0);
    assert BatchQuery.Capable(p, g);
  }

  /** Every request the executor hands over on its own, in successful and in failed runs, is buildable at
      the size that was measured, within the byte limit; it is posted if and only if it is within the
      choice limit. The others come back as errors, though the call was made. */
  lemma SingleCallsArePosted(a: Adapter, p: WorkerRuntime.Provider, groups: seq<Group>, maxBytes: nat,
                             before: seq<seq<JudgmentRequest>>, after: seq<seq<JudgmentRequest>>, k: nat)
    requires RunsWith(p, a) && maxBytes < USIZE_MAX
    requires Executor.SingleCalls(p, maxBytes, groups, before, after) && |before| <= k < |after|
    ensures |after[k]| == 1 && Buildable(a, after[k])
    ensures PostedWithin(a, after[k], maxBytes) <==> WithinChoices(a, after[k][0])
    ensures !WithinChoices(a, after[k][0]) ==> forall n: nat :: p.respond(n, after[k]).Err?
  {
    hide BodyOf;
    SentIsMeasured(a, after[k], maxBytes);
  }

  lemma {:induction false} QuestionByKey(requests: seq<JudgmentRequest>, i: nat)
    requires i < |requests| && Distinct(RequestKeys(requests))
    ensures requests[i].requestKey in QuestionsOf(requests)
    ensures QuestionsOf(requests)[requests[i].requestKey] == QuestionAt(requests[i], i)
  {
    hide QuestionAt;
    var n := |requests| - 1;
    if i < n {
      var keys := RequestKeys(requests);
      assert RequestKeys(requests[..n]) == keys[..n];
      assert keys[i] != keys[n];
      QuestionByKey(requests[..n], i);
    }
  }

  /** In the body of a batch, key `r{i}` asks the question of the `i`-th group about row `i`, which is
      that group's state; there is one row and one question per group. */
  lemma KeyRefersToRow(groups: seq<Group>, indices: seq<nat>, i: nat)
    requires InRange(indices, |groups|) && i < |indices|
    ensures var requests := RequestsFor(groups, indices);
            && BatchKey(i) in QuestionsOf(requests)
            && QuestionsOf(requests)[BatchKey(i)] == QuestionAt(groups[indices[i]].request, i)
            && StateOf(requests)["rows"] == Array(Rows(requests))
            && Rows(requests)[i] == Row(groups[indices[i]].request)
            && |Rows(requests)| == |indices|
  {
    hide BatchKey, QuestionsOf, ToJson;
    var requests := RequestsFor(groups, indices);
    KeysOfBatch(groups, indices);
    QuestionByKey(requests, i);
    assert requests[i] == Rekeyed(groups, indices[i], i);
  }

  /** A question names its row and no other. */
  lemma QuestionNamesRow(q: JudgmentRequest, i: nat, j: nat)
    requires QuestionAt(q, i) == QuestionAt(q, j)
    ensures i == j
  {
    var m, m' := QuestionAt(q, i).fields, QuestionAt(q, j).fields;
    hide NoulInstructions, ChoiceInstructions, CriteriaOf;
    assert m["instructions"] == m'["instructions"];
    if q.kind == Noul {
      NoulNamesRow(i, j);
    } else {
      ChoiceNamesRow(OrEmpty(q.question), i, j);
    }
  }

  lemma AroundInjective(lead: string, x: string, y: string, tail: string)
    requires lead + (x + tail) == lead + (y + tail)
    ensures x == y
  {
    assert (lead + (x + tail))[|lead|..] == x + tail;
    assert (lead + (y + tail))[|lead|..] == y + tail;
    assert |x| == |y|;
    assert (x + tail)[..|x|] == x && (y + tail)[..|y|] == y;
  }

  lemma NoulNamesRow(i: nat, j: nat)
    requires NoulInstructions(i) == NoulInstructions(j)
    ensures i == j
  {
    hide NOUL_LEAD, NOUL_TAIL;
    AroundInjective(NOUL_LEAD, NatText(i), NatText(j), NOUL_TAIL);
    NatTextInjective(i, j);
  }

  lemma ChoiceNamesRow(question: string, i: nat, j: nat)
    requires ChoiceInstructions(question, i) == ChoiceInstructions(question, j)
    ensures i == j
  {
    AroundInjective(CHOICE_LEAD + question + CHOICE_MIDDLE, NatText(i), NatText(j), CHOICE_TAIL);
    NatTextInjective(i, j);
  }

  // ---- Responses

  function Member(v: Value, name: string): Option<Value> {
    if v.Object? && name in v.fields then Some(v.fields[name]) else None
  }

  /** `typed_answer_value`: the named value of an answer of the expected type. */
  function TypedAnswer(answer: Value, expected: string, name: string): Option<Value> {
    if Member(answer, "type") == Some(Str(expected)) then Member(answer, name) else None
  }

  /** The valid result an answer gives for its request, if it gives one. */
  function ReadAnswer(library: Library, q: JudgmentRequest, answer: Value): Option<JudgmentResult> {
    match q.kind
    case Noul =>
      var v :- TypedAnswer(answer, "noul", "noul");
      if !v.Number? then None
      else
        var p :- library.asF64(v.text);
        if ValidateProbability(Finite(p)).Ok? then Some(NoulResult(Finite(p))) else None
    case Choice =>
      var v :- TypedAnswer(answer, "choice", "choice");
      if v.Str? && ValidateLabel(v.s, q.choices).Ok? then Some(ChoiceResult(v.s)) else None
  }

  function Tokens(library: Library, usage: Value, name: string): Option<nat> {
    var v :- Member(usage, name);
    if v.Number? then library.asU64(v.text) else None
  }

  /** The answer is of the request's own type and gives it this valid result. */
  ghost predicate Gives(library: Library, q: JudgmentRequest, answer: Value, v: JudgmentResult) {
    && answer.Object? && "type" in answer.fields
    && match q.kind
       case Noul =>
         && answer.fields["type"] == Str("noul") && "noul" in answer.fields && answer.fields["noul"].Number?
         && v.NoulResult? && v.probability.Finite? && 0.0 <= v.probability.p <= 1.0
         && library.asF64(answer.fields["noul"].text) == Some(v.probability.p)
       case Choice =>
         && answer.fields["type"] == Str("choice") && "choice" in answer.fields
         && v.ChoiceResult? && v.chosen in q.choices && answer.fields["choice"] == Str(v.chosen)
  }

  ghost predicate GivesSome(library: Library, q: JudgmentRequest, answer: Value) {
    exists v :: Gives(library, q, answer, v)
  }

  /** A readable response: one answer for each of the distinct request keys, no other, each giving a
      valid result for its own request. */
  ghost predicate Readable(library: Library, requests: seq<JudgmentRequest>, parsed: Value) {
    && parsed.Object? && "answers" in parsed.fields && parsed.fields["answers"].Object?
    && var answers := parsed.fields["answers"].fields;
       && Distinct(RequestKeys(requests)) && |answers| == |requests|
       && forall i :: 0 <= i < |requests| ==>
            requests[i].requestKey in answers
            && GivesSome(library, requests[i], answers[requests[i].requestKey])
  }

  lemma ReadAnswerExact(library: Library, q: JudgmentRequest, answer: Value)
    ensures forall v :: ReadAnswer(library, q, answer) == Some(v) <==> Gives(library, q, answer, v)
    ensures GivesSome(library, q, answer) <==> ReadAnswer(library, q, answer).Some?
  {
    var r := ReadAnswer(library, q, answer);
    if r.Some? {
      assert Gives(library, q, answer, r.value);
    }
  }

  /** The token counts of a response that reports usage; a count that is no whole number is missing. */
  ghost function UsageIn(library: Library, parsed: Value): Option<Usage> {
    if parsed.Object? && "usage" in parsed.fields && parsed.fields["usage"].Object? then
      var usage := parsed.fields["usage"].fields;
      Some(Usage(
             if "input_tokens" in usage && usage["input_tokens"].Number? then library.asU64(usage["input_tokens"].text)
             else None,
             if "output_tokens" in usage && usage["output_tokens"].Number? then library.asU64(usage["output_tokens"].text)
             else None))
    else None
  }

  /** The model a response names. */
  ghost function ModelIn(parsed: Value): Option<string> {
    if parsed.Object? && "model" in parsed.fields && parsed.fields["model"].Str? then Some(parsed.fields["model"].s)
    else None
  }

  /** What is read from a response: the answers in request order, its model and its usage. */
  ghost predicate ReadsAs(library: Library, requests: seq<JudgmentRequest>, parsed: Value, r: BatchResult)
    requires Readable(library, requests, parsed)
  {
    && r.effectiveModel == ModelIn(parsed) && r.usage == UsageIn(library, parsed)
    && |r.answers| == |requests|
    && forall i :: 0 <= i < |requests| ==>
         && r.answers[i].requestKey == requests[i].requestKey
         && Gives(library, requests[i], parsed.fields["answers"].fields[requests[i].requestKey], r.answers[i].result)
  }

  predicate ReadsTo(library: Library, q: JudgmentRequest, answer: Value, given: Answer) {
    ReadAnswer(library, q, answer) == Some(given.result) && given.requestKey == q.requestKey
  }

  lemma GivenFits(library: Library, requests: seq<JudgmentRequest>, answers: map<string, Value>, given: seq<Answer>)
    requires |given| == |requests| && forall i :: 0 <= i < |requests| ==> requests[i].requestKey in answers
    requires forall i :: 0 <= i < |requests| ==> ReadsTo(library, requests[i], answers[requests[i].requestKey], given[i])
    ensures forall i :: 0 <= i < |requests| ==>
      given[i].requestKey == requests[i].requestKey && Fits(requests[i].kind, requests[i].choices, given[i].result)
  {
    hide ReadAnswer, Fits;
    forall i | 0 <= i < |requests|
      ensures Fits(requests[i].kind, requests[i].choices, given[i].result)
    {
      ReadAnswerFits(library, requests[i], answers[requests[i].requestKey]);
    }
  }

  lemma AllGiven(library: Library, requests: seq<JudgmentRequest>, answers: map<string, Value>, given: seq<Answer>)
    requires |given| == |requests| && forall i :: 0 <= i < |requests| ==> requests[i].requestKey in answers
    requires forall i :: 0 <= i < |requests| ==> ReadsTo(library, requests[i], answers[requests[i].requestKey], given[i])
    ensures forall i :: 0 <= i < |requests| ==>
      Gives(library, requests[i], answers[requests[i].requestKey], given[i].result)
    ensures forall i :: 0 <= i < |requests| ==> GivesSome(library, requests[i], answers[requests[i].requestKey])
  {
    hide ReadAnswer, Gives, GivesSome;
    forall i | 0 <= i < |requests|
      ensures Gives(library, requests[i], answers[requests[i].requestKey], given[i].result)
      ensures GivesSome(library, requests[i], answers[requests[i].requestKey])
    {
      ReadAnswerExact(library, requests[i], answers[requests[i].requestKey]);
    }
  }

  lemma ReadAnswerFits(library: Library, q: JudgmentRequest, answer: Value)
    requires ReadAnswer(library, q, answer).Some?
    ensures Fits(q.kind, q.choices, ReadAnswer(library, q, answer).value)
  {
  }

  /** An answer for every request, in request order, when the keys are distinct. */
  lemma OrderedAnswers(requests: seq<JudgmentRequest>, answers: seq<Answer>)
    requires |answers| == |requests|
    requires forall i :: 0 <= i < |requests| ==>
      answers[i].requestKey == requests[i].requestKey && Fits(requests[i].kind, requests[i].choices, answers[i].result)
    ensures AnswersBatch(requests, answers) <==> Distinct(RequestKeys(requests))
  {
    var keys := RequestKeys(requests);
    assert AnswerKeys(answers) == keys;
    if Distinct(keys) {
      forall i, j | 0 <= i < |requests| && 0 <= j < |answers| && requests[i].requestKey == answers[j].requestKey
        ensures i == j
      {
        assert keys[i] == keys[j];
      }
    }
  }

  /** A readable response has exactly the request keys. */
  lemma ReadableKeysExact(library: Library, requests: seq<JudgmentRequest>, parsed: Value)
    requires Readable(library, requests, parsed)
    ensures parsed.fields["answers"].fields.Keys == Elements(RequestKeys(requests))
  {
    hide Gives, GivesSome;
    var keys, answers := RequestKeys(requests), parsed.fields["answers"].fields;
    DistinctCount(keys);
    forall key | key in Elements(keys)
      ensures key in answers.Keys
    {
      var i :| 0 <= i < |keys| && keys[i] == key;
      assert requests[i].requestKey == key;
    }
    SubsetOfSameSize(Elements(keys), answers.Keys);
  }

  /** `parse_batch_response`, from the parsed document on. */
  method ParseBatchResponse(library: Library, requests: seq<JudgmentRequest>, parsed: Option<Value>)
    returns (r: Result<BatchResult>)
    ensures r.Ok? <==> parsed.Some? && Readable(library, requests, parsed.value)
    ensures r.Ok? ==> AnswersBatch(requests, r.value.answers) && ReadsAs(library, requests, parsed.value, r.value)
    ensures r.Ok? ==> parsed.value.fields["answers"].fields.Keys == Elements(RequestKeys(requests))
    ensures r.Err? ==> r.error.kind == InvalidResponse
  {
    hide ReadAnswer, AnswersBatch, Distinct, Fits, Gives, GivesSome;
    if parsed.None? {
      return Err(NOT_JSON);
    }
    var member := Member(parsed.value, "answers");
    if member.None? || !member.value.Object? {
      return Err(ANSWERS_MISSING);
    }
    var answers := member.value.fields;
    if |answers| != |requests| || exists i :: 0 <= i < |requests| && requests[i].requestKey !in answers {
      return Err(QUESTION_KEYS_DIFFER);
    }
    var effectiveModel, usage := ReportedModel(parsed.value), Member(parsed.value, "usage");
    var reported :=
      if usage.Some? && usage.value.Object?
      then Some(Usage(Tokens(library, usage.value, "input_tokens"), Tokens(library, usage.value, "output_tokens")))
      else None;
    var given: seq<Answer> := [];
    for i := 0 to |requests|
      invariant |given| == i
      invariant forall k :: 0 <= k < i ==> ReadsTo(library, requests[k], answers[requests[k].requestKey], given[k])
    {
      ReadAnswerExact(library, requests[i], answers[requests[i].requestKey]);
      var result := ReadAnswer(library, requests[i], answers[requests[i].requestKey]);
      if result.None? {
        return Err(ILL_TYPED_ANSWER);
      }
      given := given + [Answer(requests[i].requestKey, result.value)];
    }
    GivenFits(library, requests, answers, given);
    OrderedAnswers(requests, given);
    AllGiven(library, requests, answers, given);
    assert Distinct(RequestKeys(requests)) <==> Readable(library, requests, parsed.value);
    var valid := ValidateBatchResult(requests, given);
    if valid.Err? {
      return Err(JudgmentError(InvalidResponse, valid.error.message));
    }
    ReadableKeysExact(library, requests, parsed.value);
    return Ok(BatchResult(given, effectiveModel, reported));
  }

  const VERIFIED_BATCH_MODEL := "jev-1.13.0"

  function ReportedModel(parsed: Value): Option<string> {
    var model := Member(parsed, "model");
    if model.Some? && model.value.Str? then Some(model.value.s) else None
  }

  /** The end of `post_body`: a batch is only accepted from the model batching was verified for. */
  method ReceiveReply(library: Library, requests: seq<JudgmentRequest>, parsed: Option<Value>)
    returns (r: Result<BatchResult>)
    ensures r.Ok? <==>
      && parsed.Some? && Readable(library, requests, parsed.value)
      && (|requests| > 1 ==> ModelIn(parsed.value) == Some("jev-1.13.0"))
    ensures r.Ok? ==> AnswersBatch(requests, r.value.answers) && ReadsAs(library, requests, parsed.value, r.value)
  {
    hide Readable, AnswersBatch;
    r := ParseBatchResponse(library, requests, parsed);
    if r.Ok? && |requests| > 1 && r.value.effectiveModel != Some(VERIFIED_BATCH_MODEL) {
      return Err(MODEL_DRIFTED);
    }
  }
}
