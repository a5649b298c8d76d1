/** The SQL functions' chunk loops: row mode and optimized mode over the same rows. */
module RowFunctions {
  import opened Text
  import opened Collections
  import opened Judgment
  import opened Errors
  import opened ProviderProtocol
  import opened Grouping
  import opened WorkerRuntime
  import opened Executor
  import opened RowReading
  import BatchQuery
  import Host
  import Canonical
  import CacheLog

  // ---- Output cells

  datatype Cell = NullCell | Number(p: Probability) | Flag(b: bool) | LabelCell(text: string) | Untouched

  /** `jev_bool`'s fixed threshold, boundary included. */
  function BoolFromProbability(p: Probability): bool {
    match p
    case Finite(x) => x >= 0.5
    case NaN => false
    case Infinite => true
  }

  /** `write_result`; a result of the wrong type writes nothing. */
  function CellOf(kind: FunctionKind, v: JudgmentResult): Cell {
    match (kind, v)
    case (Prob, NoulResult(p)) => Number(p)
    case (Bool, NoulResult(p)) => Flag(BoolFromProbability(p))
    case (ChoiceOf, ChoiceResult(chosen)) => LabelCell(chosen)
    case _ => Untouched
  }

  // ---- Row mode

  /** What the row evaluator gives for a row when its call gets through and `model` serves it. */
  function RowAnswer(kind: FunctionKind, p: Provider, model: string, row: Row): Result<Option<JudgmentResult>> {
    var request :- ReadRequest(kind, row);
    if request.None? then Ok(None)
    else if !p.capabilities.Admits(request.value.kind, request.value.choices) then
      Err(JudgmentError(Configuration, "provider does not verify support for this judgment"))
    else
      var v :- p.says(p.credentialScope, model, request.value);
      var _ :- ValidateResult(request.value.kind, request.value.choices, v);
      Ok(Some(v))
  }

  /** Whether the row evaluator gets through: the row asks nothing, or settings and provider are usable,
      it passes the checks and gets its permit, and the response to its call answers it. */
  ghost predicate RowSucceeds(kind: FunctionKind, setup: Result<Provider>, permits: nat -> Result<()>, row: Row,
                              call: nat)
  {
    && ReadRequest(kind, row).Ok?
    && (ReadRequest(kind, row).value.Some? ==>
          setup.Ok? &&
          var p, q := setup.value, ReadRequest(kind, row).value.value;
          && p.capabilities.Admits(q.kind, q.choices) && permits(call).Ok?
          && p.respond(call, [q]).Ok? && AnswersBatch([q], p.respond(call, [q]).value.answers))
  }

  /** `r` is what the row evaluator gives when some model that may serve the call does. */
  ghost predicate RowModeGives(kind: FunctionKind, p: Provider, row: Row, r: Option<JudgmentResult>) {
    if ReadRequest(kind, row) == Ok(None) then r == None
    else exists model :: p.mayServe(p.model, model) && RowAnswer(kind, p, model, row) == Ok(r)
  }

  /** `evaluate_row`, with the response of its provider call. `setup` is the provider, or the error of
      unreadable settings, of a wrong mode or of the provider's initialisation; `permits` is what acquiring
      a permit gives. Neither matters to a row that asks nothing. */
  method EvaluateRow(kind: FunctionKind, setup: Result<Provider>, ghost p: Provider, permits: nat -> Result<()>, row: Row,
                     call: nat)
    returns (r: Result<Option<JudgmentResult>>)
    requires Honest(p) && (setup.Ok? ==> setup.value == p)
    ensures r.Ok? ==> RowModeGives(kind, p, row, r.value)
    ensures r.Ok? <==> RowSucceeds(kind, setup, permits, row, call)
  {
    var request := ReadRequest(kind, row);
    if request.Err? {
      return Err(request.error);
    }
    if request.value.None? {
      return Ok(None);
    }
    var q := request.value.value;
    if setup.Err? {
      return Err(setup.error);
    }
    var provider := setup.value;
    if provider.capabilities.Supports(q.kind) != Verified {
      return Err(TYPE_UNSUPPORTED);
    }
    var limit := provider.capabilities.maxChoices;
    if limit.Some? && q.kind == Choice && |q.choices| > limit.value {
      return Err(TOO_MANY_CHOICES);
    }
    if permits(call).Err? {
      return Err(permits(call).error);
    }
    var response := provider.respond(call, [q]);
    if response.Err? {
      return Err(response.error);
    }
    var answers := response.value.answers;
    var valid := ValidateBatchResult([q], answers);
    if valid.Err? {
      return Err(valid.error);
    }
    SingleGives(kind, p, row, q, response.value);
    return Ok(Some(answers[0].result));
  }

  lemma SingleGives(kind: FunctionKind, p: Provider, row: Row, q: JudgmentRequest, response: BatchResult)
    requires ReadRequest(kind, row) == Ok(Some(q)) && p.capabilities.Admits(q.kind, q.choices)
    requires AnswersBatch([q], response.answers) && Faithful(p, [q], response)
    ensures |response.answers| == 1 && RowModeGives(kind, p, row, Some(response.answers[0].result))
  {
    var answers := response.answers;
    SameMultisetDistinct(RequestKeys([q]), AnswerKeys(answers));
    assert AnswerKeys(answers)[0] in AnswerKeys(answers);
    assert [q][0].requestKey == answers[0].requestKey;
    ValidateResultExact(q.kind, q.choices, answers[0].result);
    var model :| ServedBy(p, model, response.effectiveModel) && SaidBy(p, model, [q], answers);
    assert RowAnswer(kind, p, model, row) == Ok(Some(answers[0].result)) by {
      hide ReadRequest;
    }
  }

  function RowCell(kind: FunctionKind, v: Option<JudgmentResult>): Cell {
    if v.None? then NullCell else CellOf(kind, v.value)
  }

  // ---- What a cell says, in terms of the row's arguments

  /** The service says `v` validly to the request: some model that may serve the provider's calls does. */
  ghost predicate Answered(p: Provider, q: JudgmentRequest, v: JudgmentResult) {
    && Fits(q.kind, q.choices, v)
    && exists model :: p.mayServe(p.model, model) && p.says(p.credentialScope, model, q) == Ok(v)
  }

  /** What each function shows of an answer: the probability itself, whether it is at least one half, or
      the label chosen among the row's own. */
  ghost predicate CellSays(kind: FunctionKind, p: Provider, q: JudgmentRequest, cell: Cell) {
    match kind
    case Prob => cell.Number? && cell.p.Finite? && 0.0 <= cell.p.p <= 1.0 && Answered(p, q, NoulResult(cell.p))
    case Bool =>
      cell.Flag? && exists x: real :: 0.0 <= x <= 1.0 && Answered(p, q, NoulResult(Finite(x))) && (cell.b <==> x >= 0.5)
    case ChoiceOf => cell.LabelCell? && cell.text in q.choices && Answered(p, q, ChoiceResult(cell.text))
  }

  /** The cell of a row with a NULL argument is NULL; any other shows an answer to what the row's
      arguments ask. */
  ghost predicate CellTells(kind: FunctionKind, p: Provider, row: Row, cell: Cell) {
    if HasNull(kind, row) then cell == NullCell
    else exists q :: AsksRow(kind, row, q) && (RowOk(row) ==> Canonical.IsEncoded(q.state)) && CellSays(kind, p, q, cell)
  }

  /** A cell shows an answer exactly when it is written from one. */
  lemma CellShows(kind: FunctionKind, p: Provider, q: JudgmentRequest, cell: Cell)
    requires q.kind == (if kind.ChoiceOf? then Choice else Noul)
    ensures CellSays(kind, p, q, cell) <==> exists v :: Answered(p, q, v) && cell == CellOf(kind, v)
  {
    hide Answered;
    FitsOnly(p, q);
    if CellSays(kind, p, q, cell) {
      match kind
      case Prob => assert cell == CellOf(kind, NoulResult(cell.p));
      case Bool =>
        var x: real :| 0.0 <= x <= 1.0 && Answered(p, q, NoulResult(Finite(x))) && (cell.b <==> x >= 0.5);
        assert cell == CellOf(kind, NoulResult(Finite(x)));
      case ChoiceOf => assert cell == CellOf(kind, ChoiceResult(cell.text));
    }
    if v :| Answered(p, q, v) && cell == CellOf(kind, v) {
      if kind.Bool? {
        var x := v.probability.p;
        assert v == NoulResult(Finite(x)) && (cell.b <==> x >= 0.5);
      }
    }
  }

  lemma FitsOnly(p: Provider, q: JudgmentRequest)
    ensures forall v :: Answered(p, q, v) ==> Fits(q.kind, q.choices, v)
  {
  }

  /** The cell holds what row mode gives for the row. */
  ghost predicate IsRowModeCell(kind: FunctionKind, p: Provider, row: Row, cell: Cell) {
    exists r :: RowModeGives(kind, p, row, r) && cell == RowCell(kind, r)
  }

  /** The rows that ask nothing. */
  function Nulls(kind: FunctionKind, rows: seq<Row>): nat {
    if rows == [] then 0
    else Nulls(kind, rows[..|rows| - 1]) + (if ReadRequest(kind, rows[|rows| - 1]) == Ok(None) then 1 else 0)
  }

  lemma {:induction false} NullsSnoc(kind: FunctionKind, rows: seq<Row>, i: nat)
    requires i < |rows|
    ensures Nulls(kind, rows[..i + 1])
         == Nulls(kind, rows[..i]) + (if ReadRequest(kind, rows[i]) == Ok(None) then 1 else 0)
    ensures Nulls(kind, rows[..i]) <= i
  {
    hide ReadRequest;
    assert rows[..i + 1][..i] == rows[..i];
    if i > 0 {
      NullsSnoc(kind, rows, i - 1);
    }
  }

  /** The counters after `input` rows of row mode, of which `nulls` asked nothing and `answered` were
      answered: a row that fails is an input row and nothing else. */
  function RowCounts(c: Host.Counts, input: nat, nulls: nat, answered: nat): Host.Counts {
    c.(inputRows := c.inputRows + input, nullRows := c.nullRows + nulls,
       validRows := c.validRows + answered, uniqueJudgments := c.uniqueJudgments + answered)
  }

  ghost predicate Counted(before: Host.State, after: Host.State, scope: nat, input: nat, nulls: nat, answered: nat) {
    after == Host.Record(before, scope, RowCounts(Host.Now(before), input, nulls, answered))
  }

  lemma CountedMore(h: Host.State, h': Host.State, h'': Host.State, scope: nat, input: nat, nulls: nat, answered: nat,
                    isNull: bool)
    requires Counted(h, h', scope, input + 1, nulls, answered)
    requires h'' == Host.Record(h', scope, Host.RowResult(Host.Now(h'), isNull))
    ensures Counted(h, h'', scope, input + 1, nulls + (if isNull then 1 else 0), answered + (if isNull then 0 else 1))
  {
  }

  lemma CountedInput(h: Host.State, h': Host.State, h'': Host.State, scope: nat, input: nat, nulls: nat, answered: nat)
    requires Counted(h, h', scope, input, nulls, answered)
    requires h'' == Host.Record(h', scope, Host.RowInput(Host.Now(h')))
    ensures Counted(h, h'', scope, input + 1, nulls, answered)
  {
  }

  lemma CountedNone(h: Host.State, scope: nat)
    ensures Counted(h, h, scope, 0, 0, 0)
  {
  }

  /** The row-mode loop of `run`: the `written` rows before a failure carry the evaluator's answers,
      the rest is untouched. The counters take in every row looked at, and of those written the rows
      that ask nothing apart from the answered ones. */
  method RunRows(kind: FunctionKind, setup: Result<Provider>, ghost p: Provider, permits: nat -> Result<()>,
                 rows: seq<Row>, connection: Host.ConnectionRuntime, scope: nat, output: array<Cell>)
    returns (error: Option<JudgmentError>, written: nat)
    requires Honest(p) && (setup.Ok? ==> setup.value == p) && output.Length == |rows|
    modifies output, connection`active
    ensures written <= |rows| && Nulls(kind, rows[..written]) <= written
    ensures var nulls := Nulls(kind, rows[..written]);
            Counted(old(connection.View()), connection.View(), scope,
                    written + (if error.Some? then 1 else 0), nulls, written - nulls)
    ensures error.None? <==> written == |rows|
    ensures error.None? <==> forall i :: 0 <= i < |rows| ==> RowSucceeds(kind, setup, permits, rows[i], i)
    ensures forall i :: 0 <= i < written ==> IsRowModeCell(kind, p, rows[i], output[i])
    // Every cell written is NULL for a NULL argument, otherwise it shows an answer to the row's arguments.
    ensures forall i :: 0 <= i < written ==> CellTells(kind, p, rows[i], output[i])
    ensures forall i :: written <= i < |rows| ==> output[i] == old(output[i])
  {
    hide RowModeGives, RowCell, Honest, RowSucceeds, ReadRequest, Counted, Nulls, CellTells;
    ghost var before := connection.View();
    CountedNone(before, scope);
    assert Nulls(kind, rows[..0]) == 0 by { NoNulls(kind, rows); }
    for i := 0 to |rows|
      invariant Nulls(kind, rows[..i]) <= i
      invariant Counted(before, connection.View(), scope, i, Nulls(kind, rows[..i]), i - Nulls(kind, rows[..i]))
      invariant forall k :: 0 <= k < i ==> RowSucceeds(kind, setup, permits, rows[k], k)
      invariant forall k :: 0 <= k < i ==>
        IsRowModeCell(kind, p, rows[k], output[k]) && CellTells(kind, p, rows[k], output[k])
      invariant forall k :: i <= k < |rows| ==> output[k] == old(output[k])
    {
      ghost var nulls := Nulls(kind, rows[..i]);
      ghost var h := connection.View();
      connection.RecordRowInput(scope);
      ghost var h' := connection.View();
      CountedInput(before, h, h', scope, i, nulls, i - nulls);
      var result := EvaluateRow(kind, setup, p, permits, rows[i], i);
      if result.Err? {
        return Some(result.error), i;
      }
      NullsSnoc(kind, rows, i);
      GivesNone(kind, p, rows[i], result.value);
      connection.RecordRowResult(scope, result.value.None?);
      CountedMore(before, h', connection.View(), scope, i, nulls, i - nulls, result.value.None?);
      output[i] := RowCell(kind, result.value);
      RowModeTells(kind, p, rows[i], output[i]);
    }
    assert rows[..|rows|] == rows;
    return None, |rows|;
  }

  /** What row mode writes shows an answer to the row's arguments. */
  lemma RowModeTells(kind: FunctionKind, p: Provider, row: Row, cell: Cell)
    requires IsRowModeCell(kind, p, row, cell)
    ensures CellTells(kind, p, row, cell)
  {
    ReadRequestExact(kind, row);
    RowModeIsServed(kind, p, row, cell);
    hide ReadRequest, Answered, AsksRow, CellSays, Canonical.IsEncoded, CellOf, RowOk, IsRowModeCell;
    if !HasNull(kind, row) {
      var q := ReadRequest(kind, row).value.value;
      if RowOk(row) {
        ReadRequestsAreWellMade(kind, row);
      }
      AskedKind(kind, row, q);
      CellShows(kind, p, q, cell);
      var v :| RowAnswered(kind, p, row, v) && cell == CellOf(kind, v);
      assert CellSays(kind, p, q, cell);
    }
  }

  lemma NoNulls(kind: FunctionKind, rows: seq<Row>)
    ensures Nulls(kind, rows[..0]) == 0
  {
  }

  lemma GivesNone(kind: FunctionKind, p: Provider, row: Row, r: Option<JudgmentResult>)
    requires RowModeGives(kind, p, row, r)
    ensures r.None? <==> ReadRequest(kind, row) == Ok(None)
  {
    hide ReadRequest;
  }

  // ---- Optimized mode

  datatype Mode = Mode(batched: bool, batchMaxJudgments: nat, limits: Limits, cache: Option<CacheLog.Policy>)

  /** One work item per row that asks something, in row order, with that row's request. */
  ghost predicate WorkFor(kind: FunctionKind, rows: seq<Row>, context: IdentityContext, work: seq<Work>, i: nat) {
    && i <= |rows|
    && (forall w :: 0 <= w < |work| ==>
          && work[w].target.row < i
          && ReadRequest(kind, rows[work[w].target.row]) == Ok(Some(work[w].request))
          && work[w].identity == IdentityOf(work[w].request, context))
    && (forall v, w :: 0 <= v < w < |work| ==> work[v].target.row < work[w].target.row)
    && (forall row :: 0 <= row < i ==> ReadRequest(kind, rows[row]).Ok?)
    && (forall row :: 0 <= row < i && ReadRequest(kind, rows[row]).value.Some? ==> HasWork(work, row))
  }

  predicate HasWork(work: seq<Work>, row: nat) {
    exists w :: 0 <= w < |work| && work[w].target.row == row
  }

  function WorkItem(context: IdentityContext, q: JudgmentRequest, target: RowTarget): Work {
    Work(IdentityOf(q, context), q, target)
  }

  lemma WorkGrows(kind: FunctionKind, rows: seq<Row>, context: IdentityContext, work: seq<Work>, row: nat, item: Work)
    requires row < |rows| && WorkFor(kind, rows, context, work, row) && item.target.row == row
    requires ReadRequest(kind, rows[row]) == Ok(Some(item.request)) && item.identity == IdentityOf(item.request, context)
    ensures WorkFor(kind, rows, context, work + [item], row + 1)
  {
    hide ReadRequest, IdentityOf;
    var grown := work + [item];
    assert grown[|work|].target.row == row;
    forall k | 0 <= k < row + 1 && ReadRequest(kind, rows[k]).value.Some?
      ensures HasWork(grown, k)
    {
      if k < row {
        assert HasWork(work, k);
        var w :| 0 <= w < |work| && work[w].target.row == k;
        assert grown[w].target.row == k;
      }
    }
  }

  lemma WorkSkips(kind: FunctionKind, rows: seq<Row>, context: IdentityContext, work: seq<Work>, row: nat)
    requires row < |rows| && WorkFor(kind, rows, context, work, row) && ReadRequest(kind, rows[row]) == Ok(None)
    ensures WorkFor(kind, rows, context, work, row + 1)
  {
    hide ReadRequest, IdentityOf;
  }

  lemma WorkReads(kind: FunctionKind, rows: seq<Row>, context: IdentityContext, work: seq<Work>)
    requires WorkFor(kind, rows, context, work, |rows|)
    ensures forall row :: 0 <= row < |rows| ==> ReadRequest(kind, rows[row]).Ok?
  {
  }

  method CollectWork(kind: FunctionKind, rows: seq<Row>, context: IdentityContext, invocation: nat, chunk: nat)
    returns (r: Result<seq<Work>>, nullRows: nat)
    ensures r.Ok? ==> WorkFor(kind, rows, context, r.value, |rows|) && nullRows + |r.value| == |rows|
    ensures r.Err? <==> exists row :: 0 <= row < |rows| && ReadRequest(kind, rows[row]).Err?
  {
    hide ReadRequest, IdentityOf, WorkFor;
    var work: seq<Work> := [];
    nullRows := 0;
    NoWork(kind, rows, context);
    for row := 0 to |rows|
      invariant WorkFor(kind, rows, context, work, row) && nullRows + |work| == row
    {
      var request := ReadRequest(kind, rows[row]);
      if request.Err? {
        return Err(request.error), nullRows;
      }
      if request.value.Some? {
        var item := WorkItem(context, request.value.value, RowTarget(invocation, chunk, row));
        WorkGrows(kind, rows, context, work, row, item);
        work := work + [item];
      } else {
        WorkSkips(kind, rows, context, work, row);
        nullRows := nullRows + 1;
      }
    }
    WorkReads(kind, rows, context, work);
    return Ok(work), nullRows;
  }

  lemma NoWork(kind: FunctionKind, rows: seq<Row>, context: IdentityContext)
    ensures WorkFor(kind, rows, context, [], 0)
  {
  }

  /** `v` is a valid answer to what the row asks, from a model that may serve the provider's calls. */
  ghost predicate RowAnswered(kind: FunctionKind, p: Provider, row: Row, v: JudgmentResult) {
    && ReadRequest(kind, row).Ok? && ReadRequest(kind, row).value.Some?
    && Answered(p, ReadRequest(kind, row).value.value, v)
  }

  /** The identity context of this provider's calls. */
  predicate ContextOf(p: Provider, c: IdentityContext) {
    && c.providerNamespace == p.namespace && c.endpoint == p.endpoint
    && c.requestedModel == p.model && c.credentialScope == p.credentialScope
  }

  lemma WorkGroupsOk(kind: FunctionKind, p: Provider, rows: seq<Row>, context: IdentityContext, work: seq<Work>,
                     groups: seq<Group>)
    requires WorkFor(kind, rows, context, work, |rows|) && StablePartition(groups, work)
    requires forall i :: 0 <= i < |rows| ==> RowOk(rows[i])
    requires ContextOf(p, context)
    ensures GroupsOk(p, groups)
  {
    forall g | 0 <= g < |groups|
      ensures GroupOk(p, groups[g])
    {
      assert GroupMatches(groups[g], work);
      var w := First(work, groups[g].identity);
      ReadRequestsAreWellMade(kind, rows[work[w].target.row]);
    }
  }

  /** A correct output row, read back through the groups, answers the row it is addressed to. */
  lemma OutputRowAnswers(kind: FunctionKind, p: Provider, rows: seq<Row>, context: IdentityContext, work: seq<Work>,
                         groups: seq<Group>, out: (RowTarget, JudgmentResult))
    requires WorkFor(kind, rows, context, work, |rows|) && StablePartition(groups, work)
    requires forall i :: 0 <= i < |rows| ==> RowOk(rows[i])
    requires RowCorrect(p, groups, out) && ContextOf(p, context)
    ensures out.0.row < |rows| && RowAnswered(kind, p, rows[out.0.row], out.1)
  {
    hide First, TargetsFor, ReadRequest;
    var g :| 0 <= g < |groups| && out.0 in groups[g].targets && Answers(p, groups[g].identity, out.1);
    assert GroupMatches(groups[g], work);
    TargetsForMembers(work, groups[g].identity, out.0);
    var w :| 0 <= w < |work| && work[w].identity == groups[g].identity && work[w].target == out.0;
    var q := work[w].request;
    ReadRequestsAreWellMade(kind, rows[out.0.row]);
    assert Identifies(groups[g].identity, q);
    var model :| p.mayServe(groups[g].identity.requestedModel, model) && SaysFor(p, model, groups[g].identity, out.1);
    assert p.says(p.credentialScope, model, q) == Ok(out.1);
  }

  /** Each asking row receives at least one output. */
  lemma EveryRowServed(kind: FunctionKind, rows: seq<Row>, context: IdentityContext, work: seq<Work>,
                       groups: seq<Group>, output: Output, row: nat)
    requires WorkFor(kind, rows, context, work, |rows|) && SameTargets(groups, work)
    requires multiset(OutTargets(output)) == multiset(AllTargets(groups))
    requires row < |rows| && ReadRequest(kind, rows[row]).Ok? && ReadRequest(kind, rows[row]).value.Some?
    ensures exists k :: 0 <= k < |output| && output[k].0.row == row
  {
    hide ReadRequest;
    assert HasWork(work, row);
    var w :| 0 <= w < |work| && work[w].target.row == row;
    assert Targets(work)[w] in multiset(Targets(work));
    assert work[w].target in multiset(OutTargets(output));
    var k :| 0 <= k < |OutTargets(output)| && OutTargets(output)[k] == work[w].target;
    assert output[k].0.row == row;
  }

  /** `results_by_row`: every executed pair goes to its row. */
  method PlaceResults(kind: FunctionKind, ghost p: Provider, rows: seq<Row>, executed: Output)
    returns (byRow: seq<Option<JudgmentResult>>)
    requires forall k :: 0 <= k < |executed| ==>
      executed[k].0.row < |rows| && RowAnswered(kind, p, rows[executed[k].0.row], executed[k].1)
    ensures |byRow| == |rows|
    ensures forall row :: 0 <= row < |rows| && byRow[row].Some? ==> RowAnswered(kind, p, rows[row], byRow[row].value)
    ensures forall k :: 0 <= k < |executed| ==> byRow[executed[k].0.row].Some?
  {
    hide RowAnswered;
    byRow := seq(|rows|, _ => None);
    for k := 0 to |executed|
      invariant |byRow| == |rows|
      invariant forall row :: 0 <= row < |rows| && byRow[row].Some? ==> RowAnswered(kind, p, rows[row], byRow[row].value)
      invariant forall j :: 0 <= j < k ==> byRow[executed[j].0.row].Some?
    {
      byRow := byRow[executed[k].0.row := Some(executed[k].1)];
    }
  }

  /** What an optimized chunk writes for a row: NULL for a row that asks nothing, otherwise the
      provider's valid answer to that row's own request. */
  ghost predicate RowServed(kind: FunctionKind, p: Provider, row: Row, cell: Cell) {
    if ReadRequest(kind, row) == Ok(None) then cell == NullCell
    else exists v :: RowAnswered(kind, p, row, v) && cell == CellOf(kind, v)
  }

  lemma CellServed(kind: FunctionKind, p: Provider, rows: seq<Row>, byRow: seq<Option<JudgmentResult>>, row: nat)
    requires |byRow| == |rows| && row < |rows| && ReadRequest(kind, rows[row]).Ok?
    requires byRow[row].Some? ==> RowAnswered(kind, p, rows[row], byRow[row].value)
    requires ReadRequest(kind, rows[row]).value.Some? ==> byRow[row].Some?
    ensures RowServed(kind, p, rows[row], RowCell(kind, byRow[row]))
  {
    hide ReadRequest;
  }

  /** From the executor's output to the cells: every row ends up served. */
  method ResolveRows(kind: FunctionKind, ghost p: Provider, rows: seq<Row>, ghost context: IdentityContext,
                     ghost work: seq<Work>, ghost groups: seq<Group>, executed: Output)
    returns (byRow: seq<Option<JudgmentResult>>)
    requires WorkFor(kind, rows, context, work, |rows|) && StablePartition(groups, work) && SameTargets(groups, work)
    requires forall i :: 0 <= i < |rows| ==> RowOk(rows[i])
    requires ContextOf(p, context)
    requires RowsCorrect(p, groups, executed) && multiset(OutTargets(executed)) == multiset(AllTargets(groups))
    ensures |byRow| == |rows|
    ensures forall row :: 0 <= row < |rows| ==> RowServed(kind, p, rows[row], RowCell(kind, byRow[row]))
  {
    hide WorkFor, StablePartition, SameTargets, RowCorrect, RowAnswered, ReadRequest, RowServed, RowCell, RowOk, ContextOf;
    forall k | 0 <= k < |executed|
      ensures executed[k].0.row < |rows| && RowAnswered(kind, p, rows[executed[k].0.row], executed[k].1)
    {
      OutputRowAnswers(kind, p, rows, context, work, groups, executed[k]);
    }
    byRow := PlaceResults(kind, p, rows, executed);
    WorkReads(kind, rows, context, work);
    forall row | 0 <= row < |rows|
      ensures RowServed(kind, p, rows[row], RowCell(kind, byRow[row]))
    {
      if ReadRequest(kind, rows[row]).value.Some? {
        EveryRowServed(kind, rows, context, work, groups, executed, row);
        var k :| 0 <= k < |executed| && executed[k].0.row == row;
      }
      CellServed(kind, p, rows, byRow, row);
    }
  }

  /** Publishing: only after every response of the chunk has succeeded. */
  method Publish(kind: FunctionKind, byRow: seq<Option<JudgmentResult>>, output: array<Cell>)
    requires output.Length == |byRow|
    modifies output
    ensures forall i :: 0 <= i < |byRow| ==> output[i] == RowCell(kind, byRow[i])
  {
    for row := 0 to |byRow|
      invariant forall i :: 0 <= i < row ==> output[i] == RowCell(kind, byRow[i])
    {
      output[row] := RowCell(kind, byRow[row]);
    }
  }

  lemma NoGroupsNoWork(groups: seq<Group>, work: seq<Work>)
    requires StablePartition(groups, work) && groups == []
    ensures work == []
  {
    assert work != [] ==> HasGroup(groups, work[0].identity);
  }

  lemma NoWorkNoGroups(groups: seq<Group>, work: seq<Work>)
    requires StablePartition(groups, work) && groups != []
    ensures work != []
  {
    assert GroupMatches(groups[0], work);
  }

  lemma NullsRead(kind: FunctionKind, rows: seq<Row>)
    ensures forall i :: 0 <= i < |rows| && HasNull(kind, rows[i]) ==> ReadRequest(kind, rows[i]) == Ok(None)
  {
  }

  lemma EmptyOutput(p: Provider)
    ensures RowsCorrect(p, [], []) && OutTargets([]) == AllTargets([])
  {
  }

  /** Every group stands for a judgment that some row asks for. */
  ghost predicate GroupsOfRows(kind: FunctionKind, rows: seq<Row>, context: IdentityContext, groups: seq<Group>) {
    forall g :: 0 <= g < |groups| ==> GroupOfRow(kind, rows, context, groups[g])
  }

  ghost predicate GroupOfRow(kind: FunctionKind, rows: seq<Row>, context: IdentityContext, group: Group) {
    exists row :: 0 <= row < |rows| && ReadRequest(kind, rows[row]) == Ok(Some(group.request))
                  && group.identity == IdentityOf(group.request, context)
  }

  lemma NoGroupsOfRows(kind: FunctionKind, rows: seq<Row>, context: IdentityContext)
    ensures GroupsOfRows(kind, rows, context, [])
  {
  }

  lemma GroupsAreRows(kind: FunctionKind, rows: seq<Row>, context: IdentityContext, work: seq<Work>, groups: seq<Group>)
    requires WorkFor(kind, rows, context, work, |rows|) && StablePartition(groups, work)
    ensures GroupsOfRows(kind, rows, context, groups)
  {
    hide ReadRequest, IdentityOf;
    forall g | 0 <= g < |groups|
      ensures GroupOfRow(kind, rows, context, groups[g])
    {
      assert GroupMatches(groups[g], work);
      var w := First(work, groups[g].identity);
      assert work[w].target.row < |rows|;
    }
  }

  /** What a successful chunk promises. */
  ghost predicate ChunkServed(kind: FunctionKind, p: Provider, rows: seq<Row>, cells: seq<Cell>, batched: bool) {
    && |cells| == |rows|
    // Every cell is NULL for a NULL argument, otherwise it shows a valid answer to the row's arguments.
    && (forall i :: 0 <= i < |rows| ==> CellTells(kind, p, rows[i], cells[i]))
    // Refinement of row mode: exactly on the rows that row mode's checks let through, all of them when
    // batched, and on every row of a provider that enforces what it declares.
    && (forall i :: 0 <= i < |rows| ==> (IsRowModeCell(kind, p, rows[i], cells[i]) <==> RowGate(kind, p, rows[i])))
    && (batched ==> forall i :: 0 <= i < |rows| ==> RowGate(kind, p, rows[i]))
    && (Enforces(p) ==> forall i :: 0 <= i < |rows| ==> IsRowModeCell(kind, p, rows[i], cells[i]))
  }

  /** `run_optimized`. On success every row is served, whatever the mode, the cache and the other
      workers did; on failure nothing is written; a chunk that asks nothing calls nobody and needs
      no provider. `context` is the identity context of the active query, or the error of asking
      for it; `provider` may have failed to initialise. */
  method RunOptimized(kind: FunctionKind, rows: seq<Row>, context: Result<IdentityContext>, provider: Result<Provider>,
                      ghost p: Provider, rt: Runtime, mode: Mode, invocation: nat, chunk: nat, output: array<Cell>)
    returns (error: Option<JudgmentError>, ghost groups: seq<Group>, ghost claimed: set<Identity>)
    requires Honest(p) && (provider.Ok? ==> provider.value == p) && Inv(p, rt.Now())
    requires context.Ok? ==> ContextOf(p, context.value)
    requires output.Length == |rows| && forall i :: 0 <= i < |rows| ==> RowOk(rows[i])
    modifies rt, output
    ensures Inv(p, rt.Now())
    ensures error.Some? ==> output[..] == old(output[..])
    ensures error.None? ==> ChunkServed(kind, p, rows, output[..], mode.batched)
    ensures (forall i :: 0 <= i < |rows| ==> HasNull(kind, rows[i])) && context.Ok? ==>
      error.None? && rt.calls == old(rt.calls)
    // Failures.
    ensures error.Some? ==>
      || context.Err? || (exists row :: 0 <= row < |rows| && ReadRequest(kind, rows[row]).Err?) || provider.Err?
      || (if mode.batched
          then BatchQuery.BatchFault(p, groups, mode.batchMaxJudgments, mode.limits, mode.cache, claimed, rt.Now())
          else GroupFault(p, groups, mode.limits, mode.cache, claimed, rt.Now()))
    ensures context.Ok? ==> GroupsOfRows(kind, rows, context.value, groups)
    ensures Moves(old(rt.Now()), rt.Now(), claimed, {})
    ensures !mode.batched ==> SingleCalls(p, mode.limits.maxRequestBytes, groups, old(rt.calls), rt.calls)
  {
    MovesItself(rt.Now());
    groups, claimed := [], {};
    hide WorkFor, ReadRequest, RowServed, RowOk, Inv, Moves, Honest, RowGate, IsRowModeCell, Enforces, CellTells,
         GroupsOfRows, ContextOf, GroupFault, BatchQuery.BatchFault, ChunkServed, RowCell, SingleCalls;
    if context.Err? {
      return Some(context.error), groups, claimed;
    }
    NoGroupsOfRows(kind, rows, context.value);
    var collected, nullRows := CollectWork(kind, rows, context.value, invocation, chunk);
    NullsRead(kind, rows);
    if collected.Err? {
      return Some(collected.error), groups, claimed;
    }
    var byRow;
    byRow, groups, claimed := ExecuteWork(kind, rows, context.value, collected.value, provider, p, rt, mode);
    WorkReads(kind, rows, context.value, collected.value);
    if collected.value != [] {
      SomeWork(kind, rows, context.value, collected.value);
    }
    if byRow.Err? {
      return Some(byRow.error), groups, claimed;
    }
    Publish(kind, byRow.value, output);
    ChunkTells(kind, p, rows, byRow.value, output[..], mode.batched);
    return None, groups, claimed;
  }

  /** Groups the work, has it executed, and gives every row its result. */
  method ExecuteWork(kind: FunctionKind, rows: seq<Row>, context: IdentityContext, work: seq<Work>,
                     provider: Result<Provider>, ghost p: Provider, rt: Runtime, mode: Mode)
    returns (byRow: Result<seq<Option<JudgmentResult>>>, ghost groups: seq<Group>, ghost claimed: set<Identity>)
    requires Honest(p) && (provider.Ok? ==> provider.value == p) && Inv(p, rt.Now())
    requires ContextOf(p, context) && forall i :: 0 <= i < |rows| ==> RowOk(rows[i])
    requires WorkFor(kind, rows, context, work, |rows|)
    modifies rt
    ensures Inv(p, rt.Now()) && Moves(old(rt.Now()), rt.Now(), claimed, {})
    ensures byRow.Ok? ==> |byRow.value| == |rows| && forall i :: 0 <= i < |rows| ==>
      RowServed(kind, p, rows[i], RowCell(kind, byRow.value[i]))
    ensures byRow.Ok? && mode.batched ==> forall i :: 0 <= i < |rows| ==> RowGate(kind, p, rows[i])
    ensures work == [] ==> byRow.Ok? && rt.calls == old(rt.calls)
    ensures byRow.Err? ==>
      || provider.Err?
      || (if mode.batched
          then BatchQuery.BatchFault(p, groups, mode.batchMaxJudgments, mode.limits, mode.cache, claimed, rt.Now())
          else GroupFault(p, groups, mode.limits, mode.cache, claimed, rt.Now()))
    ensures GroupsOfRows(kind, rows, context, groups)
    ensures !mode.batched ==> SingleCalls(p, mode.limits.maxRequestBytes, groups, old(rt.calls), rt.calls)
  {
    MovesItself(rt.Now());
    claimed := {};
    hide WorkFor, StablePartition, SameTargets, RowsCorrect, ReadRequest, RowServed, RowOk, Inv, Moves, Honest, RowGate,
         GroupsOk, GroupsOfRows, ContextOf, GroupFault, BatchQuery.BatchFault;
    var grouped := GroupByIdentity(work);
    groups := grouped;
    GroupsAreRows(kind, rows, context, work, groups);
    WorkGroupsOk(kind, p, rows, context, work, groups);
    var executed: Output := [];
    if grouped == [] {
      NoGroupsNoWork(groups, work);
      EmptyOutput(p);
    } else {
      NoWorkNoGroups(groups, work);
      if provider.Err? {
        return Err(provider.error), groups, claimed;
      }
      var result;
      if mode.batched {
        ghost var claims, batches;
        result, claims, claimed, batches :=
          BatchQuery.ExecuteBatchGroups(grouped, provider.value, rt, mode.batchMaxJudgments, mode.limits, mode.cache);
      } else {
        result, claimed := ExecuteGroups(grouped, provider.value, rt, mode.limits, mode.cache);
      }
      if result.Err? {
        return Err(result.error), groups, claimed;
      }
      executed := result.value;
    }
    if mode.batched {
      GatesPassed(kind, p, rows, context, work, groups);
    }
    var served := ResolveRows(kind, p, rows, context, work, groups, executed);
    return Ok(served), groups, claimed;
  }

  lemma ChunkTells(kind: FunctionKind, p: Provider, rows: seq<Row>, byRow: seq<Option<JudgmentResult>>,
                   cells: seq<Cell>, batched: bool)
    requires |byRow| == |cells| == |rows|
    requires forall i :: 0 <= i < |rows| ==> RowOk(rows[i]) && ReadRequest(kind, rows[i]).Ok?
    requires forall i :: 0 <= i < |rows| ==> RowServed(kind, p, rows[i], RowCell(kind, byRow[i]))
    requires batched ==> forall i :: 0 <= i < |rows| ==> RowGate(kind, p, rows[i])
    requires forall i :: 0 <= i < |rows| ==> cells[i] == RowCell(kind, byRow[i])
    ensures ChunkServed(kind, p, rows, cells, batched)
  {
    hide ReadRequest, RowServed, RowOk, RowGate, IsRowModeCell, Enforces, CellTells, RowCell;
    forall i | 0 <= i < |rows|
      ensures IsRowModeCell(kind, p, rows[i], cells[i]) <==> RowGate(kind, p, rows[i])
      ensures Enforces(p) ==> IsRowModeCell(kind, p, rows[i], cells[i])
      ensures CellTells(kind, p, rows[i], cells[i])
    {
      ServedIsRowMode(kind, p, rows[i], cells[i]);
      ServedTells(kind, p, rows[i], cells[i]);
      if Enforces(p) {
        EnforcedIsRowMode(kind, p, rows[i], cells[i]);
      }
    }
  }

  /** Row mode would let this row through the capability checks. */
  predicate RowGate(kind: FunctionKind, p: Provider, row: Row) {
    ReadRequest(kind, row).Ok? && ReadRequest(kind, row).value.Some? ==>
      var q := ReadRequest(kind, row).value.value;
      p.capabilities.Admits(q.kind, q.choices)
  }

  /** Rows with a NULL argument make no work, and only they. */
  lemma SomeWork(kind: FunctionKind, rows: seq<Row>, context: IdentityContext, work: seq<Work>)
    requires WorkFor(kind, rows, context, work, |rows|) && work != []
    ensures exists row :: 0 <= row < |rows| && !HasNull(kind, rows[row])
  {
    hide ReadRequest;
    var row := work[0].target.row;
    ReadRequestExact(kind, rows[row]);
    assert !HasNull(kind, rows[row]);
  }

  lemma GatesPassed(kind: FunctionKind, p: Provider, rows: seq<Row>, context: IdentityContext, work: seq<Work>,
                    groups: seq<Group>)
    requires WorkFor(kind, rows, context, work, |rows|) && StablePartition(groups, work)
    requires BatchQuery.AllCapable(p, groups)
    ensures forall i :: 0 <= i < |rows| ==> RowGate(kind, p, rows[i])
  {
    hide ReadRequest, TargetsFor;
    forall i | 0 <= i < |rows| && ReadRequest(kind, rows[i]).Ok? && ReadRequest(kind, rows[i]).value.Some?
      ensures RowGate(kind, p, rows[i])
    {
      assert HasWork(work, i);
      var w :| 0 <= w < |work| && work[w].target.row == i;
      assert HasGroup(groups, work[w].identity);
      var g :| 0 <= g < |groups| && groups[g].identity == work[w].identity;
      assert GroupMatches(groups[g], work);
      var first := First(work, groups[g].identity);
      assert groups[g].request == work[first].request;
      assert BatchQuery.Capable(p, groups[g]);
    }
  }

  /** A served row carries what row mode gives for it if and only if row mode's capability checks let
      the row through; batched execution makes the same checks, unbatched does not. */
  lemma ServedIsRowMode(kind: FunctionKind, p: Provider, row: Row, cell: Cell)
    requires RowServed(kind, p, row, cell)
    ensures IsRowModeCell(kind, p, row, cell) <==> RowGate(kind, p, row)
  {
    hide ReadRequest, CellOf;
    if ReadRequest(kind, row) == Ok(None) {
      assert RowModeGives(kind, p, row, None);
    } else {
      var v :| RowAnswered(kind, p, row, v) && cell == CellOf(kind, v);
      var q := ReadRequest(kind, row).value.value;
      var model :| p.mayServe(p.model, model) && p.says(p.credentialScope, model, q) == Ok(v);
      ValidateResultExact(q.kind, q.choices, v);
      if RowGate(kind, p, row) {
        assert RowAnswer(kind, p, model, row) == Ok(Some(v));
        assert RowModeGives(kind, p, row, Some(v));
      }
    }
  }

  /** Row mode's cells are served ones, of rows that pass the checks. */
  lemma RowModeIsServed(kind: FunctionKind, p: Provider, row: Row, cell: Cell)
    requires IsRowModeCell(kind, p, row, cell)
    ensures RowServed(kind, p, row, cell) && RowGate(kind, p, row)
  {
    hide ReadRequest, CellOf;
    var r :| RowModeGives(kind, p, row, r) && cell == RowCell(kind, r);
    if ReadRequest(kind, row) != Ok(None) {
      var model :| p.mayServe(p.model, model) && RowAnswer(kind, p, model, row) == Ok(r);
      var q := ReadRequest(kind, row).value.value;
      ValidateResultExact(q.kind, q.choices, r.value);
      assert RowAnswered(kind, p, row, r.value);
    }
  }

  /** What a served cell shows, in terms of the row's arguments and of what the models say; and every
      cell that shows this is a served one. */
  lemma ServedTells(kind: FunctionKind, p: Provider, row: Row, cell: Cell)
    requires RowOk(row) && ReadRequest(kind, row).Ok?
    ensures RowServed(kind, p, row, cell) <==> CellTells(kind, p, row, cell)
  {
    ReadRequestExact(kind, row);
    hide ReadRequest, Answered, AsksRow, CellSays, Canonical.IsEncoded, CellOf, RowOk;
    if !HasNull(kind, row) {
      var q := ReadRequest(kind, row).value.value;
      ReadRequestsAreWellMade(kind, row);
      assert AsksRow(kind, row, q);
      AskedKind(kind, row, q);
      CellShows(kind, p, q, cell);
      if RowServed(kind, p, row, cell) {
        var v :| RowAnswered(kind, p, row, v) && cell == CellOf(kind, v);
        assert CellSays(kind, p, q, cell);
      }
      if CellTells(kind, p, row, cell) {
        var r :| AsksRow(kind, row, r) && Canonical.IsEncoded(r.state) && CellSays(kind, p, r, cell);
        AskedOnce(kind, row, q, r);
        var v :| Answered(p, q, v) && cell == CellOf(kind, v);
        assert RowAnswered(kind, p, row, v);
      }
    }
  }

  lemma AskedKind(kind: FunctionKind, row: Row, q: JudgmentRequest)
    requires AsksRow(kind, row, q)
    ensures q.kind == (if kind.ChoiceOf? then Choice else Noul)
  {
  }

  /** The provider enforces the capabilities it declares: what they exclude is not answered. */
  ghost predicate Enforces(p: Provider) {
    forall model, q: JudgmentRequest ::
      !p.capabilities.Admits(q.kind, q.choices) ==> p.says(p.credentialScope, model, q).Err?
  }

  /** For a provider that enforces its declared capabilities, optimized mode refines row mode on every
      row, whether or not the executor makes the checks. */
  lemma EnforcedIsRowMode(kind: FunctionKind, p: Provider, row: Row, cell: Cell)
    requires RowServed(kind, p, row, cell) && Enforces(p)
    ensures RowGate(kind, p, row) && IsRowModeCell(kind, p, row, cell)
  {
    hide ReadRequest, CellOf;
    ServedIsRowMode(kind, p, row, cell);
    if ReadRequest(kind, row) != Ok(None) {
      var v :| RowAnswered(kind, p, row, v) && cell == CellOf(kind, v);
      var q := ReadRequest(kind, row).value.value;
      var model :| p.mayServe(p.model, model) && p.says(p.credentialScope, model, q) == Ok(v);
    }
  }

  /** When one model serves every call, row mode's cell is one and the same every time. */
  lemma OneModelOneCell(kind: FunctionKind, p: Provider, row: Row, cell: Cell, model: string)
    requires forall m :: p.mayServe(p.model, m) <==> m == model
    ensures IsRowModeCell(kind, p, row, cell)
       <==> RowAnswer(kind, p, model, row).Ok? && cell == RowCell(kind, RowAnswer(kind, p, model, row).value)
  {
    hide ReadRequest, CellOf;
    var answer := RowAnswer(kind, p, model, row);
    assert ReadRequest(kind, row) == Ok(None) ==> answer == Ok(None);
    if answer.Ok? && cell == RowCell(kind, answer.value) {
      assert RowModeGives(kind, p, row, answer.value);
    }
  }

  /** The provider answers every call for this one request. */
  ghost predicate AlwaysAnswers(p: Provider, q: JudgmentRequest) {
    forall n: nat :: p.respond(n, [q]).Ok? && AnswersBatch([q], p.respond(n, [q]).value.answers)
  }

  lemma NothingFails(kind: FunctionKind, p: Provider, row: Row, context: IdentityContext, q: JudgmentRequest,
                     groups: seq<Group>, limits: Limits, claimed: set<Identity>, s: Snapshot, t: Snapshot)
    requires ReadRequest(kind, row) == Ok(Some(q)) && AlwaysAnswers(p, q)
    requires limits.maxInflight > 0 && 0 < limits.maxRequestBytes && p.estimate([q]) <= limits.maxRequestBytes
    requires s == Snapshot(map[], [], 0, true, [], {}, [], [], []) && Moves(s, t, claimed, {})
    requires GroupsOfRows(kind, [row], context, groups) && SingleCalls(p, limits.maxRequestBytes, groups, [], t.calls)
    ensures !GroupFault(p, groups, limits, None, claimed, t)
  {
    hide ReadRequest, IdentityOf, AnswersBatch;
    forall g | 0 <= g < |groups|
      ensures groups[g].request == q
    {
      assert GroupOfRow(kind, [row], context, groups[g]);
    }
    assert t.calls != [] ==> t.calls[|t.calls| - 1] == [q];
  }

  /** Where they differ: a row whose request fails the capability check, of a provider that answers it
      all the same. Unbatched optimized mode writes the answer, row mode refuses the row. */
  method UncheckedRowIsServed(kind: FunctionKind, p: Provider, row: Row, context: IdentityContext, limits: Limits)
    returns (served: Option<JudgmentError>, refused: Option<JudgmentError>, cell: Cell)
    requires Honest(p) && RowOk(row) && ContextOf(p, context)
    requires ReadRequest(kind, row).Ok? && ReadRequest(kind, row).value.Some? && !RowGate(kind, p, row)
    requires AlwaysAnswers(p, ReadRequest(kind, row).value.value)
    requires limits.maxInflight > 0 && 0 < limits.maxRequestBytes
    requires p.estimate([ReadRequest(kind, row).value.value]) <= limits.maxRequestBytes
    ensures served.None? && refused.Some?
    ensures exists v :: RowAnswered(kind, p, row, v) && cell == CellOf(kind, v)
  {
    hide ReadRequest, AlwaysAnswers, Honest, RowOk, ContextOf, Moves, GroupFault, Inv, RowAnswered, SingleCalls,
         GroupsOfRows, IsRowModeCell;
    var rt := new Runtime.Alone();
    FreshInv(p, rt.Now());
    ghost var start := rt.Now();
    var output := new Cell[1](_ => Untouched);
    var rows := [row];
    ghost var groups, claimed;
    served, groups, claimed :=
      RunOptimized(kind, rows, Ok(context), Ok(p), p, rt, Mode(false, 0, limits, None), 0, 0, output);
    NothingFails(kind, p, row, context, ReadRequest(kind, row).value.value, groups, limits, claimed, start, rt.Now());
    assert output[..][0] == output[0] && CellTells(kind, p, rows[0], output[0]);
    ServedTells(kind, p, row, output[0]);
    cell := output[0];
    var written;
    var scopes := new Host.ScopeCounter();
    var connection := new Host.ConnectionRuntime(scopes);
    refused, written := RunRows(kind, Ok(p), p, _ => Ok(()), rows, connection, 0, output);
    assert !RowSucceeds(kind, Ok(p), _ => Ok(()), rows[0], 0);
  }

  lemma FreshInv(p: Provider, s: Snapshot)
    requires s == Snapshot(map[], [], 0, true, [], {}, [], [], [])
    ensures Inv(p, s)
  {
  }

  // ---- An input on which they differ

  const QUARTER := NoulResult(Finite(0.25))

  function QuarterAnswers(requests: seq<JudgmentRequest>): (answers: seq<Answer>)
    ensures |answers| == |requests|
    ensures forall i :: 0 <= i < |requests| ==> answers[i] == Answer(requests[i].requestKey, QUARTER)
  {
    seq(|requests|, i requires 0 <= i < |requests| => Answer(requests[i].requestKey, QUARTER))
  }

  /** A service that answers every question with one quarter but does not claim to support
      probabilities. */
  function Unverified(): Provider {
    Provider("", "", "", 1,
             Capabilities(CapabilityStatus.Unsupported, Verified, CapabilityStatus.Unsupported, None, None),
             (scope, model, q) => Ok(QUARTER), (asked, model) => asked == model,
             (n: nat, requests) => Ok(BatchResult(QuarterAnswers(requests), None, None)),
             requests => 0, asked => None)
  }

  function SampleRow(): Row { Row(Some(TextInput("late")), Some("refund"), None) }

  lemma SampleRowReads()
    ensures ReadRequest(Prob, SampleRow())
         == Ok(Some(JudgmentRequest(Noul, Canonical.EncodeText("late"), Some("refund"), None, [], DEFAULT_REQUEST_KEY)))
  {
    hide Canonical.EncodeText;
    assert "refund"[0] == 'r' && 'r' in "refund" && !IsWhitespace('r');
  }

  lemma UnverifiedIsHonest(q: JudgmentRequest)
    requires q.kind == Noul
    ensures Honest(Unverified()) && AlwaysAnswers(Unverified(), q)
  {
    var p := Unverified();
    forall n: nat, requests | p.respond(n, requests).Ok?
      ensures Faithful(p, requests, p.respond(n, requests).value)
    {
      assert ServedBy(p, "", None);
      assert SaidBy(p, "", requests, p.respond(n, requests).value.answers);
    }
    forall n: nat
      ensures AnswersBatch([q], p.respond(n, [q]).value.answers)
    {
      assert RequestKeys([q]) == [q.requestKey] == AnswerKeys(QuarterAnswers([q]));
    }
  }

  /** The case is real: with this service and row, unbatched optimized mode returns one quarter and row
      mode an error. */
  method UnverifiedKindDiverges() returns (served: Option<JudgmentError>, refused: Option<JudgmentError>, cell: Cell)
    ensures served.None? && refused.Some? && cell == Number(Finite(0.25))
  {
    var p, row := Unverified(), SampleRow();
    SampleRowReads();
    hide ReadRequest, Canonical.EncodeText, SampleRow, Honest;
    UnverifiedIsHonest(ReadRequest(Prob, row).value.value);
    SampleRowOk();
    served, refused, cell := UncheckedRowIsServed(Prob, p, row, IdentityContext("", "", "", None, 1, 0), Limits(1, 1));
  }

  lemma SampleRowOk()
    ensures RowOk(SampleRow())
  {
  }
}
