/** The concurrent query protocol as a step relation: any number of workers, each at some point of
    its executor, take critical sections in any order, between queries beginning and ending. */
module Protocol {
  import opened Text
  import opened Judgment
  import opened Host
  import ProviderProtocol

  /** What became of the judgment behind an entry. */
  datatype Fate = Led | FromCache | SentExternal | SentLocal

  /** What is known of a query entry besides its outcome. */
  datatype Meta = Meta(query: nat, id: Identity, owner: nat, fate: Fate)

  /** Where a worker stands. `batch` is the set of led entries one provider call is for. */
  datatype Pc =
    | Arriving
    | Recording
    | Claiming
    | Claimed(entry: nat, leads: bool)
    | Looking(entry: nat)
    | HitRecorded(entry: nat, value: JudgmentResult)
    | Planning
    | Acquiring(batch: set<nat>)
    | Granted(batch: set<nat>)
    | Calling(batch: set<nat>)
    | Returned(batch: set<nat>, answers: Option<map<nat, JudgmentResult>>, received: bool)
    | Failing(batch: set<nat>, received: bool)
    | FailingUsage(batch: set<nat>)
    | Settling(outcomes: map<nat, Outcome>, fatal: bool)
    | Waiting(entry: nat)
    | Done(ok: bool)

  /** One execution of a chunk of `rows` rows. `next` counts the groups claimed, `todo` the led entries not yet
      dispatched, `waits` the followed ones; `got` are the outcomes its waits returned. `abandoned`
      are led entries it left without an outcome, `early` tells that a capability check was why. */
  datatype Worker = Worker(
    scope: nat,
    groups: seq<Identity>,
    rows: nat,
    validRows: nat,
    batched: bool,
    caps: ProviderProtocol.Capabilities,
    policyOk: bool,
    limit: nat,
    external: bool,
    next: nat,
    todo: set<nat>,
    waits: seq<nat>,
    got: map<nat, Outcome>,
    abandoned: set<nat>,
    early: bool,
    pc: Pc)

  datatype World = World(
    h: State,
    meta: seq<Meta>,
    pool: Pool,
    workers: seq<Worker>,
    calls: seq<set<nat>>)

  const START := World(INITIAL, [], Pool(0, 0), [], [])

  /** What a step leaves open: the rows, the cache's answer, the planner's next batch, the service. */
  datatype Choice =
    | Plain
    | BadRow
    | Refused
    | GateFails
    | Finds(value: JudgmentResult)
    | Sends(batch: set<nat>)
    | TooLarge
    | Replies(answers: map<nat, JudgmentResult>, usage: Option<ProviderProtocol.Usage>)
    | RepliesBadly(reported: Option<ProviderProtocol.Usage>)
    | CallFails
    | Completes(entry: nat)

  function Put(W: World, i: nat, w: Worker): World
    requires i < |W.workers|
  {
    W.(workers := W.workers[i := w])
  }

  const ERROR: Outcome := Err(JudgmentError(ProviderFailure, "judgment failed"))

  function AllFail(entries: set<nat>): map<nat, Outcome> {
    map e | e in entries :: ERROR
  }

  function AllAnswered(answers: map<nat, JudgmentResult>): map<nat, Outcome> {
    map e | e in answers :: Ok(answers[e])
  }

  /** After a claim: a batched worker claims all its groups first, an unbatched one settles each. */
  function Resume(w: Worker): Pc {
    if w.batched && w.next < |w.groups| then Claiming else Planning
  }

  /** Leaving through an error return that completes nothing. */
  function Leave(w: Worker, held: set<nat>, early: bool): Worker {
    w.(abandoned := w.abandoned + held, todo := {}, early := early, pc := Done(false))
  }

  /** Failing every entry of the batch and every other led entry not yet dispatched. */
  function FailAll(w: Worker, batch: set<nat>): Worker {
    w.(todo := {}, pc := Settling(AllFail(batch + w.todo), true))
  }

  function WithFate(meta: seq<Meta>, entries: set<nat>, fate: Fate): (r: seq<Meta>)
    ensures |r| == |meta|
    ensures forall e :: 0 <= e < |meta| ==> r[e] == if e in entries then meta[e].(fate := fate) else meta[e]
  {
    seq(|meta|, e requires 0 <= e < |meta| => if e in entries then meta[e].(fate := fate) else meta[e])
  }

  // ---- The steps

  /** The chunk's rows are counted before any is read. */
  function StepArriving(W: World, i: nat): World
    requires i < |W.workers|
  {
    var w := W.workers[i];
    Put(W.(h := Record(W.h, w.scope, OptimizedRows(Now(W.h), w.rows, 0, 0, 0))), i, w.(pc := Recording))
  }

  /** A row that cannot be read ends the execution; otherwise the rows are grouped and counted. Then
      the provider or the executor's settings may turn out unusable. */
  function StepRecording(W: World, i: nat, choice: Choice): World
    requires i < |W.workers|
  {
    var w := W.workers[i];
    if choice.BadRow? then Put(W, i, w.(groups := [], pc := Done(false)))
    else
      var nulls := SaturatingSub(w.rows, w.validRows);
      Put(W.(h := Record(W.h, w.scope, OptimizedRows(Now(W.h), 0, nulls, w.validRows, |w.groups|))), i,
          w.(pc := if choice.Refused? then Done(false) else if w.next < |w.groups| then Claiming else Planning))
  }

  function StepClaiming(W: World, i: nat): World
    requires i < |W.workers| && W.workers[i].next < |W.workers[i].groups|
  {
    var w := W.workers[i];
    var id := w.groups[w.next];
    match ClaimResult(W.h, w.scope, id)
    case NotActive => Put(W, i, Leave(w, w.todo, w.early))
    case Follows(e) =>
      Put(W.(h := AfterClaim(W.h, w.scope, id)), i, w.(next := w.next + 1, pc := Claimed(e, false)))
    case Leads(e) =>
      Put(W.(h := AfterClaim(W.h, w.scope, id), meta := W.meta + [Meta(w.scope, id, i, Led)]), i,
          w.(next := w.next + 1, pc := Claimed(e, true)))
  }

  /** A failed capability check returns at once. */
  function StepGate(W: World, i: nat): World
    requires i < |W.workers|
  {
    var w := W.workers[i];
    Put(W, i, Leave(w, w.todo, true))
  }

  function StepClaimed(W: World, i: nat): World
    requires i < |W.workers| && W.workers[i].pc.Claimed?
  {
    var w := W.workers[i];
    var e := w.pc.entry;
    if !IsActive(W.h, w.scope) then Put(W, i, Leave(w, w.todo + (if w.pc.leads then {e} else {}), w.early))
    else if w.pc.leads then Put(W, i, w.(pc := Looking(e)))
    else Put(W, i, w.(waits := w.waits + [e], pc := Resume(w)))
  }

  function StepLooking(W: World, i: nat, choice: Choice): World
    requires i < |W.workers| && W.workers[i].pc.Looking?
  {
    var w := W.workers[i];
    var e := w.pc.entry;
    if !w.policyOk then Put(W, i, w.(pc := Settling(AllFail({e}), true)))
    else if choice.Finds? then
      Put(W.(h := Record(W.h, w.scope, CacheHit(Now(W.h))), meta := WithFate(W.meta, {e}, FromCache)), i,
          w.(pc := HitRecorded(e, choice.value)))
    else Put(W, i, w.(todo := w.todo + {e}, pc := Resume(w)))
  }

  function StepHit(W: World, i: nat): World
    requires i < |W.workers| && W.workers[i].pc.HitRecorded?
  {
    var w := W.workers[i];
    Put(W.(h := Complete(W.h, w.pc.entry, Ok(w.pc.value))), i, w.(pc := Resume(w)))
  }

  function StepPlanning(W: World, i: nat, choice: Choice): World
    requires i < |W.workers| && W.workers[i].pc.Planning?
    requires W.workers[i].todo != {} ==> choice.TooLarge? || choice.Sends?
  {
    var w := W.workers[i];
    if w.todo != {} then
      if choice.Sends? then Put(W, i, w.(todo := w.todo - choice.batch, pc := Acquiring(choice.batch)))
      else Put(W, i, FailAll(w, {}))
    else if w.waits != [] then Put(W, i, w.(waits := w.waits[1..], pc := Waiting(w.waits[0])))
    else if w.next < |w.groups| then Put(W, i, w.(pc := Claiming))
    else Put(W, i, w.(pc := Done(true)))
  }

  function StepAcquiring(W: World, i: nat): World
    requires i < |W.workers| && W.workers[i].pc.Acquiring?
  {
    var w := W.workers[i];
    if w.limit == 0 || w.scope in W.h.cancelled then Put(W, i, FailAll(w, w.pc.batch))
    else Put(W.(pool := Acquire(W.pool)), i, w.(pc := Granted(w.pc.batch)))
  }

  function StepGranted(W: World, i: nat): World
    requires i < |W.workers| && W.workers[i].pc.Granted?
  {
    var w := W.workers[i];
    var b := w.pc.batch;
    Put(W.(h := Record(W.h, w.scope, Attempt(Now(W.h), |b|, w.external)),
           meta := WithFate(W.meta, b, if w.external then SentExternal else SentLocal),
           calls := W.calls + [b]), i,
        w.(pc := Calling(b)))
  }

  function StepCalling(W: World, i: nat, choice: Choice): World
    requires i < |W.workers| && W.workers[i].pc.Calling?
    requires choice.Replies? || choice.RepliesBadly? || choice.CallFails?
  {
    var w := W.workers[i];
    var b := w.pc.batch;
    match choice
    case Replies(answers, usage) =>
      Put(W.(h := Record(W.h, w.scope, Response(Now(W.h), usage, w.external))), i,
          w.(pc := Returned(b, Some(answers), true)))
    case RepliesBadly(usage) =>
      Put(W.(h := Record(W.h, w.scope, Response(Now(W.h), usage, w.external))), i, w.(pc := Returned(b, None, true)))
    case CallFails => Put(W, i, w.(pc := Returned(b, None, false)))
  }

  /** The permit is dropped when the attempt's closure returns. */
  function StepReturned(W: World, i: nat): World
    requires i < |W.workers| && W.workers[i].pc.Returned?
  {
    var w := W.workers[i];
    var W' := W.(pool := Release(W.pool));
    if w.pc.answers.Some? then Put(W', i, w.(pc := Settling(AllAnswered(w.pc.answers.value), false)))
    else if w.external then Put(W', i, w.(pc := Failing(w.pc.batch, w.pc.received)))
    else Put(W', i, FailAll(w, w.pc.batch))
  }

  function StepFailing(W: World, i: nat): World
    requires i < |W.workers| && W.workers[i].pc.Failing?
  {
    var w := W.workers[i];
    var W' := W.(h := Record(W.h, w.scope, FailedRequest(Now(W.h))));
    if w.pc.received then Put(W', i, FailAll(w, w.pc.batch)) else Put(W', i, w.(pc := FailingUsage(w.pc.batch)))
  }

  function StepFailingUsage(W: World, i: nat): World
    requires i < |W.workers| && W.workers[i].pc.FailingUsage?
  {
    var w := W.workers[i];
    Put(W.(h := Record(W.h, w.scope, Failure(Now(W.h), w.external))), i, FailAll(w, w.pc.batch))
  }

  function StepSettling(W: World, i: nat, choice: Choice): World
    requires i < |W.workers| && W.workers[i].pc.Settling?
    requires W.workers[i].pc.outcomes != map[] ==> choice.Completes? && choice.entry in W.workers[i].pc.outcomes
  {
    var w := W.workers[i];
    var outcomes := w.pc.outcomes;
    if outcomes == map[] then Put(W, i, w.(pc := if w.pc.fatal then Done(false) else Planning))
    else
      var e := choice.entry;
      Put(W.(h := Complete(W.h, e, outcomes[e])), i, w.(pc := Settling(outcomes - {e}, w.pc.fatal)))
  }

  /** A wait returns the entry's outcome, or the cancellation error when the query is over. */
  function StepWaiting(W: World, i: nat): World
    requires i < |W.workers| && W.workers[i].pc.Waiting? && W.workers[i].pc.entry < |W.h.cells|
  {
    var w := W.workers[i];
    var e := w.pc.entry;
    match W.h.cells[e]
    case None => Put(W, i, w.(pc := Done(false)))
    case Some(outcome) =>
      Put(W, i, w.(got := w.got[e := outcome], pc := if outcome.Ok? then Planning else Done(false)))
  }

  /** Whether worker `i` can take its next step now; calls return, so only permits and entries can
      make it wait. */
  predicate Ready(W: World, i: nat)
    requires i < |W.workers|
  {
    var w := W.workers[i];
    match w.pc
    case Done(_) => false
    case Acquiring(_) => w.limit == 0 || w.scope in W.h.cancelled || W.pool.active < w.limit
    case Waiting(e) => e < |W.h.cells| && (W.h.cells[e].Some? || w.scope in W.h.cancelled)
    case _ => true
  }

  /** Batched execution needs verified multi-state support before it claims anything. */
  predicate MayClaim(batched: bool, caps: ProviderProtocol.Capabilities) {
    batched ==> caps.multiStateBatch == ProviderProtocol.Verified
  }

  /** The capability check that batched execution makes on a group before claiming it. */
  predicate Admitted(caps: ProviderProtocol.Capabilities, id: Identity) {
    caps.Admits(id.questionKind, id.choices)
  }

  /** The choices open to worker `i`. */
  predicate Allowed(W: World, i: nat, choice: Choice)
    requires i < |W.workers|
  {
    var w := W.workers[i];
    && Ready(W, i)
    && match w.pc
       case Recording =>
         || choice.BadRow? || (choice.Refused? && w.groups != [])
         || (choice.Plain? && (w.groups == [] || MayClaim(w.batched, w.caps)))
       case Claiming =>
         && w.next < |w.groups|
         && (if w.batched && !Admitted(w.caps, w.groups[w.next]) then choice.GateFails? else choice.Plain?)
       case Looking(_) => choice.Plain? || choice.Finds?
       case Planning =>
         if w.todo == {} then choice.Plain?
         else choice.TooLarge? || (choice.Sends? && choice.batch != {} && choice.batch <= w.todo)
       case Calling(b) =>
         (choice.Replies? && choice.answers.Keys == b) || choice.RepliesBadly? || choice.CallFails?
       case Settling(outcomes, _) =>
         if outcomes == map[] then choice.Plain? else choice.Completes? && choice.entry in outcomes
       case _ => choice.Plain?
  }

  function WorkerStep(W: World, i: nat, choice: Choice): World
    requires i < |W.workers| && Allowed(W, i, choice)
  {
    match W.workers[i].pc
    case Arriving => StepArriving(W, i)
    case Recording => StepRecording(W, i, choice)
    case Claiming => if choice.GateFails? then StepGate(W, i) else StepClaiming(W, i)
    case Claimed(_, _) => StepClaimed(W, i)
    case Looking(_) => StepLooking(W, i, choice)
    case HitRecorded(_, _) => StepHit(W, i)
    case Planning => StepPlanning(W, i, choice)
    case Acquiring(_) => StepAcquiring(W, i)
    case Granted(_) => StepGranted(W, i)
    case Calling(_) => StepCalling(W, i, choice)
    case Returned(_, _, _) => StepReturned(W, i)
    case Failing(_, _) => StepFailing(W, i)
    case FailingUsage(_) => StepFailingUsage(W, i)
    case Settling(_, _) => StepSettling(W, i, choice)
    case Waiting(_) => StepWaiting(W, i)
  }

  datatype Action =
    | BeginQuery
    | EndQuery(outcome: QueryOutcome)
    | Spawn(worker: Worker)
    | Work(i: nat, choice: Choice)

  /** The groups of a chunk stand for different judgments; a yes/no question has no labels. */
  predicate Grouped(groups: seq<Identity>) {
    && (forall i, j :: 0 <= i < j < |groups| ==> groups[i] != groups[j])
    && forall i :: 0 <= i < |groups| && groups[i].questionKind == Noul ==> groups[i].choices == []
  }

  /** An execution that has taken no step yet. */
  predicate Unstarted(w: Worker) {
    && w.next == 0 && w.todo == {} && w.waits == [] && w.got == map[] && w.abandoned == {} && !w.early
    && w.pc.Arriving? && Grouped(w.groups) && |w.groups| <= w.validRows <= w.rows
  }

  /** A new execution has captured the active query's scope. */
  predicate Newcomer(W: World, w: Worker) {
    IsActive(W.h, w.scope) && Unstarted(w)
  }

  predicate Possible(W: World, a: Action) {
    match a
    case BeginQuery => true
    case EndQuery(_) => true
    case Spawn(w) => Newcomer(W, w)
    case Work(i, choice) => i < |W.workers| && Allowed(W, i, choice)
  }

  function Step(W: World, a: Action): World
    requires Possible(W, a)
  {
    match a
    case BeginQuery => W.(h := Begin(W.h))
    case EndQuery(outcome) => W.(h := End(W.h, outcome))
    case Spawn(w) => W.(workers := W.workers + [w])
    case Work(i, choice) => WorkerStep(W, i, choice)
  }

  /** The world after a run of actions from the start, if each was possible in its turn. */
  function Exec(actions: seq<Action>): Option<World> {
    if actions == [] then Some(START)
    else
      var W :- Exec(actions[..|actions| - 1]);
      if Possible(W, actions[|actions| - 1]) then Some(Step(W, actions[|actions| - 1])) else None
  }
}
