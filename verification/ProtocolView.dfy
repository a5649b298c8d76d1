/** The protocol as one worker sees it. What the other workers and the host do between two steps of
    a worker is a script of the kind the executors are proved against, as long as the cache and the
    service give valid answers; of the cache this is proved in `ProtocolCache`. */
module ProtocolView {
  import opened Text
  import opened Judgment
  import opened Host
  import opened Protocol
  import opened ProtocolInv
  import opened ProtocolSteps
  import WorkerRuntime

  // ---- Valid values only

  ghost predicate Valid(p: WorkerRuntime.Provider, id: Identity, v: JudgmentResult) {
    WorkerRuntime.SameService(p, id) ==> WorkerRuntime.Answers(p, id, v)
  }

  ghost predicate ValidOutcome(p: WorkerRuntime.Provider, meta: seq<Meta>, e: nat, outcome: Outcome) {
    e < |meta| && (outcome.Ok? ==> Valid(p, meta[e].id, outcome.value))
  }

  /** The values a worker carries from the cache or the service to its entries. */
  ghost predicate CarriesValid(p: WorkerRuntime.Provider, meta: seq<Meta>, pc: Pc) {
    match pc
    case HitRecorded(e, v) => ValidOutcome(p, meta, e, Ok(v))
    case Returned(_, answers, _) =>
      answers.Some? ==> forall e :: e in answers.value ==> ValidOutcome(p, meta, e, Ok(answers.value[e]))
    case Settling(outcomes, _) => forall e :: e in outcomes ==> ValidOutcome(p, meta, e, outcomes[e])
    case _ => true
  }

  ghost predicate CellsValid(p: WorkerRuntime.Provider, W: World) {
    && |W.h.cells| == |W.meta|
    && forall e :: 0 <= e < |W.meta| && W.h.cells[e].Some? ==> ValidOutcome(p, W.meta, e, W.h.cells[e].value)
  }

  ghost predicate AllValid(p: WorkerRuntime.Provider, W: World) {
    && CellsValid(p, W)
    && forall j :: 0 <= j < |W.workers| ==> CarriesValid(p, W.meta, W.workers[j].pc)
  }

  /** The cache finds, and the service replies with, valid answers to the judgments asked. */
  ghost predicate Truthful(p: WorkerRuntime.Provider, W: World, a: Action) {
    a.Work? && a.i < |W.workers| ==>
      match W.workers[a.i].pc
      case Looking(e) => a.choice.Finds? && e < |W.meta| ==> Valid(p, W.meta[e].id, a.choice.value)
      case Calling(_) =>
        a.choice.Replies? ==>
          forall e :: e in a.choice.answers && e < |W.meta| ==> Valid(p, W.meta[e].id, a.choice.answers[e])
      case _ => true
  }

  lemma CarriesStays(p: WorkerRuntime.Provider, meta: seq<Meta>, meta': seq<Meta>, pc: Pc)
    requires CarriesValid(p, meta, pc) && SameJudgments(meta, meta')
    ensures CarriesValid(p, meta', pc)
  {
    hide Valid;
  }

  /** What a step of worker `i` does to entries and to the others. */
  ghost predicate HasEffect(W: World, i: nat, effect: Effect, W': World)
    requires i < |W.workers|
  {
    && |W'.workers| == |W.workers| && W'.workers == W.workers[i := W'.workers[i]]
    && W'.workers[i].scope == W.workers[i].scope
    && SameQueries(W.h, W'.h, W.workers[i].scope)
    && EntriesMove(W, i, effect, W')
  }

  lemma StepEffect(W: World, i: nat, choice: Choice)
    requires i < |W.workers| && Allowed(W, i, choice)
    ensures HasEffect(W, i, EffectOf(W, i, choice), WorkerStep(W, i, choice))
  {
    StepIsShaped(W, i, choice);
    hide WorkerStep, Allowed, EffectOf, EntriesMove, SameQueries, PoolMoves;
  }

  /** The values a worker carries after its own step: what it was given, or what it carried before. */
  lemma CarriesGiven(p: WorkerRuntime.Provider, W: World, i: nat, choice: Choice)
    requires Inv(W) && i < |W.workers| && Allowed(W, i, choice) && Truthful(p, W, Work(i, choice))
    requires W.workers[i].pc.Looking? || W.workers[i].pc.Calling?
    ensures CarriesValid(p, W.meta, WorkerStep(W, i, choice).workers[i].pc)
  {
    hide HostOk, OneEntry, OwnersOk, Valid, Record, CacheHit, Response, WithFate, IsActive;
    var w := W.workers[i];
    OwedFacts(W.h, W.meta, w, i);
    OwedParts(w);
    hide WorkersOk;
  }

  lemma CarriesOn(p: WorkerRuntime.Provider, W: World, i: nat, choice: Choice)
    requires Inv(W) && i < |W.workers| && Allowed(W, i, choice) && CarriesValid(p, W.meta, W.workers[i].pc)
    requires var pc := W.workers[i].pc; pc.Returned? || pc.HitRecorded? || pc.Settling?
    ensures CarriesValid(p, W.meta, WorkerStep(W, i, choice).workers[i].pc)
  {
    hide HostOk, OneEntry, OwnersOk, Valid, Complete, Release;
    var w := W.workers[i];
    OwedFacts(W.h, W.meta, w, i);
    OwedParts(w);
    hide WorkersOk;
  }

  lemma PlanningCarries(p: WorkerRuntime.Provider, W: World, i: nat, choice: Choice)
    requires Inv(W) && i < |W.workers| && W.workers[i].pc.Planning? && Allowed(W, i, choice)
    ensures CarriesValid(p, W.meta, StepPlanning(W, i, choice).workers[i].pc)
  {
    hide HostOk, OneEntry, OwnersOk, Valid, Resume;
    OwedFacts(W.h, W.meta, W.workers[i], i);
    OwedParts(W.workers[i]);
    hide WorkersOk;
  }

  lemma AcquiringCarries(p: WorkerRuntime.Provider, W: World, i: nat)
    requires Inv(W) && i < |W.workers| && W.workers[i].pc.Acquiring?
    ensures CarriesValid(p, W.meta, StepAcquiring(W, i).workers[i].pc)
  {
    hide HostOk, OneEntry, OwnersOk, Valid, Acquire;
    OwedFacts(W.h, W.meta, W.workers[i], i);
    OwedParts(W.workers[i]);
    hide WorkersOk;
  }

  lemma FailingCarries(p: WorkerRuntime.Provider, W: World, i: nat)
    requires Inv(W) && i < |W.workers| && W.workers[i].pc.Failing?
    ensures CarriesValid(p, W.meta, StepFailing(W, i).workers[i].pc)
  {
    hide HostOk, OneEntry, OwnersOk, Valid, Record, FailedRequest;
    OwedFacts(W.h, W.meta, W.workers[i], i);
    OwedParts(W.workers[i]);
    hide WorkersOk;
  }

  lemma FailingUsageCarries(p: WorkerRuntime.Provider, W: World, i: nat)
    requires Inv(W) && i < |W.workers| && W.workers[i].pc.FailingUsage?
    ensures CarriesValid(p, W.meta, StepFailingUsage(W, i).workers[i].pc)
  {
    hide HostOk, OneEntry, OwnersOk, Valid, Record, Failure;
    OwedFacts(W.h, W.meta, W.workers[i], i);
    OwedParts(W.workers[i]);
    hide WorkersOk;
  }

  /** Steps after which the worker carries no value. */
  lemma CarriesNothing(p: WorkerRuntime.Provider, W: World, i: nat, choice: Choice)
    requires i < |W.workers|
    ensures W.workers[i].pc.Arriving? ==> CarriesValid(p, W.meta, StepArriving(W, i).workers[i].pc)
    ensures W.workers[i].pc.Recording? ==> CarriesValid(p, W.meta, StepRecording(W, i, choice).workers[i].pc)
    ensures W.workers[i].pc.Granted? ==> CarriesValid(p, W.meta, StepGranted(W, i).workers[i].pc)
  {
    hide Record, OptimizedRows, Attempt, WithFate, ValidOutcome;
  }

  lemma FollowingCarries(p: WorkerRuntime.Provider, W: World, i: nat)
    requires i < |W.workers|
    ensures W.workers[i].pc.Claimed? ==> CarriesValid(p, W.meta, StepClaimed(W, i).workers[i].pc)
    ensures W.workers[i].pc.Waiting? && Ready(W, i) ==> CarriesValid(p, W.meta, StepWaiting(W, i).workers[i].pc)
  {
    hide IsActive, ValidOutcome;
  }

  lemma ClaimingCarries(p: WorkerRuntime.Provider, W: World, i: nat)
    requires i < |W.workers| && W.workers[i].pc.Claiming? && W.workers[i].next < |W.workers[i].groups|
    ensures CarriesValid(p, W.meta, StepClaiming(W, i).workers[i].pc)
    ensures CarriesValid(p, W.meta, StepGate(W, i).workers[i].pc)
  {
    hide AfterClaim, ClaimResult, ValidOutcome;
  }

  lemma CarriesNext(p: WorkerRuntime.Provider, W: World, i: nat, choice: Choice)
    requires Inv(W) && AllValid(p, W) && i < |W.workers| && Allowed(W, i, choice) && Truthful(p, W, Work(i, choice))
    ensures CarriesValid(p, W.meta, WorkerStep(W, i, choice).workers[i].pc)
  {
    assert CarriesValid(p, W.meta, W.workers[i].pc);
    hide Inv, AllValid, Truthful, CarriesValid, StepArriving, StepRecording, StepClaiming, StepGate, StepClaimed,
         StepLooking, StepHit, StepPlanning, StepAcquiring, StepGranted, StepCalling, StepReturned, StepFailing,
         StepFailingUsage, StepSettling, StepWaiting;
    match W.workers[i].pc
    case Looking(_) => CarriesGiven(p, W, i, choice);
    case Calling(_) => CarriesGiven(p, W, i, choice);
    case HitRecorded(_, _) => CarriesOn(p, W, i, choice);
    case Returned(_, _, _) => CarriesOn(p, W, i, choice);
    case Settling(_, _) => CarriesOn(p, W, i, choice);
    case Planning => PlanningCarries(p, W, i, choice);
    case Acquiring(_) => AcquiringCarries(p, W, i);
    case Failing(_, _) => FailingCarries(p, W, i);
    case FailingUsage(_) => FailingUsageCarries(p, W, i);
    case Claiming => ClaimingCarries(p, W, i);
    case Claimed(_, _) => FollowingCarries(p, W, i);
    case Waiting(_) => FollowingCarries(p, W, i);
    case _ => CarriesNothing(p, W, i, choice);
  }

  /** Valid values in, valid values out: every entry of every reachable state holds a valid answer. */
  lemma StaysValid(p: WorkerRuntime.Provider, W: World, a: Action)
    requires Inv(W) && AllValid(p, W) && Possible(W, a) && Truthful(p, W, a)
    ensures AllValid(p, Step(W, a))
  {
    hide Inv, Valid, WorkerStep, Allowed, Begin, End, Truthful, CarriesValid;
    match a
    case Work(i, choice) => WorkStaysValid(p, W, i, choice);
    case Spawn(w) => NewcomerCarriesNothing(p, W, w);
    case BeginQuery => LifecycleKeepsCells(W);
    case EndQuery(outcome) => LifecycleKeepsCells(W);
  }

  lemma NewcomerCarriesNothing(p: WorkerRuntime.Provider, W: World, w: Worker)
    requires Newcomer(W, w)
    ensures CarriesValid(p, W.meta, w.pc)
  {
  }

  lemma LifecycleKeepsCells(W: World)
    ensures Begin(W.h).cells == W.h.cells && forall outcome :: End(W.h, outcome).cells == W.h.cells
  {
  }

  lemma EffectKeepsCells(p: WorkerRuntime.Provider, W: World, i: nat, effect: Effect, W': World)
    requires CellsValid(p, W) && i < |W.workers| && HasEffect(W, i, effect, W')
    requires effect.Outcomes? ==> ValidOutcome(p, W.meta, effect.entry, effect.outcome)
    ensures CellsValid(p, W') && SameJudgments(W.meta, W'.meta)
  {
    hide Valid;
    forall e | 0 <= e < |W'.meta| && W'.h.cells[e].Some?
      ensures ValidOutcome(p, W'.meta, e, W'.h.cells[e].value)
    {
      assert e < |W.meta| && W.h.cells[e].Some? ==> ValidOutcome(p, W.meta, e, W.h.cells[e].value);
    }
  }

  lemma WorkStaysValid(p: WorkerRuntime.Provider, W: World, i: nat, choice: Choice)
    requires Inv(W) && AllValid(p, W) && i < |W.workers| && Allowed(W, i, choice) && Truthful(p, W, Work(i, choice))
    ensures AllValid(p, WorkerStep(W, i, choice))
  {
    var W' := WorkerStep(W, i, choice);
    CarriesNext(p, W, i, choice);
    StepEffect(W, i, choice);
    EffectValid(p, W, i, choice);
    hide Inv, ValidOutcome, WorkerStep, Allowed, CarriesValid, EffectOf, CellsValid, Truthful;
    EffectKeepsCells(p, W, i, EffectOf(W, i, choice), W');
    hide SameJudgments;
    forall j | 0 <= j < |W'.workers|
      ensures CarriesValid(p, W'.meta, W'.workers[j].pc)
    {
      assert j != i ==> W'.workers[j] == W.workers[j];
      CarriesStays(p, W.meta, W'.meta, W'.workers[j].pc);
    }
  }

  lemma EffectValid(p: WorkerRuntime.Provider, W: World, i: nat, choice: Choice)
    requires AllValid(p, W) && i < |W.workers| && Allowed(W, i, choice)
    ensures var effect := EffectOf(W, i, choice);
            effect.Outcomes? ==> ValidOutcome(p, W.meta, effect.entry, effect.outcome)
  {
    hide Valid, CellsValid;
    assert CarriesValid(p, W.meta, W.workers[i].pc);
  }

  // ---- What a worker sees

  /** The entries of query `scope` by judgment, and those that worker `i` leads. */
  function EntriesSeen(cells: seq<Option<Outcome>>, meta: seq<Meta>, scope: nat): map<Identity, Option<Outcome>>
    requires |cells| == |meta|
  {
    if meta == [] then map[]
    else
      var n := |meta| - 1;
      var seen := EntriesSeen(cells[..n], meta[..n], scope);
      if meta[n].query == scope then seen[meta[n].id := cells[n]] else seen
  }

  function OwnedBy(meta: seq<Meta>, scope: nat, i: nat): set<Identity> {
    if meta == [] then {}
    else
      var n := |meta| - 1;
      OwnedBy(meta[..n], scope, i) + (if meta[n].query == scope && meta[n].owner == i then {meta[n].id} else {})
  }

  lemma {:induction false} SeenSame(cells: seq<Option<Outcome>>, meta: seq<Meta>, meta': seq<Meta>, scope: nat, i: nat)
    requires |cells| == |meta| == |meta'| && SameJudgments(meta, meta')
    ensures EntriesSeen(cells, meta', scope) == EntriesSeen(cells, meta, scope)
    ensures OwnedBy(meta', scope, i) == OwnedBy(meta, scope, i)
  {
    if meta != [] {
      SeenSame(cells[..|meta| - 1], meta[..|meta| - 1], meta'[..|meta| - 1], scope, i);
    }
  }

  lemma SeenMore(cells: seq<Option<Outcome>>, meta: seq<Meta>, m: Meta, scope: nat, i: nat)
    requires |cells| == |meta|
    ensures EntriesSeen(cells + [None], meta + [m], scope)
         == if m.query == scope then EntriesSeen(cells, meta, scope)[m.id := None] else EntriesSeen(cells, meta, scope)
    ensures OwnedBy(meta + [m], scope, i)
         == OwnedBy(meta, scope, i) + (if m.query == scope && m.owner == i then {m.id} else {})
  {
    assert (cells + [None])[..|meta|] == cells && (meta + [m])[..|meta|] == meta;
  }

  lemma {:induction false} SeenAbsent(cells: seq<Option<Outcome>>, meta: seq<Meta>, scope: nat, i: nat, id: Identity)
    requires |cells| == |meta|
    ensures (forall e :: 0 <= e < |meta| ==> !(meta[e].query == scope && meta[e].id == id)) ==>
      id !in EntriesSeen(cells, meta, scope)
    ensures (forall e :: 0 <= e < |meta| && meta[e].query == scope && meta[e].id == id ==> meta[e].owner != i) ==>
      id !in OwnedBy(meta, scope, i)
  {
    if meta != [] {
      var n := |meta| - 1;
      SeenAbsent(cells[..n], meta[..n], scope, i, id);
      assert forall e :: 0 <= e < n ==> meta[..n][e] == meta[e];
    }
  }

  lemma {:induction false} SeenOutcome(cells: seq<Option<Outcome>>, meta: seq<Meta>, scope: nat, e: nat, o: Option<Outcome>)
    requires |cells| == |meta| && OneEntry(meta) && e < |meta|
    ensures meta[e].query == scope ==>
      meta[e].id in EntriesSeen(cells, meta, scope) && EntriesSeen(cells, meta, scope)[meta[e].id] == cells[e]
    ensures EntriesSeen(cells[e := o], meta, scope)
         == if meta[e].query == scope then EntriesSeen(cells, meta, scope)[meta[e].id := o]
            else EntriesSeen(cells, meta, scope)
  {
    var n := |meta| - 1;
    if e < n {
      assert cells[e := o][..n] == cells[..n][e := o];
      SeenOutcome(cells[..n], meta[..n], scope, e, o);
    } else {
      assert cells[e := o][..n] == cells[..n];
    }
  }

  /** The runtime as worker `i` sees it; its cache, clock, script and calls are taken from `base`. */
  function Seen(W: World, i: nat, base: WorkerRuntime.Snapshot): WorkerRuntime.Snapshot
    requires i < |W.workers| && |W.h.cells| == |W.meta|
  {
    var scope := W.workers[i].scope;
    base.(entries := EntriesSeen(W.h.cells, W.meta, scope), active := IsActive(W.h, scope),
          owned := OwnedBy(W.meta, scope, i))
  }

  function ApplyAll(s: WorkerRuntime.Snapshot, events: seq<WorkerRuntime.Event>): WorkerRuntime.Snapshot {
    if events == [] then s
    else WorkerRuntime.Apply(ApplyAll(s, events[..|events| - 1]), events[|events| - 1])
  }

  /** The events that an effect of worker `j`'s step is for worker `i`. */
  function EffectEvents(W: World, j: nat, effect: Effect, i: nat): seq<WorkerRuntime.Event>
    requires i < |W.workers| && j < |W.workers|
  {
    match effect
    case Nothing => []
    case NewEntry(id) =>
      if W.workers[j].scope == W.workers[i].scope then [WorkerRuntime.OtherClaims(id)] else []
    case Outcomes(e, outcome) =>
      if e < |W.meta| && W.meta[e].query == W.workers[i].scope
      then [WorkerRuntime.OtherCompletes(W.meta[e].id, outcome)] else []
  }

  /** The events that a step of another worker, or of the host, is for worker `i`. */
  function EventsOf(W: World, a: Action, i: nat): seq<WorkerRuntime.Event>
    requires i < |W.workers| && Possible(W, a)
  {
    match a
    case Work(j, choice) => EffectEvents(W, j, EffectOf(W, j, choice), i)
    case Spawn(_) => []
    case _ => if IsActive(W.h, W.workers[i].scope) then [WorkerRuntime.QueryEnds] else []
  }

  predicate IsForeign(a: Action, i: nat) { a.Work? ==> a.i != i }

  lemma SameSeen(W: World, W': World, i: nat, base: WorkerRuntime.Snapshot)
    requires i < |W.workers| && |W.h.cells| == |W.meta| && i < |W'.workers|
    requires W'.workers[i].scope == W.workers[i].scope
    requires W'.h.cells == W.h.cells && |W'.meta| == |W.meta| && SameJudgments(W.meta, W'.meta)
    requires IsActive(W'.h, W.workers[i].scope) == IsActive(W.h, W.workers[i].scope)
    ensures Seen(W', i, base) == Seen(W, i, base)
  {
    SeenSame(W.h.cells, W.meta, W'.meta, W.workers[i].scope, i);
  }

  /** A new entry of another worker. */
  lemma ClaimSeen(W: World, W': World, i: nat, j: nat, id: Identity, base: WorkerRuntime.Snapshot)
    requires Inv(W) && i < |W.workers| && j < |W.workers| && i != j
    requires HasEffect(W, j, NewEntry(id), W') && ClaimResult(W.h, W.workers[j].scope, id).Leads?
    ensures |W'.h.cells| == |W'.meta|
    ensures Seen(W', i, base)
         == if W.workers[j].scope == W.workers[i].scope
            then WorkerRuntime.Apply(Seen(W, i, base), WorkerRuntime.OtherClaims(id))
            else Seen(W, i, base)
  {
    hide OwnersOk, WorkersOk, OneEntry, EntriesSeen, OwnedBy;
    var scope := W.workers[i].scope;
    SeenMore(W.h.cells, W.meta, Meta(W.workers[j].scope, id, j, Led), scope, i);
    SeenAbsent(W.h.cells, W.meta, W.workers[j].scope, i, id);
  }

  /** An outcome for an entry of another worker. */
  lemma OutcomeSeen(W: World, W': World, i: nat, j: nat, e: nat, outcome: Outcome, base: WorkerRuntime.Snapshot)
    requires Inv(W) && i < |W.workers| && j < |W.workers| && i != j && HasEffect(W, j, Outcomes(e, outcome), W')
    requires e < |W.meta| && W.meta[e].owner == j && W.h.cells[e].None?
    ensures |W'.h.cells| == |W'.meta|
    ensures Seen(W', i, base)
         == if W.meta[e].query == W.workers[i].scope
            then WorkerRuntime.Apply(Seen(W, i, base), WorkerRuntime.OtherCompletes(W.meta[e].id, outcome))
            else Seen(W, i, base)
  {
    hide OwnersOk, WorkersOk, HostOk, EntriesSeen, OwnedBy;
    SeenOutcome(W.h.cells, W.meta, W.workers[i].scope, e, Some(outcome));
    SeenAbsent(W.h.cells, W.meta, W.workers[i].scope, i, W.meta[e].id);
  }

  /** The end of a query, by its own end or by the next begin. */
  lemma LifecycleSeen(W: World, a: Action, i: nat, base: WorkerRuntime.Snapshot)
    requires Inv(W) && i < |W.workers| && (a.BeginQuery? || a.EndQuery?)
    ensures Seen(Step(W, a), i, base)
         == if IsActive(W.h, W.workers[i].scope) then WorkerRuntime.Apply(Seen(W, i, base), WorkerRuntime.QueryEnds)
            else Seen(W, i, base)
  {
    hide OneEntry, OwnersOk;
    assert WorkerOk(W.h, W.meta, W.workers[i], i);
    var W', scope := Step(W, a), W.workers[i].scope;
    assert !IsActive(W'.h, scope);
  }

  /** The owner of the entry that a step settles is the worker that takes it. */
  lemma SettlesOwn(W: World, j: nat, choice: Choice)
    requires Inv(W) && j < |W.workers| && Allowed(W, j, choice)
    ensures var effect := EffectOf(W, j, choice);
            effect.Outcomes? ==>
              effect.entry < |W.meta| && W.meta[effect.entry].owner == j && W.h.cells[effect.entry].None?
  {
    hide HostOk, OneEntry, OwnersOk;
    OwedFacts(W.h, W.meta, W.workers[j], j);
    OwedParts(W.workers[j]);
  }

  /** Each step of another worker or of the host is, for worker `i`, at most one admissible event. */
  lemma ForeignStep(p: WorkerRuntime.Provider, W: World, a: Action, i: nat, base: WorkerRuntime.Snapshot)
    requires Inv(W) && AllValid(p, W) && i < |W.workers| && Possible(W, a) && IsForeign(a, i)
    ensures Inv(Step(W, a)) && i < |Step(W, a).workers|
    ensures |EventsOf(W, a, i)| <= 1
    ensures forall k :: 0 <= k < |EventsOf(W, a, i)| ==> WorkerRuntime.Admissible(p, EventsOf(W, a, i)[k])
    ensures Seen(Step(W, a), i, base) == ApplyAll(Seen(W, i, base), EventsOf(W, a, i))
  {
    StepKeeps(W, a);
    match a
    case Work(j, choice) => ForeignWork(p, W, j, choice, i, base);
    case Spawn(w) =>
      hide Inv, WorkersOk, HostOk, OwnersOk;
      SameSeen(W, Step(W, a), i, base);
    case _ =>
      LifecycleSeen(W, a, i, base);
      hide Inv, Begin, End, Seen, AllValid;
  }

  lemma ApplyOne(s: WorkerRuntime.Snapshot, event: WorkerRuntime.Event)
    ensures ApplyAll(s, []) == s && ApplyAll(s, [event]) == WorkerRuntime.Apply(s, event)
  {
    assert [event][..0] == [];
  }

  lemma EffectAdmissible(p: WorkerRuntime.Provider, W: World, j: nat, effect: Effect, i: nat)
    requires i < |W.workers| && j < |W.workers|
    requires effect.Outcomes? ==> ValidOutcome(p, W.meta, effect.entry, effect.outcome)
    ensures |EffectEvents(W, j, effect, i)| <= 1
    ensures forall k :: 0 <= k < |EffectEvents(W, j, effect, i)| ==>
      WorkerRuntime.Admissible(p, EffectEvents(W, j, effect, i)[k])
  {
    hide WorkerRuntime.Answers, WorkerRuntime.SameService;
  }

  lemma ForeignEffect(W: World, W': World, j: nat, effect: Effect, i: nat, base: WorkerRuntime.Snapshot)
    requires Inv(W) && i < |W.workers| && j < |W.workers| && i != j && HasEffect(W, j, effect, W')
    requires effect.NewEntry? ==> ClaimResult(W.h, W.workers[j].scope, effect.id).Leads?
    requires effect.Outcomes? ==>
      effect.entry < |W.meta| && W.meta[effect.entry].owner == j && W.h.cells[effect.entry].None?
    ensures |W'.h.cells| == |W'.meta| && |W'.workers| == |W.workers|
    ensures Seen(W', i, base) == ApplyAll(Seen(W, i, base), EffectEvents(W, j, effect, i))
  {
    hide WorkersOk, HostOk, OwnersOk, OneEntry, Seen, WorkerRuntime.Apply, ClaimResult, ApplyAll;
    var s := Seen(W, i, base);
    match effect
    case Nothing =>
      ApplyOne(s, WorkerRuntime.QueryEnds);
      SameSeen(W, W', i, base);
    case NewEntry(id) =>
      ApplyOne(s, WorkerRuntime.OtherClaims(id));
      ClaimSeen(W, W', i, j, id, base);
    case Outcomes(e, outcome) =>
      ApplyOne(s, WorkerRuntime.OtherCompletes(W.meta[e].id, outcome));
      OutcomeSeen(W, W', i, j, e, outcome, base);
  }

  lemma ForeignWork(p: WorkerRuntime.Provider, W: World, j: nat, choice: Choice, i: nat, base: WorkerRuntime.Snapshot)
    requires Inv(W) && AllValid(p, W) && i < |W.workers| && j < |W.workers| && i != j && Allowed(W, j, choice)
    ensures var W', events := WorkerStep(W, j, choice), EventsOf(W, Work(j, choice), i);
            && |W'.h.cells| == |W'.meta| && |W'.workers| == |W.workers|
            && |events| <= 1 && (forall k :: 0 <= k < |events| ==> WorkerRuntime.Admissible(p, events[k]))
            && Seen(W', i, base) == ApplyAll(Seen(W, i, base), events)
  {
    hide WorkerStep, Allowed, Inv, Seen, EffectOf, AllValid, ClaimResult, HasEffect, ValidOutcome, EffectEvents,
         ApplyAll, WorkerRuntime.Admissible;
    StepEffect(W, j, choice);
    SettlesOwn(W, j, choice);
    EffectValid(p, W, j, choice);
    ClaimIsLead(W, j, choice);
    EffectAdmissible(p, W, j, EffectOf(W, j, choice), i);
    ForeignEffect(W, WorkerStep(W, j, choice), j, EffectOf(W, j, choice), i, base);
  }

  lemma ClaimIsLead(W: World, j: nat, choice: Choice)
    requires j < |W.workers| && Allowed(W, j, choice)
    ensures var effect := EffectOf(W, j, choice);
            effect.NewEntry? ==> ClaimResult(W.h, W.workers[j].scope, effect.id).Leads?
  {
    hide ClaimResult;
  }

  // ---- Scripts

  lemma {:induction false} ApplyMore(s: WorkerRuntime.Snapshot, events: seq<WorkerRuntime.Event>,
                                     more: seq<WorkerRuntime.Event>)
    ensures ApplyAll(s, events + more) == ApplyAll(ApplyAll(s, events), more)
  {
    if more == [] {
      assert events + more == events;
    } else {
      var n := |more| - 1;
      assert (events + more)[..|events + more| - 1] == events + more[..n];
      ApplyMore(s, events, more[..n]);
    }
  }

  lemma SameLengths(W: World)
    requires Inv(W)
    ensures |W.h.cells| == |W.meta|
  {
  }

  lemma NothingAdmissible(p: WorkerRuntime.Provider)
    ensures WorkerRuntime.ScriptAdmissible(p, [[]])
  {
  }

  lemma MoreAdmissible(p: WorkerRuntime.Provider, events: seq<WorkerRuntime.Event>, more: seq<WorkerRuntime.Event>)
    requires WorkerRuntime.ScriptAdmissible(p, [events])
    requires forall k :: 0 <= k < |more| ==> WorkerRuntime.Admissible(p, more[k])
    ensures WorkerRuntime.ScriptAdmissible(p, [events + more])
  {
    hide WorkerRuntime.Admissible;
    forall k | 0 <= k < |events + more|
      ensures WorkerRuntime.Admissible(p, (events + more)[k])
    {
      assert k < |events| ==> WorkerRuntime.Admissible(p, [events][0][k]);
    }
  }

  lemma {:induction false} SeenValid(p: WorkerRuntime.Provider, cells: seq<Option<Outcome>>, meta: seq<Meta>,
                                     scope: nat, i: nat)
    requires |cells| == |meta|
    requires forall e :: 0 <= e < |meta| && cells[e].Some? && cells[e].value.Ok? ==>
      Valid(p, meta[e].id, cells[e].value.value)
    ensures WorkerRuntime.EntriesHold(p, EntriesSeen(cells, meta, scope))
    ensures OwnedBy(meta, scope, i) <= EntriesSeen(cells, meta, scope).Keys
  {
    hide WorkerRuntime.Answers, WorkerRuntime.SameService;
    if meta != [] {
      var n := |meta| - 1;
      assert forall e :: 0 <= e < n ==> meta[..n][e] == meta[e] && cells[..n][e] == cells[e];
      SeenValid(p, cells[..n], meta[..n], scope, i);
    }
  }
}
