/** What every step of a worker has in common: whom and what it can touch. Each step of the protocol is
    looked at once here; the laws about permits, entries, usage and views build on it. */
module ProtocolSteps {
  import opened Text
  import opened Judgment
  import opened Host
  import opened Protocol
  import opened ProtocolInv

  /** The same chunk under the same settings, or none after a bad row. */
  predicate SameChunk(w: Worker, w': Worker) {
    && w'.scope == w.scope && w'.external == w.external
    && w'.limit == w.limit && w'.batched == w.batched && w'.caps == w.caps && w'.policyOk == w.policyOk
    && (w'.groups == w.groups || w'.groups == [])
  }

  function Held(w: Worker): nat { if HoldsPermit(w) then 1 else 0 }

  /** The pool moves just as the worker's own permit does; a permit is only given while the worker's
      query runs. */
  predicate PoolMoves(W: World, w: Worker, w': Worker, pool: Pool) {
    && (w'.pc.Granted? ==> w.scope !in W.h.cancelled)
    && ((pool == W.pool && Held(w') == Held(w))
        || (pool == Acquire(W.pool) && W.pool.active < w.limit && Held(w) == 0 && Held(w') == 1)
        || (pool == Release(W.pool) && Held(w) == 1 && Held(w') == 0))
  }

  /** The same queries run, and no other query's counts change. */
  predicate SameQueries(h: State, h': State, scope: nat) {
    && h'.nextQuery == h.nextQuery && h'.cancelled == h.cancelled && h'.last == h.last
    && h'.active.Some? == h.active.Some? && (h.active.Some? ==> h'.active.value.id == h.active.value.id)
    && (!IsActive(h, scope) ==> h'.active == h.active)
  }

  /** Entries keep their judgment, query and owner. */
  ghost predicate SameJudgments(meta: seq<Meta>, meta': seq<Meta>) {
    && |meta| <= |meta'|
    && forall e :: 0 <= e < |meta| ==>
         meta'[e].id == meta[e].id && meta'[e].query == meta[e].query && meta'[e].owner == meta[e].owner
  }

  /** What a step does to entries: nothing, a new one, or an outcome for one. */
  datatype Effect = Nothing | NewEntry(id: Identity) | Outcomes(entry: nat, outcome: Outcome)

  function SettlingEffect(w: Worker, choice: Choice): Effect
    requires w.pc.Settling?
  {
    if choice.Completes? && choice.entry in w.pc.outcomes then Outcomes(choice.entry, w.pc.outcomes[choice.entry])
    else Nothing
  }

  function EffectOf(W: World, i: nat, choice: Choice): Effect
    requires i < |W.workers| && Allowed(W, i, choice)
  {
    var w := W.workers[i];
    match w.pc
    case Claiming =>
      if !choice.GateFails? && ClaimResult(W.h, w.scope, w.groups[w.next]).Leads? then NewEntry(w.groups[w.next])
      else Nothing
    case HitRecorded(e, v) => Outcomes(e, Ok(v))
    case Settling(_, _) => SettlingEffect(w, choice)
    case _ => Nothing
  }

  ghost predicate EntriesMove(W: World, i: nat, effect: Effect, W': World)
    requires i < |W.workers|
  {
    match effect
    case Nothing => W'.h.cells == W.h.cells && |W'.meta| == |W.meta| && SameJudgments(W.meta, W'.meta)
    case NewEntry(id) =>
      W'.h.cells == W.h.cells + [None] && W'.meta == W.meta + [Meta(W.workers[i].scope, id, i, Led)]
    case Outcomes(e, outcome) => W'.h.cells == Complete(W.h, e, outcome).cells && W'.meta == W.meta
  }

  ghost predicate StepShape(W: World, i: nat, effect: Effect, W': World)
    requires i < |W.workers|
  {
    && |W'.workers| == |W.workers| && W'.workers == W.workers[i := W'.workers[i]]
    && SameChunk(W.workers[i], W'.workers[i])
    && PoolMoves(W, W.workers[i], W'.workers[i], W'.pool)
    && SameQueries(W.h, W'.h, W.workers[i].scope)
    && EntriesMove(W, i, effect, W')
  }

  lemma RecordQueries(h: State, scope: nat, counts: Counts)
    ensures SameQueries(h, Record(h, scope, counts), scope) && Record(h, scope, counts).cells == h.cells
  {
  }

  lemma ClaimQueries(h: State, scope: nat, id: Identity)
    ensures SameQueries(h, AfterClaim(h, scope, id), scope)
    ensures AfterClaim(h, scope, id).cells == if ClaimResult(h, scope, id).Leads? then h.cells + [None] else h.cells
  {
  }

  lemma CompleteQueries(h: State, e: nat, outcome: Outcome, scope: nat)
    ensures SameQueries(h, Complete(h, e, outcome), scope)
  {
  }

  lemma ArrivingShape(W: World, i: nat)
    requires i < |W.workers| && W.workers[i].pc.Arriving?
    ensures StepShape(W, i, Nothing, StepArriving(W, i))
  {
    hide Record, OptimizedRows, SameQueries;
    RecordQueries(W.h, W.workers[i].scope, OptimizedRows(Now(W.h), W.workers[i].rows, 0, 0, 0));
  }

  lemma RecordingShape(W: World, i: nat, choice: Choice)
    requires i < |W.workers| && W.workers[i].pc.Recording?
    ensures StepShape(W, i, Nothing, StepRecording(W, i, choice))
  {
    hide Record, OptimizedRows, SameQueries;
    var w := W.workers[i];
    RecordQueries(W.h, w.scope,
                  OptimizedRows(Now(W.h), 0, SaturatingSub(w.rows, w.validRows), w.validRows, |w.groups|));
    SameHost(W.h, W.workers[i].scope);
  }

  lemma GateShape(W: World, i: nat)
    requires i < |W.workers| && W.workers[i].pc.Claiming?
    requires W.workers[i].next < |W.workers[i].groups|
    ensures StepShape(W, i, Nothing, StepGate(W, i))
  {
  }

  lemma ClaimingShape(W: World, i: nat)
    requires i < |W.workers| && W.workers[i].pc.Claiming?
    requires W.workers[i].next < |W.workers[i].groups|
    ensures var w := W.workers[i];
            var id := w.groups[w.next];
            StepShape(W, i, if ClaimResult(W.h, w.scope, id).Leads? then NewEntry(id) else Nothing, StepClaiming(W, i))
  {
    hide Record, AfterClaim, ClaimResult, SameQueries;
    var w := W.workers[i];
    ClaimQueries(W.h, w.scope, w.groups[w.next]);
    SameHost(W.h, w.scope);
  }

  lemma ClaimedShape(W: World, i: nat)
    requires i < |W.workers| && W.workers[i].pc.Claimed?
    ensures StepShape(W, i, Nothing, StepClaimed(W, i))
  {
    hide IsActive;
  }

  lemma LookingShape(W: World, i: nat, choice: Choice)
    requires i < |W.workers| && W.workers[i].pc.Looking?
    ensures StepShape(W, i, Nothing, StepLooking(W, i, choice))
  {
    hide Record, CacheHit, WithFate, AllFail, SameQueries;
    RecordQueries(W.h, W.workers[i].scope, CacheHit(Now(W.h)));
    SameHost(W.h, W.workers[i].scope);
  }

  lemma HitShape(W: World, i: nat)
    requires i < |W.workers| && W.workers[i].pc.HitRecorded?
    ensures StepShape(W, i, Outcomes(W.workers[i].pc.entry, Ok(W.workers[i].pc.value)), StepHit(W, i))
  {
    hide Complete, SameQueries;
    var w := W.workers[i];
    CompleteQueries(W.h, w.pc.entry, Ok(w.pc.value), w.scope);
  }

  /** A step that changes nothing but the worker, which stays without a permit. */
  lemma OwnShape(W: World, i: nat, w': Worker)
    requires i < |W.workers| && SameChunk(W.workers[i], w') && Held(W.workers[i]) == Held(w') && !w'.pc.Granted?
    ensures StepShape(W, i, Nothing, Put(W, i, w'))
  {
    hide SameChunk, Held;
    SameHost(W.h, W.workers[i].scope);
  }

  lemma PlanningShape(W: World, i: nat, choice: Choice)
    requires i < |W.workers| && W.workers[i].pc.Planning? && Allowed(W, i, choice)
    ensures StepShape(W, i, Nothing, StepPlanning(W, i, choice))
  {
    hide AllFail, StepShape, Put;
    var w := W.workers[i];
    if w.todo != {} {
      if choice.Sends? {
        OwnShape(W, i, w.(todo := w.todo - choice.batch, pc := Acquiring(choice.batch)));
      } else {
        OwnShape(W, i, FailAll(w, {}));
      }
    } else if w.waits != [] {
      OwnShape(W, i, w.(waits := w.waits[1..], pc := Waiting(w.waits[0])));
    } else if w.next < |w.groups| {
      OwnShape(W, i, w.(pc := Claiming));
    } else {
      OwnShape(W, i, w.(pc := Done(true)));
    }
  }

  lemma AcquiringShape(W: World, i: nat)
    requires i < |W.workers| && W.workers[i].pc.Acquiring? && Ready(W, i)
    ensures StepShape(W, i, Nothing, StepAcquiring(W, i))
  {
    hide AllFail, Acquire;
  }

  lemma GrantedShape(W: World, i: nat)
    requires i < |W.workers| && W.workers[i].pc.Granted?
    ensures StepShape(W, i, Nothing, StepGranted(W, i))
  {
    hide Record, Attempt, WithFate, SameQueries;
    RecordQueries(W.h, W.workers[i].scope, Attempt(Now(W.h), |W.workers[i].pc.batch|, W.workers[i].external));
  }

  lemma CallingShape(W: World, i: nat, choice: Choice)
    requires i < |W.workers| && W.workers[i].pc.Calling? && Allowed(W, i, choice)
    ensures StepShape(W, i, Nothing, StepCalling(W, i, choice))
  {
    hide Record, Response, SameQueries;
    var w := W.workers[i];
    var usage := if choice.Replies? then choice.usage else if choice.RepliesBadly? then choice.reported else None;
    RecordQueries(W.h, w.scope, Response(Now(W.h), usage, w.external));
    SameHost(W.h, w.scope);
  }

  lemma ReturnedShape(W: World, i: nat)
    requires i < |W.workers| && W.workers[i].pc.Returned?
    ensures StepShape(W, i, Nothing, StepReturned(W, i))
  {
    hide AllFail, AllAnswered, Release;
  }

  lemma FailingShape(W: World, i: nat)
    requires i < |W.workers| && W.workers[i].pc.Failing?
    ensures StepShape(W, i, Nothing, StepFailing(W, i))
  {
    hide Record, FailedRequest, AllFail, SameQueries;
    RecordQueries(W.h, W.workers[i].scope, FailedRequest(Now(W.h)));
  }

  lemma FailingUsageShape(W: World, i: nat)
    requires i < |W.workers| && W.workers[i].pc.FailingUsage?
    ensures StepShape(W, i, Nothing, StepFailingUsage(W, i))
  {
    hide Record, Failure, AllFail, SameQueries;
    RecordQueries(W.h, W.workers[i].scope, Failure(Now(W.h), W.workers[i].external));
  }

  lemma SettlingShape(W: World, i: nat, choice: Choice)
    requires i < |W.workers| && W.workers[i].pc.Settling? && Allowed(W, i, choice)
    ensures StepShape(W, i, SettlingEffect(W.workers[i], choice), StepSettling(W, i, choice))
  {
    hide Complete, SameQueries;
    var w := W.workers[i];
    SameHost(W.h, w.scope);
    if w.pc.outcomes != map[] {
      CompleteQueries(W.h, choice.entry, w.pc.outcomes[choice.entry], w.scope);
    }
  }

  lemma WaitingShape(W: World, i: nat)
    requires i < |W.workers| && W.workers[i].pc.Waiting? && Ready(W, i)
    ensures StepShape(W, i, Nothing, StepWaiting(W, i))
  {
  }

  lemma SameHost(h: State, scope: nat)
    ensures SameQueries(h, h, scope)
  {
  }

  lemma StepIsShaped(W: World, i: nat, choice: Choice)
    requires i < |W.workers| && Allowed(W, i, choice)
    ensures StepShape(W, i, EffectOf(W, i, choice), WorkerStep(W, i, choice))
  {
    hide StepShape, SettlingEffect, ClaimResult;
    hide StepArriving, StepRecording, StepClaiming, StepGate, StepClaimed, StepLooking, StepHit, StepPlanning,
         StepAcquiring, StepGranted, StepCalling, StepReturned, StepFailing, StepFailingUsage, StepSettling,
         StepWaiting;
    match W.workers[i].pc
    case Arriving => ArrivingShape(W, i);
    case Recording => RecordingShape(W, i, choice);
    case Claiming => if choice.GateFails? { GateShape(W, i); } else { ClaimingShape(W, i); }
    case Claimed(_, _) => ClaimedShape(W, i);
    case Looking(_) => LookingShape(W, i, choice);
    case HitRecorded(_, _) => HitShape(W, i);
    case Planning => PlanningShape(W, i, choice);
    case Acquiring(_) => AcquiringShape(W, i);
    case Granted(_) => GrantedShape(W, i);
    case Calling(_) => CallingShape(W, i, choice);
    case Returned(_, _, _) => ReturnedShape(W, i);
    case Failing(_, _) => FailingShape(W, i);
    case FailingUsage(_) => FailingUsageShape(W, i);
    case Settling(_, _) => SettlingShape(W, i, choice);
    case Waiting(_) => WaitingShape(W, i);
    case Done(_) =>
  }
}
