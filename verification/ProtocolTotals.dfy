/** The query counters over whole runs, against what the run did: rows, calls and failures. */
module ProtocolTotals {
  import opened Text
  import opened Judgment
  import opened Histogram
  import opened Host
  import opened Protocol
  import opened ProtocolInv
  import opened ProtocolSteps
  import opened ProtocolUsage
  import ProviderProtocol

  /** Rows that arrived, asked nothing and asked something; calls of the provider, external ones with more
      than one judgment, and external ones that came to nothing. */
  datatype Totals = Totals(input: nat, nulls: nat, valid: nat, calls: nat, batched: nat, failed: nat)

  const NONE := Totals(0, 0, 0, 0, 0, 0)

  /** What a step of worker `w` adds: its rows when it arrives; when they have all been read, those that
      ask nothing and those that do; a call when it starts; a failure when the reply is bad or missing. */
  function Plus(t: Totals, w: Worker, choice: Choice): Totals {
    match w.pc
    case Arriving => t.(input := t.input + w.rows)
    case Recording =>
      if choice.BadRow? then t
      else t.(nulls := t.nulls + (if w.rows > w.validRows then w.rows - w.validRows else 0), valid := t.valid + w.validRows)
    case Granted(b) => t.(calls := t.calls + 1, batched := t.batched + (if w.external && |b| >= 2 then 1 else 0))
    case Calling(_) => if w.external && !choice.Replies? then t.(failed := t.failed + 1) else t
    case _ => t
  }

  /** Everything the workers of query `q` did, counted from the run itself. */
  function TotalsOf(actions: seq<Action>, q: nat): Totals
    requires Exec(actions).Some?
  {
    if actions == [] then NONE
    else
      var init, a := actions[..|actions| - 1], actions[|actions| - 1];
      var W := Exec(init).value;
      if a.Work? && W.workers[a.i].scope == q then Plus(TotalsOf(init, q), W.workers[a.i], a.choice) else TotalsOf(init, q)
  }

  /** A failed request that is still to be recorded. */
  function Unrecorded(w: Worker): nat {
    if (w.external && w.pc.Returned? && w.pc.answers.None?) || w.pc.Failing? then 1 else 0
  }

  function Pending(workers: seq<Worker>, q: nat): nat {
    if workers == [] then 0
    else
      var w := workers[|workers| - 1];
      Pending(workers[..|workers| - 1], q) + (if w.scope == q then Unrecorded(w) else 0)
  }

  lemma {:induction false} PendingUpdate(workers: seq<Worker>, i: nat, w: Worker, q: nat)
    requires i < |workers| && w.scope == workers[i].scope
    ensures Pending(workers[i := w], q) + (if w.scope == q then Unrecorded(workers[i]) else 0)
         == Pending(workers, q) + (if w.scope == q then Unrecorded(w) else 0)
  {
    hide Unrecorded;
    var n := |workers| - 1;
    if i < n {
      PendingUpdate(workers[..n], i, w, q);
      assert workers[i := w][..n] == workers[..n][i := w];
    } else {
      assert workers[i := w][..n] == workers[..n];
    }
  }

  lemma {:induction false} NonePending(workers: seq<Worker>, q: nat)
    requires forall j :: 0 <= j < |workers| ==> workers[j].scope != q
    ensures Pending(workers, q) == 0
  {
    if workers != [] {
      NonePending(workers[..|workers| - 1], q);
    }
  }

  /** The counters are the totals, but for failures still to be recorded. */
  predicate Matches(c: Counts, t: Totals, pending: nat) {
    && c.inputRows == t.input && c.nullRows == t.nulls && c.validRows == t.valid
    && c.providerInvocations == t.calls && c.batchedRequests == t.batched
    && c.failedRequests + pending == t.failed
  }

  predicate TotalsOk(W: World, t: Totals, q: nat) {
    && (q >= W.h.nextQuery ==> t == NONE)
    && (IsActive(W.h, q) ==> Matches(W.h.active.value.counts, t, Pending(W.workers, q)))
  }

  // ---- One step

  /** What worker `i`'s step from `W` to `W'` does to the six counters of its query, if that is the active
      one, is what it adds to the totals `t`; `pending` are the failures others have yet to record. */
  predicate Tallies(W: World, i: nat, choice: Choice, W': World, t: Totals, pending: nat)
    requires i < |W.workers|
  {
    && i < |W'.workers|
    && (Matches(Now(W.h), t, pending + Unrecorded(W.workers[i])) && IsActive(W.h, W.workers[i].scope) ==>
          Matches(Now(W'.h), Plus(t, W.workers[i], choice), pending + Unrecorded(W'.workers[i])))
  }

  lemma Recorded(h: State, scope: nat, counts: Counts)
    requires IsActive(h, scope)
    ensures Now(Record(h, scope, counts)) == counts
  {
  }

  lemma ArrivingTallies(W: World, i: nat, choice: Choice, t: Totals, pending: nat)
    requires i < |W.workers| && W.workers[i].pc.Arriving?
    ensures Tallies(W, i, choice, StepArriving(W, i), t, pending)
  {
    hide Record;
    if IsActive(W.h, W.workers[i].scope) {
      Recorded(W.h, W.workers[i].scope, OptimizedRows(Now(W.h), W.workers[i].rows, 0, 0, 0));
    }
  }

  lemma RecordingTallies(W: World, i: nat, choice: Choice, t: Totals, pending: nat)
    requires i < |W.workers| && W.workers[i].pc.Recording?
    ensures Tallies(W, i, choice, StepRecording(W, i, choice), t, pending)
  {
    hide Record;
    var w := W.workers[i];
    if IsActive(W.h, w.scope) {
      Recorded(W.h, w.scope, OptimizedRows(Now(W.h), 0, SaturatingSub(w.rows, w.validRows), w.validRows, |w.groups|));
    }
  }

  lemma ClaimKeepsSix(h: State, scope: nat, id: Identity, t: Totals, pending: nat)
    requires IsActive(h, scope)
    ensures Matches(Now(h), t, pending) <==> Matches(Now(AfterClaim(h, scope, id)), t, pending)
  {
    hide Record;
    Recorded(h, scope, Now(h).(deduplicatedRows := Now(h).deduplicatedRows + 1));
    Recorded(h, scope, Now(h).(uniqueJudgments := Now(h).uniqueJudgments + 1));
  }

  lemma ClaimingIs(W: World, i: nat)
    requires i < |W.workers| && W.workers[i].pc.Claiming? && W.workers[i].next < |W.workers[i].groups|
    ensures var w, W' := W.workers[i], StepClaiming(W, i);
            && i < |W'.workers| && Unrecorded(W'.workers[i]) == 0
            && (W'.h == W.h || W'.h == AfterClaim(W.h, w.scope, w.groups[w.next]))
  {
    hide AfterClaim, ClaimResult;
  }

  lemma ClaimingTallies(W: World, i: nat, choice: Choice, t: Totals, pending: nat)
    requires i < |W.workers| && W.workers[i].pc.Claiming? && W.workers[i].next < |W.workers[i].groups|
    ensures Tallies(W, i, choice, StepClaiming(W, i), t, pending)
  {
    var w := W.workers[i];
    ClaimingIs(W, i);
    hide AfterClaim, ClaimResult, Matches, StepClaiming, IsActive;
    if IsActive(W.h, w.scope) {
      ClaimKeepsSix(W.h, w.scope, w.groups[w.next], t, pending);
    }
  }

  lemma GateTallies(W: World, i: nat, choice: Choice, t: Totals, pending: nat)
    requires i < |W.workers| && W.workers[i].pc.Claiming?
    ensures Tallies(W, i, choice, StepGate(W, i), t, pending)
  {
    hide Matches;
  }

  lemma ClaimedTallies(W: World, i: nat, choice: Choice, t: Totals, pending: nat)
    requires i < |W.workers| && W.workers[i].pc.Claimed?
    ensures Tallies(W, i, choice, StepClaimed(W, i), t, pending)
  {
    hide Matches;
  }

  lemma LookingTallies(W: World, i: nat, choice: Choice, t: Totals, pending: nat)
    requires i < |W.workers| && W.workers[i].pc.Looking?
    ensures Tallies(W, i, choice, StepLooking(W, i, choice), t, pending)
  {
    hide Record, WithFate, AllFail;
    if IsActive(W.h, W.workers[i].scope) {
      Recorded(W.h, W.workers[i].scope, CacheHit(Now(W.h)));
    }
  }

  lemma HitTallies(W: World, i: nat, choice: Choice, t: Totals, pending: nat)
    requires i < |W.workers| && W.workers[i].pc.HitRecorded?
    ensures Tallies(W, i, choice, StepHit(W, i), t, pending)
  {
    hide Matches;
  }

  lemma PlanningTallies(W: World, i: nat, choice: Choice, t: Totals, pending: nat)
    requires i < |W.workers| && W.workers[i].pc.Planning? && Allowed(W, i, choice)
    ensures Tallies(W, i, choice, StepPlanning(W, i, choice), t, pending)
  {
    hide AllFail, Matches;
  }

  lemma AcquiringTallies(W: World, i: nat, choice: Choice, t: Totals, pending: nat)
    requires i < |W.workers| && W.workers[i].pc.Acquiring?
    ensures Tallies(W, i, choice, StepAcquiring(W, i), t, pending)
  {
    hide AllFail, Acquire, Matches;
  }

  lemma GrantedTallies(W: World, i: nat, choice: Choice, t: Totals, pending: nat)
    requires i < |W.workers| && W.workers[i].pc.Granted?
    ensures Tallies(W, i, choice, StepGranted(W, i), t, pending)
  {
    hide Record, WithFate, HistogramAdd;
    var w := W.workers[i];
    if IsActive(W.h, w.scope) {
      Recorded(W.h, w.scope, Attempt(Now(W.h), |w.pc.batch|, w.external));
    }
  }

  lemma ResponseKeepsSix(h: State, scope: nat, usage: Option<ProviderProtocol.Usage>, external: bool, t: Totals,
                         pending: nat)
    requires IsActive(h, scope)
    ensures Matches(Now(h), t, pending) <==> Matches(Now(Record(h, scope, Response(Now(h), usage, external))), t, pending)
  {
    hide Record;
    Recorded(h, scope, Response(Now(h), usage, external));
  }

  lemma CallingTallies(W: World, i: nat, choice: Choice, t: Totals, pending: nat)
    requires i < |W.workers| && W.workers[i].pc.Calling? && Allowed(W, i, choice)
    ensures Tallies(W, i, choice, StepCalling(W, i, choice), t, pending)
  {
    hide Record, Response;
    var w := W.workers[i];
    if IsActive(W.h, w.scope) {
      if choice.Replies? {
        ResponseKeepsSix(W.h, w.scope, choice.usage, w.external, t, pending);
      } else if choice.RepliesBadly? {
        ResponseKeepsSix(W.h, w.scope, choice.reported, w.external, t, pending);
      }
    }
  }

  lemma ReturnedTallies(W: World, i: nat, choice: Choice, t: Totals, pending: nat)
    requires i < |W.workers| && W.workers[i].pc.Returned?
    ensures Tallies(W, i, choice, StepReturned(W, i), t, pending)
  {
    hide AllFail, AllAnswered, Release, Matches;
  }

  lemma FailedIsRecorded(h: State, scope: nat, t: Totals, pending: nat)
    requires IsActive(h, scope) && Matches(Now(h), t, pending + 1)
    ensures Matches(Now(Record(h, scope, FailedRequest(Now(h)))), t, pending)
  {
    hide Record;
    Recorded(h, scope, FailedRequest(Now(h)));
  }

  lemma FailingIs(W: World, i: nat)
    requires i < |W.workers| && W.workers[i].pc.Failing?
    ensures var W' := StepFailing(W, i);
            && i < |W'.workers| && Unrecorded(W'.workers[i]) == 0 && Unrecorded(W.workers[i]) == 1
            && W'.h == Record(W.h, W.workers[i].scope, FailedRequest(Now(W.h)))
  {
    hide Record, AllFail, FailedRequest;
  }

  lemma FailingTallies(W: World, i: nat, choice: Choice, t: Totals, pending: nat)
    requires i < |W.workers| && W.workers[i].pc.Failing?
    ensures Tallies(W, i, choice, StepFailing(W, i), t, pending)
  {
    FailingIs(W, i);
    hide Record, FailedRequest, Matches, StepFailing, Unrecorded, IsActive;
    if IsActive(W.h, W.workers[i].scope) && Matches(Now(W.h), t, pending + 1) {
      FailedIsRecorded(W.h, W.workers[i].scope, t, pending);
    }
  }

  lemma FailureKeepsSix(h: State, scope: nat, external: bool, t: Totals, pending: nat)
    requires IsActive(h, scope)
    ensures Matches(Now(h), t, pending) <==> Matches(Now(Record(h, scope, Failure(Now(h), external))), t, pending)
  {
    hide Record;
    Recorded(h, scope, Failure(Now(h), external));
  }

  lemma FailingUsageTallies(W: World, i: nat, choice: Choice, t: Totals, pending: nat)
    requires i < |W.workers| && W.workers[i].pc.FailingUsage?
    ensures Tallies(W, i, choice, StepFailingUsage(W, i), t, pending)
  {
    hide Record, AllFail, Failure, Matches;
    if IsActive(W.h, W.workers[i].scope) {
      FailureKeepsSix(W.h, W.workers[i].scope, W.workers[i].external, t, pending);
    }
  }

  lemma SettlingTallies(W: World, i: nat, choice: Choice, t: Totals, pending: nat)
    requires i < |W.workers| && W.workers[i].pc.Settling? && Allowed(W, i, choice)
    ensures Tallies(W, i, choice, StepSettling(W, i, choice), t, pending)
  {
    hide Matches;
  }

  lemma WaitingTallies(W: World, i: nat, choice: Choice, t: Totals, pending: nat)
    requires i < |W.workers| && W.workers[i].pc.Waiting? && Ready(W, i)
    ensures Tallies(W, i, choice, StepWaiting(W, i), t, pending)
  {
    hide Matches;
  }

  lemma StepTallies(W: World, i: nat, choice: Choice, t: Totals, pending: nat)
    requires Inv(W) && i < |W.workers| && Allowed(W, i, choice)
    ensures Tallies(W, i, choice, WorkerStep(W, i, choice), t, pending)
  {
    hide Inv, Tallies, StepArriving, StepRecording, StepClaiming, StepGate, StepClaimed, StepLooking, StepHit,
         StepPlanning, StepAcquiring, StepGranted, StepCalling, StepReturned, StepFailing, StepFailingUsage, StepSettling,
         StepWaiting;
    match W.workers[i].pc
    case Arriving => ArrivingTallies(W, i, choice, t, pending);
    case Recording => RecordingTallies(W, i, choice, t, pending);
    case Claiming =>
      if choice.GateFails? { GateTallies(W, i, choice, t, pending); } else { ClaimingTallies(W, i, choice, t, pending); }
    case Claimed(_, _) => ClaimedTallies(W, i, choice, t, pending);
    case Looking(_) => LookingTallies(W, i, choice, t, pending);
    case HitRecorded(_, _) => HitTallies(W, i, choice, t, pending);
    case Planning => PlanningTallies(W, i, choice, t, pending);
    case Acquiring(_) => AcquiringTallies(W, i, choice, t, pending);
    case Granted(_) => GrantedTallies(W, i, choice, t, pending);
    case Calling(_) => CallingTallies(W, i, choice, t, pending);
    case Returned(_, _, _) => ReturnedTallies(W, i, choice, t, pending);
    case Failing(_, _) => FailingTallies(W, i, choice, t, pending);
    case FailingUsage(_) => FailingUsageTallies(W, i, choice, t, pending);
    case Settling(_, _) => SettlingTallies(W, i, choice, t, pending);
    case Waiting(_) => WaitingTallies(W, i, choice, t, pending);
  }

  // ---- Whole runs

  lemma WorkTotals(W: World, i: nat, choice: Choice, t: Totals, q: nat)
    requires Inv(W) && TotalsOk(W, t, q) && i < |W.workers| && Allowed(W, i, choice)
    ensures TotalsOk(WorkerStep(W, i, choice), if W.workers[i].scope == q then Plus(t, W.workers[i], choice) else t, q)
  {
    StepMoves(W, i, choice);
    ScopeBelow(W, i);
    hide Inv, WorkerStep, Allowed, Plus, Matches, Pending, Unrecorded, SameChunk;
    var w, W' := W.workers[i], WorkerStep(W, i, choice);
    PendingUpdate(W.workers, i, W'.workers[i], q);
    assert IsActive(W'.h, q) ==> IsActive(W.h, q);
    if w.scope == q {
      PendingHas(W.workers, i, q);
      StepTallies(W, i, choice, t, Pending(W.workers, q) - Unrecorded(w));
    }
  }

  lemma {:induction false} PendingHas(workers: seq<Worker>, i: nat, q: nat)
    requires i < |workers| && workers[i].scope == q
    ensures Pending(workers, q) >= Unrecorded(workers[i])
  {
    hide Unrecorded;
    if i < |workers| - 1 {
      PendingHas(workers[..|workers| - 1], i, q);
    }
  }

  lemma BeginTotals(W: World, t: Totals, q: nat)
    requires Inv(W) && TotalsOk(W, t, q)
    ensures TotalsOk(W.(h := Begin(W.h)), t, q)
  {
    if q == W.h.nextQuery {
      forall j | 0 <= j < |W.workers| ensures W.workers[j].scope != q {
        ScopeBelow(W, j);
      }
      NonePending(W.workers, q);
    }
  }

  lemma SpawnTotals(W: World, w: Worker, t: Totals, q: nat)
    requires TotalsOk(W, t, q) && Newcomer(W, w)
    ensures TotalsOk(W.(workers := W.workers + [w]), t, q)
  {
    assert (W.workers + [w])[..|W.workers + [w]| - 1] == W.workers;
  }

  lemma EndTotals(W: World, outcome: QueryOutcome, t: Totals, q: nat)
    requires TotalsOk(W, t, q)
    ensures TotalsOk(W.(h := End(W.h, outcome)), t, q)
  {
  }

  lemma {:induction false} ReachableTotals(actions: seq<Action>, q: nat)
    requires Exec(actions).Some?
    ensures TotalsOk(Exec(actions).value, TotalsOf(actions, q), q)
  {
    if actions != [] {
      hide Inv, WorkerStep, TotalsOk, Plus, Begin, Allowed;
      var init, a := actions[..|actions| - 1], actions[|actions| - 1];
      ReachableTotals(init, q);
      ReachableInv(init);
      var W, t := Exec(init).value, TotalsOf(init, q);
      match a
      case BeginQuery => BeginTotals(W, t, q);
      case EndQuery(outcome) => EndTotals(W, outcome, t, q);
      case Spawn(w) => SpawnTotals(W, w, t, q);
      case Work(i, choice) => WorkTotals(W, i, choice, t, q);
    } else {
      NothingYet(q);
    }
  }

  lemma NothingYet(q: nat)
    ensures TotalsOk(START, NONE, q)
  {
  }

  /** At every state of a query its counters are the totals of its run: every row that arrived, every row
      read, every call and every batch; and every failed request, but for those whose worker has yet to
      record it. */
  lemma CountersAreTotals(actions: seq<Action>, q: nat)
    requires Exec(actions).Some? && IsActive(Exec(actions).value.h, q)
    ensures var c, t := Exec(actions).value.h.active.value.counts, TotalsOf(actions, q);
            && c.inputRows == t.input && c.nullRows == t.nulls && c.validRows == t.valid
            && c.providerInvocations == t.calls && c.batchedRequests == t.batched
            && c.failedRequests + Pending(Exec(actions).value.workers, q) == t.failed
  {
    ReachableTotals(actions, q);
    hide Exec, TotalsOf, Pending;
  }
}
