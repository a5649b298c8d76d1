/** Token usage over whole runs: what the counters say against what was really sent and returned. */
module ProtocolUsage {
  import opened Text
  import opened Judgment
  import opened Host
  import opened Metrics
  import opened Protocol
  import opened ProtocolInv
  import opened ProtocolSteps
  import opened ProtocolCounters
  import opened Histogram
  import ProviderProtocol

  /** What happened to the external requests of one query: how many were sent, how many replies had
      both token counts, how many lacked one, how many calls returned no reply; and the tokens. */
  datatype Tally = Tally(sent: nat, full: nat, partial: nat, failed: nat, input: nat, output: nat)

  const NOTHING := Tally(0, 0, 0, 0, 0, 0)

  predicate HasBoth(usage: Option<ProviderProtocol.Usage>) {
    usage.Some? && usage.value.inputTokens.Some? && usage.value.outputTokens.Some?
  }

  function Reply(t: Tally, usage: Option<ProviderProtocol.Usage>): Tally {
    if HasBoth(usage) then
      t.(full := t.full + 1, input := t.input + usage.value.inputTokens.value,
         output := t.output + usage.value.outputTokens.value)
    else t.(partial := t.partial + 1)
  }

  function Note(t: Tally, w: Worker, choice: Choice): Tally {
    if w.pc.Granted? then t.(sent := t.sent + 1)
    else if w.pc.Calling? then
      match choice
      case Replies(_, usage) => Reply(t, usage)
      case RepliesBadly(usage) => Reply(t, usage)
      case _ => t.(failed := t.failed + 1)
    else t
  }

  /** Everything that happened to query `q`'s external requests, counted from the run itself. */
  function TallyOf(actions: seq<Action>, q: nat): Tally
    requires Exec(actions).Some?
  {
    if actions == [] then NOTHING
    else
      var init, a := actions[..|actions| - 1], actions[|actions| - 1];
      var W := Exec(init).value;
      var t := TallyOf(init, q);
      if a.Work? && W.workers[a.i].scope == q && W.workers[a.i].external then Note(t, W.workers[a.i], a.choice) else t
  }

  // ---- Requests under way

  function InCall(w: Worker): nat { if w.external && w.pc.Calling? then 1 else 0 }

  /** A call that returned nothing and whose failure is still to be recorded. */
  function Unreported(w: Worker): nat {
    if w.external && ((w.pc.Returned? && !w.pc.received) || (w.pc.Failing? && !w.pc.received) || w.pc.FailingUsage?)
    then 1 else 0
  }

  function Calls(workers: seq<Worker>, q: nat): nat {
    if workers == [] then 0
    else
      var w := workers[|workers| - 1];
      Calls(workers[..|workers| - 1], q) + (if w.scope == q then InCall(w) else 0)
  }

  function Owing(workers: seq<Worker>, q: nat): nat {
    if workers == [] then 0
    else
      var w := workers[|workers| - 1];
      Owing(workers[..|workers| - 1], q) + (if w.scope == q then Unreported(w) else 0)
  }

  lemma {:induction false} UnderWayUpdate(workers: seq<Worker>, i: nat, w: Worker, q: nat)
    requires i < |workers| && w.scope == workers[i].scope
    ensures Calls(workers[i := w], q) + (if w.scope == q then InCall(workers[i]) else 0)
         == Calls(workers, q) + (if w.scope == q then InCall(w) else 0)
    ensures Owing(workers[i := w], q) + (if w.scope == q then Unreported(workers[i]) else 0)
         == Owing(workers, q) + (if w.scope == q then Unreported(w) else 0)
  {
    hide InCall, Unreported;
    var n := |workers| - 1;
    if i < n {
      UnderWayUpdate(workers[..n], i, w, q);
      assert workers[i := w][..n] == workers[..n][i := w];
    } else {
      assert workers[i := w][..n] == workers[..n];
    }
  }

  lemma {:induction false} NoneUnderWay(workers: seq<Worker>, q: nat)
    requires forall j :: 0 <= j < |workers| ==> workers[j].scope != q
    ensures Calls(workers, q) == 0 && Owing(workers, q) == 0
  {
    if workers != [] {
      NoneUnderWay(workers[..|workers| - 1], q);
    }
  }

  // ---- The counters against the tally

  function SumIf(n: nat, sum: nat): Option<nat> { if n == 0 then None else Some(sum) }

  /** The active query's counters, less what is under way, are the tally. */
  predicate Reconciled(c: Counts, t: Tally, calls: nat, owing: nat) {
    && c.externalRequests == t.sent
    && c.usageResponses == t.full + t.partial
    && c.usageMissing + owing == t.partial + t.failed && owing <= t.failed
    && t.sent == t.full + t.partial + t.failed + calls
    && c.inputTokens == SumIf(t.full, t.input)
    && c.outputTokens == SumIf(t.full, t.output)
    && (t.full == 0 ==> t.input == 0 && t.output == 0)
  }

  predicate UsageOk(W: World, t: Tally, q: nat) {
    && (q >= W.h.nextQuery ==> t == NOTHING)
    && t.sent == t.full + t.partial + t.failed + Calls(W.workers, q)
    && (IsActive(W.h, q) ==>
          Reconciled(W.h.active.value.counts, t, Calls(W.workers, q), Owing(W.workers, q)))
  }

  /** The counters of usage. */
  predicate SameUsage(c: Counts, c': Counts) {
    && c'.externalRequests == c.externalRequests && c'.usageResponses == c.usageResponses
    && c'.usageMissing == c.usageMissing && c'.inputTokens == c.inputTokens && c'.outputTokens == c.outputTokens
  }

  /** A step without a request or a reply. */
  ghost predicate NoRequest(W: World, i: nat, W': World)
    requires i < |W.workers|
  {
    && OneMoved(W, i, W')
    && QuietUsage(W, i, W')
  }

  /** Only worker `i` moved, and it was given a permit only if its query runs. */
  predicate OneMoved(W: World, i: nat, W': World)
    requires i < |W.workers|
  {
    && |W'.workers| == |W.workers| && W'.workers == W.workers[i := W'.workers[i]]
    && SameChunk(W.workers[i], W'.workers[i])
    && SameQueries(W.h, W'.h, W.workers[i].scope)
    && (W'.workers[i].pc.Granted? ==> W.workers[i].scope !in W.h.cancelled)
  }

  predicate QuietUsage(W: World, i: nat, W': World)
    requires i < |W.workers|
  {
    && i < |W'.workers|
    && InCall(W'.workers[i]) == InCall(W.workers[i]) && Unreported(W'.workers[i]) == Unreported(W.workers[i])
    && SameUsage(Now(W.h), Now(W'.h))
  }

  lemma StepMoves(W: World, i: nat, choice: Choice)
    requires i < |W.workers| && Allowed(W, i, choice)
    ensures OneMoved(W, i, WorkerStep(W, i, choice))
  {
    StepIsShaped(W, i, choice);
    hide WorkerStep, Allowed, EffectOf, SameChunk, SameQueries, EntriesMove;
  }

  lemma NoRequestKeeps(W: World, i: nat, W': World, t: Tally, q: nat)
    requires UsageOk(W, t, q) && i < |W.workers| && NoRequest(W, i, W')
    ensures UsageOk(W', t, q)
  {
    hide Calls, Owing, InCall, Unreported;
    UnderWayUpdate(W.workers, i, W'.workers[i], q);
  }

  // The steps without a request or a reply.

  lemma RecordedUsage(h: State, scope: nat, counts: Counts)
    requires SameUsage(Now(h), counts)
    ensures SameUsage(Now(h), Now(Record(h, scope, counts)))
  {
  }

  lemma ArrivingUsage(W: World, i: nat)
    requires i < |W.workers| && W.workers[i].pc.Arriving?
    ensures QuietUsage(W, i, StepArriving(W, i))
  {
    hide Record;
    var w := W.workers[i];
    RecordedUsage(W.h, w.scope, OptimizedRows(Now(W.h), w.rows, 0, 0, 0));
  }

  lemma RecordingUsage(W: World, i: nat, choice: Choice)
    requires i < |W.workers| && W.workers[i].pc.Recording?
    ensures QuietUsage(W, i, StepRecording(W, i, choice))
  {
    hide Record;
    var w := W.workers[i];
    RecordedUsage(W.h, w.scope, OptimizedRows(Now(W.h), 0, SaturatingSub(w.rows, w.validRows), w.validRows, |w.groups|));
  }

  lemma GateUsage(W: World, i: nat)
    requires i < |W.workers| && W.workers[i].pc.Claiming? && W.workers[i].next < |W.workers[i].groups|
    ensures QuietUsage(W, i, StepGate(W, i))
  {
  }

  lemma ClaimLeavesUsage(h: State, scope: nat, id: Identity)
    ensures SameUsage(Now(h), Now(AfterClaim(h, scope, id)))
  {
    hide Record;
    RecordedUsage(h, scope, Now(h).(deduplicatedRows := Now(h).deduplicatedRows + 1));
    RecordedUsage(h, scope, Now(h).(uniqueJudgments := Now(h).uniqueJudgments + 1));
  }

  lemma ClaimingUsage(W: World, i: nat)
    requires i < |W.workers| && W.workers[i].pc.Claiming? && W.workers[i].next < |W.workers[i].groups|
    ensures QuietUsage(W, i, StepClaiming(W, i))
  {
    hide AfterClaim, ClaimResult, SameUsage;
    var w := W.workers[i];
    ClaimLeavesUsage(W.h, w.scope, w.groups[w.next]);
    SameAsItself(Now(W.h));
  }

  lemma SameAsItself(c: Counts)
    ensures SameUsage(c, c)
  {
  }

  lemma ClaimedUsage(W: World, i: nat)
    requires i < |W.workers| && W.workers[i].pc.Claimed?
    ensures QuietUsage(W, i, StepClaimed(W, i))
  {
    hide IsActive;
  }

  lemma LookingUsage(W: World, i: nat, choice: Choice)
    requires i < |W.workers| && W.workers[i].pc.Looking?
    ensures QuietUsage(W, i, StepLooking(W, i, choice))
  {
    hide Record, WithFate, AllFail;
    var w := W.workers[i];
    RecordedUsage(W.h, w.scope, CacheHit(Now(W.h)));
  }

  lemma HitUsage(W: World, i: nat)
    requires i < |W.workers| && W.workers[i].pc.HitRecorded?
    ensures QuietUsage(W, i, StepHit(W, i))
  {
  }

  lemma FailingCarriesNone(w: Worker, b: set<nat>)
    ensures InCall(FailAll(w, b)) == 0 && Unreported(FailAll(w, b)) == 0
  {
    hide AllFail;
  }

  lemma PlanningUsage(W: World, i: nat, choice: Choice)
    requires i < |W.workers| && W.workers[i].pc.Planning? && Allowed(W, i, choice)
    ensures QuietUsage(W, i, StepPlanning(W, i, choice))
  {
    hide FailAll, SameUsage;
    FailingCarriesNone(W.workers[i], {});
    SameAsItself(Now(W.h));
  }

  lemma AcquiringUsage(W: World, i: nat)
    requires i < |W.workers| && W.workers[i].pc.Acquiring? && Ready(W, i)
    ensures QuietUsage(W, i, StepAcquiring(W, i))
  {
    hide AllFail, Acquire;
  }

  lemma ReturnedUsage(W: World, i: nat)
    requires i < |W.workers| && W.workers[i].pc.Returned? && Shaped(W.workers[i])
    ensures QuietUsage(W, i, StepReturned(W, i))
  {
    hide AllFail, AllAnswered, Release;
  }

  lemma FailingQuietUsage(W: World, i: nat)
    requires i < |W.workers| && W.workers[i].pc.Failing?
    ensures QuietUsage(W, i, StepFailing(W, i))
  {
    hide Record, AllFail;
    var w := W.workers[i];
    RecordedUsage(W.h, w.scope, FailedRequest(Now(W.h)));
  }

  lemma SettlingUsage(W: World, i: nat, choice: Choice)
    requires i < |W.workers| && W.workers[i].pc.Settling? && Allowed(W, i, choice)
    ensures QuietUsage(W, i, StepSettling(W, i, choice))
  {
  }

  lemma WaitingUsage(W: World, i: nat)
    requires i < |W.workers| && W.workers[i].pc.Waiting? && Ready(W, i)
    ensures QuietUsage(W, i, StepWaiting(W, i))
  {
  }

  // The three steps that count.

  lemma GrantedUsage(W: World, i: nat, t: Tally, q: nat, choice: Choice)
    requires Inv(W) && UsageOk(W, t, q) && i < |W.workers| && W.workers[i].pc.Granted?
    ensures var w := W.workers[i];
            UsageOk(StepGranted(W, i), if w.scope == q && w.external then Note(t, w, choice) else t, q)
  {
    hide Inv, Calls, Owing, WithFate, HistogramAdd;
    ScopeBelow(W, i);
    UnderWayUpdate(W.workers, i, StepGranted(W, i).workers[i], q);
  }

  lemma ScopeBelow(W: World, i: nat)
    requires Inv(W) && i < |W.workers|
    ensures W.workers[i].scope < W.h.nextQuery
  {
    assert WorkerOk(W.h, W.meta, W.workers[i], i);
  }

  lemma ReplyReconciles(c: Counts, t: Tally, calls: nat, owing: nat, usage: Option<ProviderProtocol.Usage>)
    requires Reconciled(c, t, calls, owing) && calls > 0
    ensures Reconciled(Response(c, usage, true), Reply(t, usage), calls - 1, owing)
  {
  }

  lemma RepliedUsage(W: World, i: nat, t: Tally, q: nat, choice: Choice, usage: Option<ProviderProtocol.Usage>)
    requires Inv(W) && UsageOk(W, t, q) && i < |W.workers| && W.workers[i].pc.Calling? && Allowed(W, i, choice)
    requires (choice.Replies? && usage == choice.usage) || (choice.RepliesBadly? && usage == choice.reported)
    ensures var w := W.workers[i];
            UsageOk(StepCalling(W, i, choice), if w.scope == q && w.external then Reply(t, usage) else t, q)
  {
    hide Inv, Calls, Owing, Reply, Response, Reconciled;
    var w, w' := W.workers[i], StepCalling(W, i, choice).workers[i];
    ScopeBelow(W, i);
    UnderWayUpdate(W.workers, i, w', q);
    assert Unreported(w') == 0 == Unreported(w) && InCall(w') == 0;
    ReplyIsOne(t, usage);
    if IsActive(W.h, q) && w.scope == q {
      var c := W.h.active.value.counts;
      if w.external {
        ReplyReconciles(c, t, Calls(W.workers, q), Owing(W.workers, q), usage);
      } else {
        assert Response(c, usage, false) == c by { LocalReply(c, usage); }
      }
    }
  }

  lemma ReplyIsOne(t: Tally, usage: Option<ProviderProtocol.Usage>)
    ensures var t' := Reply(t, usage);
            t'.sent == t.sent && t'.full + t'.partial == t.full + t.partial + 1 && t'.failed == t.failed
  {
  }

  lemma LocalReply(c: Counts, usage: Option<ProviderProtocol.Usage>)
    ensures Response(c, usage, false) == c
  {
  }

  lemma CallingUsage(W: World, i: nat, t: Tally, q: nat, choice: Choice)
    requires Inv(W) && UsageOk(W, t, q) && i < |W.workers| && W.workers[i].pc.Calling? && Allowed(W, i, choice)
    ensures var w := W.workers[i];
            UsageOk(StepCalling(W, i, choice), if w.scope == q && w.external then Note(t, w, choice) else t, q)
  {
    hide Inv, Calls, Owing, Reply, Response;
    if choice.Replies? {
      RepliedUsage(W, i, t, q, choice, choice.usage);
    } else if choice.RepliesBadly? {
      RepliedUsage(W, i, t, q, choice, choice.reported);
    } else {
      ScopeBelow(W, i);
      UnderWayUpdate(W.workers, i, StepCalling(W, i, choice).workers[i], q);
    }
  }

  lemma FailingUsageUsage(W: World, i: nat, t: Tally, q: nat)
    requires UsageOk(W, t, q) && i < |W.workers| && W.workers[i].pc.FailingUsage?
    ensures UsageOk(StepFailingUsage(W, i), t, q)
  {
    hide Calls, Owing, AllFail;
    UnderWayUpdate(W.workers, i, StepFailingUsage(W, i).workers[i], q);
  }

  lemma WorkUsage(W: World, i: nat, choice: Choice, t: Tally, q: nat)
    requires Inv(W) && UsageOk(W, t, q) && i < |W.workers| && Allowed(W, i, choice)
    ensures var w := W.workers[i];
            UsageOk(WorkerStep(W, i, choice), if w.scope == q && w.external then Note(t, w, choice) else t, q)
  {
    hide Inv, UsageOk, NoRequest, StepArriving, StepRecording, StepClaiming, StepGate, StepClaimed, StepLooking, StepHit,
         StepPlanning, StepAcquiring, StepGranted, StepCalling, StepReturned, StepFailing, StepFailingUsage,
         StepSettling, StepWaiting;
    match W.workers[i].pc
    case Granted(_) => GrantedUsage(W, i, t, q, choice);
    case Calling(_) => CallingUsage(W, i, t, q, choice);
    case FailingUsage(_) => FailingUsageUsage(W, i, t, q);
    case _ =>
      OthersNoRequest(W, i, choice);
      NoRequestKeeps(W, i, WorkerStep(W, i, choice), t, q);
  }

  lemma OthersNoRequest(W: World, i: nat, choice: Choice)
    requires Inv(W) && i < |W.workers| && Allowed(W, i, choice)
    requires var pc := W.workers[i].pc; !pc.Granted? && !pc.Calling? && !pc.FailingUsage?
    ensures NoRequest(W, i, WorkerStep(W, i, choice))
  {
    StepMoves(W, i, choice);
    OwedFacts(W.h, W.meta, W.workers[i], i);
    hide Inv, OneMoved, QuietUsage, Shaped, StepArriving, StepRecording, StepClaiming, StepGate, StepClaimed, StepLooking,
         StepHit, StepPlanning, StepAcquiring, StepReturned, StepFailing, StepSettling, StepWaiting;
    match W.workers[i].pc
    case Arriving => ArrivingUsage(W, i);
    case Recording => RecordingUsage(W, i, choice);
    case Claiming => if choice.GateFails? { GateUsage(W, i); } else { ClaimingUsage(W, i); }
    case Claimed(_, _) => ClaimedUsage(W, i);
    case Looking(_) => LookingUsage(W, i, choice);
    case HitRecorded(_, _) => HitUsage(W, i);
    case Planning => PlanningUsage(W, i, choice);
    case Acquiring(_) => AcquiringUsage(W, i);
    case Returned(_, _, _) => ReturnedUsage(W, i);
    case Failing(_, _) => FailingQuietUsage(W, i);
    case Settling(_, _) => SettlingUsage(W, i, choice);
    case Waiting(_) => WaitingUsage(W, i);
    case _ =>
  }

  lemma BeginUsage(W: World, t: Tally, q: nat)
    requires Inv(W) && UsageOk(W, t, q)
    ensures UsageOk(W.(h := Begin(W.h)), t, q)
  {
    if q == W.h.nextQuery {
      forall j | 0 <= j < |W.workers| ensures W.workers[j].scope != q {
        ScopeBelow(W, j);
      }
      NoneUnderWay(W.workers, q);
    }
  }

  lemma SpawnUsage(W: World, w: Worker, t: Tally, q: nat)
    requires UsageOk(W, t, q) && Newcomer(W, w)
    ensures UsageOk(W.(workers := W.workers + [w]), t, q)
  {
    assert (W.workers + [w])[..|W.workers + [w]| - 1] == W.workers;
  }

  lemma {:induction false} ReachableUsage(actions: seq<Action>, q: nat)
    requires Exec(actions).Some?
    ensures UsageOk(Exec(actions).value, TallyOf(actions, q), q)
  {
    if actions != [] {
      hide Inv, WorkerStep, UsageOk, Note, Begin, Allowed;
      var init, a := actions[..|actions| - 1], actions[|actions| - 1];
      ReachableUsage(init, q);
      ReachableInv(init);
      var W, t := Exec(init).value, TallyOf(init, q);
      match a
      case BeginQuery => BeginUsage(W, t, q);
      case EndQuery(outcome) => EndUsage(W, outcome, t, q);
      case Spawn(w) => SpawnUsage(W, w, t, q);
      case Work(i, choice) => WorkUsage(W, i, choice, t, q);
    }
  }

  lemma EndUsage(W: World, outcome: QueryOutcome, t: Tally, q: nat)
    requires UsageOk(W, t, q)
    ensures UsageOk(W.(h := End(W.h, outcome)), t, q)
  {
  }

  // ---- What a profile says

  /** Every request sent so far was answered with both token counts. */
  predicate AllAccounted(t: Tally) { t.sent > 0 && t.full == t.sent }

  lemma ReconciledUsage(c: Counts, t: Tally, calls: nat, owing: nat)
    requires Reconciled(c, t, calls, owing)
    ensures UsageComplete(c) <==> AllAccounted(t)
    ensures UsageComplete(c) ==> c.inputTokens.Some?
    ensures UsageInput(c) == if AllAccounted(t) then Some(t.input) else None
    ensures UsageOutput(c) == if AllAccounted(t) then Some(t.output) else None
  {
  }

  /** Usage is reported as complete exactly when requests were sent and every one came back with both
      token counts; then the tokens are the exact sums over all of them. */
  lemma UsageIsExact(actions: seq<Action>, q: nat)
    requires Exec(actions).Some? && IsActive(Exec(actions).value.h, q)
    ensures var c, t := Exec(actions).value.h.active.value.counts, TallyOf(actions, q);
            && (UsageComplete(c) <==> AllAccounted(t)) && (UsageComplete(c) ==> c.inputTokens.Some?)
            && UsageInput(c) == (if AllAccounted(t) then Some(t.input) else None)
            && UsageOutput(c) == (if AllAccounted(t) then Some(t.output) else None)
  {
    ReachableUsage(actions, q);
    hide Exec, TallyOf, Calls, Owing, UsageComplete, UsageInput, UsageOutput, AllAccounted;
    var W := Exec(actions).value;
    ReconciledUsage(W.h.active.value.counts, TallyOf(actions, q), Calls(W.workers, q), Owing(W.workers, q));
  }

  /** A cost is never computed from a partial sum: whenever there is one, every request sent so far
      was answered with its tokens, none failed, and the cost is the rate times their exact sum. */
  lemma CostIsOfEveryRequest(actions: seq<Action>, q: nat, provider: Option<string>)
    requires Exec(actions).Some? && IsActive(Exec(actions).value.h, q)
    ensures var c, t := Exec(actions).value.h.active.value.counts, TallyOf(actions, q);
            CostAmount(provider, c)
            == if provider == TYPESAFE && c.failedRequests == 0 && AllAccounted(t)
               then Some(Price(t.input)) else None
  {
    UsageIsExact(actions, q);
    hide Exec, TallyOf, UsageComplete, AllAccounted, CostUnknownReason, Price;
    var c := Exec(actions).value.h.active.value.counts;
    CostKnownIff(provider, c);
  }

  /** One more action, in the run and in the tally. */
  lemma TallySnoc(actions: seq<Action>, a: Action, q: nat)
    requires Exec(actions).Some? && Possible(Exec(actions).value, a)
    ensures var W, t := Exec(actions).value, TallyOf(actions, q);
            && Exec(actions + [a]) == Some(Step(W, a))
            && TallyOf(actions + [a], q)
               == if a.Work? && W.workers[a.i].scope == q && W.workers[a.i].external then Note(t, W.workers[a.i], a.choice)
                  else t
  {
    hide Step, Possible, Note;
    assert (actions + [a])[..|actions|] == actions;
  }
}
