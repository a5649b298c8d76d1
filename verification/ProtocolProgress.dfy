/** Progress of the query protocol: worker steps run out, and the only workers that can be stuck are
    those waiting for an entry whose leader left early, until the query ends. */
module ProtocolProgress {
  import opened Text
  import opened Judgment
  import opened Host
  import opened Protocol
  import opened ProtocolInv
  import opened ProtocolSteps
  import opened ProtocolSafety
  import opened ProviderProtocol

  // ---- A measure every worker step decreases

  function PcRank(pc: Pc): nat {
    match pc
    case Arriving => 101
    case Recording => 100
    case Claiming => 2
    case Claimed(_, _) => 30
    case Looking(_) => 28
    case HitRecorded(_, _) => 26
    case Planning => 3
    case Acquiring(b) => 2 * |b| + 11
    case Granted(b) => 2 * |b| + 10
    case Calling(b) => 2 * |b| + 9
    case Returned(b, _, _) => 2 * |b| + 8
    case Failing(b, _) => 2 * |b| + 7
    case FailingUsage(b) => 2 * |b| + 6
    case Settling(outcomes, _) => |outcomes| + 4
    case Waiting(_) => 5
    case Done(_) => 0
  }

  /** An upper bound on the steps worker `w` can still take. */
  function Rank(w: Worker): nat {
    40 * (if w.next <= |w.groups| then |w.groups| - w.next else 0) + 12 * |w.todo| + 3 * |w.waits| + PcRank(w.pc)
  }

  function TotalRank(workers: seq<Worker>): nat {
    if workers == [] then 0 else TotalRank(workers[..|workers| - 1]) + Rank(workers[|workers| - 1])
  }

  lemma {:induction false} TotalRankUpdate(workers: seq<Worker>, i: nat, w: Worker)
    requires i < |workers|
    ensures TotalRank(workers[i := w]) == TotalRank(workers) - Rank(workers[i]) + Rank(w)
    ensures Rank(workers[i]) <= TotalRank(workers)
  {
    var n := |workers| - 1;
    if i < n {
      TotalRankUpdate(workers[..n], i, w);
      assert workers[i := w][..n] == workers[..n][i := w];
    } else {
      assert workers[i := w][..n] == workers[..n];
    }
  }

  /** Only worker `i` changed, and it came closer to its end. */
  predicate Closer(W: World, i: nat, W': World)
    requires i < |W.workers|
  {
    && |W'.workers| == |W.workers| && W'.workers == W.workers[i := W'.workers[i]]
    && Rank(W'.workers[i]) < Rank(W.workers[i])
  }

  lemma UnionSize<T>(a: set<T>, b: set<T>)
    ensures |a + b| <= |a| + |b|
  {
    assert a + b == a + (b - a);
    assert |b - a| <= |b| by { SubsetSize(b - a, b); }
  }

  lemma SubsetSize<T>(a: set<T>, b: set<T>)
    requires a <= b
    ensures |a| <= |b| && |b - a| == |b| - |a|
  {
    assert b == a + (b - a);
  }

  lemma AllFailSize(entries: set<nat>)
    ensures |AllFail(entries)| == |entries|
  {
    assert AllFail(entries).Keys == entries;
  }

  lemma FailAllRank(w: Worker, b: set<nat>)
    ensures Rank(FailAll(w, b)) <= Rank(w) - PcRank(w.pc) - 11 * |w.todo| + |b| + 4
  {
    AllFailSize(b + w.todo);
    UnionSize(b, w.todo);
  }

  lemma ResumeRank(w: Worker)
    ensures PcRank(Resume(w)) <= 3
  {
  }

  lemma LeaveRank(w: Worker, held: set<nat>, early: bool)
    ensures Rank(Leave(w, held, early)) <= Rank(w) - PcRank(w.pc)
  {
  }

  lemma ArrivingCloser(W: World, i: nat)
    requires i < |W.workers| && W.workers[i].pc.Arriving?
    ensures Closer(W, i, StepArriving(W, i))
  {
    hide Record, OptimizedRows;
  }

  lemma RecordingCloser(W: World, i: nat, choice: Choice)
    requires i < |W.workers| && W.workers[i].pc.Recording?
    ensures Closer(W, i, StepRecording(W, i, choice))
  {
    hide Record, OptimizedRows;
  }

  lemma GateCloser(W: World, i: nat)
    requires i < |W.workers| && W.workers[i].pc.Claiming?
    ensures Closer(W, i, StepGate(W, i))
  {
  }

  lemma ClaimRank(w: Worker, e: nat, leads: bool)
    requires w.pc.Claiming? && w.next < |w.groups|
    ensures Rank(w.(next := w.next + 1, pc := Claimed(e, leads))) < Rank(w)
  {
  }

  lemma ClaimingCloser(W: World, i: nat)
    requires i < |W.workers| && W.workers[i].pc.Claiming? && W.workers[i].next < |W.workers[i].groups|
    ensures Closer(W, i, StepClaiming(W, i))
  {
    hide ClaimResult, AfterClaim, Rank, Leave;
    var w := W.workers[i];
    LeaveRank(w, w.todo, w.early);
    assert PcRank(w.pc) == 2;
    match ClaimResult(W.h, w.scope, w.groups[w.next])
    case NotActive =>
    case Follows(e) => ClaimRank(w, e, false);
    case Leads(e) => ClaimRank(w, e, true);
  }

  lemma ClaimedCloser(W: World, i: nat)
    requires i < |W.workers| && W.workers[i].pc.Claimed?
    ensures Closer(W, i, StepClaimed(W, i))
  {
    hide IsActive, Resume, Leave;
    var w := W.workers[i];
    ResumeRank(w);
    LeaveRank(w, w.todo + (if w.pc.leads then {w.pc.entry} else {}), w.early);
  }

  lemma LookingCloser(W: World, i: nat, choice: Choice)
    requires i < |W.workers| && W.workers[i].pc.Looking?
    ensures Closer(W, i, StepLooking(W, i, choice))
  {
    hide Record, CacheHit, WithFate, AllFail;
    var w := W.workers[i];
    UnionSize(w.todo, {w.pc.entry});
    AllFailSize({w.pc.entry});
  }

  lemma HitCloser(W: World, i: nat)
    requires i < |W.workers| && W.workers[i].pc.HitRecorded?
    ensures Closer(W, i, StepHit(W, i))
  {
    hide Complete;
  }

  lemma SendRank(w: Worker, b: set<nat>)
    requires w.pc.Planning? && b != {} && b <= w.todo
    ensures Rank(w.(todo := w.todo - b, pc := Acquiring(b))) < Rank(w)
  {
    SubsetSize(b, w.todo);
    assert |b| > 0;
  }

  lemma GiveUpRank(w: Worker)
    requires w.pc.Planning? && w.todo != {}
    ensures Rank(FailAll(w, {})) < Rank(w)
  {
    hide FailAll, Rank;
    FailAllRank(w, {});
    assert |w.todo| > 0;
  }

  lemma AfterPlanningRank(w: Worker)
    requires w.pc.Planning?
    ensures w.waits != [] ==> Rank(w.(waits := w.waits[1..], pc := Waiting(w.waits[0]))) < Rank(w)
    ensures Rank(w.(pc := Claiming)) < Rank(w) && Rank(w.(pc := Done(true))) < Rank(w)
  {
  }

  lemma PlanningCloser(W: World, i: nat, choice: Choice)
    requires i < |W.workers| && W.workers[i].pc.Planning? && Allowed(W, i, choice)
    ensures Closer(W, i, StepPlanning(W, i, choice))
  {
    hide FailAll, Rank;
    var w := W.workers[i];
    if w.todo == {} {
      AfterPlanningRank(w);
    } else if choice.Sends? {
      SendRank(w, choice.batch);
    } else {
      GiveUpRank(w);
    }
  }

  lemma PermitCloser(W: World, i: nat)
    requires i < |W.workers| && W.workers[i].pc.Acquiring?
    ensures Closer(W, i, StepAcquiring(W, i))
  {
    hide FailAll, Acquire;
    FailAllRank(W.workers[i], W.workers[i].pc.batch);
  }

  lemma CallCloser(W: World, i: nat, choice: Choice)
    requires i < |W.workers| && Allowed(W, i, choice)
    ensures W.workers[i].pc.Granted? ==> Closer(W, i, StepGranted(W, i))
    ensures W.workers[i].pc.Calling? ==> Closer(W, i, StepCalling(W, i, choice))
  {
    hide Record, Attempt, Response, WithFate;
  }

  lemma ReturnedCloser(W: World, i: nat)
    requires i < |W.workers| && W.workers[i].pc.Returned? && Shaped(W.workers[i])
    ensures Closer(W, i, StepReturned(W, i))
  {
    hide FailAll, Release;
    var w := W.workers[i];
    FailAllRank(w, w.pc.batch);
    if w.pc.answers.Some? {
      var answers := w.pc.answers.value;
      assert AllAnswered(answers).Keys == w.pc.batch;
      assert |AllAnswered(answers)| == |w.pc.batch|;
    }
  }

  lemma FailCloser(W: World, i: nat)
    requires i < |W.workers|
    ensures W.workers[i].pc.Failing? ==> Closer(W, i, StepFailing(W, i))
    ensures W.workers[i].pc.FailingUsage? ==> Closer(W, i, StepFailingUsage(W, i))
  {
    hide FailAll, Record, FailedRequest, Failure;
    if W.workers[i].pc.Failing? || W.workers[i].pc.FailingUsage? {
      FailAllRank(W.workers[i], W.workers[i].pc.batch);
    }
  }

  lemma SettlingCloser(W: World, i: nat, choice: Choice)
    requires i < |W.workers| && W.workers[i].pc.Settling? && Allowed(W, i, choice)
    ensures Closer(W, i, StepSettling(W, i, choice))
  {
    hide Complete;
    var outcomes := W.workers[i].pc.outcomes;
    if outcomes != map[] {
      var e := choice.entry;
      assert (outcomes - {e}).Keys == outcomes.Keys - {e};
      assert |(outcomes - {e}).Keys| == |outcomes.Keys| - 1;
      assert |outcomes - {e}| == |outcomes| - 1;
    }
  }

  lemma WaitingCloser(W: World, i: nat)
    requires i < |W.workers| && W.workers[i].pc.Waiting? && Ready(W, i)
    ensures Closer(W, i, StepWaiting(W, i))
  {
  }

  lemma WorkComesCloser(W: World, i: nat, choice: Choice)
    requires Inv(W) && i < |W.workers| && Allowed(W, i, choice)
    ensures Closer(W, i, WorkerStep(W, i, choice))
  {
    hide Closer, StepArriving, StepRecording, StepClaiming, StepGate, StepClaimed, StepLooking, StepHit,
         StepPlanning, StepAcquiring, StepGranted, StepCalling, StepReturned, StepFailing, StepFailingUsage,
         StepSettling, StepWaiting, HostOk;
    match W.workers[i].pc
    case Arriving => ArrivingCloser(W, i);
    case Recording => RecordingCloser(W, i, choice);
    case Claiming => if choice.GateFails? { GateCloser(W, i); } else { ClaimingCloser(W, i); }
    case Claimed(_, _) => ClaimedCloser(W, i);
    case Looking(_) => LookingCloser(W, i, choice);
    case HitRecorded(_, _) => HitCloser(W, i);
    case Planning => PlanningCloser(W, i, choice);
    case Acquiring(_) => PermitCloser(W, i);
    case Granted(_) => CallCloser(W, i, choice);
    case Calling(_) => CallCloser(W, i, choice);
    case Returned(_, _, _) =>
      OwedFacts(W.h, W.meta, W.workers[i], i);
      ReturnedCloser(W, i);
    case Failing(_, _) => FailCloser(W, i);
    case FailingUsage(_) => FailCloser(W, i);
    case Settling(_, _) => SettlingCloser(W, i, choice);
    case Waiting(_) => WaitingCloser(W, i);
    case Done(_) =>
  }

  /** How many steps workers take in a run. */
  function WorkSteps(actions: seq<Action>): nat {
    if actions == [] then 0
    else WorkSteps(actions[..|actions| - 1]) + (if actions[|actions| - 1].Work? then 1 else 0)
  }

  /** Without new executions, workers take at most as many further steps as the measure says,
      however they interleave and however many queries begin and end meanwhile. */
  lemma {:induction false} StepsRunOut(actions: seq<Action>, more: seq<Action>)
    requires Exec(actions).Some? && Exec(actions + more).Some?
    requires forall k :: 0 <= k < |more| ==> !more[k].Spawn?
    ensures WorkSteps(more) + TotalRank(Exec(actions + more).value.workers) <= TotalRank(Exec(actions).value.workers)
  {
    hide TotalRank, WorkerStep, Allowed, Inv;
    if more == [] {
      assert actions + more == actions;
    } else {
      var init, a := more[..|more| - 1], more[|more| - 1];
      assert (actions + more)[..|actions + more| - 1] == actions + init;
      StepsRunOut(actions, init);
      ReachableInv(actions + init);
      StepShrinks(Exec(actions + init).value, a);
    }
  }

  lemma StepShrinks(W: World, a: Action)
    requires Inv(W) && Possible(W, a) && !a.Spawn?
    ensures TotalRank(Step(W, a).workers) + (if a.Work? then 1 else 0) <= TotalRank(W.workers)
  {
    hide WorkerStep, Begin, End, TotalRank, Rank, Inv, Allowed;
    match a
    case Work(i, choice) =>
      WorkComesCloser(W, i, choice);
      TotalRankUpdate(W.workers, i, WorkerStep(W, i, choice).workers[i]);
    case _ =>
  }

  // ---- Who can be stuck

  /** A ready worker has a step to take, whatever the cache and the service do. */
  lemma ReadyCanStep(W: World, i: nat) returns (choice: Choice)
    requires Inv(W) && i < |W.workers| && Ready(W, i)
    ensures Allowed(W, i, choice)
  {
    var w := W.workers[i];
    assert WorkerOk(W.h, W.meta, w, i);
    choice := Plain;
    if w.pc.Recording? && w.groups != [] && !MayClaim(w.batched, w.caps) {
      choice := Refused;
    } else if w.pc.Claiming? && w.batched && !Admitted(w.caps, w.groups[w.next]) {
      choice := GateFails;
    } else if w.pc.Planning? && w.todo != {} {
      choice := TooLarge;
    } else if w.pc.Calling? {
      choice := CallFails;
    } else if w.pc.Settling? && w.pc.outcomes != map[] {
      var e :| e in w.pc.outcomes;
      choice := Completes(e);
    }
  }

  /** A worker waiting for another's entry holds no permit and has completed, with successes, every
      entry it leads. */
  lemma WaitersOweNothing(W: World, i: nat, e: nat)
    requires Inv(W) && i < |W.workers| && W.workers[i].pc.Waiting? && e < |W.meta| && W.meta[e].owner == i
    ensures !HoldsPermit(W.workers[i]) && W.h.cells[e].Some? && W.h.cells[e].value.Ok?
  {
    hide HostOk, OneEntry, OwnersOk;
    assert WorkerOk(W.h, W.meta, W.workers[i], i);
  }

  predicate Stuck(W: World) {
    forall i :: 0 <= i < |W.workers| ==> !Ready(W, i)
  }

  lemma StuckPoolIsFree(W: World)
    requires Stuck(W) && PermitsOk(W, 0)
    ensures W.pool.active == 0
  {
    hide Ready;
    if Holders(W.workers) > 0 {
      SomeHolder(W.workers);
      var i :| 0 <= i < |W.workers| && HoldsPermit(W.workers[i]);
      HolderIsReady(W, i);
    }
  }

  lemma HolderIsReady(W: World, i: nat)
    requires i < |W.workers| && HoldsPermit(W.workers[i])
    ensures Ready(W, i)
  {
  }

  /** Worker `i` waits for an entry of the running query whose leader abandoned it early. */
  ghost predicate WaitsOnAbandoned(W: World, i: nat)
    requires i < |W.workers|
  {
    var w := W.workers[i];
    && w.pc.Waiting? && w.pc.entry < |W.meta| && IsActive(W.h, w.scope)
    && var j := W.meta[w.pc.entry].owner;
       j < |W.workers| && W.workers[j].pc == Done(false) && W.workers[j].early && w.pc.entry in W.workers[j].abandoned
  }

  /** When no worker can step, each has finished or waits on an abandoned entry. */
  lemma OnlyAbandonmentBlocks(actions: seq<Action>, i: nat)
    requires Exec(actions).Some? && Stuck(Exec(actions).value) && i < |Exec(actions).value.workers|
    requires !Exec(actions).value.workers[i].pc.Done?
    ensures WaitsOnAbandoned(Exec(actions).value, i)
  {
    hide Exec, HostOk, OneEntry;
    var W := Exec(actions).value;
    ReachableInv(actions);
    PermitsExact(actions, 0);
    StuckPoolIsFree(W);
    var w := W.workers[i];
    assert !Ready(W, i);
    assert WorkerOk(W.h, W.meta, w, i);
    assert w.pc.Waiting?;
    InactiveIsCancelled(W, i);
    var j := W.meta[w.pc.entry].owner;
    assert j < |W.workers| && WorkerOk(W.h, W.meta, W.workers[j], j);
    assert !Ready(W, j);
    assert Owed(W.workers[j]) == {};
  }

  /** A chunk whose capability check fails midway: the first group passes, so it may be claimed, and a
      later one does not. This is known before the execution starts. */
  predicate FailsMidway(w: Worker) {
    && w.batched && w.policyOk && MayClaim(w.batched, w.caps)
    && w.groups != [] && Admitted(w.caps, w.groups[0])
    && exists k :: 0 <= k < |w.groups| && !Admitted(w.caps, w.groups[k])
  }

  lemma AbandoningFailsMidway(W: World, j: nat)
    requires Inv(W) && j < |W.workers| && W.workers[j].early && W.workers[j].abandoned != {}
    ensures FailsMidway(W.workers[j])
  {
    hide HostOk, OneEntry, OwnersOk;
    assert WorkerOk(W.h, W.meta, W.workers[j], j);
  }

  ghost predicate NoneMidway(workers: seq<Worker>) {
    forall j :: 0 <= j < |workers| ==> !FailsMidway(workers[j])
  }

  lemma StepNoneMidway(W: World, a: Action)
    requires NoneMidway(W.workers) && Possible(W, a) && (a.Spawn? ==> !FailsMidway(a.worker))
    ensures NoneMidway(Step(W, a).workers)
  {
    hide WorkerStep, Allowed, Begin, End;
    match a
    case Work(i, choice) =>
      StepPool(W, i, choice);
      SameChunkMidway(W.workers[i], WorkerStep(W, i, choice).workers[i]);
    case _ =>
  }

  lemma SameChunkMidway(w: Worker, w': Worker)
    requires SameChunk(w, w') && !FailsMidway(w)
    ensures !FailsMidway(w')
  {
  }

  lemma {:induction false} RunNoneMidway(actions: seq<Action>)
    requires Exec(actions).Some?
    requires forall k :: 0 <= k < |actions| && actions[k].Spawn? ==> !FailsMidway(actions[k].worker)
    ensures NoneMidway(Exec(actions).value.workers)
  {
    if actions != [] {
      hide FailsMidway, Step, Possible;
      var init := actions[..|actions| - 1];
      RunNoneMidway(init);
      StepNoneMidway(Exec(init).value, actions[|actions| - 1]);
    }
  }

  /** So if no chunk's check fails midway, some worker can step until all are done. */
  lemma NoDeadlock(actions: seq<Action>)
    requires Exec(actions).Some? && Stuck(Exec(actions).value)
    requires forall k :: 0 <= k < |actions| && actions[k].Spawn? ==> !FailsMidway(actions[k].worker)
    ensures forall i :: 0 <= i < |Exec(actions).value.workers| ==> Exec(actions).value.workers[i].pc.Done?
  {
    RunNoneMidway(actions);
    ReachableInv(actions);
    hide Exec, Stuck, FailsMidway, Inv;
    var W := Exec(actions).value;
    forall i | 0 <= i < |W.workers|
      ensures W.workers[i].pc.Done?
    {
      if !W.workers[i].pc.Done? {
        OnlyAbandonmentBlocks(actions, i);
        AbandoningFailsMidway(W, W.meta[W.workers[i].pc.entry].owner);
      }
    }
  }

  /** Services whose declared capabilities never stop a chunk midway: no batching at all, or both kinds
      of question without a limit on labels. Nor can it happen in a chunk that asks one question. */
  lemma NeverMidway(w: Worker)
    requires || w.caps.multiStateBatch != Verified
             || (w.caps.noul == Verified && w.caps.choice == Verified && w.caps.maxChoices.None?)
             || (forall k :: 0 <= k < |w.groups| ==>
                   w.groups[k].questionKind == w.groups[0].questionKind && w.groups[k].choices == w.groups[0].choices)
    ensures !FailsMidway(w)
  {
  }

  /** Ending the query, or beginning the next, releases every worker that is stuck. */
  lemma QueryEndReleases(actions: seq<Action>, i: nat, a: Action)
    requires Exec(actions).Some? && Stuck(Exec(actions).value) && i < |Exec(actions).value.workers|
    requires !Exec(actions).value.workers[i].pc.Done? && (a.BeginQuery? || a.EndQuery?)
    ensures Ready(Step(Exec(actions).value, a), i)
  {
    hide Exec, Stuck, HostOk, OneEntry, OwnersOk;
    OnlyAbandonmentBlocks(actions, i);
    ReachableInv(actions);
  }
}
