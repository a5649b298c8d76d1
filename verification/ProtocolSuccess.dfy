/** What an execution that returned successfully has achieved, over every interleaving. */
module ProtocolSuccess {
  import opened Text
  import opened Judgment
  import opened Host
  import opened Protocol
  import opened ProtocolInv
  import opened ProtocolSteps
  import opened ProtocolUsage

  /** The entries of others a worker has yet to wait for. */
  ghost predicate Follows(w: Worker, e: nat) {
    e in w.waits || (w.pc.Waiting? && e == w.pc.entry) || (w.pc.Claimed? && !w.pc.leads && e == w.pc.entry)
  }

  /** The judgment has an entry in the worker's query: its own, one it has yet to wait for, or one with a
      success. */
  ghost predicate HandledBy(h: State, meta: seq<Meta>, w: Worker, j: nat, id: Identity, e: nat) {
    && e < |meta| && e < |h.cells| && meta[e].id == id && meta[e].query == w.scope
    && (meta[e].owner == j || Follows(w, e) || (h.cells[e].Some? && h.cells[e].value.Ok?))
  }

  ghost predicate Handled(h: State, meta: seq<Meta>, w: Worker, j: nat, id: Identity) {
    exists e: nat :: HandledBy(h, meta, w, j, id, e)
  }

  /** Unless it has failed, every judgment a worker has claimed is handled. */
  ghost predicate AllHandled(h: State, meta: seq<Meta>, w: Worker, j: nat) {
    w.next <= |w.groups| && (w.pc != Done(false) ==> forall k :: 0 <= k < w.next ==> Handled(h, meta, w, j, w.groups[k]))
  }

  ghost predicate HandledOk(W: World) {
    forall j :: 0 <= j < |W.workers| ==> AllHandled(W.h, W.meta, W.workers[j], j)
  }

  /** Entries keep what they stand for, and their outcomes. */
  ghost predicate EntriesStay(W: World, W': World) {
    && SameJudgments(W.meta, W'.meta) && |W.h.cells| <= |W'.h.cells|
    && forall e :: 0 <= e < |W.h.cells| && W.h.cells[e].Some? ==> W'.h.cells[e] == W.h.cells[e]
  }

  /** What one worker's step must do to what it follows: each entry stays followed or has a success; a newly
      claimed judgment is handled. */
  ghost predicate FollowsOn(W: World, i: nat, W': World)
    requires i < |W.workers|
  {
    && i < |W'.workers|
    && var w, w' := W.workers[i], W'.workers[i];
       w'.pc == Done(false)
       || (&& w'.groups == w.groups && w'.scope == w.scope && w.pc != Done(false)
           && (forall e: nat :: Follows(w, e) ==>
                 Follows(w', e) || (e < |W'.h.cells| && W'.h.cells[e].Some? && W'.h.cells[e].value.Ok?))
           && (w'.next == w.next
               || (w'.next == w.next + 1 && w.next < |w.groups| && Handled(W'.h, W'.meta, w', i, w.groups[w.next]))))
  }

  lemma HandledStays(W: World, W': World, w: Worker, w': Worker, j: nat, id: Identity)
    requires EntriesStay(W, W') && Handled(W.h, W.meta, w, j, id) && w'.scope == w.scope
    requires forall e: nat :: Follows(w, e) ==>
      Follows(w', e) || (e < |W'.h.cells| && W'.h.cells[e].Some? && W'.h.cells[e].value.Ok?)
    ensures Handled(W'.h, W'.meta, w', j, id)
  {
    hide Follows;
    var e: nat :| HandledBy(W.h, W.meta, w, j, id, e);
    assert HandledBy(W'.h, W'.meta, w', j, id, e);
  }

  lemma OthersStayHandled(W: World, W': World, j: nat)
    requires EntriesStay(W, W') && j < |W.workers| && AllHandled(W.h, W.meta, W.workers[j], j)
    ensures AllHandled(W'.h, W'.meta, W.workers[j], j)
  {
    hide Handled, EntriesStay, Follows;
    var w := W.workers[j];
    if w.pc != Done(false) {
      forall k | 0 <= k < w.next
        ensures Handled(W'.h, W'.meta, w, j, w.groups[k])
      {
        HandledStays(W, W', w, w, j, w.groups[k]);
      }
    }
  }

  lemma StepStaysHandled(W: World, i: nat, W': World)
    requires HandledOk(W) && i < |W.workers| && EntriesStay(W, W') && FollowsOn(W, i, W')
    requires |W'.workers| == |W.workers| && W'.workers == W.workers[i := W'.workers[i]]
    requires W'.workers[i].next <= |W'.workers[i].groups|
    ensures HandledOk(W')
  {
    hide Handled, EntriesStay, Follows;
    forall j | 0 <= j < |W'.workers|
      ensures AllHandled(W'.h, W'.meta, W'.workers[j], j)
    {
      if j != i {
        OthersStayHandled(W, W', j);
      } else {
        var w, w' := W.workers[i], W'.workers[i];
        if w'.pc != Done(false) {
          assert AllHandled(W.h, W.meta, w, i);
          forall k | 0 <= k < w'.next
            ensures Handled(W'.h, W'.meta, w', i, w'.groups[k])
          {
            if k < w.next {
              HandledStays(W, W', w, w', i, w.groups[k]);
            }
          }
        }
      }
    }
  }

  // ---- The steps

  lemma EarlyFollows(W: World, i: nat, choice: Choice)
    requires i < |W.workers|
    ensures W.workers[i].pc.Arriving? ==> FollowsOn(W, i, StepArriving(W, i))
    ensures W.workers[i].pc.Recording? ==> FollowsOn(W, i, StepRecording(W, i, choice))
  {
    hide Record, OptimizedRows, Handled;
  }

  lemma GateFollows(W: World, i: nat)
    requires i < |W.workers| && W.workers[i].pc.Claiming?
    ensures FollowsOn(W, i, StepGate(W, i))
  {
    hide Handled;
  }

  lemma KnownEntry(h: State, meta: seq<Meta>, scope: nat, id: Identity)
    requires HostOk(h, meta) && IsActive(h, scope) && id in h.entries
    ensures var e := h.entries[id]; e < |meta| && e < |h.cells| && meta[e].id == id && meta[e].query == scope
  {
  }

  lemma ClaimingFollows(W: World, i: nat)
    requires Inv(W) && i < |W.workers| && W.workers[i].pc.Claiming? && W.workers[i].next < |W.workers[i].groups|
    ensures FollowsOn(W, i, StepClaiming(W, i))
  {
    hide WorkersOk, OneEntry, OwnersOk, Record, HostOk, IsActive, AfterClaim;
    var w, W' := W.workers[i], StepClaiming(W, i);
    var id := w.groups[w.next];
    match ClaimResult(W.h, w.scope, id)
    case NotActive =>
    case Follows(e) =>
      KnownEntry(W.h, W.meta, w.scope, id);
      ClaimQueries(W.h, w.scope, id);
      assert W'.workers[i].pc == Claimed(e, false);
      assert HandledBy(W'.h, W'.meta, W'.workers[i], i, id, e);
    case Leads(e) =>
      ClaimQueries(W.h, w.scope, id);
      assert HandledBy(W'.h, W'.meta, W'.workers[i], i, id, e);
  }

  lemma ClaimedFollows(W: World, i: nat)
    requires i < |W.workers| && W.workers[i].pc.Claimed?
    ensures FollowsOn(W, i, StepClaimed(W, i))
  {
    hide Handled, Resume, IsActive;
    ResumeIs(W.workers[i]);
  }

  lemma ResumeIs(w: Worker)
    ensures Resume(w).Claiming? || Resume(w).Planning?
  {
  }

  lemma CacheFollows(W: World, i: nat, choice: Choice)
    requires i < |W.workers|
    ensures W.workers[i].pc.Looking? ==> FollowsOn(W, i, StepLooking(W, i, choice))
    ensures W.workers[i].pc.HitRecorded? ==> FollowsOn(W, i, StepHit(W, i))
  {
    hide Handled, Resume, Record, CacheHit, WithFate, AllFail, Complete;
    ResumeIs(W.workers[i]);
  }

  lemma PlanningFollows(W: World, i: nat, choice: Choice)
    requires i < |W.workers| && W.workers[i].pc.Planning? && Allowed(W, i, choice)
    ensures FollowsOn(W, i, StepPlanning(W, i, choice))
  {
    hide Handled, AllFail;
    var w := W.workers[i];
    if w.waits != [] {
      assert w.waits == [w.waits[0]] + w.waits[1..];
    }
  }

  lemma CallFollows(W: World, i: nat, choice: Choice)
    requires i < |W.workers|
    ensures W.workers[i].pc.Acquiring? ==> FollowsOn(W, i, StepAcquiring(W, i))
    ensures W.workers[i].pc.Granted? ==> FollowsOn(W, i, StepGranted(W, i))
    ensures W.workers[i].pc.Calling? && Allowed(W, i, choice) ==> FollowsOn(W, i, StepCalling(W, i, choice))
  {
    hide Handled, AllFail, Acquire, Record, Attempt, Response, WithFate;
  }

  lemma ReturnFollows(W: World, i: nat)
    requires i < |W.workers|
    ensures W.workers[i].pc.Returned? ==> FollowsOn(W, i, StepReturned(W, i))
    ensures W.workers[i].pc.Failing? ==> FollowsOn(W, i, StepFailing(W, i))
    ensures W.workers[i].pc.FailingUsage? ==> FollowsOn(W, i, StepFailingUsage(W, i))
  {
    hide Handled, AllFail, AllAnswered, Release, Record, FailedRequest, Failure;
  }

  lemma SettlingFollows(W: World, i: nat, choice: Choice)
    requires i < |W.workers| && W.workers[i].pc.Settling? && Allowed(W, i, choice)
    ensures FollowsOn(W, i, StepSettling(W, i, choice))
  {
    hide Handled, Complete;
  }

  lemma WaitingFollows(W: World, i: nat)
    requires i < |W.workers| && W.workers[i].pc.Waiting? && Ready(W, i)
    ensures FollowsOn(W, i, StepWaiting(W, i))
  {
    hide Handled;
  }

  lemma StepFollows(W: World, i: nat, choice: Choice)
    requires Inv(W) && i < |W.workers| && Allowed(W, i, choice)
    ensures FollowsOn(W, i, WorkerStep(W, i, choice))
  {
    hide Inv, FollowsOn, StepArriving, StepRecording, StepClaiming, StepGate, StepClaimed, StepLooking, StepHit,
         StepPlanning, StepAcquiring, StepGranted, StepCalling, StepReturned, StepFailing, StepFailingUsage, StepSettling,
         StepWaiting;
    match W.workers[i].pc
    case Arriving => EarlyFollows(W, i, choice);
    case Recording => EarlyFollows(W, i, choice);
    case Claiming => if choice.GateFails? { GateFollows(W, i); } else { ClaimingFollows(W, i); }
    case Claimed(_, _) => ClaimedFollows(W, i);
    case Looking(_) => CacheFollows(W, i, choice);
    case HitRecorded(_, _) => CacheFollows(W, i, choice);
    case Planning => PlanningFollows(W, i, choice);
    case Acquiring(_) => CallFollows(W, i, choice);
    case Granted(_) => CallFollows(W, i, choice);
    case Calling(_) => CallFollows(W, i, choice);
    case Returned(_, _, _) => ReturnFollows(W, i);
    case Failing(_, _) => ReturnFollows(W, i);
    case FailingUsage(_) => ReturnFollows(W, i);
    case Settling(_, _) => SettlingFollows(W, i, choice);
    case Waiting(_) => WaitingFollows(W, i);
  }

  lemma StepEntriesStay(W: World, i: nat, choice: Choice)
    requires i < |W.workers| && Allowed(W, i, choice)
    ensures EntriesStay(W, WorkerStep(W, i, choice))
  {
    StepIsShaped(W, i, choice);
    hide WorkerStep, Allowed, EffectOf, SameChunk, SameQueries, PoolMoves;
  }

  // ---- Runs

  lemma WorkHandled(W: World, i: nat, choice: Choice)
    requires Inv(W) && HandledOk(W) && i < |W.workers| && Allowed(W, i, choice)
    ensures HandledOk(WorkerStep(W, i, choice))
  {
    StepFollows(W, i, choice);
    StepEntriesStay(W, i, choice);
    StepMoves(W, i, choice);
    StepKeeps(W, Work(i, choice));
    NextBelow(WorkerStep(W, i, choice), i);
    hide Inv, HandledOk, WorkerStep, Allowed, EntriesStay, FollowsOn;
    StepStaysHandled(W, i, WorkerStep(W, i, choice));
  }

  lemma NextBelow(W: World, i: nat)
    requires Inv(W)
    ensures i < |W.workers| ==> W.workers[i].next <= |W.workers[i].groups|
  {
    if i < |W.workers| {
      assert WorkerOk(W.h, W.meta, W.workers[i], i);
    }
  }

  lemma {:induction false} ReachableHandled(actions: seq<Action>)
    requires Exec(actions).Some?
    ensures HandledOk(Exec(actions).value)
  {
    if actions != [] {
      var init, a := actions[..|actions| - 1], actions[|actions| - 1];
      ReachableHandled(init);
      ReachableInv(init);
      hide Inv, HandledOk, WorkerStep, Begin, End, Allowed, Newcomer;
      var W := Exec(init).value;
      match a
      case Work(i, choice) => WorkHandled(W, i, choice);
      case Spawn(w) => SpawnHandled(W, w);
      case BeginQuery => CellsSuffice(W, W.(h := Begin(W.h)));
      case EndQuery(outcome) => CellsSuffice(W, W.(h := End(W.h, outcome)));
    }
  }

  lemma CellsSuffice(W: World, W': World)
    requires HandledOk(W) && W'.meta == W.meta && W'.workers == W.workers
    requires W'.h == Begin(W.h) || exists outcome :: W'.h == End(W.h, outcome)
    ensures HandledOk(W')
  {
    assert EntriesStay(W, W');
    hide AllHandled, EntriesStay;
    forall j | 0 <= j < |W'.workers|
      ensures AllHandled(W'.h, W'.meta, W'.workers[j], j)
    {
      OthersStayHandled(W, W', j);
    }
  }

  lemma SpawnHandled(W: World, w: Worker)
    requires HandledOk(W) && Newcomer(W, w)
    ensures HandledOk(W.(workers := W.workers + [w]))
  {
  }

  /** An execution that has returned successfully has a success for each of its judgments: whoever led it,
      in its query, by a call or from the cache. */
  lemma SuccessIsComplete(actions: seq<Action>, j: nat, k: nat)
    requires Exec(actions).Some?
    requires var W := Exec(actions).value;
             j < |W.workers| && W.workers[j].pc == Done(true) && k < |W.workers[j].groups|
    ensures var W := Exec(actions).value;
            exists e :: 0 <= e < |W.meta| && e < |W.h.cells|
                        && W.meta[e].query == W.workers[j].scope && W.meta[e].id == W.workers[j].groups[k]
                        && W.h.cells[e].Some? && W.h.cells[e].value.Ok?
  {
    ReachableHandled(actions);
    ReachableInv(actions);
    hide Exec, HostOk, OneEntry, OwnersOk;
    var W := Exec(actions).value;
    var w := W.workers[j];
    assert WorkerOk(W.h, W.meta, w, j) && AllHandled(W.h, W.meta, w, j);
    assert Handled(W.h, W.meta, w, j, w.groups[k]);
    var e: nat :| HandledBy(W.h, W.meta, w, j, w.groups[k], e);
    assert w.waits == [] && w.next == |w.groups|;
  }
}
