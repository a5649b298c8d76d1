/** The protocol's steps performed on the connection's own objects: what a worker does with their
    methods, one critical section at a time, is the step relation's step. */
module ProtocolHost {
  import opened Text
  import opened Judgment
  import opened Host
  import opened Protocol
  import opened ProtocolInv
  import opened ProtocolUsage

  /** The objects stand as the world says, and `w` is its worker `i`. */
  ghost predicate Shows(W: World, i: nat, w: Worker, rt: ConnectionRuntime, pool: InflightPermitPool)
    reads rt, pool
  {
    i < |W.workers| && W.workers[i] == w && rt.View() == W.h && pool.View() == W.pool
  }

  method Arrive(ghost W: World, ghost i: nat, w: Worker, rt: ConnectionRuntime, pool: InflightPermitPool)
    returns (w': Worker)
    requires Shows(W, i, w, rt, pool) && w.pc.Arriving?
    modifies rt`active
    ensures Shows(StepArriving(W, i), i, w', rt, pool)
  {
    rt.RecordOptimizedRows(w.scope, w.rows, 0, 0, 0);
    return w.(pc := Recording);
  }

  /** The rows have been read, or one could not be; then the provider or the settings may be unusable. */
  method ReadRows(ghost W: World, ghost i: nat, w: Worker, choice: Choice, rt: ConnectionRuntime, pool: InflightPermitPool)
    returns (w': Worker)
    requires Shows(W, i, w, rt, pool) && w.pc.Recording?
    modifies rt`active
    ensures Shows(StepRecording(W, i, choice), i, w', rt, pool)
  {
    if choice.BadRow? {
      return w.(groups := [], pc := Done(false));
    }
    rt.RecordOptimizedRows(w.scope, 0, SaturatingSub(w.rows, w.validRows), w.validRows, |w.groups|);
    return w.(pc := if choice.Refused? then Done(false) else if w.next < |w.groups| then Claiming else Planning);
  }

  method ClaimNext(ghost W: World, ghost i: nat, w: Worker, rt: ConnectionRuntime, pool: InflightPermitPool)
    returns (w': Worker)
    requires Shows(W, i, w, rt, pool) && w.pc.Claiming? && w.next < |w.groups|
    modifies rt`active, rt`entries, rt`cells
    ensures Shows(StepClaiming(W, i), i, w', rt, pool)
  {
    var claim := rt.ClaimQueryEntry(w.scope, w.groups[w.next]);
    match claim
    case NotActive => return Leave(w, w.todo, w.early);
    case Follows(e) => return w.(next := w.next + 1, pc := Claimed(e, false));
    case Leads(e) => return w.(next := w.next + 1, pc := Claimed(e, true));
  }

  method CheckQuery(ghost W: World, ghost i: nat, w: Worker, rt: ConnectionRuntime, pool: InflightPermitPool)
    returns (w': Worker)
    requires Shows(W, i, w, rt, pool) && w.pc.Claimed?
    ensures Shows(StepClaimed(W, i), i, w', rt, pool)
  {
    var e := w.pc.entry;
    var found := rt.QueryCancellation(w.scope);
    if !found {
      return Leave(w, w.todo + (if w.pc.leads then {e} else {}), w.early);
    }
    return if w.pc.leads then w.(pc := Looking(e)) else w.(waits := w.waits + [e], pc := Resume(w));
  }

  method LookUp(ghost W: World, ghost i: nat, w: Worker, choice: Choice, rt: ConnectionRuntime, pool: InflightPermitPool)
    returns (w': Worker)
    requires Shows(W, i, w, rt, pool) && w.pc.Looking?
    modifies rt`active
    ensures Shows(StepLooking(W, i, choice), i, w', rt, pool)
  {
    var e := w.pc.entry;
    if !w.policyOk {
      return w.(pc := Settling(AllFail({e}), true));
    }
    if choice.Finds? {
      rt.RecordCacheHit(w.scope);
      return w.(pc := HitRecorded(e, choice.value));
    }
    return w.(todo := w.todo + {e}, pc := Resume(w));
  }

  method CompleteHit(ghost W: World, ghost i: nat, w: Worker, rt: ConnectionRuntime, pool: InflightPermitPool)
    returns (w': Worker)
    requires Shows(W, i, w, rt, pool) && w.pc.HitRecorded?
    modifies rt`cells
    ensures Shows(StepHit(W, i), i, w', rt, pool)
  {
    rt.CompleteEntry(w.pc.entry, Ok(w.pc.value));
    return w.(pc := Resume(w));
  }

  /** One turn of the permit loop. */
  method TryPermit(ghost W: World, ghost i: nat, w: Worker, rt: ConnectionRuntime, pool: InflightPermitPool)
    returns (moved: bool, w': Worker)
    requires Shows(W, i, w, rt, pool) && w.pc.Acquiring?
    modifies pool
    ensures moved <==> Ready(W, i)
    ensures Shows(if moved then StepAcquiring(W, i) else W, i, w', rt, pool)
  {
    var permit := pool.TryAcquire(w.limit, w.scope in rt.cancelled);
    if permit.None? {
      return false, w;
    }
    return true, if permit.value.Err? then FailAll(w, w.pc.batch) else w.(pc := Granted(w.pc.batch));
  }

  method StartCall(ghost W: World, ghost i: nat, w: Worker, rt: ConnectionRuntime, pool: InflightPermitPool)
    returns (w': Worker)
    requires Shows(W, i, w, rt, pool) && w.pc.Granted?
    modifies rt`active
    ensures Shows(StepGranted(W, i), i, w', rt, pool)
  {
    rt.RecordProviderAttempt(w.scope, |w.pc.batch|, w.external);
    return w.(pc := Calling(w.pc.batch));
  }

  method FinishCall(ghost W: World, ghost i: nat, w: Worker, choice: Choice, rt: ConnectionRuntime,
                    pool: InflightPermitPool)
    returns (w': Worker)
    requires Shows(W, i, w, rt, pool) && w.pc.Calling? && (choice.Replies? || choice.RepliesBadly? || choice.CallFails?)
    modifies rt`active
    ensures Shows(StepCalling(W, i, choice), i, w', rt, pool)
  {
    var b := w.pc.batch;
    match choice
    case Replies(answers, usage) =>
      rt.RecordProviderResponse(w.scope, usage, w.external);
      return w.(pc := Returned(b, Some(answers), true));
    case RepliesBadly(usage) =>
      rt.RecordProviderResponse(w.scope, usage, w.external);
      return w.(pc := Returned(b, None, true));
    case _ =>
      return w.(pc := Returned(b, None, false));
  }

  method ReturnPermit(ghost W: World, ghost i: nat, w: Worker, rt: ConnectionRuntime, pool: InflightPermitPool)
    returns (w': Worker)
    requires Shows(W, i, w, rt, pool) && w.pc.Returned?
    modifies pool
    ensures Shows(StepReturned(W, i), i, w', rt, pool)
  {
    pool.DropPermit();
    return
      if w.pc.answers.Some? then w.(pc := Settling(AllAnswered(w.pc.answers.value), false))
      else if w.external then w.(pc := Failing(w.pc.batch, w.pc.received))
      else FailAll(w, w.pc.batch);
  }

  method CountFailure(ghost W: World, ghost i: nat, w: Worker, rt: ConnectionRuntime, pool: InflightPermitPool)
    returns (w': Worker)
    requires Shows(W, i, w, rt, pool) && (w.pc.Failing? || w.pc.FailingUsage?)
    modifies rt`active
    ensures Shows(if w.pc.Failing? then StepFailing(W, i) else StepFailingUsage(W, i), i, w', rt, pool)
  {
    if w.pc.FailingUsage? {
      rt.RecordProviderFailure(w.scope, w.external);
      return FailAll(w, w.pc.batch);
    }
    rt.RecordFailedRequest(w.scope);
    return if w.pc.received then FailAll(w, w.pc.batch) else w.(pc := FailingUsage(w.pc.batch));
  }

  method SettleEntry(ghost W: World, ghost i: nat, w: Worker, choice: Choice, rt: ConnectionRuntime,
                     pool: InflightPermitPool)
    returns (w': Worker)
    requires Shows(W, i, w, rt, pool) && w.pc.Settling?
    requires w.pc.outcomes != map[] ==> choice.Completes? && choice.entry in w.pc.outcomes
    modifies rt`cells
    ensures Shows(StepSettling(W, i, choice), i, w', rt, pool)
  {
    var outcomes := w.pc.outcomes;
    if outcomes == map[] {
      return w.(pc := if w.pc.fatal then Done(false) else Planning);
    }
    rt.CompleteEntry(choice.entry, outcomes[choice.entry]);
    return w.(pc := Settling(outcomes - {choice.entry}, w.pc.fatal));
  }

  /** One turn of the wait loop. */
  method TryWait(ghost W: World, ghost i: nat, w: Worker, rt: ConnectionRuntime, pool: InflightPermitPool)
    returns (moved: bool, w': Worker)
    requires Shows(W, i, w, rt, pool) && w.pc.Waiting? && w.pc.entry < |W.h.cells|
    ensures moved <==> Ready(W, i)
    ensures Shows(if moved then StepWaiting(W, i) else W, i, w', rt, pool)
  {
    var e := w.pc.entry;
    var turn := rt.TryWait(e, w.scope);
    if turn.None? {
      return false, w;
    }
    if rt.cells[e].None? {
      return true, w.(pc := Done(false));
    }
    var outcome := turn.value;
    return true, w.(got := w.got[e := outcome], pc := if outcome.Ok? then Planning else Done(false));
  }

  /** No shared object takes part in planning. */
  method Plan(ghost W: World, ghost i: nat, w: Worker, choice: Choice, rt: ConnectionRuntime, pool: InflightPermitPool)
    returns (w': Worker)
    requires Shows(W, i, w, rt, pool) && w.pc.Planning? && (w.todo != {} ==> choice.TooLarge? || choice.Sends?)
    ensures Shows(StepPlanning(W, i, choice), i, w', rt, pool)
  {
    if w.todo != {} {
      return if choice.Sends? then w.(todo := w.todo - choice.batch, pc := Acquiring(choice.batch)) else FailAll(w, {});
    }
    if w.waits != [] {
      return w.(waits := w.waits[1..], pc := Waiting(w.waits[0]));
    }
    return w.(pc := if w.next < |w.groups| then Claiming else Done(true));
  }

  /** A worker's turn. It moves exactly when the protocol says it can, and then by the protocol's step. */
  method TakeTurn(ghost W: World, ghost i: nat, w: Worker, choice: Choice, rt: ConnectionRuntime, pool: InflightPermitPool)
    returns (moved: bool, w': Worker)
    requires Inv(W) && Shows(W, i, w, rt, pool) && (Ready(W, i) ==> Allowed(W, i, choice))
    modifies rt`active, rt`entries, rt`cells, pool
    ensures moved <==> Ready(W, i)
    ensures Shows(if moved then WorkerStep(W, i, choice) else W, i, w', rt, pool)
  {
    EntryKnown(W, i);
    assert w == W.workers[i];
    hide Inv, Shows, StepArriving, StepRecording, StepClaiming, StepClaimed, StepLooking, StepHit, StepPlanning,
         StepAcquiring, StepGranted, StepCalling, StepReturned, StepFailing, StepFailingUsage, StepSettling, StepWaiting;
    moved := true;
    match w.pc
    case Arriving => w' := Arrive(W, i, w, rt, pool);
    case Recording => w' := ReadRows(W, i, w, choice, rt, pool);
    case Claiming =>
      if w.batched && !Admitted(w.caps, w.groups[w.next]) {
        w' := Leave(w, w.todo, true);
        LeftAtGate(W, i, w, rt, pool);
      } else {
        w' := ClaimNext(W, i, w, rt, pool);
      }
    case Claimed(_, _) => w' := CheckQuery(W, i, w, rt, pool);
    case Looking(_) => w' := LookUp(W, i, w, choice, rt, pool);
    case HitRecorded(_, _) => w' := CompleteHit(W, i, w, rt, pool);
    case Planning => w' := Plan(W, i, w, choice, rt, pool);
    case Acquiring(_) => moved, w' := TryPermit(W, i, w, rt, pool);
    case Granted(_) => w' := StartCall(W, i, w, rt, pool);
    case Calling(_) => w' := FinishCall(W, i, w, choice, rt, pool);
    case Returned(_, _, _) => w' := ReturnPermit(W, i, w, rt, pool);
    case Failing(_, _) => w' := CountFailure(W, i, w, rt, pool);
    case FailingUsage(_) => w' := CountFailure(W, i, w, rt, pool);
    case Settling(_, _) => w' := SettleEntry(W, i, w, choice, rt, pool);
    case Waiting(_) => moved, w' := TryWait(W, i, w, rt, pool);
    case Done(_) => moved, w' := false, w;
  }

  lemma LeftAtGate(W: World, i: nat, w: Worker, rt: ConnectionRuntime, pool: InflightPermitPool)
    requires Shows(W, i, w, rt, pool)
    ensures Shows(StepGate(W, i), i, Leave(w, w.todo, true), rt, pool)
  {
  }

  /** What a worker claims or waits for is there. */
  lemma EntryKnown(W: World, i: nat)
    requires Inv(W) && i < |W.workers|
    ensures W.workers[i].pc.Waiting? ==> W.workers[i].pc.entry < |W.h.cells|
  {
    assert WorkerOk(W.h, W.meta, W.workers[i], i);
  }

  // ---- Whole runs

  /** The objects stand as the world says, and `workers` are its workers. */
  ghost predicate Stands(W: World, workers: seq<Worker>, rt: ConnectionRuntime, pool: InflightPermitPool)
    reads rt, pool
  {
    W.workers == workers && rt.View() == W.h && pool.View() == W.pool
  }

  lemma {:induction false} PrefixRuns(actions: seq<Action>, n: nat)
    requires Exec(actions).Some? && n <= |actions|
    ensures Exec(actions[..n]).Some?
    ensures n < |actions| ==>
      Possible(Exec(actions[..n]).value, actions[n])
      && Exec(actions[..n + 1]) == Some(Step(Exec(actions[..n]).value, actions[n]))
  {
    hide Possible, Step;
    if n == |actions| {
      assert actions[..n] == actions;
    } else if n == |actions| - 1 {
      assert actions[..n + 1] == actions;
    } else {
      var init := actions[..|actions| - 1];
      PrefixRuns(init, n);
      assert init[..n] == actions[..n] && init[..n + 1] == actions[..n + 1];
    }
  }

  /** Any run of the protocol, performed on a connection's own objects in any order the protocol allows,
      leaves them as the protocol says. */
  method Perform(actions: seq<Action>) returns (rt: ConnectionRuntime, pool: InflightPermitPool, workers: seq<Worker>)
    requires Exec(actions).Some?
    ensures Stands(Exec(actions).value, workers, rt, pool)
  {
    hide Exec, Inv, WorkerStep, Allowed, Ready;
    var scopes := new ScopeCounter();
    rt := new ConnectionRuntime(scopes);
    pool := new InflightPermitPool();
    workers := [];
    ghost var W := START;
    assert Exec([]) == Some(START) by { NoAction(); }
    for n := 0 to |actions|
      invariant fresh(rt) && fresh(pool)
      invariant Exec(actions[..n]) == Some(W) && Stands(W, workers, rt, pool)
    {
      PrefixRuns(actions, n);
      ReachableInv(actions[..n]);
      match actions[n] {
        case BeginQuery => rt.BeginQuery();
        case EndQuery(outcome) => rt.EndQuery(outcome);
        case Spawn(w) =>
          var scope := rt.IdentityScope();
          workers := workers + [w.(scope := scope)];
        case Work(i, choice) =>
          var moved, w := TakeTurn(W, i, workers[i], choice, rt, pool);
          OthersStand(W, i, choice);
          workers := workers[i := w];
      }
      W := Step(W, actions[n]);
    }
    assert actions[..|actions|] == actions;
  }

  lemma NoAction()
    ensures Exec([]) == Some(START)
  {
  }

  lemma OthersStand(W: World, i: nat, choice: Choice)
    requires Inv(W) && i < |W.workers| && Allowed(W, i, choice)
    ensures Ready(W, i)
    ensures var W' := WorkerStep(W, i, choice); i < |W'.workers| && W'.workers == W.workers[i := W'.workers[i]]
  {
    StepMoves(W, i, choice);
    hide WorkerStep, Inv;
  }
}
