/** Safety of the query protocol over every run: single flight, agreement of all waits, permits,
    completion by leaders, and isolation of queries. */
module ProtocolSafety {
  import opened Text
  import opened Judgment
  import opened Host
  import opened Protocol
  import opened ProtocolInv
  import opened ProtocolSteps

  // ---- Single flight

  predicate IsSent(f: Fate) { f == SentExternal || f == SentLocal }

  ghost predicate AllSent(meta: seq<Meta>, b: set<nat>) {
    forall e :: e in b ==> e < |meta| && IsSent(meta[e].fate)
  }

  ghost predicate InSomeCall(calls: seq<set<nat>>, e: nat) {
    exists c :: 0 <= c < |calls| && e in calls[c]
  }

  /** Provider calls are for distinct judgments: no two calls share an entry, and the entries with a
      sent fate are those in a call. */
  ghost predicate CallsOk(W: World) {
    && (forall c, d :: 0 <= c < d < |W.calls| ==> W.calls[c] !! W.calls[d])
    && (forall c :: 0 <= c < |W.calls| ==> AllSent(W.meta, W.calls[c]))
    && (forall e :: 0 <= e < |W.meta| && IsSent(W.meta[e].fate) ==> InSomeCall(W.calls, e))
  }

  /** The entries with a sent fate stay the same, and so do the calls. */
  ghost predicate CallsSame(W: World, W': World) {
    && W'.calls == W.calls && |W.meta| <= |W'.meta|
    && (forall e :: 0 <= e < |W.meta| ==> IsSent(W'.meta[e].fate) == IsSent(W.meta[e].fate))
    && (forall e :: |W.meta| <= e < |W'.meta| ==> !IsSent(W'.meta[e].fate))
  }

  lemma CallsSameKeeps(W: World, W': World)
    requires CallsOk(W) && CallsSame(W, W')
    ensures CallsOk(W')
  {
    forall c | 0 <= c < |W'.calls|
      ensures AllSent(W'.meta, W'.calls[c])
    {
      assert AllSent(W.meta, W.calls[c]);
    }
  }

  lemma FreshLed(W: World, i: nat)
    requires Inv(W) && i < |W.workers|
    ensures forall e :: e in Fresh(W.workers[i]) ==> e < |W.meta| && W.meta[e].fate == Led
  {
    assert WorkerOk(W.h, W.meta, W.workers[i], i);
  }

  lemma CallsKeep(W: World, a: Action)
    requires Inv(W) && CallsOk(W) && Possible(W, a)
    ensures CallsOk(Step(W, a))
  {
    hide Inv, Record, Attempt, CacheHit, Response, Failure, FailedRequest, OptimizedRows, AfterClaim, Complete;
    if a.Work? && W.workers[a.i].pc.Granted? {
      var b := W.workers[a.i].pc.batch;
      FreshLed(W, a.i);
      assert forall e :: e in b ==> e in Fresh(W.workers[a.i]);
      GrantedCalls(W, a.i, b);
    } else if a.Work? && W.workers[a.i].pc.Looking? {
      FreshLed(W, a.i);
      assert W.workers[a.i].pc.entry in Fresh(W.workers[a.i]);
      CallsSameKeeps(W, Step(W, a));
    } else {
      CallsSameKeeps(W, Step(W, a));
    }
  }

  /** A new call for entries nothing was sent for. */
  lemma NewCall(meta: seq<Meta>, calls: seq<set<nat>>, b: set<nat>, fate: Fate)
    requires (forall c :: 0 <= c < |calls| ==> AllSent(meta, calls[c])) && IsSent(fate)
    requires forall e :: e in b ==> e < |meta| && meta[e].fate == Led
    ensures forall c :: 0 <= c < |calls| ==> calls[c] !! b
    ensures forall c :: 0 <= c < |calls + [b]| ==> AllSent(WithFate(meta, b, fate), (calls + [b])[c])
  {
    hide WithFate;
    forall c | 0 <= c < |calls|
      ensures calls[c] !! b && AllSent(WithFate(meta, b, fate), calls[c])
    {
      assert AllSent(meta, calls[c]);
    }
    assert AllSent(WithFate(meta, b, fate), b);
  }

  lemma NewCallCovers(meta: seq<Meta>, calls: seq<set<nat>>, b: set<nat>, fate: Fate, e: nat)
    requires e < |meta| && (IsSent(meta[e].fate) ==> InSomeCall(calls, e)) && IsSent(WithFate(meta, b, fate)[e].fate)
    ensures InSomeCall(calls + [b], e)
  {
    hide WithFate;
    if e in b {
      assert (calls + [b])[|calls|] == b;
    } else {
      var c :| 0 <= c < |calls| && e in calls[c];
      assert (calls + [b])[c] == calls[c];
    }
  }

  lemma GrantedCalls(W: World, i: nat, b: set<nat>)
    requires i < |W.workers| && W.workers[i].pc == Granted(b) && CallsOk(W)
    requires forall e :: e in b ==> e < |W.meta| && W.meta[e].fate == Led
    ensures CallsOk(StepGranted(W, i))
  {
    hide Record, Attempt, WithFate, AllSent, InSomeCall, IsSent;
    var W' := StepGranted(W, i);
    var fate := if W.workers[i].external then SentExternal else SentLocal;
    assert IsSent(fate) by { SentFates(); }
    NewCall(W.meta, W.calls, b, fate);
    forall e | 0 <= e < |W'.meta| && IsSent(W'.meta[e].fate)
      ensures InSomeCall(W'.calls, e)
    {
      NewCallCovers(W.meta, W.calls, b, fate, e);
    }
  }

  lemma SentFates()
    ensures IsSent(SentExternal) && IsSent(SentLocal) && !IsSent(Led) && !IsSent(FromCache)
  {
  }

  lemma {:induction false} ReachableCalls(actions: seq<Action>)
    requires Exec(actions).Some?
    ensures CallsOk(Exec(actions).value)
  {
    if actions != [] {
      var init := actions[..|actions| - 1];
      ReachableCalls(init);
      ReachableInv(init);
      CallsKeep(Exec(init).value, actions[|actions| - 1]);
    }
  }

  predicate SameJudgment(meta: seq<Meta>, e: nat, f: nat) {
    e < |meta| && f < |meta| && meta[e].query == meta[f].query && meta[e].id == meta[f].id
  }

  /** In every reachable state, each identity has at most one entry in a query, hence one leader,
      and at most one provider call ever contains it. */
  lemma SingleFlight(actions: seq<Action>, e: nat, f: nat)
    requires Exec(actions).Some? && SameJudgment(Exec(actions).value.meta, e, f)
    ensures e == f
    ensures var W := Exec(actions).value;
            forall c, d :: 0 <= c < |W.calls| && 0 <= d < |W.calls| && e in W.calls[c] && f in W.calls[d] ==> c == d
  {
    ReachableInv(actions);
    ReachableCalls(actions);
  }

  /** The judgments a provider call was ever made for are those whose fate says so. */
  lemma AttemptedExactly(actions: seq<Action>, e: nat)
    requires Exec(actions).Some? && e < |Exec(actions).value.meta|
    ensures IsSent(Exec(actions).value.meta[e].fate) <==> InSomeCall(Exec(actions).value.calls, e)
  {
    ReachableCalls(actions);
  }

  /** All waits that returned an outcome for one identity in one query returned the same outcome. */
  lemma WaitsAgree(actions: seq<Action>, i: nat, j: nat, e: nat, f: nat)
    requires Exec(actions).Some?
    requires var W := Exec(actions).value;
             && i < |W.workers| && j < |W.workers| && e in W.workers[i].got && f in W.workers[j].got
             && SameJudgment(W.meta, e, f)
    ensures var W := Exec(actions).value;
            && e == f && W.workers[i].got[e] == W.workers[j].got[f]
            && e < |W.h.cells| && W.h.cells[e] == Some(W.workers[i].got[e])
  {
    ReachableInv(actions);
    var W := Exec(actions).value;
    assert WorkerOk(W.h, W.meta, W.workers[i], i);
    assert WorkerOk(W.h, W.meta, W.workers[j], j);
  }

  // ---- Leader completion

  /** When an execution has returned, every entry it led has an outcome, except the ones it left
      behind: by an early capability error, or because its query was already over. If it returned
      successfully it left none behind and all its entries are successes. */
  lemma LeadersComplete(actions: seq<Action>, j: nat, e: nat)
    requires Exec(actions).Some?
    requires var W := Exec(actions).value;
             j < |W.workers| && W.workers[j].pc.Done? && e < |W.meta| && W.meta[e].owner == j
    ensures var W := Exec(actions).value;
            && |W.h.cells| == |W.meta|
            && (W.h.cells[e].None? ==> !W.workers[j].pc.ok && (W.workers[j].early || W.meta[e].query in W.h.cancelled))
            && (W.workers[j].pc.ok ==> W.h.cells[e].Some? && W.h.cells[e].value.Ok?)
  {
    ReachableInv(actions);
    var W := Exec(actions).value;
    assert WorkerOk(W.h, W.meta, W.workers[j], j);
  }

  /** A stored outcome is never replaced, by anyone. */
  lemma OutcomesStand(W: World, a: Action, e: nat)
    requires Possible(W, a) && e < |W.h.cells| && W.h.cells[e].Some?
    ensures e < |Step(W, a).h.cells| && Step(W, a).h.cells[e] == W.h.cells[e]
  {
    hide Attempt, CacheHit, Response, Failure, FailedRequest, OptimizedRows, FailAll, Resume, Leave, WithFate;
  }

  // ---- Permits

  /** How many workers hold a permit. */
  function Holders(workers: seq<Worker>): nat {
    if workers == [] then 0
    else Holders(workers[..|workers| - 1]) + (if HoldsPermit(workers[|workers| - 1]) then 1 else 0)
  }

  lemma {:induction false} HoldersUpdate(workers: seq<Worker>, i: nat, w: Worker)
    requires i < |workers|
    ensures Holders(workers[i := w]) + (if HoldsPermit(workers[i]) then 1 else 0)
         == Holders(workers) + (if HoldsPermit(w) then 1 else 0)
  {
    var n := |workers| - 1;
    if i < n {
      HoldersUpdate(workers[..n], i, w);
      assert workers[i := w][..n] == workers[..n][i := w];
    } else {
      assert workers[i := w][..n] == workers[..n];
    }
  }

  lemma {:induction false} SomeHolder(workers: seq<Worker>)
    requires Holders(workers) > 0
    ensures exists i :: 0 <= i < |workers| && HoldsPermit(workers[i])
  {
    var n := |workers| - 1;
    if !HoldsPermit(workers[n]) {
      SomeHolder(workers[..n]);
      var i :| 0 <= i < n && HoldsPermit(workers[..n][i]);
      assert HoldsPermit(workers[i]);
    }
  }

  ghost predicate PermitsOk(W: World, bound: nat) {
    && W.pool.active == Holders(W.workers)
    && W.pool.active <= W.pool.peak
    && ((forall i :: 0 <= i < |W.workers| ==> W.workers[i].limit <= bound) ==> W.pool.peak <= bound)
  }

  /** The pool moves just as the worker's own permit does. */
  ghost predicate PoolFollows(W: World, i: nat, W': World)
    requires i < |W.workers|
  {
    && |W'.workers| == |W.workers| && W'.workers == W.workers[i := W'.workers[i]]
    && SameChunk(W.workers[i], W'.workers[i])
    && PoolMoves(W, W.workers[i], W'.workers[i], W'.pool)
  }

  lemma StepPool(W: World, i: nat, choice: Choice)
    requires i < |W.workers| && Allowed(W, i, choice)
    ensures PoolFollows(W, i, WorkerStep(W, i, choice))
  {
    hide WorkerStep, Allowed, EffectOf, SameChunk, PoolMoves;
    StepIsShaped(W, i, choice);
  }

  lemma PoolFollowsOk(W: World, i: nat, W': World, bound: nat)
    requires i < |W.workers| && PermitsOk(W, bound) && PoolFollows(W, i, W')
    ensures PermitsOk(W', bound)
  {
    hide HoldsPermit, Holders;
    HoldersUpdate(W.workers, i, W'.workers[i]);
    SameLimits(W, i, W', bound);
  }

  lemma PermitsKeep(W: World, a: Action, bound: nat)
    requires PermitsOk(W, bound) && Possible(W, a)
    ensures PermitsOk(Step(W, a), bound)
  {
    hide WorkerStep, Allowed, Begin, End, PoolFollows;
    match a
    case Work(i, choice) =>
      StepPool(W, i, choice);
      PoolFollowsOk(W, i, WorkerStep(W, i, choice), bound);
    case Spawn(w) => SpawnPermits(W, w, bound);
    case BeginQuery =>
    case EndQuery(_) =>
  }

  lemma SpawnPermits(W: World, w: Worker, bound: nat)
    requires PermitsOk(W, bound) && Newcomer(W, w)
    ensures PermitsOk(W.(workers := W.workers + [w]), bound)
  {
    var grown := W.workers + [w];
    assert grown[..|grown| - 1] == W.workers;
    if forall i :: 0 <= i < |grown| ==> grown[i].limit <= bound {
      assert forall i :: 0 <= i < |W.workers| ==> W.workers[i] == grown[i];
    }
  }

  lemma SameLimits(W: World, i: nat, W': World, bound: nat)
    requires i < |W.workers| && |W'.workers| == |W.workers| && W'.workers == W.workers[i := W'.workers[i]]
    requires W'.workers[i].limit == W.workers[i].limit
    ensures (forall j :: 0 <= j < |W'.workers| ==> W'.workers[j].limit <= bound) ==>
      forall j :: 0 <= j < |W.workers| ==> W.workers[j].limit <= bound
  {
    if forall j :: 0 <= j < |W'.workers| ==> W'.workers[j].limit <= bound {
      forall j | 0 <= j < |W.workers|
        ensures W.workers[j].limit <= bound
      {
        assert W'.workers[j].limit == W.workers[j].limit;
      }
    }
  }

  /** In every reachable state the pool counts exactly the permits held; the most ever held at once
      never exceeds a common limit. */
  lemma {:induction false} PermitsExact(actions: seq<Action>, bound: nat)
    requires Exec(actions).Some?
    ensures PermitsOk(Exec(actions).value, bound)
  {
    if actions != [] {
      var init := actions[..|actions| - 1];
      PermitsExact(init, bound);
      PermitsKeep(Exec(init).value, actions[|actions| - 1], bound);
    }
  }

  // ---- Isolation of queries

  /** Once a query is over, no claim under its scope succeeds and no step of a worker of that scope
      changes another query's counts. */
  lemma EndedQueryIsInert(W: World, i: nat, choice: Choice, id: Identity)
    requires Inv(W) && i < |W.workers| && Allowed(W, i, choice) && !IsActive(W.h, W.workers[i].scope)
    ensures ClaimResult(W.h, W.workers[i].scope, id).NotActive?
    ensures WorkerStep(W, i, choice).h.active == W.h.active && WorkerStep(W, i, choice).h.last == W.h.last
    ensures WorkerStep(W, i, choice).h.entries == W.h.entries
  {
    hide Inv, Attempt, CacheHit, Response, Failure, FailedRequest, OptimizedRows, FailAll, Resume, Leave, WithFate;
  }

  /** Query ids are never reused: a new query's id is larger than that of every worker, entry and
      query before it. */
  lemma FreshQueryId(W: World)
    requires Inv(W)
    ensures Begin(W.h).active.Some? && Begin(W.h).active.value.id == W.h.nextQuery
    ensures forall j :: 0 <= j < |W.workers| ==> W.workers[j].scope < W.h.nextQuery
    ensures forall e :: 0 <= e < |W.meta| ==> W.meta[e].query < W.h.nextQuery
    ensures W.h.active.Some? ==> W.h.active.value.id < W.h.nextQuery
    ensures Begin(W.h).active.value.counts == ZERO_COUNTS
  {
    forall j | 0 <= j < |W.workers| ensures W.workers[j].scope < W.h.nextQuery {
      assert WorkerOk(W.h, W.meta, W.workers[j], j);
    }
  }

  /** A scope taken while no query is active is the id of the next one, so what is recorded under
      it later is counted for that query; a scope taken inside a query never reaches a later one. */
  lemma ScopeNamesNextQueryIffIdle(h: State)
    requires h.active.Some? ==> h.active.value.id < h.nextQuery
    ensures IsActive(Begin(h), QueryScope(h)) <==> h.active.None?
    ensures h.active.Some? ==> forall counts :: Record(Begin(h), QueryScope(h), counts) == Begin(h)
    ensures h.active.None? ==>
      Now(Record(Begin(h), QueryScope(h), RowInput(Now(Begin(h))))).inputRows == 1
  {
  }
}
