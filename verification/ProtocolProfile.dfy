/** The profile of a finished query against everything that was ever sent for it, before and after. */
module ProtocolProfile {
  import opened Text
  import opened Judgment
  import opened Host
  import opened Metrics
  import opened Protocol
  import opened ProtocolInv
  import opened ProtocolSteps
  import opened ProtocolUsage

  // ---- The snapshot

  /** The profile of a query that ends is that of its last active state: what it says of usage and cost
      is exact for the requests sent until then. */
  lemma SnapshotIsExact(actions: seq<Action>, q: nat, outcome: QueryOutcome, provider: Option<string>)
    requires Exec(actions).Some? && IsActive(Exec(actions).value.h, q)
    requires Now(Exec(actions).value.h).inputRows > 0
    ensures var h, t := Exec(actions).value.h, TallyOf(actions, q);
            && End(h, outcome).last == Some(QuerySnapshot(q, outcome, Now(h)))
            && (UsageComplete(Now(h)) <==> AllAccounted(t))
            && UsageInput(Now(h)) == (if AllAccounted(t) then Some(t.input) else None)
            && UsageOutput(Now(h)) == (if AllAccounted(t) then Some(t.output) else None)
            && CostAmount(provider, Now(h))
               == if provider == TYPESAFE && Now(h).failedRequests == 0 && AllAccounted(t) then Some(Price(t.input))
                  else None
  {
    UsageIsExact(actions, q);
    CostIsOfEveryRequest(actions, q, provider);
    hide Exec, TallyOf, CostAmount, UsageComplete, AllAccounted, UsageInput, UsageOutput, Price;
  }

  // ---- Requests sent after the query has ended

  /** No worker of query `q` holds a permit it has yet to use. */
  predicate NoneGranted(W: World, q: nat) {
    forall i :: 0 <= i < |W.workers| && W.workers[i].scope == q && W.workers[i].external ==> !W.workers[i].pc.Granted?
  }

  lemma NoneGrantedStays(W: World, a: Action, q: nat)
    requires Inv(W) && Possible(W, a) && q < W.h.nextQuery && !IsActive(W.h, q) && NoneGranted(W, q)
    ensures var W' := Step(W, a); NoneGranted(W', q) && q < W'.h.nextQuery && !IsActive(W'.h, q)
  {
    hide OneEntry, OwnersOk, WorkersOk, WorkerStep, Allowed;
    match a
    case Work(i, choice) =>
      StepMoves(W, i, choice);
    case _ =>
  }

  /** The same requests, of which further ones may have come back; only replies bring tokens. */
  predicate SameRequests(t: Tally, t': Tally) {
    && t'.sent == t.sent && t.full <= t'.full && t.partial <= t'.partial && t.failed <= t'.failed
    && (t'.full == t.full ==> t'.input == t.input && t'.output == t.output)
  }

  /** Once a query is over and no worker of it is between its permit and its call, no request is ever
      sent for it again: later its requests only come back, and each is either back or in flight. */
  lemma {:induction false} NoLateRequest(actions: seq<Action>, more: seq<Action>, q: nat)
    requires Exec(actions).Some? && Exec(actions + more).Some?
    requires var W := Exec(actions).value; q < W.h.nextQuery && !IsActive(W.h, q) && NoneGranted(W, q)
    ensures var W' := Exec(actions + more).value; NoneGranted(W', q) && q < W'.h.nextQuery && !IsActive(W'.h, q)
    ensures SameRequests(TallyOf(actions, q), TallyOf(actions + more, q))
    ensures var t := TallyOf(actions + more, q);
            t.full + t.partial + t.failed + Calls(Exec(actions + more).value.workers, q) == TallyOf(actions, q).sent
  {
    hide Inv, NoneGranted, Step, Possible, Reply, Note, Calls;
    if more == [] {
      assert actions + more == actions;
    } else {
      var init, a := more[..|more| - 1], more[|more| - 1];
      assert (actions + more)[..|actions + more| - 1] == actions + init;
      NoLateRequest(actions, init, q);
      ReachableInv(actions + init);
      var W := Exec(actions + init).value;
      NoneGrantedStays(W, a, q);
      OnlyComesBack(W, a, q, TallyOf(actions + init, q));
    }
    assert UsageOk(Exec(actions + more).value, TallyOf(actions + more, q), q) by {
      ReachableUsage(actions + more, q);
    }
  }

  lemma OnlyComesBack(W: World, a: Action, q: nat, t: Tally)
    requires Possible(W, a) && NoneGranted(W, q)
    ensures a.Work? && W.workers[a.i].scope == q && W.workers[a.i].external ==>
      SameRequests(t, Note(t, W.workers[a.i], a.choice))
  {
  }

  // ---- A rendered cost and the whole run

  /** The counts account for the whole tally: all requests came back with their tokens, and usage and
      cost are those of all of them. */
  ghost predicate CountsWhole(provider: Option<string>, c: Counts, t: Tally) {
    && AllAccounted(t) && UsageInput(c) == Some(t.input) && UsageOutput(c) == Some(t.output)
    && CostAmount(provider, c) == if provider == TYPESAFE && c.failedRequests == 0 then Some(Price(t.input)) else None
  }

  lemma EndedState(actions: seq<Action>, q: nat, outcome: QueryOutcome)
    requires Exec(actions).Some? && IsActive(Exec(actions).value.h, q)
    ensures var W := Exec(actions).value;
            && Exec(actions + [EndQuery(outcome)]) == Some(W.(h := End(W.h, outcome)))
            && TallyOf(actions + [EndQuery(outcome)], q) == TallyOf(actions, q)
            && q < W.h.nextQuery
  {
    TallySnoc(actions, EndQuery(outcome), q);
    ReachableInv(actions);
    hide Exec, TallyOf, OneEntry, OwnersOk, WorkersOk;
  }

  /** What the profile of an ended query reports as complete is complete for the whole run, however it
      goes on, when no worker of the query held a permit at its end. */
  lemma ProfileCountsWhole(actions: seq<Action>, outcome: QueryOutcome, more: seq<Action>, q: nat, provider: Option<string>)
    requires Exec(actions).Some? && IsActive(Exec(actions).value.h, q) && NoneGranted(Exec(actions).value, q)
    requires UsageComplete(Now(Exec(actions).value.h))
    requires Exec(actions + [EndQuery(outcome)] + more).Some?
    ensures CountsWhole(provider, Now(Exec(actions).value.h), TallyOf(actions + [EndQuery(outcome)] + more, q))
  {
    EndedState(actions, q, outcome);
    UsageIsExact(actions, q);
    CostIsOfEveryRequest(actions, q, provider);
    hide Exec, TallyOf, CostAmount, UsageComplete, UsageInput, UsageOutput, Price, NoneGranted, Calls;
    assert NoneGranted(Exec(actions + [EndQuery(outcome)]).value, q) by {
      SameWorkers(Exec(actions).value, Exec(actions + [EndQuery(outcome)]).value, q);
    }
    NoLateRequest(actions + [EndQuery(outcome)], more, q);
  }

  lemma SameWorkers(W: World, W': World, q: nat)
    requires W'.workers == W.workers && NoneGranted(W, q)
    ensures NoneGranted(W', q)
  {
  }

  /** A close of a query: its end, or another query beginning in its place. */
  predicate Closes(a: Action) { a.EndQuery? || a.BeginQuery? }

  /** But a worker that holds its permit when the query ends, or is displaced, still sends its request,
      and nothing counts it: the counters and the last profile stay as they are. */
  lemma LateRequestEscapes(actions: seq<Action>, i: nat, close: Action)
    requires Exec(actions).Some? && i < |Exec(actions).value.workers| && Closes(close)
    requires var w := Exec(actions).value.workers[i];
             w.pc.Granted? && w.external && IsActive(Exec(actions).value.h, w.scope)
    ensures Exec(actions + [close]).Some? && Exec(actions + [close] + [Work(i, Plain)]).Some?
    ensures var closed, q := actions + [close], Exec(actions).value.workers[i].scope;
            var late := closed + [Work(i, Plain)];
            && TallyOf(late, q) == TallyOf(actions, q).(sent := TallyOf(actions, q).sent + 1)
            && Exec(late).value.h == Exec(closed).value.h
  {
    var W, q := Exec(actions).value, Exec(actions).value.workers[i].scope;
    ReachableInv(actions);
    EscapeStep(W, i, close);
    hide Exec, TallyOf, Inv, Step, Possible, IsActive;
    TallySnoc(actions, close, q);
    TallySnoc(actions + [close], Work(i, Plain), q);
  }

  lemma EscapeStep(W: World, i: nat, close: Action)
    requires Inv(W) && i < |W.workers| && W.workers[i].pc.Granted? && IsActive(W.h, W.workers[i].scope) && Closes(close)
    ensures var E := Step(W, close);
            E.workers == W.workers && Possible(E, Work(i, Plain)) && Step(E, Work(i, Plain)).h == E.h
  {
    ScopeBelow(W, i);
    hide Attempt, WithFate, Inv;
  }

  /** The exact condition: the profile of a query whose usage is complete holds for the whole run, in
      every continuation, if and only if no worker of the query holds a permit when it ends. */
  lemma ProfileIsFinalIff(actions: seq<Action>, outcome: QueryOutcome, q: nat, provider: Option<string>)
    requires Exec(actions).Some? && IsActive(Exec(actions).value.h, q)
    requires UsageComplete(Now(Exec(actions).value.h))
    ensures NoneGranted(Exec(actions).value, q) <==>
      forall more :: Exec(actions + [EndQuery(outcome)] + more).Some? ==>
        CountsWhole(provider, Now(Exec(actions).value.h), TallyOf(actions + [EndQuery(outcome)] + more, q))
  {
    hide Exec, TallyOf, UsageComplete, CountsWhole;
    var W, ended := Exec(actions).value, actions + [EndQuery(outcome)];
    if NoneGranted(W, q) {
      forall more | Exec(ended + more).Some?
        ensures CountsWhole(provider, Now(W.h), TallyOf(ended + more, q))
      {
        ProfileCountsWhole(actions, outcome, more, q, provider);
      }
    } else {
      var i :| 0 <= i < |W.workers| && W.workers[i].scope == q && W.workers[i].external && W.workers[i].pc.Granted?;
      LateRequestEscapes(actions, i, EndQuery(outcome));
      UsageIsExact(actions, q);
      OneMoreIsOpen(TallyOf(actions, q), provider, Now(W.h));
      var more := [Work(i, Plain)];
      assert Exec(ended + more).Some? && !CountsWhole(provider, Now(W.h), TallyOf(ended + more, q));
    }
  }

  lemma OneMoreIsOpen(t: Tally, provider: Option<string>, c: Counts)
    requires AllAccounted(t)
    ensures !CountsWhole(provider, c, t.(sent := t.sent + 1))
  {
  }

  // ---- The profile a user reads

  /** Action `n` of the run ended the query of this snapshot, which holds its counts as they stood. */
  ghost predicate EndedAt(run: seq<Action>, n: nat, s: QuerySnapshot) {
    && n < |run| && Exec(run[..n]).Some? && run[n] == EndQuery(s.outcome)
    && IsActive(Exec(run[..n]).value.h, s.id) && s.counts == Now(Exec(run[..n]).value.h) && s.counts.inputRows > 0
  }

  /** The last profile is that of an end in the run. */
  lemma {:induction false} LastHasEnded(run: seq<Action>)
    requires Exec(run).Some? && Exec(run).value.h.last.Some?
    ensures exists n: nat :: EndedAt(run, n, Exec(run).value.h.last.value)
  {
    hide WorkerStep, Allowed, Possible;
    var init, a := run[..|run| - 1], run[|run| - 1];
    var W, s := Exec(init).value, Exec(run).value.h.last.value;
    if a.EndQuery? && IsActive(W.h, s.id) && s == QuerySnapshot(s.id, a.outcome, Now(W.h)) && s.counts.inputRows > 0 {
      assert EndedAt(run, |run| - 1, s);
    } else {
      LastStays(W, a);
      LastHasEnded(init);
      var n: nat :| EndedAt(init, n, s);
      assert init[..n] == run[..n];
      assert EndedAt(run, n, s);
    }
  }

  lemma LastStays(W: World, a: Action)
    requires Possible(W, a)
    requires var s := Step(W, a).h.last;
             !(a.EndQuery? && s.Some? && IsActive(W.h, s.value.id)
               && s.value == QuerySnapshot(s.value.id, a.outcome, Now(W.h)) && s.value.counts.inputRows > 0)
    ensures Step(W, a).h.last == W.h.last
  {
    hide WorkerStep, Allowed;
    if a.Work? {
      StepMoves(W, a.i, a.choice);
    }
  }

  /** The profile read at any point of any run: if it reports complete usage, and so whenever it reports
      a cost, then the tokens and the cost are those of every request ever sent for its query, unless
      a worker of the query held an unused permit when it ended. */
  lemma ReadProfileIsWhole(run: seq<Action>, provider: Option<string>) returns (n: nat)
    requires Exec(run).Some? && Exec(run).value.h.last.Some?
    ensures EndedAt(run, n, Exec(run).value.h.last.value)
    ensures var s := Exec(run).value.h.last.value;
            && (CostAmount(provider, s.counts).Some? ==> UsageComplete(s.counts))
            && (UsageComplete(s.counts) && NoneGranted(Exec(run[..n]).value, s.id) ==>
                  CountsWhole(provider, s.counts, TallyOf(run, s.id)))
  {
    hide Exec, TallyOf, CountsWhole, UsageComplete, CostAmount, EndedAt, NoneGranted;
    LastHasEnded(run);
    var s := Exec(run).value.h.last.value;
    n :| EndedAt(run, n, s);
    CostKnownIff(provider, s.counts);
    RestOfRun(run, n, s, provider);
  }

  lemma RestOfRun(run: seq<Action>, n: nat, s: QuerySnapshot, provider: Option<string>)
    requires Exec(run).Some? && EndedAt(run, n, s)
    ensures Exec(run[..n]).Some?
    ensures UsageComplete(s.counts) && NoneGranted(Exec(run[..n]).value, s.id) ==>
      CountsWhole(provider, s.counts, TallyOf(run, s.id))
  {
    hide Exec, TallyOf, CountsWhole, UsageComplete, NoneGranted;
    if UsageComplete(s.counts) && NoneGranted(Exec(run[..n]).value, s.id) {
      assert run == run[..n] + [EndQuery(s.outcome)] + run[n + 1..];
      ProfileCountsWhole(run[..n], s.outcome, run[n + 1..], s.id, provider);
    }
  }
}
