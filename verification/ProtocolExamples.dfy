/** Concrete runs: a chunk that stalls, and a profile whose cost leaves a later request out. */
module ProtocolExamples {
  import opened Text
  import opened Judgment
  import opened Host
  import opened Histogram
  import opened Metrics
  import opened Protocol
  import opened ProtocolProgress
  import opened ProtocolStall
  import opened ProtocolUsage
  import opened ProtocolProfile
  import ProviderProtocol
  import Canonical

  const VERIFIED := ProviderProtocol.Verified

  // ---- A chunk that stalls

  /** A batched chunk of two label questions, the first within the service's label limit and the second
      above it, fails midway, and together with an execution of its first question it can stall. */
  lemma FitThenLongStalls(w: Worker, limit: nat) returns (actions: seq<Action>)
    requires Unstarted(w) && w.scope == 0 && w.batched && w.policyOk && |w.groups| == 2
    requires w.caps.multiStateBatch == VERIFIED && w.caps.choice == VERIFIED && w.caps.maxChoices == Some(limit)
    requires w.groups[0].questionKind == Choice && |w.groups[0].choices| <= limit
    requires w.groups[1].questionKind == Choice && |w.groups[1].choices| > limit
    ensures FailsMidway(w)
    ensures Exec(actions).Some? && SpawnsFrom(actions, w) && Stalled(Exec(actions).value)
  {
    hide Exec, SpawnsFrom, Stalled;
    assert !Admitted(w.caps, w.groups[1]);
    actions := MidwayStalls(w);
  }

  /** The identity of a label question. */
  function Asks(question: string, labels: seq<string>): Identity {
    Identity(1, Canonical.TextState, [], Choice, None, Some(question), labels, "", "", "m", None, 0, Some(0))
  }

  function TwoAndThree(): Worker {
    var caps := ProviderProtocol.Capabilities(VERIFIED, VERIFIED, VERIFIED, None, Some(2));
    Worker(0, [Asks("a", ["x", "y"]), Asks("b", ["x", "y", "z"])], 2, 2, true, caps, true, 1, true,
           0, {}, [], map[], {}, false, Arriving)
  }

  lemma TwoAndThreeStalls() returns (actions: seq<Action>)
    ensures Exec(actions).Some? && SpawnsFrom(actions, TwoAndThree()) && Stalled(Exec(actions).value)
  {
    hide Exec, SpawnsFrom, Stalled;
    assert "a"[0] != "b"[0];
    actions := FitThenLongStalls(TwoAndThree(), 2);
  }

  // ---- A cost that leaves a later request out

  /** One worker alone in the first query: its entries, the permits in use, and the input tokens of the
      one request that came back, if one did. */
  ghost predicate Alone(W: World, w: Worker, en: map<Identity, nat>, n: nat, used: nat, spent: Option<nat>) {
    && W.workers == [w] && IsActive(W.h, 0) && W.h.cancelled == {} && W.h.entries == en && |W.h.cells| == n
    && |W.meta| == n && W.pool.active == used && Spent(Now(W.h), spent)
    && (w.pc.Arriving? || Now(W.h).inputRows > 0)
  }

  predicate Spent(c: Counts, spent: Option<nat>) {
    && c.failedRequests == 0 && c.usageMissing == 0
    && c.inputTokens == spent && c.outputTokens == spent
    && c.externalRequests == c.usageResponses == if spent.Some? then 1 else 0
  }

  ghost predicate Runs(w: Worker) {
    w.scope == 0 && !w.batched && w.policyOk && w.limit == 1 && w.external && w.rows > 0
  }

  lemma Starts(w: Worker) returns (actions: seq<Action>, W: World)
    requires Unstarted(w) && Runs(w) && w.groups != []
    ensures Exec(actions) == Some(W) && Alone(W, w.(pc := Claiming), map[], 0, 0, None)
  {
    W := Step(START, BeginQuery);
    actions := Then([], START, BeginQuery);
    actions := Then(actions, W, Spawn(w));
    W := Step(W, Spawn(w));
    assert Alone(W, w, map[], 0, 0, None);
    hide Exec;
    actions := Then(actions, W, Work(0, Plain));
    W := Step(W, Work(0, Plain));
    assert Alone(W, w.(pc := Recording), map[], 0, 0, None);
    actions := Then(actions, W, Work(0, Plain));
    W := Step(W, Work(0, Plain));
  }

  lemma Claims(before: seq<Action>, V: World, w: Worker, en: map<Identity, nat>, n: nat, spent: Option<nat>)
    returns (actions: seq<Action>, W: World)
    requires Exec(before) == Some(V) && Alone(V, w, en, n, 0, spent) && Runs(w)
    requires w.pc.Claiming? && w.next < |w.groups| && w.groups[w.next] !in en && w.todo == {} && w.waits == []
    ensures Exec(actions) == Some(W)
    ensures Alone(W, w.(next := w.next + 1, todo := {n}, pc := Planning), en[w.groups[w.next] := n], n + 1, 0, spent)
  {
    hide Exec;
    var en' := en[w.groups[w.next] := n];
    actions := Then(before, V, Work(0, Plain));
    W := Step(V, Work(0, Plain));
    var u := w.(next := w.next + 1, pc := Claimed(n, true));
    assert Alone(W, u, en', n + 1, 0, spent);
    actions := Then(actions, W, Work(0, Plain));
    W := Step(W, Work(0, Plain));
    assert Alone(W, u.(pc := Looking(n)), en', n + 1, 0, spent);
    actions := Then(actions, W, Work(0, Plain));
    W := Step(W, Work(0, Plain));
    assert w.todo + {n} == {n};
  }

  lemma GetsPermit(before: seq<Action>, V: World, w: Worker, en: map<Identity, nat>, n: nat, e: nat, spent: Option<nat>)
    returns (actions: seq<Action>, W: World)
    requires Exec(before) == Some(V) && Alone(V, w, en, n, 0, spent) && Runs(w)
    requires w.pc.Planning? && w.todo == {e}
    ensures Exec(actions) == Some(W) && Alone(W, w.(todo := {}, pc := Granted({e})), en, n, 1, spent)
  {
    hide Exec;
    actions := Then(before, V, Work(0, Sends({e})));
    W := Step(V, Work(0, Sends({e})));
    assert {e} - {e} == {};
    assert Alone(W, w.(todo := {}, pc := Acquiring({e})), en, n, 0, spent);
    actions := Then(actions, W, Work(0, Plain));
    W := Step(W, Work(0, Plain));
  }

  /** The same with one request under way. */
  ghost predicate Asking(W: World, w: Worker, en: map<Identity, nat>, n: nat) {
    && W.workers == [w] && IsActive(W.h, 0) && W.h.cancelled == {} && W.h.entries == en && |W.h.cells| == n
    && |W.meta| == n && W.pool.active == 1 && Now(W.h).inputRows > 0
    && Now(W.h).externalRequests == 1 && Now(W.h).usageResponses == 0
    && Now(W.h).failedRequests == 0 && Now(W.h).usageMissing == 0
    && Now(W.h).inputTokens == None && Now(W.h).outputTokens == None
  }

  lemma IsSent(V: World, w: Worker, en: map<Identity, nat>, n: nat, b: set<nat>)
    requires Alone(V, w, en, n, 1, None) && Runs(w) && w.pc == Granted(b)
    ensures Possible(V, Work(0, Plain)) && Asking(Step(V, Work(0, Plain)), w.(pc := Calling(b)), en, n)
  {
    hide HistogramAdd;
  }

  lemma ComesBack(V: World, w: Worker, en: map<Identity, nat>, n: nat, answers: map<nat, JudgmentResult>, tokens: nat)
    requires Asking(V, w, en, n) && Runs(w) && w.pc == Calling(answers.Keys)
    ensures var a := Work(0, Replies(answers, Some(ProviderProtocol.Usage(Some(tokens), Some(tokens)))));
            && Possible(V, a)
            && Alone(Step(V, a), w.(pc := Returned(answers.Keys, Some(answers), true)), en, n, 1, Some(tokens))
  {
  }

  /** The request is sent and its answer comes back with both token counts. */
  lemma IsAnswered(before: seq<Action>, V: World, w: Worker, en: map<Identity, nat>, n: nat, e: nat, v: JudgmentResult,
                   tokens: nat)
    returns (actions: seq<Action>, W: World)
    requires Exec(before) == Some(V) && Alone(V, w, en, n, 1, None) && Runs(w) && w.pc == Granted({e})
    ensures Exec(actions) == Some(W)
    ensures Alone(W, w.(pc := Settling(AllAnswered(map[e := v]), false)), en, n, 0, Some(tokens))
  {
    var answers := map[e := v];
    assert answers.Keys == {e};
    IsSent(V, w, en, n, {e});
    var reply := Work(0, Replies(answers, Some(ProviderProtocol.Usage(Some(tokens), Some(tokens)))));
    var u := w.(pc := Calling({e}));
    {
      hide Exec, Step, Possible, Alone, Asking;
      actions := Then(before, V, Work(0, Plain));
      W := Step(V, Work(0, Plain));
      ComesBack(W, u, en, n, answers, tokens);
      actions := Then(actions, W, reply);
      W := Step(W, reply);
    }
    u := u.(pc := Returned({e}, Some(answers), true));
    PermitReturns(W, u, en, n, answers, tokens);
    hide Exec, Step, Possible, Alone, AllAnswered;
    actions := Then(actions, W, Work(0, Plain));
    W := Step(W, Work(0, Plain));
  }

  lemma PermitReturns(V: World, w: Worker, en: map<Identity, nat>, n: nat, answers: map<nat, JudgmentResult>, tokens: nat)
    requires Alone(V, w, en, n, 1, Some(tokens)) && Runs(w) && w.pc == Returned(answers.Keys, Some(answers), true)
    ensures Possible(V, Work(0, Plain))
    ensures Alone(Step(V, Work(0, Plain)), w.(pc := Settling(AllAnswered(answers), false)), en, n, 0, Some(tokens))
  {
    hide AllAnswered;
  }

  lemma EntrySettled(V: World, w: Worker, en: map<Identity, nat>, n: nat, e: nat, outcome: Outcome, spent: Option<nat>)
    requires Alone(V, w, en, n, 0, spent) && w.pc == Settling(map[e := outcome], false)
    ensures Possible(V, Work(0, Completes(e)))
    ensures Alone(Step(V, Work(0, Completes(e))), w.(pc := Settling(map[], false)), en, n, 0, spent)
  {
    var outcomes := map[e := outcome];
    assert outcomes - {e} == map[];
    assert e in outcomes && outcomes != map[];
  }

  lemma AllSettled(V: World, w: Worker, en: map<Identity, nat>, n: nat, spent: Option<nat>)
    requires Alone(V, w, en, n, 0, spent) && w.pc == Settling(map[], false)
    ensures Possible(V, Work(0, Plain)) && Alone(Step(V, Work(0, Plain)), w.(pc := Planning), en, n, 0, spent)
  {
  }

  lemma ClaimsNext(V: World, w: Worker, en: map<Identity, nat>, n: nat, spent: Option<nat>)
    requires Alone(V, w, en, n, 0, spent) && w.pc == Planning
    requires w.todo == {} && w.waits == [] && w.next < |w.groups|
    ensures Possible(V, Work(0, Plain)) && Alone(Step(V, Work(0, Plain)), w.(pc := Claiming), en, n, 0, spent)
  {
  }

  lemma Settles(before: seq<Action>, V: World, w: Worker, en: map<Identity, nat>, n: nat, e: nat, v: JudgmentResult,
                spent: Option<nat>)
    returns (actions: seq<Action>, W: World)
    requires Exec(before) == Some(V) && Alone(V, w, en, n, 0, spent)
    requires w.pc == Settling(AllAnswered(map[e := v]), false) && w.todo == {} && w.waits == [] && w.next < |w.groups|
    ensures Exec(actions) == Some(W) && Alone(W, w.(pc := Claiming), en, n, 0, spent)
  {
    assert AllAnswered(map[e := v]) == map[e := Ok(v)];
    EntrySettled(V, w, en, n, e, Ok(v), spent);
    hide Exec, Step, Possible, Alone, AllAnswered;
    actions := Then(before, V, Work(0, Completes(e)));
    W := Step(V, Work(0, Completes(e)));
    AllSettled(W, w.(pc := Settling(map[], false)), en, n, spent);
    actions := Then(actions, W, Work(0, Plain));
    W := Step(W, Work(0, Plain));
    ClaimsNext(W, w.(pc := Planning), en, n, spent);
    actions := Then(actions, W, Work(0, Plain));
    W := Step(W, Work(0, Plain));
  }

  /** Any unbatched chunk of two judgments has a run in which the first is answered, the query ends while
      the second holds its permit, the profile gives a cost, and one more request is sent. */
  lemma CostLeavesRequestOut(w: Worker, v: JudgmentResult, tokens: nat, outcome: QueryOutcome)
    returns (ended: seq<Action>)
    requires Unstarted(w) && Runs(w) && |w.groups| == 2
    ensures Exec(ended).Some? && Exec(ended).value.h.last.Some?
    ensures var s := Exec(ended).value.h.last.value;
            s.id == 0 && s.outcome == outcome && CostAmount(TYPESAFE, s.counts) == Some(Price(tokens))
    ensures Exec(ended + [Work(0, Plain)]).Some? && Exec(ended + [Work(0, Plain)]).value.h == Exec(ended).value.h
    ensures TallyOf(ended + [Work(0, Plain)], 0).sent == TallyOf(ended, 0).sent + 1
  {
    hide Exec, Alone, TallyOf, CostAmount, AllAnswered, Price;
    var actions, W := Starts(w);
    var a, b := w.groups[0], w.groups[1];
    actions, W := Claims(actions, W, w.(pc := Claiming), map[], 0, None);
    var u := w.(next := 1, todo := {0}, pc := Planning);
    actions, W := GetsPermit(actions, W, u, map[a := 0], 1, 0, None);
    u := u.(todo := {}, pc := Granted({0}));
    actions, W := IsAnswered(actions, W, u, map[a := 0], 1, 0, v, tokens);
    u := u.(pc := Settling(AllAnswered(map[0 := v]), false));
    actions, W := Settles(actions, W, u, map[a := 0], 1, 0, v, Some(tokens));
    u := u.(pc := Claiming);
    actions, W := Claims(actions, W, u, map[a := 0], 1, Some(tokens));
    u := u.(next := 2, todo := {1}, pc := Planning);
    actions, W := GetsPermit(actions, W, u, map[a := 0][b := 1], 2, 1, Some(tokens));
    u := u.(todo := {}, pc := Granted({1}));
    HoldsPermit(W, u, map[a := 0][b := 1], tokens);
    LateRequestEscapes(actions, 0, EndQuery(outcome));
    TallySnoc(actions, EndQuery(outcome), 0);
    ended := actions + [EndQuery(outcome)];
  }

  /** A worker with its permit, after one answered request, in a query whose cost is known. */
  lemma HoldsPermit(W: World, w: Worker, en: map<Identity, nat>, tokens: nat)
    requires Alone(W, w, en, 2, 1, Some(tokens)) && Runs(w) && w.pc.Granted?
    ensures |W.workers| == 1 && W.workers[0] == w && IsActive(W.h, 0) && w.external && w.scope == 0
    ensures Now(W.h).inputRows > 0 && CostAmount(TYPESAFE, Now(W.h)) == Some(Price(tokens))
  {
    CostKnownIff(TYPESAFE, Now(W.h));
    hide CostUnknownReason, Price;
  }
}
