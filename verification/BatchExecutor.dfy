/** `execute_batch_groups`: claim, partition, split, dispatch by key, and expand. */
module BatchExecutor {
  import opened Text
  import opened Collections
  import opened Judgment
  import opened Errors
  import opened ProviderProtocol
  import opened Grouping
  import opened Batching
  import opened WorkerRuntime
  import opened Executor
  import opened Planning
  import CacheLog

  function IdsOf(groups: seq<Group>): (r: seq<Identity>)
    ensures |r| == |groups| && forall i :: 0 <= i < |r| ==> r[i] == groups[i].identity
  {
    seq(|groups|, i requires 0 <= i < |groups| => groups[i].identity)
  }

  /** The targets of the groups at `indices`, in that order. */
  function TargetsAt(groups: seq<Group>, indices: seq<nat>): seq<RowTarget>
    requires InRange(indices, |groups|)
  {
    if indices == [] then []
    else TargetsAt(groups, indices[..|indices| - 1]) + groups[indices[|indices| - 1]].targets
  }

  function IdsAt(groups: seq<Group>, indices: seq<nat>): set<Identity>
    requires InRange(indices, |groups|)
  {
    set k | 0 <= k < |indices| :: groups[indices[k]].identity
  }

  /** Different members stand for different judgments. */
  ghost predicate DistinctAt(groups: seq<Group>, indices: seq<nat>)
    requires InRange(indices, |groups|)
  {
    forall i, j :: 0 <= i < j < |indices| ==> groups[indices[i]].identity != groups[indices[j]].identity
  }

  /** This worker leads the judgments at `indices` and owes each an outcome. */
  ghost predicate Owed(groups: seq<Group>, indices: seq<nat>, s: Snapshot)
    requires InRange(indices, |groups|)
  {
    forall k :: 0 <= k < |indices| ==>
      var id := groups[indices[k]].identity;
      id in s.owned && id in s.entries && s.entries[id].None?
  }

  ghost predicate Settled(groups: seq<Group>, indices: seq<nat>, s: Snapshot)
    requires InRange(indices, |groups|)
  {
    forall k :: 0 <= k < |indices| ==>
      var id := groups[indices[k]].identity;
      id in s.owned && id in s.entries && s.entries[id].Some?
  }

  ghost predicate Succeeded(groups: seq<Group>, indices: seq<nat>, s: Snapshot)
    requires InRange(indices, |groups|)
  {
    forall k :: 0 <= k < |indices| ==>
      var id := groups[indices[k]].identity;
      id in s.owned && id in s.entries && s.entries[id].Some? && s.entries[id].value.Ok?
  }

  ghost predicate NoneAmong(groups: seq<Group>, indices: seq<nat>, ids: set<Identity>)
    requires InRange(indices, |groups|)
  {
    forall k :: 0 <= k < |indices| ==> groups[indices[k]].identity !in ids
  }

  lemma OwedStays(groups: seq<Group>, indices: seq<nat>, s: Snapshot, t: Snapshot, c: set<Identity>, k: set<Identity>)
    requires InRange(indices, |groups|) && Owed(groups, indices, s) && Moves(s, t, c, k)
    requires NoneAmong(groups, indices, k)
    ensures Owed(groups, indices, t)
  {
  }

  lemma SucceededStays(groups: seq<Group>, indices: seq<nat>, s: Snapshot, t: Snapshot, c: set<Identity>, k: set<Identity>)
    requires InRange(indices, |groups|) && Succeeded(groups, indices, s) && Moves(s, t, c, k)
    ensures Succeeded(groups, indices, t)
  {
  }

  lemma SettledStays(groups: seq<Group>, indices: seq<nat>, s: Snapshot, t: Snapshot, c: set<Identity>, k: set<Identity>)
    requires InRange(indices, |groups|) && Settled(groups, indices, s) && Moves(s, t, c, k)
    ensures Settled(groups, indices, t)
  {
  }

  // ---- One batch

  /** The answers a batch's results carry, position by position, as the response reports them. */
  ghost predicate ResultsAnswer(p: Provider, groups: seq<Group>, indices: seq<nat>, results: seq<JudgmentResult>,
                                reported: Option<string>)
    requires InRange(indices, |groups|)
  {
    && |results| == |indices|
    && forall k :: 0 <= k < |indices| ==> ReportedAnswer(p, groups[indices[k]].identity, results[k], reported)
  }

  lemma KeyedResult(p: Provider, groups: seq<Group>, indices: seq<nat>, response: BatchResult, i: nat)
    requires Honest(p) && GroupsOk(p, groups) && InRange(indices, |groups|) && i < |indices|
    requires var requests := RequestsFor(groups, indices);
             AnswersBatch(requests, response.answers) && Faithful(p, requests, response)
    ensures var v := ByKey(response.answers);
            && BatchKey(i) in v
            && ReportedAnswer(p, groups[indices[i]].identity, v[BatchKey(i)], response.effectiveModel)
            && Fits(groups[indices[i]].request.kind, groups[indices[i]].request.choices, v[BatchKey(i)])
  {
    var requests, answers := RequestsFor(groups, indices), response.answers;
    ValidatedBatchAssigns(requests, answers, i);
    var v := ByKey(answers)[BatchKey(i)];
    var j :| 0 <= j < |answers| && answers[j] == Answer(BatchKey(i), v);
    assert requests[i].requestKey == answers[j].requestKey;
    assert GroupOk(p, groups[indices[i]]);
    var model :| ServedBy(p, model, response.effectiveModel) && SaidBy(p, model, requests, answers);
    AnswerFromRequest(p, model, groups[indices[i]].identity, requests[i], v);
  }

  /** The association loop of `dispatch`: by key, whatever order the service answered in. */
  method CollectResults(groups: seq<Group>, indices: seq<nat>, ghost p: Provider, requests: seq<JudgmentRequest>,
                        response: BatchResult)
    returns (results: seq<JudgmentResult>)
    requires Honest(p) && GroupsOk(p, groups) && InRange(indices, |groups|)
    requires requests == RequestsFor(groups, indices)
    requires AnswersBatch(requests, response.answers) && Faithful(p, requests, response)
    ensures ResultsAnswer(p, groups, indices, results, response.effectiveModel)
    ensures forall k :: 0 <= k < |indices| ==> Answer(BatchKey(k), results[k]) in response.answers
  {
    hide ReportedAnswer, Honest, GroupsOk, AnswersBatch, Faithful;
    var answers := response.answers;
    var byKey := ByKey(answers);
    results := [];
    for i := 0 to |indices|
      invariant |results| == i
      invariant forall k :: 0 <= k < i ==>
        ReportedAnswer(p, groups[indices[k]].identity, results[k], response.effectiveModel)
      invariant forall k :: 0 <= k < i ==> Answer(BatchKey(k), results[k]) in answers
    {
      KeyedResult(p, groups, indices, response, i);
      ValidatedBatchAssigns(requests, answers, i);
      var request := requests[i];
      // Neither the lookup nor the second validation can fail on a validated batch.
      var result := byKey[request.requestKey];
      ValidateResultExact(request.kind, request.choices, result);
      assert ValidateResult(request.kind, request.choices, result).Ok?;
      results := results + [result];
    }
  }

  /** The `n`-th call answered the batch, each member under its own key, and reported this model. */
  ghost predicate BatchReplied(p: Provider, n: nat, requests: seq<JudgmentRequest>, results: seq<JudgmentResult>,
                               reported: Option<string>)
  {
    && p.respond(n, requests).Ok? && p.respond(n, requests).value.effectiveModel == reported
    && |results| == |requests|
    && forall k :: 0 <= k < |requests| ==>
         Answer(requests[k].requestKey, results[k]) in p.respond(n, requests).value.answers
  }

  /** What a batch's answers make the worker offer to the cache, member by member. */
  ghost function BatchOffers(p: Provider, groups: seq<Group>, indices: seq<nat>, policy: Option<CacheLog.Policy>,
                             results: seq<JudgmentResult>, reported: Option<string>): seq<HostCall>
    requires InRange(indices, |groups|) && |results| == |indices|
  {
    if indices == [] then []
    else
      var n := |indices| - 1;
      BatchOffers(p, groups, indices[..n], policy, results[..n], reported)
      + Offers(p, groups[indices[n]].identity, policy, reported, results[n])
  }

  /** The provider call of `dispatch`: results in batch order, each the answer keyed by the group's
      own position. */
  method AttemptBatch(groups: seq<Group>, indices: seq<nat>, p: Provider, rt: Runtime, limits: Limits)
    returns (r: Result<(seq<JudgmentResult>, Option<string>)>)
    requires Honest(p) && GroupsOk(p, groups) && InRange(indices, |groups|) && Inv(p, rt.Now())
    modifies rt
    ensures Inv(p, rt.Now()) && Moves(old(rt.Now()), rt.Now(), {}, {})
    ensures r.Ok? ==> ResultsAnswer(p, groups, indices, r.value.0, r.value.1)
    ensures r.Ok? ==> rt.calls == old(rt.calls) + [RequestsFor(groups, indices)]
    ensures r.Ok? ==> BatchReplied(p, |rt.calls|, RequestsFor(groups, indices), r.value.0, r.value.1)
    ensures rt.hostCalls == old(rt.hostCalls) && Permitted(old(rt.Now()), rt.Now(), limits.maxInflight)
    ensures rt.calls == old(rt.calls) || rt.calls == old(rt.calls) + [RequestsFor(groups, indices)]
    ensures r.Err? ==> CallFault(p, limits.maxInflight, rt.Now())
  {
    hide Inv, Moves, ReportedAnswer, Honest, GroupsOk, AnswersBatch, Faithful;
    ghost var s0 := rt.Now();
    SelfOwned(p, s0);
    var requests := RequestsFor(groups, indices);
    var permit := rt.AcquirePermit(p, limits.maxInflight);
    if permit.Err? {
      return Err(permit.error);
    }
    ghost var s1 := rt.Now();
    var response := rt.Judge(p, requests);
    Chain(s0, s1, rt.Now(), {}, {}, {}, {}, {}, {});
    if response.Err? {
      return Err(response.error);
    }
    var validated := ValidateBatchResult(requests, response.value.answers);
    if validated.Err? {
      return Err(validated.error);
    }
    var results := CollectResults(groups, indices, p, requests, response.value);
    return Ok((results, response.value.effectiveModel));
  }

  /** Completing every member with the same error. */
  method CompleteWithError(groups: seq<Group>, indices: seq<nat>, p: Provider, rt: Runtime, error: JudgmentError)
    requires InRange(indices, |groups|) && Inv(p, rt.Now())
    requires forall k :: 0 <= k < |indices| ==> groups[indices[k]].identity in rt.owned
    modifies rt
    ensures Inv(p, rt.Now()) && Moves(old(rt.Now()), rt.Now(), {}, IdsAt(groups, indices))
    ensures Settled(groups, indices, rt.Now()) && rt.calls == old(rt.calls) && rt.hostCalls == old(rt.hostCalls)
    ensures rt.permits == old(rt.permits)
  {
    hide Inv, Moves;
    ghost var s0 := rt.Now();
    SelfOwned(p, s0);
    MovesItself(s0);
    assert IdsAt(groups, indices[..0]) == {};
    for i := 0 to |indices|
      invariant Inv(p, rt.Now()) && Moves(s0, rt.Now(), {}, IdsAt(groups, indices[..i]))
      invariant Settled(groups, indices[..i], rt.Now()) && rt.calls == old(rt.calls)
      invariant rt.hostCalls == old(rt.hostCalls) && rt.permits == old(rt.permits)
    {
      ghost var s1 := rt.Now();
      var id := groups[indices[i]].identity;
      StillOwned(s0, s1, {}, IdsAt(groups, indices[..i]));
      rt.Complete(p, id, Err(error));
      StillOwned(s1, rt.Now(), {}, {id});
      IdsAtSnoc(groups, indices, i);
      Chain(s0, s1, rt.Now(), {}, IdsAt(groups, indices[..i]), {}, {id}, {}, IdsAt(groups, indices[..i + 1]));
      SettledStays(groups, indices[..i], s1, rt.Now(), {}, {id});
      assert indices[..i + 1] == indices[..i] + [indices[i]];
    }
    assert indices[..|indices|] == indices;
  }

  lemma StillOwned(s: Snapshot, t: Snapshot, c: set<Identity>, k: set<Identity>)
    requires Moves(s, t, c, k)
    ensures t.owned == s.owned + c
  {
  }

  lemma IdsAtSnoc(groups: seq<Group>, indices: seq<nat>, i: nat)
    requires InRange(indices, |groups|) && i < |indices|
    ensures IdsAt(groups, indices[..i + 1]) == IdsAt(groups, indices[..i]) + {groups[indices[i]].identity}
  {
  }

  lemma SuffixOwed(groups: seq<Group>, part: seq<nat>, a: nat, b: nat, s: Snapshot)
    requires InRange(part, |groups|) && a <= b <= |part| && Owed(groups, part[a..], s)
    ensures Owed(groups, part[b..], s) && Owed(groups, part[a..b], s)
  {
    assert forall k :: 0 <= k < |part[b..]| ==> part[b..][k] == part[a..][k + (b - a)];
    assert forall k :: 0 <= k < |part[a..b]| ==> part[a..b][k] == part[a..][k];
  }

  /** Members outside a slice are other judgments than those in it. */
  lemma OthersDistinct(groups: seq<Group>, part: seq<nat>, a: nat, b: nat)
    requires InRange(part, |groups|) && DistinctAt(groups, part) && a <= b <= |part|
    ensures DistinctAt(groups, part[a..b])
    ensures NoneAmong(groups, part[b..], IdsAt(groups, part[a..b]))
  {
    forall k | 0 <= k < |part[b..]|
      ensures groups[part[b..][k]].identity !in IdsAt(groups, part[a..b])
    {
      assert part[b..][k] == part[b + k];
      assert forall i :: 0 <= i < |part[a..b]| ==> part[a..b][i] == part[a + i];
    }
  }

  /** The completion loop of a successful `dispatch`. */
  method CompleteWithResults(groups: seq<Group>, indices: seq<nat>, results: seq<JudgmentResult>,
                             effectiveModel: Option<string>, p: Provider, rt: Runtime, policy: Option<CacheLog.Policy>)
    returns (output: Output)
    requires InRange(indices, |groups|) && ResultsAnswer(p, groups, indices, results, effectiveModel) && Inv(p, rt.Now())
    requires DistinctAt(groups, indices) && Owed(groups, indices, rt.Now())
    modifies rt
    ensures Inv(p, rt.Now()) && Moves(old(rt.Now()), rt.Now(), {}, IdsAt(groups, indices))
    ensures Succeeded(groups, indices, rt.Now()) && rt.calls == old(rt.calls) && rt.permits == old(rt.permits)
    ensures rt.hostCalls == old(rt.hostCalls) + BatchOffers(p, groups, indices, policy, results, effectiveModel)
    ensures RowsCorrect(p, groups, output) && OutTargets(output) == TargetsAt(groups, indices)
  {
    hide Inv, Moves, Answers, ReportedAnswer, RowsCorrect, Offers, BatchOffers, CompletedUpTo, Succeeded, TargetsAt, IdsAt,
         DistinctAt;
    ghost var s0 := rt.Now();
    SelfOwned(p, s0);
    NothingCompletedYet(p, groups, indices, results, effectiveModel, policy, s0);
    output := [];
    for i := 0 to |indices|
      invariant Inv(p, rt.Now())
      invariant CompletedUpTo(p, groups, indices, results, effectiveModel, policy, s0, rt.Now(), i, output)
    {
      var index, result := indices[i], results[i];
      ghost var s1 := rt.Now();
      NextOwed(p, groups, indices, results, effectiveModel, policy, s0, s1, i, output);
      CompleteOne(groups, index, result, effectiveModel, p, rt, policy);
      CompletesNext(p, groups, indices, results, effectiveModel, policy, s0, s1, rt.Now(), i, output);
      output := output + Expand(groups[index].targets, result);
    }
    AllCompleted(p, groups, indices, results, effectiveModel, policy, s0, rt.Now(), output);
  }

  /** After the first `i` members have been completed. */
  ghost predicate CompletedUpTo(p: Provider, groups: seq<Group>, indices: seq<nat>, results: seq<JudgmentResult>,
                                reported: Option<string>, policy: Option<CacheLog.Policy>, s0: Snapshot, s: Snapshot,
                                i: nat, output: Output)
    requires InRange(indices, |groups|) && |results| == |indices|
  {
    && i <= |indices|
    && Moves(s0, s, {}, IdsAt(groups, indices[..i]))
    && Succeeded(groups, indices[..i], s) && Owed(groups, indices[i..], s)
    && s.calls == s0.calls && s.permits == s0.permits
    && s.hostCalls == s0.hostCalls + BatchOffers(p, groups, indices[..i], policy, results[..i], reported)
    && RowsCorrect(p, groups, output) && OutTargets(output) == TargetsAt(groups, indices[..i])
  }

  lemma NothingCompletedYet(p: Provider, groups: seq<Group>, indices: seq<nat>, results: seq<JudgmentResult>,
                            reported: Option<string>, policy: Option<CacheLog.Policy>, s0: Snapshot)
    requires InRange(indices, |groups|) && |results| == |indices| && Owed(groups, indices, s0)
    ensures CompletedUpTo(p, groups, indices, results, reported, policy, s0, s0, 0, [])
  {
    MovesItself(s0);
    NoRows(p, groups);
    NoOffers(p, groups, policy, reported);
    hide Moves, RowsCorrect, BatchOffers;
    assert IdsAt(groups, indices[..0]) == {};
    assert indices[..0] == [] && results[..0] == [] && indices[0..] == indices;
  }

  lemma NextOwed(p: Provider, groups: seq<Group>, indices: seq<nat>, results: seq<JudgmentResult>,
                 reported: Option<string>, policy: Option<CacheLog.Policy>, s0: Snapshot, s: Snapshot, i: nat,
                 output: Output)
    requires InRange(indices, |groups|) && |results| == |indices| && i < |indices|
    requires CompletedUpTo(p, groups, indices, results, reported, policy, s0, s, i, output)
    ensures Owed(groups, [indices[i]], s)
  {
    hide Moves, Succeeded, RowsCorrect, BatchOffers, IdsAt, TargetsAt;
    assert indices[i..][0] == indices[i];
  }

  lemma CompletesNext(p: Provider, groups: seq<Group>, indices: seq<nat>, results: seq<JudgmentResult>,
                      reported: Option<string>, policy: Option<CacheLog.Policy>, s0: Snapshot, s: Snapshot, t: Snapshot,
                      i: nat, output: Output)
    requires InRange(indices, |groups|) && |results| == |indices| && i < |indices|
    requires s0.owned <= s0.entries.Keys && DistinctAt(groups, indices)
    requires CompletedUpTo(p, groups, indices, results, reported, policy, s0, s, i, output)
    requires ReportedAnswer(p, groups[indices[i]].identity, results[i], reported)
    requires Moves(s, t, {}, {groups[indices[i]].identity}) && Succeeded(groups, [indices[i]], t) && t.calls == s.calls
    requires t.permits == s.permits
    requires t.hostCalls == s.hostCalls + Offers(p, groups[indices[i]].identity, policy, reported, results[i])
    ensures CompletedUpTo(p, groups, indices, results, reported, policy, s0, t, i + 1,
                          output + Expand(groups[indices[i]].targets, results[i]))
  {
    hide Moves, Answers, ReportedAnswer, RowsCorrect, Offers, BatchOffers, Succeeded, TargetsAt, Owed;
    var id := groups[indices[i]].identity;
    Chain(s0, s, t, {}, IdsAt(groups, indices[..i]), {}, {id}, {}, IdsAt(groups, indices[..i]) + {id});
    IdsAtSnoc(groups, indices, i);
    SucceededStays(groups, indices[..i], s, t, {}, {id});
    SucceededSnoc(groups, indices, i, t);
    RestOwed(groups, indices, i, s, t);
    ReportedAnswers(p, id, results[i], reported);
    RowsExtend(p, groups, output, indices[i], results[i]);
    OffersSnoc(p, groups, indices, policy, results, reported, i);
    TargetsSnoc(groups, indices, i);
    hide DistinctAt, IdsAt;
  }

  lemma RestOwed(groups: seq<Group>, indices: seq<nat>, i: nat, s: Snapshot, t: Snapshot)
    requires InRange(indices, |groups|) && i < |indices| && DistinctAt(groups, indices) && Owed(groups, indices[i..], s)
    requires Moves(s, t, {}, {groups[indices[i]].identity})
    ensures Owed(groups, indices[i + 1..], t)
  {
    hide Moves, Owed;
    SuffixOwed(groups, indices, i, i + 1, s);
    OthersDistinct(groups, indices, i, i + 1);
    assert IdsAt(groups, indices[i..i + 1]) == {groups[indices[i]].identity};
    OwedStays(groups, indices[i + 1..], s, t, {}, {groups[indices[i]].identity});
  }

  lemma TargetsSnoc(groups: seq<Group>, indices: seq<nat>, i: nat)
    requires InRange(indices, |groups|) && i < |indices|
    ensures TargetsAt(groups, indices[..i + 1]) == TargetsAt(groups, indices[..i]) + groups[indices[i]].targets
  {
    assert indices[..i + 1][..i] == indices[..i];
  }

  lemma AllCompleted(p: Provider, groups: seq<Group>, indices: seq<nat>, results: seq<JudgmentResult>,
                     reported: Option<string>, policy: Option<CacheLog.Policy>, s0: Snapshot, s: Snapshot, output: Output)
    requires InRange(indices, |groups|) && |results| == |indices|
    requires CompletedUpTo(p, groups, indices, results, reported, policy, s0, s, |indices|, output)
    ensures Moves(s0, s, {}, IdsAt(groups, indices)) && Succeeded(groups, indices, s) && s.calls == s0.calls
    ensures s.permits == s0.permits
    ensures s.hostCalls == s0.hostCalls + BatchOffers(p, groups, indices, policy, results, reported)
    ensures RowsCorrect(p, groups, output) && OutTargets(output) == TargetsAt(groups, indices)
  {
    hide Moves, Succeeded, RowsCorrect, BatchOffers, IdsAt, TargetsAt, Owed;
    assert indices[..|indices|] == indices && results[..|results|] == results;
  }

  lemma OffersSnoc(p: Provider, groups: seq<Group>, indices: seq<nat>, policy: Option<CacheLog.Policy>,
                   results: seq<JudgmentResult>, reported: Option<string>, i: nat)
    requires InRange(indices, |groups|) && |results| == |indices| && i < |indices|
    ensures BatchOffers(p, groups, indices[..i + 1], policy, results[..i + 1], reported)
         == BatchOffers(p, groups, indices[..i], policy, results[..i], reported)
            + Offers(p, groups[indices[i]].identity, policy, reported, results[i])
  {
    hide Offers;
    assert indices[..i + 1][..i] == indices[..i] && results[..i + 1][..i] == results[..i];
  }

  lemma NoOffers(p: Provider, groups: seq<Group>, policy: Option<CacheLog.Policy>, reported: Option<string>)
    ensures BatchOffers(p, groups, [], policy, [], reported) == []
  {
  }

  lemma NoRows(p: Provider, groups: seq<Group>)
    ensures RowsCorrect(p, groups, [])
  {
  }

  lemma SucceededSnoc(groups: seq<Group>, indices: seq<nat>, i: nat, s: Snapshot)
    requires InRange(indices, |groups|) && i < |indices|
    requires Succeeded(groups, indices[..i], s) && Succeeded(groups, [indices[i]], s)
    ensures Succeeded(groups, indices[..i + 1], s)
  {
    assert [indices[i]][0] == indices[i];
    assert indices[..i + 1] == indices[..i] + [indices[i]];
  }

  method CompleteOne(groups: seq<Group>, index: nat, result: JudgmentResult, effectiveModel: Option<string>,
                     p: Provider, rt: Runtime, policy: Option<CacheLog.Policy>)
    requires index < |groups| && Inv(p, rt.Now())
    requires ReportedAnswer(p, groups[index].identity, result, effectiveModel)
    requires Owed(groups, [index], rt.Now())
    modifies rt
    ensures Inv(p, rt.Now()) && Moves(old(rt.Now()), rt.Now(), {}, {groups[index].identity})
    ensures Succeeded(groups, [index], rt.Now()) && rt.calls == old(rt.calls) && rt.permits == old(rt.permits)
    ensures rt.hostCalls == old(rt.hostCalls) + Offers(p, groups[index].identity, policy, effectiveModel, result)
  {
    hide Inv, Moves, Answers, ReportedAnswer, Offers;
    ghost var s0 := rt.Now();
    SelfOwned(p, s0);
    var id := groups[index].identity;
    assert [index][0] == index;
    var _ := StoreAnswer(p, rt, groups[index], result, effectiveModel, policy);
    ghost var s1 := rt.Now();
    StaysClaimed(s0, s1, {}, {}, id);
    ReportedAnswers(p, id, result, effectiveModel);
    rt.Complete(p, id, Ok(result));
    StillOwned(s1, rt.Now(), {}, {id});
    Chain(s0, s1, rt.Now(), {}, {}, {}, {id}, {}, {id});
  }

  /** `dispatch`: every member ends with an outcome; on success each with its own answer. */
  method Dispatch(groups: seq<Group>, indices: seq<nat>, p: Provider, rt: Runtime, limits: Limits,
                  policy: Option<CacheLog.Policy>)
    returns (r: Result<Output>)
    requires Honest(p) && GroupsOk(p, groups) && InRange(indices, |groups|) && Inv(p, rt.Now())
    requires DistinctAt(groups, indices) && Owed(groups, indices, rt.Now())
    modifies rt
    ensures Inv(p, rt.Now()) && Moves(old(rt.Now()), rt.Now(), {}, IdsAt(groups, indices))
    ensures Settled(groups, indices, rt.Now())
    ensures r.Ok? ==> Succeeded(groups, indices, rt.Now())
    ensures r.Ok? ==> RowsCorrect(p, groups, r.value) && OutTargets(r.value) == TargetsAt(groups, indices)
    ensures r.Ok? ==> rt.calls == old(rt.calls) + [RequestsFor(groups, indices)]
    ensures rt.calls == old(rt.calls) || rt.calls == old(rt.calls) + [RequestsFor(groups, indices)]
    ensures Permitted(old(rt.Now()), rt.Now(), limits.maxInflight)
    // What the call answered is offered to the cache, member by member, and nothing else.
    ensures r.Ok? ==> exists results, reported ::
      BatchReplied(p, |rt.calls|, RequestsFor(groups, indices), results, reported)
      && rt.hostCalls == old(rt.hostCalls) + BatchOffers(p, groups, indices, policy, results, reported)
    ensures r.Err? ==> rt.hostCalls == old(rt.hostCalls)
    ensures r.Err? ==> CallFault(p, limits.maxInflight, rt.Now())
  {
    hide Inv, Moves, Answers, RowsCorrect, Honest, GroupsOk, CallFault, BatchReplied, BatchOffers, Permitted;
    ghost var s0 := rt.Now();
    SelfOwned(p, s0);
    var attempt := AttemptBatch(groups, indices, p, rt, limits);
    ghost var s1 := rt.Now();
    OwedStays(groups, indices, s0, s1, {}, {});
    if attempt.Ok? {
      var output := CompleteWithResults(groups, indices, attempt.value.0, attempt.value.1, p, rt, policy);
      NoPermits(s1, rt.Now(), limits.maxInflight);
      PermittedOn(s0, s1, rt.Now(), limits.maxInflight);
      Chain(s0, s1, rt.Now(), {}, {}, {}, IdsAt(groups, indices), {}, IdsAt(groups, indices));
      return Ok(output);
    } else {
      CompleteWithError(groups, indices, p, rt, attempt.error);
      CallFaultStays(p, limits.maxInflight, s1, rt.Now(), {}, IdsAt(groups, indices));
      NoPermits(s1, rt.Now(), limits.maxInflight);
      PermittedOn(s0, s1, rt.Now(), limits.maxInflight);
      Chain(s0, s1, rt.Now(), {}, {}, {}, IdsAt(groups, indices), {}, IdsAt(groups, indices));
      return Err(attempt.error);
    }
  }

  // ---- Partitions

  ghost predicate AllInRange(batches: seq<seq<nat>>, n: nat) {
    forall b :: 0 <= b < |batches| ==> InRange(batches[b], n)
  }

  /** The calls a list of batches makes. */
  function CallsFor(groups: seq<Group>, batches: seq<seq<nat>>): (r: seq<seq<JudgmentRequest>>)
    requires forall b :: 0 <= b < |batches| ==> InRange(batches[b], |groups|)
    ensures |r| == |batches| && forall b :: 0 <= b < |r| ==> r[b] == RequestsFor(groups, batches[b])
  {
    seq(|batches|, b requires 0 <= b < |batches| => RequestsFor(groups, batches[b]))
  }

  lemma CallsSnoc(groups: seq<Group>, batches: seq<seq<nat>>, batch: seq<nat>)
    requires AllInRange(batches, |groups|) && InRange(batch, |groups|)
    ensures AllInRange(batches + [batch], |groups|)
    ensures CallsFor(groups, batches + [batch]) == CallsFor(groups, batches) + [RequestsFor(groups, batch)]
  {
  }

  lemma {:induction false} TargetsAtConcat(groups: seq<Group>, xs: seq<nat>, ys: seq<nat>)
    requires InRange(xs, |groups|) && InRange(ys, |groups|)
    ensures InRange(xs + ys, |groups|) && TargetsAt(groups, xs + ys) == TargetsAt(groups, xs) + TargetsAt(groups, ys)
  {
    if ys == [] {
      assert xs + ys == xs;
    } else {
      TargetsAtConcat(groups, xs, ys[..|ys| - 1]);
      assert (xs + ys)[..|xs + ys| - 1] == xs + ys[..|ys| - 1];
      ConcatAssociative(TargetsAt(groups, xs), TargetsAt(groups, ys[..|ys| - 1]), groups[ys[|ys| - 1]].targets);
    }
  }

  lemma MovesWiden(s: Snapshot, t: Snapshot, c: set<Identity>, k: set<Identity>, k': set<Identity>)
    requires Moves(s, t, c, k) && k <= k'
    ensures Moves(s, t, c, k')
  {
  }

  lemma RowsConcat(p: Provider, groups: seq<Group>, xs: Output, ys: Output)
    requires RowsCorrect(p, groups, xs) && RowsCorrect(p, groups, ys)
    ensures RowsCorrect(p, groups, xs + ys) && OutTargets(xs + ys) == OutTargets(xs) + OutTargets(ys)
  {
  }

  lemma SucceededConcat(groups: seq<Group>, part: seq<nat>, a: nat, b: nat, s: Snapshot)
    requires InRange(part, |groups|) && a <= b <= |part|
    requires Succeeded(groups, part[..a], s) && Succeeded(groups, part[a..b], s)
    ensures Succeeded(groups, part[..b], s)
  {
    assert part[..b] == part[..a] + part[a..b];
  }

  /** Sending one batch of a partition: members `part[a..b]`. */
  method SendSlice(groups: seq<Group>, part: seq<nat>, ghost a: nat, ghost b: nat, current: seq<nat>,
                   p: Provider, rt: Runtime, limits: Limits, policy: Option<CacheLog.Policy>)
    returns (r: Result<Output>)
    requires Honest(p) && GroupsOk(p, groups) && InRange(part, |groups|) && Inv(p, rt.Now())
    requires a <= b <= |part| && current == part[a..b] && DistinctAt(groups, part)
    requires Owed(groups, part[a..], rt.Now()) && Succeeded(groups, part[..a], rt.Now())
    modifies rt
    ensures Inv(p, rt.Now()) && Moves(old(rt.Now()), rt.Now(), {}, IdsAt(groups, part))
    ensures r.Ok? ==> Owed(groups, part[b..], rt.Now()) && Succeeded(groups, part[..b], rt.Now())
    ensures r.Ok? ==> RowsCorrect(p, groups, r.value) && OutTargets(r.value) == TargetsAt(groups, part[a..b])
    ensures r.Ok? ==> rt.calls == old(rt.calls) + [RequestsFor(groups, part[a..b])]
    ensures rt.calls == old(rt.calls) || rt.calls == old(rt.calls) + [RequestsFor(groups, part[a..b])]
    ensures r.Err? ==> CallFault(p, limits.maxInflight, rt.Now())
  {
    hide Inv, Moves, Answers, RowsCorrect, Honest, GroupsOk, CallFault;
    ghost var s0 := rt.Now();
    SuffixOwed(groups, part, a, b, s0);
    OthersDistinct(groups, part, a, b);
    r := Dispatch(groups, current, p, rt, limits, policy);
    OwedStays(groups, part[b..], s0, rt.Now(), {}, IdsAt(groups, part[a..b]));
    SucceededStays(groups, part[..a], s0, rt.Now(), {}, IdsAt(groups, part[a..b]));
    if r.Ok? {
      SucceededConcat(groups, part, a, b, rt.Now());
    }
    SliceIds(groups, part, a, b);
    MovesWiden(s0, rt.Now(), {}, IdsAt(groups, part[a..b]), IdsAt(groups, part));
  }

  lemma SliceIds(groups: seq<Group>, part: seq<nat>, a: nat, b: nat)
    requires InRange(part, |groups|) && a <= b <= |part|
    ensures IdsAt(groups, part[a..b]) <= IdsAt(groups, part)
  {
    assert forall i :: 0 <= i < |part[a..b]| ==> part[a..b][i] == part[a + i];
  }

  /** What the split loop has dispatched: whole batches covering the first `n` members. */
  ghost predicate Sent(groups: seq<Group>, part: seq<nat>, fits: seq<nat> -> bool, batches: seq<seq<nat>>, n: nat) {
    && n <= |part|
    && AllInRange(batches, |groups|)
    && Flatten(batches) == part[..n]
    && forall b :: 0 <= b < |batches| ==> batches[b] != [] && fits(batches[b])
  }

  lemma SentSnoc(groups: seq<Group>, part: seq<nat>, fits: seq<nat> -> bool, batches: seq<seq<nat>>, n: nat, m: nat)
    requires Sent(groups, part, fits, batches, n) && n < m <= |part| && InRange(part, |groups|)
    requires fits(part[n..m])
    ensures Sent(groups, part, fits, batches + [part[n..m]], m)
  {
    FlattenConcat(batches, [part[n..m]]);
    FlattenOne(part[n..m]);
    assert part[..n] + part[n..m] == part[..m];
  }

  /** Continuing the greedy split after `batches` were closed. */
  ghost predicate Continues(part: seq<nat>, fits: seq<nat> -> bool, batches: seq<seq<nat>>,
                            rest: seq<nat>, current: seq<nat>)
  {
    Greedy(part, [], fits) == match Greedy(rest, current, fits)
                              case None => None
                              case Some(later) => Some(batches + later)
  }

  lemma ContinuesExtend(part: seq<nat>, fits: seq<nat> -> bool, batches: seq<seq<nat>>, rest: seq<nat>, current: seq<nat>)
    requires Continues(part, fits, batches, rest, current) && rest != [] && fits(current + [rest[0]])
    ensures Continues(part, fits, batches, rest[1..], current + [rest[0]])
  {
  }

  /** Closing the current batch leaves the same continuation, whether or not the next judgment
      fits alone. */
  lemma ContinuesFlush(part: seq<nat>, fits: seq<nat> -> bool, batches: seq<seq<nat>>, rest: seq<nat>, current: seq<nat>)
    requires Continues(part, fits, batches, rest, current) && current != []
    requires rest == [] || !fits(current + [rest[0]])
    ensures Continues(part, fits, batches + [current], rest, [])
  {
    if rest == [] {
      assert batches + [current] == batches + [current] + [];
    } else {
      assert [] + [rest[0]] == [rest[0]];
      var next := Greedy(rest[1..], [rest[0]], fits);
      if next.Some? {
        assert batches + ([current] + next.value) == (batches + [current]) + next.value;
      }
    }
  }

  lemma ContinuesEnds(part: seq<nat>, fits: seq<nat> -> bool, batches: seq<seq<nat>>)
    requires Continues(part, fits, batches, [], [])
    ensures Greedy(part, [], fits) == Some(batches)
  {
    assert batches + [] == batches;
  }

  /** The split loop before member `i`: the first `n` members are dispatched in `batches` and
      expanded in `output`, members `n..i` wait in `current`, the rest is untouched. */
  ghost predicate SplitState(p: Provider, groups: seq<Group>, part: seq<nat>, fits: seq<nat> -> bool,
                             s0: Snapshot, s: Snapshot, batches: seq<seq<nat>>, n: nat, i: nat, output: Output)
    requires InRange(part, |groups|)
  {
    && n <= i <= |part|
    && (n < i ==> fits(part[n..i]))
    && Sent(groups, part, fits, batches, n)
    && Continues(part, fits, batches, part[i..], part[n..i])
    && Moves(s0, s, {}, IdsAt(groups, part))
    && Succeeded(groups, part[..n], s)
    && Owed(groups, part[n..], s)
    && s.calls == s0.calls + CallsFor(groups, batches)
    && RowsCorrect(p, groups, output)
    && OutTargets(output) == TargetsAt(groups, part[..n])
  }

  lemma StartSplit(p: Provider, groups: seq<Group>, part: seq<nat>, fits: seq<nat> -> bool, s: Snapshot)
    requires InRange(part, |groups|) && Owed(groups, part, s)
    ensures SplitState(p, groups, part, fits, s, s, [], 0, 0, [])
  {
    assert part[0..] == part;
    match Greedy(part, [], fits)
    case None =>
    case Some(later) => assert [] + later == later;
  }

  lemma ExtendSplit(p: Provider, groups: seq<Group>, part: seq<nat>, fits: seq<nat> -> bool,
                    s0: Snapshot, s: Snapshot, batches: seq<seq<nat>>, n: nat, i: nat, output: Output)
    requires InRange(part, |groups|) && SplitState(p, groups, part, fits, s0, s, batches, n, i, output)
    requires i < |part| && fits(part[n..i] + [part[i]])
    ensures SplitState(p, groups, part, fits, s0, s, batches, n, i + 1, output)
  {
    hide Moves, Owed, Succeeded, Sent, TargetsAt, IdsAt;
    assert part[n..i + 1] == part[n..i] + [part[i]];
    assert part[i..][1..] == part[i + 1..];
    ContinuesExtend(part, fits, batches, part[i..], part[n..i]);
  }

  lemma FlushSplit(p: Provider, groups: seq<Group>, part: seq<nat>, fits: seq<nat> -> bool, s0: Snapshot, s: Snapshot,
                   t: Snapshot, batches: seq<seq<nat>>, n: nat, i: nat, output: Output, rows: Output)
    requires InRange(part, |groups|) && SplitState(p, groups, part, fits, s0, s, batches, n, i, output)
    requires n < i && (i == |part| || !fits(part[n..i] + [part[i]]))
    requires s0.owned <= s0.entries.Keys && Moves(s, t, {}, IdsAt(groups, part))
    requires Owed(groups, part[i..], t) && Succeeded(groups, part[..i], t)
    requires RowsCorrect(p, groups, rows) && OutTargets(rows) == TargetsAt(groups, part[n..i])
    requires t.calls == s.calls + [RequestsFor(groups, part[n..i])]
    ensures SplitState(p, groups, part, fits, s0, t, batches + [part[n..i]], i, i, output + rows)
  {
    hide Moves, Owed, Succeeded, TargetsAt, IdsAt, Flatten, RowsCorrect;
    Chain(s0, s, t, {}, IdsAt(groups, part), {}, IdsAt(groups, part), {}, IdsAt(groups, part));
    CallsSnoc(groups, batches, part[n..i]);
    SentSnoc(groups, part, fits, batches, n, i);
    RowsConcat(p, groups, output, rows);
    SliceTargets(groups, part, n, i);
    assert part[i..i] == [];
    ContinuesFlush(part, fits, batches, part[i..], part[n..i]);
  }

  lemma SliceTargets(groups: seq<Group>, part: seq<nat>, a: nat, b: nat)
    requires InRange(part, |groups|) && a <= b <= |part|
    ensures TargetsAt(groups, part[..b]) == TargetsAt(groups, part[..a]) + TargetsAt(groups, part[a..b])
  {
    assert part[..b] == part[..a] + part[a..b];
    TargetsAtConcat(groups, part[..a], part[a..b]);
  }

  /** What holds of the batches handed to the provider, whether or not they all succeeded. */
  ghost predicate SentWithinLimits(groups: seq<Group>, fits: seq<nat> -> bool, s0: Snapshot, s: Snapshot,
                                   batches: seq<seq<nat>>)
  {
    && AllInRange(batches, |groups|)
    && (forall b :: 0 <= b < |batches| ==> fits(batches[b]))
    && s.calls == s0.calls + CallsFor(groups, batches)
  }

  lemma StateWithinLimits(p: Provider, groups: seq<Group>, part: seq<nat>, fits: seq<nat> -> bool,
                          s0: Snapshot, s: Snapshot, batches: seq<seq<nat>>, n: nat, i: nat, output: Output)
    requires InRange(part, |groups|) && SplitState(p, groups, part, fits, s0, s, batches, n, i, output)
    ensures SentWithinLimits(groups, fits, s0, s, batches) && Moves(s0, s, {}, IdsAt(groups, part))
    ensures n <= i <= |part| && Owed(groups, part[n..], s) && Succeeded(groups, part[..n], s)
  {
  }

  lemma FailedFlush(p: Provider, groups: seq<Group>, part: seq<nat>, fits: seq<nat> -> bool, s0: Snapshot, s: Snapshot,
                    t: Snapshot, batches: seq<seq<nat>>, n: nat, i: nat, output: Output) returns (sent: seq<seq<nat>>)
    requires InRange(part, |groups|) && SplitState(p, groups, part, fits, s0, s, batches, n, i, output) && n < i
    requires s0.owned <= s0.entries.Keys && Moves(s, t, {}, IdsAt(groups, part))
    requires t.calls == s.calls || t.calls == s.calls + [RequestsFor(groups, part[n..i])]
    ensures SentWithinLimits(groups, fits, s0, t, sent) && Moves(s0, t, {}, IdsAt(groups, part))
  {
    hide Moves, Owed, Succeeded, TargetsAt, IdsAt, Flatten, RowsCorrect, Continues;
    Chain(s0, s, t, {}, IdsAt(groups, part), {}, IdsAt(groups, part), {}, IdsAt(groups, part));
    CallsSnoc(groups, batches, part[n..i]);
    sent := if t.calls == s.calls then batches else batches + [part[n..i]];
  }

  /** Dispatching the current batch. */
  method Flush(groups: seq<Group>, part: seq<nat>, ghost n: nat, ghost i: nat, current: seq<nat>, output: Output,
               p: Provider, rt: Runtime, limits: Limits, policy: Option<CacheLog.Policy>,
               ghost fits: seq<nat> -> bool, ghost s0: Snapshot, ghost batches: seq<seq<nat>>)
    returns (r: Result<Output>, ghost sent: seq<seq<nat>>)
    requires Honest(p) && GroupsOk(p, groups) && InRange(part, |groups|) && Inv(p, rt.Now())
    requires s0.owned <= s0.entries.Keys && DistinctAt(groups, part)
    requires SplitState(p, groups, part, fits, s0, rt.Now(), batches, n, i, output)
    requires n < i && current == part[n..i] && (i == |part| || !fits(part[n..i] + [part[i]]))
    modifies rt
    ensures Inv(p, rt.Now())
    ensures r.Ok? ==> sent == batches + [current] && SplitState(p, groups, part, fits, s0, rt.Now(), sent, i, i, r.value)
    ensures SentWithinLimits(groups, fits, s0, rt.Now(), sent) && Moves(s0, rt.Now(), {}, IdsAt(groups, part))
    ensures r.Err? ==> CallFault(p, limits.maxInflight, rt.Now())
  {
    hide Inv, Moves, Answers, RowsCorrect, Honest, GroupsOk, Owed, Succeeded, DistinctAt, IdsAt, SplitState,
         SentWithinLimits, TargetsAt, CallFault;
    ghost var s := rt.Now();
    StateWithinLimits(p, groups, part, fits, s0, s, batches, n, i, output);
    var rows := SendSlice(groups, part, n, i, current, p, rt, limits, policy);
    if rows.Err? {
      sent := FailedFlush(p, groups, part, fits, s0, s, rt.Now(), batches, n, i, output);
      return Err(rows.error), sent;
    }
    FlushSplit(p, groups, part, fits, s0, s, rt.Now(), batches, n, i, output, rows.value);
    StateWithinLimits(p, groups, part, fits, s0, rt.Now(), batches + [current], i, i, output + rows.value);
    return Ok(output + rows.value), batches + [current];
  }

  /** What a finished split loop has done. */
  lemma SplitDone(p: Provider, groups: seq<Group>, part: seq<nat>, fits: seq<nat> -> bool,
                  s0: Snapshot, s: Snapshot, batches: seq<seq<nat>>, n: nat, output: Output)
    requires InRange(part, |groups|) && n == |part|
    requires SplitState(p, groups, part, fits, s0, s, batches, n, |part|, output)
    ensures Greedy(part, [], fits) == Some(batches) && Flatten(batches) == part
    ensures Succeeded(groups, part, s) && RowsCorrect(p, groups, output) && OutTargets(output) == TargetsAt(groups, part)
  {
    hide Moves, Owed, Succeeded, TargetsAt, IdsAt, Flatten, RowsCorrect;
    assert part[..|part|] == part && part[|part|..] == [] && part[n..|part|] == [];
    ContinuesEnds(part, fits, batches);
  }

  lemma FitsExactly(groups: seq<Group>, p: Provider, maxJudgments: nat, limits: Limits, indices: seq<nat>)
    requires InRange(indices, |groups|)
    ensures BatchFits(groups, p.estimate, maxJudgments, limits.maxRequestBytes)(indices) <==>
      |RequestsFor(groups, indices)| <= maxJudgments && p.estimate(RequestsFor(groups, indices)) <= limits.maxRequestBytes
  {
  }

  /** Before judgment `i` joins the current batch: if it does not fit, the batch is dispatched first. */
  method MakeFit(groups: seq<Group>, part: seq<nat>, ghost n: nat, i: nat, current: seq<nat>, output: Output,
                 p: Provider, rt: Runtime, maxJudgments: nat, limits: Limits, policy: Option<CacheLog.Policy>,
                 ghost fits: seq<nat> -> bool, ghost s0: Snapshot, ghost batches: seq<seq<nat>>)
    returns (r: Result<(seq<nat>, Output)>, ghost sent: seq<seq<nat>>, ghost m: nat)
    requires Honest(p) && GroupsOk(p, groups) && InRange(part, |groups|) && Inv(p, rt.Now())
    requires s0.owned <= s0.entries.Keys && DistinctAt(groups, part)
    requires fits == BatchFits(groups, p.estimate, maxJudgments, limits.maxRequestBytes)
    requires SplitState(p, groups, part, fits, s0, rt.Now(), batches, n, i, output)
    requires n <= i < |part| && current == part[n..i]
    modifies rt
    ensures Inv(p, rt.Now())
    ensures r.Ok? ==> m <= i && r.value.0 == part[m..i] && fits(r.value.0 + [part[i]])
    ensures r.Ok? ==> SplitState(p, groups, part, fits, s0, rt.Now(), sent, m, i, r.value.1)
    ensures SentWithinLimits(groups, fits, s0, rt.Now(), sent) && Moves(s0, rt.Now(), {}, IdsAt(groups, part))
    ensures r.Err? ==> CallFault(p, limits.maxInflight, rt.Now()) || !fits([part[i]])
  {
    hide Inv, Moves, Answers, RowsCorrect, Honest, GroupsOk, Owed, Succeeded, DistinctAt, IdsAt, SplitState,
         SentWithinLimits, TargetsAt, CallFault, BatchFits;
    StateWithinLimits(p, groups, part, fits, s0, rt.Now(), batches, n, i, output);
    sent, m := batches, n;
    var candidate := RequestsFor(groups, current + [part[i]]);
    FitsExactly(groups, p, maxJudgments, limits, current + [part[i]]);
    if |candidate| <= maxJudgments && p.estimate(candidate) <= limits.maxRequestBytes {
      return Ok((current, output)), sent, m;
    }
    assert [] + [part[i]] == [part[i]] && part[i..i] == [];
    if current == [] {
      return Err(JUDGMENT_TOO_LARGE), sent, m;
    }
    var flushed;
    flushed, sent := Flush(groups, part, n, i, current, output, p, rt, limits, policy, fits, s0, batches);
    if flushed.Err? {
      return Err(flushed.error), sent, m;
    }
    var singleton := RequestsFor(groups, [part[i]]);
    FitsExactly(groups, p, maxJudgments, limits, [part[i]]);
    if |singleton| > maxJudgments || p.estimate(singleton) > limits.maxRequestBytes {
      return Err(JUDGMENT_OVER_LIMITS), sent, m;
    }
    return Ok(([], flushed.value)), sent, i;
  }

  /** The split loop over one partition. On success the batches sent are exactly the greedy split;
      on failure, too, only batches within the limits were sent. */
  method SplitPartition(groups: seq<Group>, part: seq<nat>, p: Provider, rt: Runtime, maxJudgments: nat,
                        limits: Limits, policy: Option<CacheLog.Policy>)
    returns (r: Result<Output>, ghost batches: seq<seq<nat>>)
    requires Honest(p) && GroupsOk(p, groups) && InRange(part, |groups|) && Inv(p, rt.Now())
    requires DistinctAt(groups, part) && Owed(groups, part, rt.Now())
    modifies rt
    ensures Inv(p, rt.Now()) && Moves(old(rt.Now()), rt.Now(), {}, IdsAt(groups, part))
    ensures SentWithinLimits(groups, BatchFits(groups, p.estimate, maxJudgments, limits.maxRequestBytes),
                             old(rt.Now()), rt.Now(), batches)
    ensures r.Ok? ==> Flatten(batches) == part
    ensures r.Ok? ==>
      Greedy(part, [], BatchFits(groups, p.estimate, maxJudgments, limits.maxRequestBytes)) == Some(batches)
    ensures r.Ok? ==> Succeeded(groups, part, rt.Now())
    ensures r.Ok? ==> RowsCorrect(p, groups, r.value) && OutTargets(r.value) == TargetsAt(groups, part)
    ensures r.Err? ==>
      || CallFault(p, limits.maxInflight, rt.Now())
      || !AllFitAlone(part, BatchFits(groups, p.estimate, maxJudgments, limits.maxRequestBytes))
  {
    hide Inv, Moves, Answers, RowsCorrect, Honest, GroupsOk, Owed, Succeeded, DistinctAt, IdsAt, SplitState,
         SentWithinLimits, TargetsAt, Greedy, Flatten, CallFault, BatchFits;
    ghost var s0 := rt.Now();
    SelfOwned(p, s0);
    ghost var fits := BatchFits(groups, p.estimate, maxJudgments, limits.maxRequestBytes);
    StartSplit(p, groups, part, fits, s0);
    var current: seq<nat> := [];
    var output: Output := [];
    ghost var n: nat := 0;
    batches := [];
    for i := 0 to |part|
      invariant n <= i && current == part[n..i] && Inv(p, rt.Now())
      invariant SplitState(p, groups, part, fits, s0, rt.Now(), batches, n, i, output)
    {
      var made, sent, m := MakeFit(groups, part, n, i, current, output, p, rt, maxJudgments, limits, policy,
                                   fits, s0, batches);
      if made.Err? {
        return Err(made.error), sent;
      }
      batches, n, current, output := sent, m, made.value.0, made.value.1;
      ExtendSplit(p, groups, part, fits, s0, rt.Now(), batches, n, i, output);
      current := current + [part[i]];
    }
    if current != [] {
      var flushed, sent := Flush(groups, part, n, |part|, current, output, p, rt, limits, policy, fits, s0, batches);
      if flushed.Err? {
        return Err(flushed.error), sent;
      }
      output, batches, n := flushed.value, sent, |part|;
    }
    StateWithinLimits(p, groups, part, fits, s0, rt.Now(), batches, n, |part|, output);
    SplitDone(p, groups, part, fits, s0, rt.Now(), batches, n, output);
    return Ok(output), batches;
  }
}
