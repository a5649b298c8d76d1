/** Query-local execution of grouped judgments, one request each or in batches, with association of
    every answer to every row that asked for it. */
module Executor {
  import opened Text
  import opened Collections
  import opened Judgment
  import opened Errors
  import opened ProviderProtocol
  import opened Grouping
  import opened Batching
  import opened WorkerRuntime
  import CacheLog

  datatype Limits = Limits(maxInflight: nat, maxRequestBytes: nat)

  /** A group whose identity was assembled from its request, for this provider's service, model and
      credential, as the row loop does. */
  ghost predicate GroupOk(p: Provider, g: Group) {
    && WellMade(g.request) && Identifies(g.identity, g.request) && SameService(p, g.identity)
    && g.identity.requestedModel == p.model && g.identity.credentialScope == p.credentialScope
  }

  ghost predicate GroupsOk(p: Provider, groups: seq<Group>) {
    forall i :: 0 <= i < |groups| ==> GroupOk(p, groups[i])
  }

  // ---- Output association

  type Output = seq<(RowTarget, JudgmentResult)>

  function Expand(targets: seq<RowTarget>, v: JudgmentResult): (r: Output)
    ensures |r| == |targets| && forall i :: 0 <= i < |r| ==> r[i] == (targets[i], v)
  {
    seq(|targets|, i requires 0 <= i < |targets| => (targets[i], v))
  }

  function OutTargets(output: Output): (r: seq<RowTarget>)
    ensures |r| == |output| && forall i :: 0 <= i < |r| ==> r[i] == output[i].0
  {
    seq(|output|, i requires 0 <= i < |output| => output[i].0)
  }

  /** A row of the output carries the provider's valid answer to the judgment of a group that asked
      for that row. */
  ghost predicate RowCorrect(p: Provider, groups: seq<Group>, row: (RowTarget, JudgmentResult)) {
    exists g :: 0 <= g < |groups| && row.0 in groups[g].targets && Answers(p, groups[g].identity, row.1)
  }

  ghost predicate RowsCorrect(p: Provider, groups: seq<Group>, output: Output) {
    forall k :: 0 <= k < |output| ==> RowCorrect(p, groups, output[k])
  }

  lemma RowsExtend(p: Provider, groups: seq<Group>, output: Output, g: nat, v: JudgmentResult)
    requires RowsCorrect(p, groups, output) && g < |groups| && Answers(p, groups[g].identity, v)
    ensures RowsCorrect(p, groups, output + Expand(groups[g].targets, v))
    ensures OutTargets(output + Expand(groups[g].targets, v)) == OutTargets(output) + groups[g].targets
  {
    var rows := Expand(groups[g].targets, v);
    forall k | 0 <= k < |rows|
      ensures RowCorrect(p, groups, rows[k])
    {
      assert rows[k].0 == groups[g].targets[k] && rows[k].0 in groups[g].targets;
    }
  }

  // ---- Cache keys

  /** The key a judgment is cached under: all of its identity, with the model the adapter names for the
      requested one in place of the alias and its scope. */
  ghost function PinnedKey(p: Provider, id: Identity): Option<Identity> {
    var model := p.cacheModel(id.requestedModel);
    if model.None? then None else Some(id.(effectiveModel := model, unresolvedModelScope := None))
  }

  /** What is offered to the cache when `value` is received: the value, under its key, if caching is on
      and the response named the very model the adapter names. */
  ghost function Offers(p: Provider, id: Identity, policy: Option<CacheLog.Policy>, reported: Option<string>,
                        value: JudgmentResult): seq<HostCall>
  {
    var model := p.cacheModel(id.requestedModel);
    if policy.Some? && model.Some? && reported == model then [Offered(PinnedKey(p, id).value, value)] else []
  }

  /** The identity with its model pinned, when the adapter can pin it. */
  function KeyFor(p: Provider, id: Identity): (r: Option<Identity>)
    ensures r.Some? ==> Pinned(r.value)
    ensures r == PinnedKey(p, id)
  {
    var model :- p.cacheModel(id.requestedModel);
    Some(id.(effectiveModel := Some(model), unresolvedModelScope := None))
  }

  /** `cache_identity_for`. */
  function CacheKey(p: Provider, g: Group): (r: Option<Identity>)
    ensures r.Some? ==> Pinned(r.value)
    ensures r == PinnedKey(p, g.identity)
  {
    KeyFor(p, g.identity)
  }

  predicate ModelIsStable(p: Provider, g: Group, expected: Option<string>) {
    expected.Some? && p.cacheModel(g.identity.requestedModel) == expected
  }

  /** A key stands for the judgment of the identity it is made from. */
  lemma KeyOfIdentity(p: Provider, id: Identity, model: string, v: JudgmentResult)
    requires KeyFor(p, id).Some?
    ensures SameService(p, KeyFor(p, id).value) <==> SameService(p, id)
    ensures SaysFor(p, model, KeyFor(p, id).value, v) <==> SaysFor(p, model, id, v)
  {
    var key := KeyFor(p, id).value;
    forall q ensures Identifies(key, q) <==> Identifies(id, q) {
    }
  }

  /** A hit needs no revalidation: the key pins the model, and the value is what that very model
      validly says to the current judgment under the current credential, hence an answer of the
      provider. Values stored under other models or credentials have other keys. */
  lemma HitAnswers(p: Provider, g: Group, v: JudgmentResult)
    requires Honest(p) && GroupOk(p, g) && CacheKey(p, g).Some? && KeyedAnswer(p, CacheKey(p, g).value, v)
    ensures SaysFor(p, p.cacheModel(p.model).value, g.identity, v) && Answers(p, g.identity, v)
  {
    hide SaysFor, SameService;
    var model := p.cacheModel(p.model).value;
    KeyOfIdentity(p, g.identity, model, v);
    assert p.mayServe(g.identity.requestedModel, model);
  }

  /** Two groups share a key only if they ask the same judgment of the same service, requested model
      and credential. */
  lemma KeysSeparate(p: Provider, g: Group, h: Group)
    requires CacheKey(p, g).Some? && CacheKey(p, g) == CacheKey(p, h)
    ensures g.identity.(effectiveModel := None, unresolvedModelScope := None)
         == h.identity.(effectiveModel := None, unresolvedModelScope := None)
  {
    var key := CacheKey(p, g).value;
    assert g.identity.(effectiveModel := None, unresolvedModelScope := None)
        == key.(effectiveModel := None, unresolvedModelScope := None);
  }

  // ---- One judgment per request

  /** The `n`-th call answered the request with this value, and reported this model. */
  ghost predicate Replied(p: Provider, n: nat, q: JudgmentRequest, r: (JudgmentResult, Option<string>)) {
    && p.respond(n, [q]).Ok? && |p.respond(n, [q]).value.answers| == 1
    && p.respond(n, [q]).value.answers[0].result == r.0 && p.respond(n, [q]).value.effectiveModel == r.1
  }

  /** What one call of the provider yields for one request, after validation. */
  method JudgeOne(p: Provider, rt: Runtime, group: Group, limits: Limits)
    returns (r: Result<(JudgmentResult, Option<string>)>)
    requires Honest(p) && GroupOk(p, group) && Inv(p, rt.Now())
    modifies rt
    ensures Inv(p, rt.Now()) && Moves(old(rt.Now()), rt.Now(), {}, {})
    ensures r.Ok? ==> ReportedAnswer(p, group.identity, r.value.0, r.value.1)
    ensures r.Ok? ==> rt.calls == old(rt.calls) + [[group.request]] && Replied(p, |rt.calls|, group.request, r.value)
    ensures rt.hostCalls == old(rt.hostCalls) && Permitted(old(rt.Now()), rt.Now(), limits.maxInflight)
    ensures rt.calls == old(rt.calls) || rt.calls == old(rt.calls) + [[group.request]]
    ensures r.Err? ==> CallFault(p, limits.maxInflight, rt.Now())
  {
    hide Inv, Moves, Answers;
    var permit := rt.AcquirePermit(p, limits.maxInflight);
    if permit.Err? {
      return Err(permit.error);
    }
    ghost var s1 := rt.Now();
    var requests := [group.request];
    var response := rt.Judge(p, requests);
    SelfOwned(p, old(rt.Now()));
    Chain(old(rt.Now()), s1, rt.Now(), {}, {}, {}, {}, {}, {});
    if response.Err? {
      return Err(response.error);
    }
    var validated := ValidateBatchResult(requests, response.value.answers);
    if validated.Err? {
      return Err(validated.error);
    }
    assert |response.value.answers| == 1 by {
      SameMultisetDistinct(RequestKeys(requests), AnswerKeys(response.value.answers));
    }
    var result := response.value.answers[0].result;
    SingleAnswer(p, group, response.value);
    // The second validation cannot fail on a validated response.
    ValidateResultExact(group.request.kind, group.request.choices, result);
    assert ValidateResult(group.request.kind, group.request.choices, result).Ok?;
    return Ok((result, response.value.effectiveModel));
  }

  /** `MovesTransitive` with the unions named. */
  lemma Chain(s: Snapshot, t: Snapshot, u: Snapshot,
              c1: set<Identity>, k1: set<Identity>, c2: set<Identity>, k2: set<Identity>,
              c: set<Identity>, k: set<Identity>)
    requires s.owned <= s.entries.Keys
    requires Moves(s, t, c1, k1) && Moves(t, u, c2, k2) && c == c1 + c2 && k == k1 + k2
    ensures Moves(s, u, c, k)
  {
    MovesTransitive(s, t, u, c1, k1, c2, k2);
  }

  lemma SelfOwned(p: Provider, s: Snapshot)
    requires Inv(p, s)
    ensures s.owned <= s.entries.Keys
  {
  }

  lemma SingleAnswer(p: Provider, group: Group, response: BatchResult)
    requires Honest(p) && GroupOk(p, group)
    requires AnswersBatch([group.request], response.answers) && Faithful(p, [group.request], response)
    ensures |response.answers| == 1
    ensures ReportedAnswer(p, group.identity, response.answers[0].result, response.effectiveModel)
    ensures Fits(group.request.kind, group.request.choices, response.answers[0].result)
  {
    var answers := response.answers;
    SameMultisetDistinct(RequestKeys([group.request]), AnswerKeys(answers));
    assert AnswerKeys(answers)[0] in AnswerKeys(answers);
    assert [group.request][0].requestKey == answers[0].requestKey;
    var model :| ServedBy(p, model, response.effectiveModel) && SaidBy(p, model, [group.request], answers);
    AnswerFromRequest(p, model, group.identity, group.request, answers[0].result);
  }

  /** Whether a fresh answer is offered to the cache: its key can be pinned, and the response names
      the very model it is pinned to. */
  predicate Storable(p: Provider, group: Group, effectiveModel: Option<string>, policy: Option<CacheLog.Policy>) {
    policy.Some? && CacheKey(p, group).Some? && effectiveModel == CacheKey(p, group).value.effectiveModel
  }

  /** A storable answer is the answer of the model its key names. */
  lemma StorableIsKeyed(p: Provider, group: Group, result: JudgmentResult, effectiveModel: Option<string>,
                        policy: Option<CacheLog.Policy>)
    requires Storable(p, group, effectiveModel, policy)
    requires ReportedAnswer(p, group.identity, result, effectiveModel)
    ensures KeyedAnswer(p, CacheKey(p, group).value, result)
  {
    hide SaysFor, SameService;
    KeyOfIdentity(p, group.identity, effectiveModel.value, result);
  }

  /** Offers a storable answer to the cache, which takes it or refuses it as `insert_success` does;
      any other answer leaves everything as it is. */
  method StoreAnswer(p: Provider, rt: Runtime, group: Group, result: JudgmentResult, effectiveModel: Option<string>,
                     policy: Option<CacheLog.Policy>)
    returns (ghost before: Snapshot)
    requires Inv(p, rt.Now()) && ReportedAnswer(p, group.identity, result, effectiveModel)
    modifies rt
    ensures Inv(p, rt.Now()) && Moves(old(rt.Now()), rt.Now(), {}, {}) && rt.calls == old(rt.calls)
    ensures rt.permits == old(rt.permits)
    ensures rt.hostCalls == old(rt.hostCalls) + Offers(p, group.identity, policy, effectiveModel, result)
    ensures Moves(old(rt.Now()), before, {}, {})
    ensures Storable(p, group, effectiveModel, policy) ==>
      rt.Now() == before.(cached := CacheLog.Insert(before.cached, CacheKey(p, group).value, result, before.clock,
                                                    policy.value).0,
                          hostCalls := rt.hostCalls)
    ensures !Storable(p, group, effectiveModel, policy) ==> rt.Now() == old(rt.Now())
  {
    hide Inv, ReportedAnswer, KeyedAnswer, Moves, CacheLog.Insert;
    before := rt.Now();
    MovesItself(before);
    if policy.Some? {
      var key := CacheKey(p, group);
      if key.Some? && effectiveModel == key.value.effectiveModel && ModelIsStable(p, group, key.value.effectiveModel) {
        StorableIsKeyed(p, group, result, effectiveModel, policy);
        before := rt.CacheInsert(p, key.value, result, policy.value);
      }
    }
  }

  /** Whether leading this judgment fails without asking anyone. */
  predicate LeadFault(p: Provider, group: Group, limits: Limits, policy: Option<CacheLog.Policy>) {
    (policy.Some? && !policy.value.Valid()) || p.estimate([group.request]) > limits.maxRequestBytes
  }

  function IdSet(groups: seq<Group>): set<Identity> {
    set g | 0 <= g < |groups| :: groups[g].identity
  }

  /** Everything that can make unbatched execution fail. */
  ghost predicate GroupFault(p: Provider, groups: seq<Group>, limits: Limits, policy: Option<CacheLog.Policy>,
                             claimed: set<Identity>, s: Snapshot)
  {
    || limits.maxRequestBytes == 0
    || (exists g :: 0 <= g < |groups| && LeadFault(p, groups[g], limits, policy))
    || CallFault(p, limits.maxInflight, s)
    || FollowFault(IdSet(groups), claimed, s)
  }

  lemma StaysClaimed(s: Snapshot, t: Snapshot, c: set<Identity>, k: set<Identity>, id: Identity)
    requires Moves(s, t, c, k) && id in s.entries
    ensures id in t.entries
    ensures s.entries[id].Some? ==> t.entries[id] == s.entries[id]
    ensures id in s.owned ==> id in t.owned && (id !in k ==> t.entries[id] == s.entries[id])
  {
  }

  /** Completing entries claimed along the way completes nothing held before. */
  lemma OnlyOwnCompleted(s: Snapshot, t: Snapshot, c: set<Identity>, k: set<Identity>)
    requires Moves(s, t, c, k) && k !! s.owned
    ensures Moves(s, t, c, {})
  {
  }

  lemma ReportedAnswers(p: Provider, id: Identity, v: JudgmentResult, reported: Option<string>)
    requires ReportedAnswer(p, id, v, reported)
    ensures Answers(p, id, v)
  {
    hide SaysFor;
    var model :| p.mayServe(id.requestedModel, model) && (reported.Some? ==> reported.value == model)
                 && SaysFor(p, model, id, v);
    assert SaysFor(p, model, id, v);
  }

  /** The leader's part after a cache miss, in its history: on success one call, whose answer it returns
      and offers to the cache; otherwise at most one call, and nothing offered. */
  ghost predicate Asked(p: Provider, group: Group, policy: Option<CacheLog.Policy>, s: Snapshot, t: Snapshot, r: Outcome) {
    && (t.calls == s.calls || t.calls == s.calls + [[group.request]])
    && if r.Ok? then
         && t.calls == s.calls + [[group.request]] && p.respond(|t.calls|, [group.request]).Ok?
         && var reported := p.respond(|t.calls|, [group.request]).value.effectiveModel;
            && Replied(p, |t.calls|, group.request, (r.value, reported))
            && t.hostCalls == s.hostCalls + Offers(p, group.identity, policy, reported, r.value)
       else t.hostCalls == s.hostCalls
  }

  /** The leader's part in its history: with caching on it first looks under its key; what is found is
      returned without a call; only otherwise the provider is asked. An invalid policy ends it at once. */
  ghost predicate Led(p: Provider, group: Group, policy: Option<CacheLog.Policy>, s: Snapshot, t: Snapshot, r: Outcome) {
    if policy.None? then Asked(p, group, policy, s, t, r)
    else if !policy.value.Valid() then r.Err? && t.calls == s.calls && t.hostCalls == s.hostCalls
    else
      && |s.hostCalls| < |t.hostCalls|
      && var look := t.hostCalls[|s.hostCalls|];
         && look.Looked? && look.sought == PinnedKey(p, group.identity)
         && var looked := s.(hostCalls := s.hostCalls + [look]);
            if look.found.Some? then r == Ok(look.found.value) && t.calls == s.calls && t.hostCalls == looked.hostCalls
            else Asked(p, group, policy, looked, t, r)
  }

  ghost predicate LedAfterCheck(p: Provider, group: Group, policy: Option<CacheLog.Policy>, s: Snapshot, t: Snapshot,
                                r: Outcome)
  {
    Led(p, group, policy, s.(hostCalls := s.hostCalls + [Checked(true)]), t, r)
  }

  /** The leader's part after a cache miss: size check, provider, completion. */
  method JudgeAndComplete(group: Group, p: Provider, rt: Runtime, limits: Limits, policy: Option<CacheLog.Policy>)
    returns (r: Result<JudgmentResult>)
    requires Honest(p) && GroupOk(p, group) && Inv(p, rt.Now())
    requires group.identity in rt.owned && group.identity in rt.entries && rt.entries[group.identity].None?
    modifies rt
    ensures Inv(p, rt.Now()) && Moves(old(rt.Now()), rt.Now(), {}, {group.identity})
    ensures group.identity in rt.entries && rt.entries[group.identity] == Some(r)
    ensures r.Ok? ==> Answers(p, group.identity, r.value)
    ensures Asked(p, group, policy, old(rt.Now()), rt.Now(), r)
    ensures Permitted(old(rt.Now()), rt.Now(), limits.maxInflight)
    ensures rt.calls != old(rt.calls) ==> p.estimate([group.request]) <= limits.maxRequestBytes
    ensures r.Err? ==> LeadFault(p, group, limits, policy) || CallFault(p, limits.maxInflight, rt.Now())
  {
    hide Inv, Answers, ReportedAnswer, Moves, CallFault, Storable, GroupOk, Honest, CacheLog.Insert, Offers, Permitted;
    ghost var s := rt.Now();
    SelfOwned(p, s);
    var id := group.identity;
    if p.estimate([group.request]) > limits.maxRequestBytes {
      var error := JUDGMENT_TOO_LARGE;
      rt.Complete(p, id, Err(error));
      NoPermits(s, rt.Now(), limits.maxInflight);
      return Err(error);
    }
    var judged := JudgeOne(p, rt, group, limits);
    ghost var t := rt.Now();
    if judged.Ok? {
      ReportedAnswers(p, id, judged.value.0, judged.value.1);
      var _ := StoreAnswer(p, rt, group, judged.value.0, judged.value.1, policy);
      Chain(s, t, rt.Now(), {}, {}, {}, {}, {}, {});
    }
    ghost var u := rt.Now();
    StaysClaimed(s, u, {}, {}, id);
    var outcome: Outcome := if judged.Ok? then Ok(judged.value.0) else Err(judged.error);
    rt.Complete(p, id, outcome);
    NoPermits(t, rt.Now(), limits.maxInflight);
    PermittedOn(s, t, rt.Now(), limits.maxInflight);
    if judged.Err? {
      CallFaultStays(p, limits.maxInflight, u, rt.Now(), {}, {id});
    }
    Chain(s, u, rt.Now(), {}, {}, {}, {id}, {}, {id});
    return outcome;
  }

  /** The leader's part: cache, size check, provider, completion. Whatever happens, the entry ends
      with the outcome that is returned. */
  method LeadOneGroup(group: Group, p: Provider, rt: Runtime, limits: Limits, policy: Option<CacheLog.Policy>)
    returns (r: Result<JudgmentResult>)
    requires Honest(p) && GroupOk(p, group) && Inv(p, rt.Now())
    requires group.identity in rt.owned && group.identity in rt.entries && rt.entries[group.identity].None?
    modifies rt
    ensures Inv(p, rt.Now()) && Moves(old(rt.Now()), rt.Now(), {}, {group.identity})
    ensures group.identity in rt.entries && rt.entries[group.identity] == Some(r)
    ensures r.Ok? ==> Answers(p, group.identity, r.value)
    ensures Led(p, group, policy, old(rt.Now()), rt.Now(), r)
    ensures Permitted(old(rt.Now()), rt.Now(), limits.maxInflight)
    ensures rt.calls != old(rt.calls) ==> p.estimate([group.request]) <= limits.maxRequestBytes
    ensures r.Err? ==> LeadFault(p, group, limits, policy) || CallFault(p, limits.maxInflight, rt.Now())
  {
    hide Inv, Answers, ReportedAnswer, Moves, CallFault, KeyedAnswer, GroupOk, Honest, CacheLog.Reconcile, CacheLog.Lookup,
         Offers, Replied, Permitted;
    ghost var s := rt.Now();
    SelfOwned(p, s);
    var id := group.identity;
    if policy.Some? {
      if !policy.value.Valid() {
        var error := CACHE_LIMITS_ZERO;
        rt.Complete(p, id, Err(error));
        NoPermits(s, rt.Now(), limits.maxInflight);
        return Err(error);
      }
      var cached, _ := rt.CacheLookup(p, CacheKey(p, group), policy.value);
      ghost var t := rt.Now();
      StaysClaimed(s, t, {}, {}, id);
      if cached.Some? {
        HitAnswers(p, group, cached.value);
        rt.Complete(p, id, Ok(cached.value));
        NoPermits(s, rt.Now(), limits.maxInflight);
        Chain(s, t, rt.Now(), {}, {}, {}, {id}, {}, {id});
        return Ok(cached.value);
      }
    } else {
      MovesItself(s);
    }
    ghost var t := rt.Now();
    NoPermits(s, t, limits.maxInflight);
    r := JudgeAndComplete(group, p, rt, limits, policy);
    PermittedOn(s, t, rt.Now(), limits.maxInflight);
    Chain(s, t, rt.Now(), {}, {}, {}, {id}, {}, {id});
  }

  lemma MovesItself(s: Snapshot)
    ensures Moves(s, s, {}, {})
  {
  }

  /** `execute_one_group`. A worker that leaves an entry it claimed without an outcome does so only
      because the query ended between claim and cancellation check. */
  method ExecuteOneGroup(group: Group, p: Provider, rt: Runtime, limits: Limits, policy: Option<CacheLog.Policy>)
    returns (r: Result<JudgmentResult>, ghost claimed: set<Identity>)
    requires Honest(p) && GroupOk(p, group) && Inv(p, rt.Now())
    modifies rt
    ensures Inv(p, rt.Now()) && Moves(old(rt.Now()), rt.Now(), claimed, {})
    ensures claimed <= {group.identity} && claimed !! old(rt.owned)
    ensures r.Ok? ==> Answers(p, group.identity, r.value)
    ensures forall id :: id in claimed ==>
      id in rt.entries && (if rt.entries[id].Some? then rt.entries[id] == Some(r) else r.Err? && !rt.active)
    ensures Permitted(old(rt.Now()), rt.Now(), limits.maxInflight)
    // Unless the claim is refused, it checks that the query runs; then a leader looks into the cache before it
    // asks, and offers what it is told, while a follower does neither.
    ensures
      || (r.Err? && rt.calls == old(rt.calls) && rt.hostCalls == old(rt.hostCalls))
      || (r.Err? && rt.calls == old(rt.calls) && rt.hostCalls == old(rt.hostCalls) + [Checked(false)])
      || (claimed == {} && rt.calls == old(rt.calls) && rt.hostCalls == old(rt.hostCalls) + [Checked(true)])
      || (claimed == {group.identity} && LedAfterCheck(p, group, policy, old(rt.Now()), rt.Now(), r))
    ensures rt.calls == old(rt.calls) || rt.calls == old(rt.calls) + [[group.request]]
    ensures rt.calls != old(rt.calls) ==>
      claimed == {group.identity} && p.estimate([group.request]) <= limits.maxRequestBytes
    ensures r.Err? ==>
      || LeadFault(p, group, limits, policy) || CallFault(p, limits.maxInflight, rt.Now())
      || (claimed == {} && WaitFault(rt.Now(), group.identity))
  {
    hide Inv, Answers, ReportedAnswer, Moves, LeadFault, WaitFault, CallFailed, Led, LedAfterCheck, Permitted;
    ghost var s0 := rt.Now();
    SelfOwned(p, s0);
    claimed := {};
    var id := group.identity;
    var claim := rt.ClaimQueryEntry(p, id);
    NoPermits(s0, rt.Now(), limits.maxInflight);
    if claim.Err? {
      return Err(claim.error), {};
    }
    ghost var s1 := rt.Now();
    claimed := if claim.value then {id} else {};
    var cancelled := rt.QueryCancellation(p);
    ghost var s2 := rt.Now();
    NoPermits(s0, s2, limits.maxInflight);
    SelfOwned(p, s2);
    Chain(s0, s1, s2, claimed, {}, {}, {}, claimed, {});
    assert claimed + {} == claimed;
    StaysClaimed(s1, s2, {}, {}, id);
    if cancelled.Err? {
      return Err(cancelled.error), claimed;
    }
    if !claim.value {
      r := rt.Wait(p, id);
      NoPermits(s0, rt.Now(), limits.maxInflight);
      Chain(s0, s2, rt.Now(), {}, {}, {}, {}, {}, {});
      return r, {};
    }
    r := LeadOneGroup(group, p, rt, limits, policy);
    PermittedOn(s0, s2, rt.Now(), limits.maxInflight);
    LedFrom(p, group, policy, s0, s2, rt.Now(), r);
    Chain(s0, s2, rt.Now(), claimed, {}, {}, {id}, claimed, {id});
    OnlyOwnCompleted(s0, rt.Now(), claimed, {id});
  }

  /** Only the history of the start matters. */
  lemma LedFrom(p: Provider, group: Group, policy: Option<CacheLog.Policy>, s: Snapshot, s': Snapshot, t: Snapshot,
                r: Outcome)
    requires Led(p, group, policy, s', t, r) && s.calls == s'.calls && s'.hostCalls == s.hostCalls + [Checked(true)]
    ensures LedAfterCheck(p, group, policy, s, t, r)
    ensures t.calls == s.calls || t.calls == s.calls + [[group.request]]
  {
  }

  lemma KeepsInRange(p: Provider, s: Snapshot, t: Snapshot, c: set<Identity>)
    requires Inv(p, s) && Moves(s, t, c, {})
    ensures forall id :: id in s.owned ==> id in s.entries && id in t.entries && t.entries[id] == s.entries[id]
  {
  }

  /** Every new call asks one group's request, within the byte limit. */
  ghost predicate SingleCalls(p: Provider, maxBytes: nat, groups: seq<Group>,
                              before: seq<seq<JudgmentRequest>>, after: seq<seq<JudgmentRequest>>)
  {
    && before <= after
    && forall k :: |before| <= k < |after| ==>
         p.estimate(after[k]) <= maxBytes && exists g :: 0 <= g < |groups| && after[k] == [groups[g].request]
  }

  lemma OneMoreCall(p: Provider, maxBytes: nat, groups: seq<Group>, i: nat,
                    s: seq<seq<JudgmentRequest>>, t: seq<seq<JudgmentRequest>>, u: seq<seq<JudgmentRequest>>)
    requires i < |groups| && SingleCalls(p, maxBytes, groups, s, t) && (u == t || u == t + [[groups[i].request]])
    requires u != t ==> p.estimate([groups[i].request]) <= maxBytes
    ensures SingleCalls(p, maxBytes, groups, s, u)
  {
  }

  lemma NoCall(p: Provider, maxBytes: nat, groups: seq<Group>, s: seq<seq<JudgmentRequest>>)
    ensures SingleCalls(p, maxBytes, groups, s, s)
  {
  }

  /** `execute_groups`: on success every target appears exactly as often as it was asked for, each
      with the provider's valid answer to its own judgment. */
  method ExecuteGroups(groups: seq<Group>, p: Provider, rt: Runtime, limits: Limits, policy: Option<CacheLog.Policy>)
    returns (r: Result<Output>, ghost claimed: set<Identity>)
    requires Honest(p) && GroupsOk(p, groups) && Inv(p, rt.Now())
    modifies rt
    ensures Inv(p, rt.Now()) && Moves(old(rt.Now()), rt.Now(), claimed, {})
    ensures claimed !! old(rt.owned)
    ensures r.Ok? ==> RowsCorrect(p, groups, r.value) && OutTargets(r.value) == AllTargets(groups)
    ensures forall id :: id in claimed ==> id in rt.entries && (rt.entries[id].None? ==> r.Err? && !rt.active)
    ensures r.Ok? ==> forall id :: id in claimed ==> rt.entries[id].Some? && rt.entries[id].value.Ok?
    ensures r.Err? ==> GroupFault(p, groups, limits, policy, claimed, rt.Now())
    ensures limits.maxRequestBytes == 0 ==> r.Err? && rt.Now() == old(rt.Now())
    // Every call is for one judgment, within the byte limit, and has its own permit.
    ensures Permitted(old(rt.Now()), rt.Now(), limits.maxInflight)
    ensures SingleCalls(p, limits.maxRequestBytes, groups, old(rt.calls), rt.calls)
  {
    hide Inv, Answers, ReportedAnswer, Moves, LeadFault, CallFault, SingleCalls, Permitted, LedAfterCheck;
    ghost var s0 := rt.Now();
    SelfOwned(p, s0);
    MovesItself(s0);
    NoCall(p, limits.maxRequestBytes, groups, s0.calls);
    NoPermits(s0, s0, limits.maxInflight);
    claimed := {};
    if limits.maxRequestBytes == 0 {
      return Err(REQUEST_BYTES_ZERO), {};
    }
    var output: Output := [];
    for i := 0 to |groups|
      invariant Inv(p, rt.Now()) && Moves(s0, rt.Now(), claimed, {}) && claimed !! s0.owned
      invariant RowsCorrect(p, groups, output) && OutTargets(output) == AllTargets(groups[..i])
      invariant SingleCalls(p, limits.maxRequestBytes, groups, old(rt.calls), rt.calls)
      invariant Permitted(s0, rt.Now(), limits.maxInflight)
      invariant forall id :: id in claimed ==>
        id in rt.owned && id in rt.entries && rt.entries[id].Some? && rt.entries[id].value.Ok?
    {
      ghost var s1 := rt.Now();
      var result, now := ExecuteOneGroup(groups[i], p, rt, limits, policy);
      Chain(s0, s1, rt.Now(), claimed, {}, now, {}, claimed + now, {});
      PermittedOn(s0, s1, rt.Now(), limits.maxInflight);
      OneMoreCall(p, limits.maxRequestBytes, groups, i, s0.calls, s1.calls, rt.calls);
      ghost var before := claimed;
      KeepsInRange(p, s1, rt.Now(), now);
      OwnedAfter(s0, s1, rt.Now(), claimed, now);
      claimed := claimed + now;
      if result.Err? {
        OneFault(p, groups, limits, policy, i, before, now, s1, rt.Now());
        return Err(result.error), claimed;
      }
      RowsExtend(p, groups, output, i, result.value);
      output := output + Expand(groups[i].targets, result.value);
      AllTargetsSnoc(groups, i);
    }
    assert groups[..|groups|] == groups;
    return Ok(output), claimed;
  }

  /** The failure of one judgment is a failure of the run; what was claimed before has succeeded. */
  lemma OneFault(p: Provider, groups: seq<Group>, limits: Limits, policy: Option<CacheLog.Policy>, i: nat,
                 claimed: set<Identity>, now: set<Identity>, s: Snapshot, t: Snapshot)
    requires i < |groups| && Moves(s, t, now, {})
    requires forall id :: id in claimed ==> id in s.entries && s.entries[id].Some? && s.entries[id].value.Ok?
    requires || LeadFault(p, groups[i], limits, policy) || CallFault(p, limits.maxInflight, t)
             || (now == {} && WaitFault(t, groups[i].identity))
    ensures GroupFault(p, groups, limits, policy, claimed + now, t)
  {
    hide LeadFault, CallFault;
    var id := groups[i].identity;
    assert id in IdSet(groups);
    if !LeadFault(p, groups[i], limits, policy) && !CallFault(p, limits.maxInflight, t) {
      assert id !in claimed;
      assert FollowFault(IdSet(groups), claimed + now, t);
    }
  }

  lemma OwnedAfter(s: Snapshot, t: Snapshot, u: Snapshot, c: set<Identity>, c': set<Identity>)
    requires Moves(s, t, c, {}) && Moves(t, u, c', {})
    ensures t.owned == s.owned + c && u.owned == s.owned + c + c'
  {
  }

  lemma AllTargetsSnoc(groups: seq<Group>, i: nat)
    requires i < |groups|
    ensures AllTargets(groups[..i + 1]) == AllTargets(groups[..i]) + groups[i].targets
  {
    assert groups[..i + 1] == groups[..i] + [groups[i]];
    AllTargetsConcat(groups[..i], [groups[i]]);
    assert [groups[i]][1..] == [];
  }
}
