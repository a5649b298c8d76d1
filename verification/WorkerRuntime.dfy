/** The execution runtime as one worker sees it: the query's entries, the shared cache and the
    lifecycle flag, any of which other workers may change between this worker's own calls. */
module WorkerRuntime {
  import opened Text
  import opened Judgment
  import opened Errors
  import opened ProviderProtocol
  import Canonical
  import CacheLog
  import CacheRuns

  /** A provider adapter for one service endpoint. `says` is what a model of the service answers to a
      request under a credential scope; `mayServe` tells with which models the service may serve a
      requested one, be it an alias or a version. `respond` is the response to the n-th call, with
      answers in any order and any metadata, or an error; the size estimate and the pinned model of a
      requested one are the adapter's own. */
  datatype Provider = Provider(
    namespace: string,
    endpoint: string,
    model: string,
    credentialScope: nat,
    capabilities: Capabilities,
    says: (nat, string, JudgmentRequest) -> Result<JudgmentResult>,
    mayServe: (string, string) -> bool,
    respond: (nat, seq<JudgmentRequest>) -> Result<BatchResult>,
    estimate: seq<JudgmentRequest> -> nat,
    cacheModel: string -> Option<string>)

  /** A model looks at the judgment, not at the key that associates the answer. */
  ghost predicate KeyBlind(p: Provider) {
    forall scope, model, q :: p.says(scope, model, q) == p.says(scope, model, WithoutKey(q))
  }

  /** Every answer is what `model` says to the request with that key. */
  ghost predicate SaidBy(p: Provider, model: string, requests: seq<JudgmentRequest>, answers: seq<Answer>) {
    forall i, j :: 0 <= i < |requests| && 0 <= j < |answers| && requests[i].requestKey == answers[j].requestKey
      ==> p.says(p.credentialScope, model, requests[i]) == Ok(answers[j].result)
  }

  /** All answers of a response come from one model: the one it reports, if it reports one. */
  ghost predicate Faithful(p: Provider, requests: seq<JudgmentRequest>, response: BatchResult) {
    exists model :: ServedBy(p, model, response.effectiveModel) && SaidBy(p, model, requests, response.answers)
  }

  predicate ServedBy(p: Provider, model: string, reported: Option<string>) {
    p.mayServe(p.model, model) && (reported.Some? ==> reported.value == model)
  }

  /** The provider is a function of the request and the model that happens to serve it, ignoring the
      key; asking for a version may be served by that version. */
  ghost predicate Honest(p: Provider) {
    && KeyBlind(p)
    && (forall model :: p.cacheModel(model).Some? ==> p.mayServe(model, p.cacheModel(model).value))
    && forall n: nat, requests :: p.respond(n, requests).Ok? ==> Faithful(p, requests, p.respond(n, requests).value)
  }

  /** `v` is what `model` validly answers to the judgment `id` stands for. */
  ghost predicate SaysFor(p: Provider, model: string, id: Identity, v: JudgmentResult) {
    && Fits(id.questionKind, id.choices, v)
    && forall q :: Identifies(id, q) && Canonical.IsEncoded(q.state) ==> p.says(id.credentialScope, model, q) == Ok(v)
  }

  /** `v` is a valid answer to the judgment `id` stands for, from a model that may serve it and that
      is the reported one, if one is reported. */
  ghost predicate ReportedAnswer(p: Provider, id: Identity, v: JudgmentResult, reported: Option<string>) {
    exists model :: p.mayServe(id.requestedModel, model) && (reported.Some? ==> reported.value == model)
                    && SaysFor(p, model, id, v)
  }

  ghost predicate Answers(p: Provider, id: Identity, v: JudgmentResult) {
    ReportedAnswer(p, id, v, None)
  }

  lemma AnswerFromRequest(p: Provider, model: string, id: Identity, q: JudgmentRequest, v: JudgmentResult)
    requires KeyBlind(p) && Identifies(id, q) && Canonical.IsEncoded(q.state)
    requires p.says(id.credentialScope, model, q) == Ok(v) && Fits(q.kind, q.choices, v)
    ensures SaysFor(p, model, id, v)
  {
    var scope := id.credentialScope;
    forall q' | Identifies(id, q') && Canonical.IsEncoded(q'.state)
      ensures p.says(scope, model, q') == Ok(v)
    {
      IdentityDeterminesRequest(id, q, q');
      assert p.says(scope, model, q') == p.says(scope, model, WithoutKey(q'));
      assert p.says(scope, model, q) == p.says(scope, model, WithoutKey(q));
    }
  }

  /** Entries and keys of this provider's service; their model and credential may be any. */
  ghost predicate SameService(p: Provider, id: Identity) {
    id.providerNamespace == p.namespace && id.endpoint == p.endpoint
  }

  /** A key under which a result may outlive its query: its model is pinned. */
  predicate Pinned(key: Identity) {
    key.effectiveModel.Some? && key.unresolvedModelScope.None?
  }

  /** A cached value is the answer of the very model its key names. */
  ghost predicate KeyedAnswer(p: Provider, key: Identity, v: JudgmentResult) {
    Pinned(key) && (SameService(p, key) ==> SaysFor(p, key.effectiveModel.value, key, v))
  }

  /** A step of some other worker, or of the host. */
  datatype Event =
    | OtherClaims(claimed: Identity)
    | OtherCompletes(finished: Identity, outcome: Outcome)
    | CacheBecomes(contents: CacheLog.Log)
    | ClockReaches(at: nat)
    | QueryEnds

  /** The runtime at one moment. `script` is what the others will do, one batch of steps before each
      call of this worker; the last four are this worker's history: the entries it claimed as leader, the
      limits its permits were given under, the batches it handed to the provider, and what it asked of query
      and cache. */
  datatype Snapshot = Snapshot(
    entries: map<Identity, Option<Outcome>>,
    cached: CacheLog.Log,
    clock: nat,
    active: bool,
    script: seq<seq<Event>>,
    owned: set<Identity>,
    permits: seq<nat>,
    calls: seq<seq<JudgmentRequest>>,
    hostCalls: seq<HostCall>)

  /** A look whether the query runs; a lookup under a key, if there was one, with what it found; or an
      answer offered under a key. */
  datatype HostCall =
    | Checked(running: bool)
    | Looked(sought: Option<Identity>, found: Option<JudgmentResult>)
    | Offered(key: Identity, value: JudgmentResult)

  ghost predicate EntriesHold(p: Provider, entries: map<Identity, Option<Outcome>>) {
    forall id :: id in entries && entries[id].Some? && entries[id].value.Ok? && SameService(p, id) ==>
      Answers(p, id, entries[id].value.value)
  }

  ghost predicate CacheHolds(p: Provider, cached: CacheLog.Log) {
    forall x :: x in cached ==> KeyedAnswer(p, x.id, x.entry.result)
  }

  /** The others keep the same promises as this worker. */
  ghost predicate Admissible(p: Provider, e: Event) {
    match e
    case OtherCompletes(id, outcome) => outcome.Ok? && SameService(p, id) ==> Answers(p, id, outcome.value)
    case CacheBecomes(contents) => CacheHolds(p, contents)
    case _ => true
  }

  ghost predicate ScriptAdmissible(p: Provider, script: seq<seq<Event>>) {
    forall i, j :: 0 <= i < |script| && 0 <= j < |script[i]| ==> Admissible(p, script[i][j])
  }

  /** Stored successes are the service's valid answers, cached ones those of the model in their key; no call
      was made without a permit of its own. */
  ghost predicate Inv(p: Provider, s: Snapshot) {
    && EntriesHold(p, s.entries)
    && CacheHolds(p, s.cached)
    && ScriptAdmissible(p, s.script)
    && s.owned <= s.entries.Keys
    && |s.calls| <= |s.permits|
  }

  /** What may have happened between two moments when this worker claimed `claimed` and completed
      at most `completed` of the entries it held: completed entries keep their outcome, and nobody
      else completes this worker's entries. A script that has ended stands for no others at all. */
  ghost predicate Moves(s: Snapshot, s': Snapshot, claimed: set<Identity>, completed: set<Identity>) {
    && s.entries.Keys <= s'.entries.Keys
    && (forall id :: id in s.entries && s.entries[id].Some? ==> s'.entries[id] == s.entries[id])
    && (s'.active ==> s.active)
    && s'.owned == s.owned + claimed
    && (forall id :: id in s.owned && id in s.entries && id !in completed ==> s'.entries[id] == s.entries[id])
    && (s.script == [] ==>
          s'.script == [] && s'.active == s.active && s'.entries.Keys == s.entries.Keys + claimed)
  }

  /** Between two moments every call had a permit of its own, given under this limit. */
  ghost predicate Permitted(s: Snapshot, t: Snapshot, limit: nat) {
    && s.permits <= t.permits && |t.calls| - |s.calls| <= |t.permits| - |s.permits|
    && forall k :: |s.permits| <= k < |t.permits| ==> t.permits[k] == limit > 0
  }

  lemma PermittedOn(s: Snapshot, t: Snapshot, u: Snapshot, limit: nat)
    requires Permitted(s, t, limit) && Permitted(t, u, limit)
    ensures Permitted(s, u, limit)
  {
    forall k | |s.permits| <= k < |u.permits|
      ensures u.permits[k] == limit > 0
    {
      if k < |t.permits| {
        assert u.permits[k] == t.permits[k];
      }
    }
  }

  lemma NoPermits(s: Snapshot, t: Snapshot, limit: nat)
    requires t.permits == s.permits && t.calls == s.calls
    ensures Permitted(s, t, limit)
  {
  }

  /** The latest call of this worker failed, or was answered with something that does not answer it. */
  ghost predicate CallFailed(p: Provider, calls: seq<seq<JudgmentRequest>>) {
    && calls != []
    && var n, requests := |calls|, calls[|calls| - 1];
       p.respond(n, requests).Err? || !AnswersBatch(requests, p.respond(n, requests).value.answers)
  }

  /** What makes a provider call come to nothing. */
  ghost predicate CallFault(p: Provider, maxInflight: nat, s: Snapshot) {
    !s.active || maxInflight == 0 || CallFailed(p, s.calls)
  }

  /** What makes a wait come to nothing: the leader failed, or left no outcome for it to see. */
  ghost predicate WaitFault(s: Snapshot, id: Identity) {
    id in s.entries && (if s.entries[id].Some? then s.entries[id].value.Err? else !s.active || s.script == [])
  }

  /** Some judgment of `ids` was left to another worker, in vain. */
  ghost predicate FollowFault(ids: set<Identity>, claimed: set<Identity>, s: Snapshot) {
    exists id :: id in ids && id !in claimed && WaitFault(s, id)
  }

  lemma CallFaultStays(p: Provider, maxInflight: nat, s: Snapshot, t: Snapshot, c: set<Identity>, k: set<Identity>)
    requires CallFault(p, maxInflight, s) && Moves(s, t, c, k) && t.calls == s.calls
    ensures CallFault(p, maxInflight, t)
  {
    hide CallFailed;
  }

  lemma MovesTransitive(s: Snapshot, t: Snapshot, u: Snapshot,
                        c1: set<Identity>, k1: set<Identity>, c2: set<Identity>, k2: set<Identity>)
    requires s.owned <= s.entries.Keys
    requires Moves(s, t, c1, k1) && Moves(t, u, c2, k2)
    ensures Moves(s, u, c1 + c2, k1 + k2)
  {
  }

  /** The effect of a foreign step; a step that does not apply does nothing. */
  function Apply(s: Snapshot, e: Event): Snapshot {
    match e
    case OtherClaims(id) => if id in s.entries then s else s.(entries := s.entries[id := None])
    case OtherCompletes(id, outcome) =>
      if id in s.entries && s.entries[id].None? && id !in s.owned then s.(entries := s.entries[id := Some(outcome)])
      else s
    case CacheBecomes(contents) => s.(cached := contents)
    case ClockReaches(at) => if at > s.clock then s.(clock := at) else s
    case QueryEnds => s.(active := false)
  }

  /** What a foreign step can do to this worker's view, its own history aside. */
  ghost predicate Foreign(s: Snapshot, t: Snapshot) {
    && s.entries.Keys <= t.entries.Keys
    && (forall id :: id in s.entries && s.entries[id].Some? ==> t.entries[id] == s.entries[id])
    && (t.active ==> s.active)
    && t.owned == s.owned && t.permits == s.permits && t.calls == s.calls && t.hostCalls == s.hostCalls
    && t.script == s.script
    && (forall id :: id in s.owned && id in s.entries ==> t.entries[id] == s.entries[id])
  }

  lemma ApplyForeign(p: Provider, s: Snapshot, e: Event)
    requires Inv(p, s) && Admissible(p, e)
    ensures Inv(p, Apply(s, e)) && Foreign(s, Apply(s, e))
  {
    hide Answers, KeyedAnswer, SameService;
  }

  // ---- The cache's contents under its own operations

  lemma ReconcileHolds(p: Provider, log: CacheLog.Log, now: nat, policy: CacheLog.Policy)
    requires CacheHolds(p, log)
    ensures CacheHolds(p, CacheLog.Reconcile(log, now, policy))
  {
    hide KeyedAnswer;
    forall x | x in CacheLog.Reconcile(log, now, policy)
      ensures KeyedAnswer(p, x.id, x.entry.result)
    {
      if policy.Valid() {
        CacheRuns.ReconcileMembers(log, now, policy, x);
      }
    }
  }

  lemma LookupHolds(p: Provider, log: CacheLog.Log, id: Identity, now: nat)
    requires CacheHolds(p, log)
    ensures CacheHolds(p, CacheLog.Lookup(log, id, now).0)
    ensures CacheLog.Lookup(log, id, now).1.Some? ==> KeyedAnswer(p, id, CacheLog.Lookup(log, id, now).1.value)
  {
    hide KeyedAnswer;
    forall x | x in CacheLog.Lookup(log, id, now).0
      ensures KeyedAnswer(p, x.id, x.entry.result)
    {
      CacheRuns.LookupMembers(log, id, now, x);
    }
    if CacheLog.Holds(log, id) {
      CacheLog.EntryOfMember(log, id);
    }
  }

  lemma InsertHolds(p: Provider, log: CacheLog.Log, id: Identity, v: JudgmentResult, now: nat, policy: CacheLog.Policy)
    requires CacheHolds(p, log) && KeyedAnswer(p, id, v)
    ensures CacheHolds(p, CacheLog.Insert(log, id, v, now, policy).0)
  {
    hide KeyedAnswer, CacheLog.EstimatedEntryBytes;
    if CacheLog.Insertable(now, policy) {
      ReconcileHolds(p, log, now, policy);
      var item := CacheLog.Item(id, CacheLog.Entry(v, now, now + policy.ttl, CacheLog.EstimatedEntryBytes(id, v)));
      forall x | x in CacheLog.Insert(log, id, v, now, policy).0
        ensures KeyedAnswer(p, x.id, x.entry.result)
      {
        CacheRuns.AdmitMembers(CacheLog.Reconcile(log, now, policy), item, policy, x);
      }
    }
  }

  class Runtime {
    var entries: map<Identity, Option<Outcome>>
    var cached: CacheLog.Log
    var clock: nat
    var active: bool
    var script: seq<seq<Event>>
    var owned: set<Identity>
    var permits: seq<nat>
    var calls: seq<seq<JudgmentRequest>>
    var hostCalls: seq<HostCall>

    function Now(): Snapshot
      reads this
    {
      Snapshot(entries, cached, clock, active, script, owned, permits, calls, hostCalls)
    }

    /** A query that has just begun, with nobody else around and nothing cached. */
    constructor Alone()
      ensures Now() == Snapshot(map[], [], 0, true, [], {}, [], [], [])
    {
      entries, cached, clock, active, script, owned := map[], [], 0, true, [], {};
      permits, calls, hostCalls := [], [], [];
    }

    method Become(s: Snapshot)
      modifies this
      ensures Now() == s
    {
      entries, cached, clock, active := s.entries, s.cached, s.clock, s.active;
      script, owned, permits, calls, hostCalls := s.script, s.owned, s.permits, s.calls, s.hostCalls;
    }

    /** The others take their next steps. */
    method Interfere(ghost p: Provider)
      requires Inv(p, Now())
      modifies this
      ensures Inv(p, Now()) && Moves(old(Now()), Now(), {}, {}) && calls == old(calls)
      ensures hostCalls == old(hostCalls) && permits == old(permits)
      ensures old(script) == [] ==> Now() == old(Now())
      ensures |script| == if old(script) == [] then 0 else |old(script)| - 1
    {
      if script != [] {
        var events := script[0];
        var s := Now().(script := script[1..]);
        ghost var start := s;
        for i := 0 to |events|
          invariant Inv(p, s) && Foreign(start, s)
        {
          assert Admissible(p, old(script)[0][i]);
          ApplyForeign(p, s, events[i]);
          s := Apply(s, events[i]);
        }
        Become(s);
      }
    }

    /** `claim_query_entry`: whether this worker now owns the entry. */
    method ClaimQueryEntry(ghost p: Provider, id: Identity) returns (r: Result<bool>)
      requires Inv(p, Now())
      modifies this
      ensures Inv(p, Now()) && calls == old(calls)
      ensures hostCalls == old(hostCalls) && permits == old(permits)
      ensures r.Ok? ==> id in entries
      ensures r.Err? ==> !active
      ensures r == Ok(true) ==> id !in old(owned) && id in owned && entries[id] == None
      ensures Moves(old(Now()), Now(), if r == Ok(true) then {id} else {}, {})
    {
      Interfere(p);
      if !active {
        return Err(QUERY_OVER);
      }
      if id in entries {
        return Ok(false);
      }
      assert id !in owned;
      entries := entries[id := None];
      owned := owned + {id};
      return Ok(true);
    }

    method QueryCancellation(ghost p: Provider) returns (r: Result<()>)
      requires Inv(p, Now())
      modifies this
      ensures Inv(p, Now()) && Moves(old(Now()), Now(), {}, {}) && calls == old(calls)
      ensures permits == old(permits) && hostCalls == old(hostCalls) + [Checked(r.Ok?)]
      ensures r.Ok? <==> active
    {
      Interfere(p);
      hostCalls := hostCalls + [Checked(active)];
      if !active {
        return Err(QUERY_OVER);
      }
      return Ok(());
    }

    /** `QueryEntry::complete`: the first completion stands. */
    method Complete(ghost p: Provider, id: Identity, outcome: Outcome)
      requires Inv(p, Now()) && id in owned
      requires outcome.Ok? ==> Answers(p, id, outcome.value)
      modifies this
      ensures Inv(p, Now()) && Moves(old(Now()), Now(), {}, {id}) && calls == old(calls)
      ensures hostCalls == old(hostCalls) && permits == old(permits)
      ensures id in old(entries) && id in entries
      ensures entries[id] == if old(entries[id]).None? then Some(outcome) else old(entries[id])
    {
      Interfere(p);
      if entries[id].None? {
        entries := entries[id := Some(outcome)];
      }
    }

    /** `QueryEntry::wait`: polls until the entry has an outcome or the query is cancelled. A script
        that ends first stands for the cancellation that frees the waiter. */
    method Wait(ghost p: Provider, id: Identity) returns (r: Outcome)
      requires Inv(p, Now()) && id in entries
      modifies this
      ensures Inv(p, Now()) && Moves(old(Now()), Now(), {}, {}) && calls == old(calls)
      ensures hostCalls == old(hostCalls) && permits == old(permits)
      ensures id in entries
      ensures r.Ok? ==> entries[id] == Some(r) && (SameService(p, id) ==> Answers(p, id, r.value))
      ensures r.Err? ==> WaitFault(Now(), id)
    {
      ghost var start := Now();
      Interfere(p);
      while entries[id].None? && active && script != []
        invariant Inv(p, Now()) && Moves(start, Now(), {}, {}) && id in entries
        invariant calls == start.calls && hostCalls == start.hostCalls && permits == start.permits
        decreases |script|
      {
        ghost var before := Now();
        Interfere(p);
        MovesTransitive(start, before, Now(), {}, {}, {}, {});
      }
      if entries[id].Some? {
        return entries[id].value;
      }
      return Err(CANCELLED_WAITING);
    }

    /** `cache_lookup`, on the cache as the others left it: the policy is applied first, and an invalid
        policy or a missing key finds nothing. A hit is the answer of the model its key names. */
    method CacheLookup(ghost p: Provider, key: Option<Identity>, policy: CacheLog.Policy)
      returns (r: Option<JudgmentResult>, ghost before: Snapshot)
      requires Inv(p, Now())
      modifies this
      ensures Inv(p, Now()) && Moves(old(Now()), Now(), {}, {}) && calls == old(calls)
      ensures permits == old(permits) && hostCalls == old(hostCalls) + [Looked(if policy.Valid() then key else None, r)]
      ensures Moves(old(Now()), before, {}, {})
      ensures Now() == before.(cached := Now().cached, hostCalls := hostCalls)
      ensures !policy.Valid() || key.None? ==>
        r.None? && cached == CacheLog.Reconcile(before.cached, before.clock, policy)
      ensures policy.Valid() && key.Some? ==>
        (cached, r) == CacheLog.Lookup(CacheLog.Reconcile(before.cached, before.clock, policy), key.value, before.clock)
      ensures r.Some? ==> key.Some? && KeyedAnswer(p, key.value, r.value)
      ensures r.None? && policy.Valid() && key.Some? ==> !CacheLog.Holds(cached, key.value)
    {
      hide CacheLog.Reconcile, CacheLog.Lookup, KeyedAnswer, Answers;
      Interfere(p);
      before := Now();
      ReconcileHolds(p, cached, clock, policy);
      cached := CacheLog.Reconcile(cached, clock, policy);
      if !policy.Valid() || key.None? {
        hostCalls := hostCalls + [Looked(if policy.Valid() then key else None, None)];
        return None, before;
      }
      LookupHolds(p, cached, key.value, clock);
      var found := CacheLog.Lookup(cached, key.value, clock);
      if found.1.None? {
        CacheRuns.MissIsAbsent(cached, key.value, clock);
      }
      cached := found.0;
      hostCalls := hostCalls + [Looked(key, found.1)];
      return found.1, before;
    }

    /** `cache_insert`, into the cache as the others left it: accepted or refused as the cache does. */
    method CacheInsert(ghost p: Provider, key: Identity, result: JudgmentResult, policy: CacheLog.Policy)
      returns (ghost before: Snapshot)
      requires Inv(p, Now()) && KeyedAnswer(p, key, result)
      modifies this
      ensures Inv(p, Now()) && Moves(old(Now()), Now(), {}, {}) && calls == old(calls)
      ensures permits == old(permits) && hostCalls == old(hostCalls) + [Offered(key, result)]
      ensures Moves(old(Now()), before, {}, {})
      ensures Now() == before.(cached := CacheLog.Insert(before.cached, key, result, before.clock, policy).0,
                               hostCalls := hostCalls)
    {
      hide CacheLog.Insert, KeyedAnswer, Answers;
      Interfere(p);
      before := Now();
      InsertHolds(p, cached, key, result, clock, policy);
      cached := CacheLog.Insert(cached, key, result, clock, policy).0;
      hostCalls := hostCalls + [Offered(key, result)];
    }

    /** `acquire_permit`, as seen when it returns. */
    method AcquirePermit(ghost p: Provider, maxInflight: nat) returns (r: Result<()>)
      requires Inv(p, Now())
      modifies this
      ensures Inv(p, Now()) && Moves(old(Now()), Now(), {}, {}) && calls == old(calls)
      ensures hostCalls == old(hostCalls)
      ensures r.Ok? ==> maxInflight > 0 && permits == old(permits) + [maxInflight] && |calls| < |permits|
      ensures r.Err? ==> permits == old(permits)
      ensures r.Err? ==> maxInflight == 0 || !active
    {
      Interfere(p);
      if maxInflight == 0 {
        return Err(INFLIGHT_ZERO);
      }
      if !active {
        return Err(CANCELLED_ACQUIRING);
      }
      permits := permits + [maxInflight];
      return Ok(());
    }

    /** One provider call, under a permit that no other call used, logged with the requests it carries. */
    method Judge(p: Provider, requests: seq<JudgmentRequest>) returns (r: Result<BatchResult>)
      requires Honest(p) && Inv(p, Now()) && |calls| < |permits|
      modifies this
      ensures Inv(p, Now()) && Moves(old(Now()), Now(), {}, {})
      ensures permits == old(permits) && hostCalls == old(hostCalls)
      ensures calls == old(calls) + [requests] && r == p.respond(|calls|, requests)
      ensures r.Ok? ==> Faithful(p, requests, r.value)
    {
      Interfere(p);
      calls := calls + [requests];
      r := p.respond(|calls|, requests);
    }
  }
}
