/** The per-connection query state: lifecycle, single-flight entries, counters and the permit pool.
    Every method is one critical section; the functions say what it does to the state. */
module Host {
  import opened Text
  import opened Judgment
  import opened Errors
  import opened Histogram
  import ProviderProtocol
  import Cache
  import CacheLog

  /** `QueryCounts` without the timing fields. */
  datatype Counts = Counts(
    inputRows: nat,
    nullRows: nat,
    validRows: nat,
    uniqueJudgments: nat,
    deduplicatedRows: nat,
    cacheHits: nat,
    providerInvocations: nat,
    externalRequests: nat,
    batchedRequests: nat,
    histogram: map<nat, nat>,
    failedRequests: nat,
    inputTokens: Option<nat>,
    outputTokens: Option<nat>,
    usageResponses: nat,
    usageMissing: nat)

  const ZERO_COUNTS := Counts(0, 0, 0, 0, 0, 0, 0, 0, 0, map[], 0, None, None, 0, 0)

  datatype ActiveQuery = ActiveQuery(id: nat, counts: Counts)

  datatype QueryOutcome = Succeeded | Failed | Cancelled

  datatype QuerySnapshot = QuerySnapshot(id: nat, outcome: QueryOutcome, counts: Counts)

  /** `cancelled` holds the queries whose cancellation flag is set. `cells` are the query entries
      ever created; `entries` maps the active query's identities to theirs. */
  datatype State = State(
    nextQuery: nat,
    active: Option<ActiveQuery>,
    last: Option<QuerySnapshot>,
    cancelled: set<nat>,
    entries: map<Identity, nat>,
    cells: seq<Option<Outcome>>)

  const INITIAL := State(0, None, None, {}, map[], [])

  predicate IsActive(h: State, scope: nat) {
    h.active.Some? && h.active.value.id == scope
  }

  // ---- Lifecycle

  function Begin(h: State): State {
    State(h.nextQuery + 1,
          Some(ActiveQuery(h.nextQuery, ZERO_COUNTS)),
          h.last,
          if h.active.Some? then h.cancelled + {h.active.value.id} else h.cancelled,
          map[],
          h.cells)
  }

  function End(h: State, outcome: QueryOutcome): State {
    if h.active.None? then h
    else
      var q := h.active.value;
      State(h.nextQuery, None,
            if q.counts.inputRows > 0 then Some(QuerySnapshot(q.id, outcome, q.counts)) else h.last,
            h.cancelled + {q.id}, map[], h.cells)
  }

  /** The query scope an execution starts under; with no active query, the id of the next one. */
  function QueryScope(h: State): nat {
    if h.active.Some? then h.active.value.id else h.nextQuery
  }

  // ---- Counters

  /** Every recorder changes the counts of the query it names, if that is the active one. */
  function Record(h: State, scope: nat, counts: Counts): State {
    if IsActive(h, scope) then h.(active := Some(ActiveQuery(scope, counts))) else h
  }

  function Now(h: State): Counts {
    if h.active.Some? then h.active.value.counts else ZERO_COUNTS
  }

  function OptimizedRows(c: Counts, input: nat, nulls: nat, valid: nat, unique: nat): Counts {
    c.(inputRows := c.inputRows + input,
       nullRows := c.nullRows + nulls,
       validRows := c.validRows + valid,
       deduplicatedRows := c.deduplicatedRows + SaturatingSub(valid, unique))
  }

  function RowInput(c: Counts): Counts { c.(inputRows := c.inputRows + 1) }

  function RowResult(c: Counts, isNull: bool): Counts {
    if isNull then c.(nullRows := c.nullRows + 1)
    else c.(validRows := c.validRows + 1, uniqueJudgments := c.uniqueJudgments + 1)
  }

  function CacheHit(c: Counts): Counts { c.(cacheHits := c.cacheHits + 1) }

  function Attempt(c: Counts, size: nat, external: bool): Counts {
    var invoked := c.(providerInvocations := c.providerInvocations + 1);
    if !external then invoked
    else invoked.(externalRequests := c.externalRequests + 1,
                  histogram := HistogramAdd(c.histogram, size),
                  batchedRequests := c.batchedRequests + (if size > 1 then 1 else 0))
  }

  function FailedRequest(c: Counts): Counts { c.(failedRequests := c.failedRequests + 1) }

  function OrZero(n: Option<nat>): nat { if n.Some? then n.value else 0 }

  function Response(c: Counts, usage: Option<ProviderProtocol.Usage>, external: bool): Counts {
    if !external then c
    else
      var counted := c.(usageResponses := c.usageResponses + 1);
      if usage.Some? && usage.value.inputTokens.Some? && usage.value.outputTokens.Some? then
        counted.(inputTokens := Some(OrZero(c.inputTokens) + usage.value.inputTokens.value),
                 outputTokens := Some(OrZero(c.outputTokens) + usage.value.outputTokens.value))
      else counted.(usageMissing := c.usageMissing + 1)
  }

  function Failure(c: Counts, external: bool): Counts {
    if external then c.(usageMissing := c.usageMissing + 1) else c
  }

  // ---- Single-flight entries

  datatype Claim = NotActive | Follows(entry: nat) | Leads(entry: nat)

  /** `claim_query_entry`: the first claim of an identity leads, later ones follow its entry. */
  function ClaimResult(h: State, scope: nat, id: Identity): Claim {
    if !IsActive(h, scope) || scope in h.cancelled then NotActive
    else if id in h.entries then Follows(h.entries[id])
    else Leads(|h.cells|)
  }

  function AfterClaim(h: State, scope: nat, id: Identity): State {
    match ClaimResult(h, scope, id)
    case NotActive => h
    case Follows(_) =>
      var c := Now(h);
      Record(h, scope, c.(deduplicatedRows := c.deduplicatedRows + 1))
    case Leads(_) =>
      var c := Now(h);
      Record(h, scope, c.(uniqueJudgments := c.uniqueJudgments + 1))
        .(entries := h.entries[id := |h.cells|], cells := h.cells + [None])
  }

  /** `QueryEntry::complete`: the first completion stands. */
  function Complete(h: State, entry: nat, outcome: Outcome): State {
    if entry < |h.cells| && h.cells[entry].None? then h.(cells := h.cells[entry := Some(outcome)]) else h
  }

  // ---- Credential scopes

  /** The scope part of a connection: its own id, the credential it last saw and that one's scope.
      Credentials are known by fingerprint only. */
  datatype Credentials = Credentials(connection: nat, current: nat, fingerprint: Option<nat>)

  /** A new connection's scopes, when the shared counter stands at `next`. */
  function Connected(next: nat): Credentials { Credentials(next, next, None) }

  /** The scopes after a worker presented a credential: another one starts a new scope. */
  function Presented(c: Credentials, next: nat, fingerprint: Option<nat>): Credentials {
    if fingerprint == c.fingerprint then c else c.(current := next, fingerprint := fingerprint)
  }

  /** `NEXT_CONNECTION_SCOPE`, shared by every connection of the process. */
  class ScopeCounter {
    var next: nat

    constructor ()
      ensures next == 1
    {
      next := 1;
    }

    method FetchAdd() returns (scope: nat)
      modifies this
      ensures scope == old(next) && next == old(next) + 1
    {
      scope := next;
      next := next + 1;
    }
  }

  class ConnectionRuntime {
    const counter: ScopeCounter
    const cache: Cache.JudgmentCache
    var connectionScope: nat
    var currentCredentialScope: nat
    var credentialFingerprint: Option<nat>
    var nextQuery: nat
    var active: Option<ActiveQuery>
    var last: Option<QuerySnapshot>
    var cancelled: set<nat>
    var entries: map<Identity, nat>
    var cells: seq<Option<Outcome>>

    ghost function View(): State
      reads this
    {
      State(nextQuery, active, last, cancelled, entries, cells)
    }

    ghost function Scopes(): Credentials
      reads this
    {
      Credentials(connectionScope, currentCredentialScope, credentialFingerprint)
    }

    constructor (scopes: ScopeCounter)
      modifies scopes
      ensures View() == INITIAL && counter == scopes && scopes.next == old(scopes.next) + 1
      ensures Scopes() == Connected(old(scopes.next))
      ensures fresh(cache) && cache.Valid() && cache.Contents() == []
    {
      counter := scopes;
      cache := new Cache.JudgmentCache();
      var scope := scopes.FetchAdd();
      connectionScope, currentCredentialScope, credentialFingerprint := scope, scope, None;
      nextQuery, active, last := 0, None, None;
      cancelled, entries, cells := {}, map[], [];
    }

    /** The new query starts with every judgment unclaimed; no other query can claim or record. */
    method BeginQuery()
      modifies this`cancelled, this`active, this`nextQuery, this`entries
      ensures View() == Begin(old(View()))
      ensures forall scope, id :: scope != old(nextQuery) ==> ClaimResult(View(), scope, id).NotActive?
      ensures forall scope, counts :: scope != old(nextQuery) ==> Record(View(), scope, counts) == View()
      ensures old(nextQuery) !in old(cancelled) && old(View().active.Some? ==> View().active.value.id != nextQuery) ==>
        forall id :: ClaimResult(View(), old(nextQuery), id).Leads?
    {
      if active.Some? {
        cancelled := cancelled + {active.value.id};
        active := None;
      }
      var queryId := nextQuery;
      nextQuery := nextQuery + 1;
      entries := map[];
      active := Some(ActiveQuery(queryId, ZERO_COUNTS));
    }

    /** Nothing can be claimed or recorded any more; the counts are kept as they stood. */
    method EndQuery(outcome: QueryOutcome)
      modifies this`active, this`cancelled, this`entries, this`last
      ensures View() == End(old(View()), outcome)
      ensures forall scope, id :: ClaimResult(View(), scope, id).NotActive?
      ensures forall scope, counts :: Record(View(), scope, counts) == View()
      ensures old(active).Some? && old(active).value.counts.inputRows > 0 ==>
        last == Some(QuerySnapshot(old(active).value.id, outcome, old(active).value.counts))
    {
      if active.None? {
        return;
      }
      var q := active.value;
      active := None;
      cancelled := cancelled + {q.id};
      entries := map[];
      if q.counts.inputRows > 0 {
        last := Some(QuerySnapshot(q.id, outcome, q.counts));
      }
    }

    method IdentityScope() returns (scope: nat)
      ensures scope == QueryScope(View())
    {
      scope := if active.Some? then active.value.id else nextQuery;
    }

    /** The rows not counted as duplicates grow by the judgments that are to be claimed. */
    method RecordOptimizedRows(scope: nat, input: nat, nulls: nat, valid: nat, unique: nat)
      modifies this`active
      ensures View() == Record(old(View()), scope, OptimizedRows(Now(old(View())), input, nulls, valid, unique))
      ensures !IsActive(View(), scope) ==> View() == old(View())
      ensures IsActive(View(), scope) && unique <= valid ==>
        Now(View()).validRows - Now(View()).deduplicatedRows
        == Now(old(View())).validRows - Now(old(View())).deduplicatedRows + unique
    {
      if active.None? || active.value.id != scope {
        return;
      }
      var counts := active.value.counts;
      counts := counts.(inputRows := counts.inputRows + input);
      counts := counts.(nullRows := counts.nullRows + nulls);
      counts := counts.(validRows := counts.validRows + valid);
      counts := counts.(deduplicatedRows := counts.deduplicatedRows + SaturatingSub(valid, unique));
      active := Some(ActiveQuery(scope, counts));
    }

    method RecordRowInput(scope: nat)
      modifies this`active
      ensures View() == Record(old(View()), scope, RowInput(Now(old(View()))))
    {
      if active.Some? && active.value.id == scope {
        var counts := active.value.counts;
        active := Some(ActiveQuery(scope, counts.(inputRows := counts.inputRows + 1)));
      }
    }

    method RecordRowResult(scope: nat, isNull: bool)
      modifies this`active
      ensures View() == Record(old(View()), scope, RowResult(Now(old(View())), isNull))
    {
      if active.Some? && active.value.id == scope {
        var counts := active.value.counts;
        if isNull {
          counts := counts.(nullRows := counts.nullRows + 1);
        } else {
          counts := counts.(validRows := counts.validRows + 1);
          counts := counts.(uniqueJudgments := counts.uniqueJudgments + 1);
        }
        active := Some(ActiveQuery(scope, counts));
      }
    }

    method RecordCacheHit(scope: nat)
      modifies this`active
      ensures View() == Record(old(View()), scope, CacheHit(Now(old(View()))))
    {
      if active.Some? && active.value.id == scope {
        var counts := active.value.counts;
        active := Some(ActiveQuery(scope, counts.(cacheHits := counts.cacheHits + 1)));
      }
    }

    /** The histogram keeps summing up to the requests, and to the judgments they carried. */
    method RecordProviderAttempt(scope: nat, size: nat, external: bool)
      modifies this`active
      ensures View() == Record(old(View()), scope, Attempt(Now(old(View())), size, external))
      ensures forall n: nat :: KeysBelow(Now(old(View())).histogram, n) && size < n && external ==>
        KeysBelow(Now(View()).histogram, n)
        && Now(View()).externalRequests - Requests(Now(View()).histogram, n)
           == Now(old(View())).externalRequests - Requests(Now(old(View())).histogram, n)
        && Judged(Now(View()).histogram, n)
           == Judged(Now(old(View())).histogram, n) + (if IsActive(View(), scope) then size else 0)
    {
      AttemptSums(Now(View()).histogram, size);
      if active.Some? && active.value.id == scope {
        var counts := active.value.counts;
        counts := counts.(providerInvocations := counts.providerInvocations + 1);
        if external {
          counts := counts.(externalRequests := counts.externalRequests + 1);
          counts := counts.(histogram := HistogramAdd(counts.histogram, size));
          if size > 1 {
            counts := counts.(batchedRequests := counts.batchedRequests + 1);
          }
        }
        active := Some(ActiveQuery(scope, counts));
      }
    }

    method RecordProviderResponse(scope: nat, usage: Option<ProviderProtocol.Usage>, external: bool)
      modifies this`active
      ensures View() == Record(old(View()), scope, Response(Now(old(View())), usage, external))
    {
      if active.None? || active.value.id != scope {
        return;
      }
      if !external {
        return;
      }
      var counts := active.value.counts;
      counts := counts.(usageResponses := counts.usageResponses + 1);
      if usage.Some? && usage.value.inputTokens.Some? && usage.value.outputTokens.Some? {
        counts := counts.(inputTokens := Some(OrZero(counts.inputTokens) + usage.value.inputTokens.value));
        counts := counts.(outputTokens := Some(OrZero(counts.outputTokens) + usage.value.outputTokens.value));
      } else {
        counts := counts.(usageMissing := counts.usageMissing + 1);
      }
      active := Some(ActiveQuery(scope, counts));
    }

    method RecordProviderFailure(scope: nat, external: bool)
      modifies this`active
      ensures View() == Record(old(View()), scope, Failure(Now(old(View())), external))
    {
      if active.Some? && active.value.id == scope && external {
        var counts := active.value.counts;
        active := Some(ActiveQuery(scope, counts.(usageMissing := counts.usageMissing + 1)));
      }
    }

    method RecordFailedRequest(scope: nat)
      modifies this`active
      ensures View() == Record(old(View()), scope, FailedRequest(Now(old(View()))))
    {
      if active.Some? && active.value.id == scope {
        var counts := active.value.counts;
        active := Some(ActiveQuery(scope, counts.(failedRequests := counts.failedRequests + 1)));
      }
    }

    /** A leader gets a new, open entry; whoever claims the judgment from now on follows it. */
    method ClaimQueryEntry(scope: nat, id: Identity) returns (claim: Claim)
      modifies this`active, this`entries, this`cells
      ensures claim == ClaimResult(old(View()), scope, id)
      ensures View() == AfterClaim(old(View()), scope, id)
      ensures claim.NotActive? ==> View() == old(View())
      ensures claim.Leads? ==> claim.entry == old(|cells|) && claim.entry < |cells| && cells[claim.entry].None?
      ensures !claim.NotActive? ==> ClaimResult(View(), scope, id) == Follows(claim.entry)
      ensures forall other :: other != id && ClaimResult(old(View()), scope, other).Follows? ==>
        ClaimResult(View(), scope, other) == ClaimResult(old(View()), scope, other)
    {
      if active.None? || active.value.id != scope {
        return NotActive;
      }
      if scope in cancelled {
        return NotActive;
      }
      var counts := active.value.counts;
      if id in entries {
        active := Some(ActiveQuery(scope, counts.(deduplicatedRows := counts.deduplicatedRows + 1)));
        return Follows(entries[id]);
      }
      active := Some(ActiveQuery(scope, counts.(uniqueJudgments := counts.uniqueJudgments + 1)));
      var entry := |cells|;
      cells := cells + [None];
      entries := entries[id := entry];
      return Leads(entry);
    }

    /** `credential_scope`: a credential other than the last one starts a new scope and clears the
        cache; a query that is over gets none. */
    method CredentialScope(scope: nat, fingerprint: Option<nat>) returns (r: Result<nat>)
      requires cache.Valid()
      modifies this`currentCredentialScope, this`credentialFingerprint, counter, cache
      ensures cache.Valid() && View() == old(View())
      ensures !IsActive(View(), scope) ==>
        r.Err? && Scopes() == old(Scopes()) && counter.next == old(counter.next)
        && cache.Contents() == old(cache.Contents())
      ensures IsActive(View(), scope) ==>
        && r == Ok(Scopes().current)
        && Scopes() == Presented(old(Scopes()), old(counter.next), fingerprint)
        && counter.next == old(counter.next) + (if fingerprint == old(Scopes()).fingerprint then 0 else 1)
        && cache.Contents() == (if fingerprint == old(Scopes()).fingerprint then old(cache.Contents()) else [])
    {
      if active.None? || active.value.id != scope {
        return Err(QUERY_OVER);
      }
      if fingerprint != credentialFingerprint {
        credentialFingerprint := fingerprint;
        currentCredentialScope := counter.FetchAdd();
        var _ := cache.Clear();
      }
      return Ok(currentCredentialScope);
    }

    /** `cache_lookup`: the policy is applied first, and an invalid one finds nothing. */
    method CacheLookup(id: Option<Identity>, now: nat, policy: CacheLog.Policy) returns (r: Option<JudgmentResult>)
      requires cache.Valid()
      modifies cache
      ensures cache.Valid()
      ensures !policy.Valid() || id.None? ==>
        r.None? && cache.Contents() == CacheLog.Reconcile(old(cache.Contents()), now, policy)
      ensures policy.Valid() && id.Some? ==>
        (cache.Contents(), r) == CacheLog.Lookup(CacheLog.Reconcile(old(cache.Contents()), now, policy), id.value, now)
    {
      var ok := cache.ReconcilePolicy(now, policy);
      if !ok || id.None? {
        return None;
      }
      r := cache.LookupEntry(id.value, now);
    }

    method CacheInsert(id: Identity, result: JudgmentResult, now: nat, policy: CacheLog.Policy)
      requires cache.Valid() && policy.maxBytes <= USIZE_MAX
      modifies cache
      ensures cache.Valid() <==> CacheLog.Counted(old(cache.Contents()), id, result, now, policy)
      ensures policy.maxBytes < USIZE_MAX ==> cache.Valid()
      ensures cache.Valid() ==> cache.Contents() == CacheLog.Insert(old(cache.Contents()), id, result, now, policy).0
    {
      var _ := cache.InsertSuccess(id, result, now, policy);
    }

    /** One turn of an entry's `wait` loop: its outcome, a cancellation error, or another wait. */
    method TryWait(entry: nat, scope: nat) returns (r: Option<Outcome>)
      requires entry < |cells|
      ensures cells[entry].Some? ==> r == cells[entry]
      ensures cells[entry].None? && scope in cancelled ==> r.Some? && r.value.Err?
      ensures cells[entry].None? && scope !in cancelled ==> r.None?
    {
      if cells[entry].Some? {
        return cells[entry];
      }
      return if scope in cancelled then Some(Err(CANCELLED_WAITING)) else None;
    }

    method QueryCancellation(scope: nat) returns (found: bool)
      ensures found == IsActive(View(), scope)
    {
      found := active.Some? && active.value.id == scope;
    }

    method CompleteEntry(entry: nat, outcome: Outcome)
      modifies this`cells
      ensures View() == Complete(old(View()), entry, outcome)
    {
      if entry < |cells| && cells[entry].None? {
        cells := cells[entry := Some(outcome)];
      }
    }
  }

  // ---- The permit pool

  datatype Pool = Pool(active: nat, peak: nat)

  function Acquire(p: Pool): Pool { Pool(p.active + 1, if p.peak < p.active + 1 then p.active + 1 else p.peak) }

  function Release(p: Pool): Pool { p.(active := SaturatingSub(p.active, 1)) }

  class InflightPermitPool {
    var active: nat
    var peak: nat

    ghost function View(): Pool
      reads this
    {
      Pool(active, peak)
    }

    constructor ()
      ensures View() == Pool(0, 0)
    {
      active, peak := 0, 0;
    }

    /** One turn of the `acquire` loop: an error, a permit, or another wait. */
    method TryAcquire(maxInflight: nat, cancelled: bool) returns (r: Option<Result<()>>)
      modifies this
      ensures maxInflight == 0 || cancelled ==> r.Some? && r.value.Err? && View() == old(View())
      ensures maxInflight > 0 && !cancelled && old(active) < maxInflight ==>
        r == Some(Ok(())) && View() == Acquire(old(View()))
      ensures maxInflight > 0 && !cancelled && old(active) >= maxInflight ==> r.None? && View() == old(View())
    {
      if maxInflight == 0 {
        return Some(Err(INFLIGHT_ZERO));
      }
      if cancelled {
        return Some(Err(CANCELLED_ACQUIRING));
      }
      if active < maxInflight {
        active := active + 1;
        peak := if peak < active then active else peak;
        return Some(Ok(()));
      }
      return None;
    }

    /** Dropping a permit. */
    method DropPermit()
      modifies this
      ensures View() == Release(old(View()))
    {
      active := SaturatingSub(active, 1);
    }
  }
}
