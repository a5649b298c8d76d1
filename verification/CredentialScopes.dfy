/** Credential scopes over whole runs of any number of connections and workers: a scope stands for
    one credential in one unbroken stretch of one connection, and cached answers never cross from
    one scope to another. */
module CredentialScopes {
  import opened Text
  import opened Judgment
  import opened Host
  import opened CacheLog
  import opened CacheRuns

  /** A worker of connection `k` was given `scope` for its credential. */
  datatype Capture = Capture(k: nat, fingerprint: Option<nat>, scope: nat)

  /** A cache call and the capture of the worker that made it. */
  datatype Call = Call(op: Op, from: nat)

  datatype Connection = Connection(cred: Credentials, cache: Log, calls: seq<Call>)

  datatype Site = Site(next: nat, conns: seq<Connection>, captures: seq<Capture>)

  const FIRST := Site(1, [], [])

  datatype Event =
    | Connect
    | Present(k: nat, fingerprint: Option<nat>)
    | Use(from: nat, op: Op)
    | Sweep(k: nat, op: Op)

  /** The calls that name no entry. A user's `duckjeu_cache_clear` applies the policy and clears the cache
      whenever it likes. */
  predicate NamesNoEntry(op: Op) {
    op.Apply? || op.Wipe? || op.Count?
  }

  /** Workers look up and store under the scope they captured, however long ago. */
  predicate Under(op: Op, scope: nat) {
    match op
    case Find(sought, _, _) => sought.Some? ==> sought.value.credentialScope == scope
    case Store(id, _, _, _, _) => id.credentialScope == scope
    case _ => false
  }

  predicate Can(S: Site, e: Event) {
    match e
    case Connect => true
    case Present(k, _) => k < |S.conns|
    case Use(from, op) => from < |S.captures| && S.captures[from].k < |S.conns| && Under(op, S.captures[from].scope)
    case Sweep(k, op) => k < |S.conns| && NamesNoEntry(op)
  }

  function Called(c: Connection, op: Op, from: nat): Connection {
    c.(cache := CacheRuns.Step(c.cache, op), calls := c.calls + [Call(op, from)])
  }

  function Next(S: Site, e: Event): Site
    requires Can(S, e)
  {
    match e
    case Connect => S.(next := S.next + 1, conns := S.conns + [Connection(Connected(S.next), [], [])])
    case Present(k, fp) =>
      var c := S.conns[k];
      var cred := Presented(c.cred, S.next, fp);
      var captures := S.captures + [Capture(k, fp, cred.current)];
      if fp == c.cred.fingerprint then S.(captures := captures)
      else Site(S.next + 1, S.conns[k := Connection(cred, [], c.calls + [Call(Wipe, |S.captures|)])], captures)
    case Use(from, op) =>
      var k := S.captures[from].k;
      S.(conns := S.conns[k := Called(S.conns[k], op, from)])
    case Sweep(k, op) => S.(conns := S.conns[k := Called(S.conns[k], op, |S.captures|)])
  }

  function At(events: seq<Event>): Option<Site> {
    if events == [] then Some(FIRST)
    else
      var S :- At(events[..|events| - 1]);
      if Can(S, events[|events| - 1]) then Some(Next(S, events[|events| - 1])) else None
  }

  // ---- One scope, one credential

  /** From capture `i` on, connection `captures[i].k` has seen no other credential. */
  ghost predicate Unbroken(captures: seq<Capture>, i: nat, upTo: nat)
    requires i < upTo <= |captures|
  {
    forall m :: i <= m < upTo && captures[m].k == captures[i].k ==> captures[m].fingerprint == captures[i].fingerprint
  }

  ghost predicate ConnsOk(S: Site) {
    && (forall k :: 0 <= k < |S.conns| ==> S.conns[k].cred.current < S.next)
    && (forall k, m :: 0 <= k < m < |S.conns| ==> S.conns[k].cred.current != S.conns[m].cred.current)
  }

  /** A scope that is a connection's current one was captured there, under its present credential. */
  ghost predicate CurrentOk(S: Site) {
    forall i :: 0 <= i < |S.captures| ==>
      && S.captures[i].scope < S.next && S.captures[i].k < |S.conns|
      && forall k :: 0 <= k < |S.conns| && S.captures[i].scope == S.conns[k].cred.current ==>
           && S.captures[i].k == k && S.captures[i].fingerprint == S.conns[k].cred.fingerprint
           && Unbroken(S.captures, i, |S.captures|)
  }

  ghost predicate SameStretch(captures: seq<Capture>, i: nat, j: nat)
    requires i <= j < |captures|
  {
    && captures[i].k == captures[j].k && captures[i].fingerprint == captures[j].fingerprint
    && Unbroken(captures, i, j + 1)
  }

  ghost predicate ScopesOk(S: Site) {
    && ConnsOk(S) && CurrentOk(S)
    && forall i, j :: 0 <= i <= j < |S.captures| && S.captures[i].scope == S.captures[j].scope ==>
         SameStretch(S.captures, i, j)
  }

  lemma ConnectOk(S: Site)
    requires ScopesOk(S)
    ensures ScopesOk(Next(S, Connect))
  {
  }

  lemma UseOk(S: Site, e: Event)
    requires ScopesOk(S) && (e.Use? || e.Sweep?) && Can(S, e)
    ensures ScopesOk(Next(S, e))
  {
    hide CacheRuns.Step, Under;
  }

  /** Presenting the credential last seen captures the current scope once more. */
  lemma SameCredentialOk(S: Site, k: nat)
    requires ScopesOk(S) && k < |S.conns|
    ensures ScopesOk(Next(S, Present(k, S.conns[k].cred.fingerprint)))
  {
    var S' := Next(S, Present(k, S.conns[k].cred.fingerprint));
    var n := |S.captures|;
    forall i | 0 <= i < n
      ensures S'.captures[i].scope == S'.captures[n].scope ==> SameStretch(S'.captures, i, n)
    {
      assert S'.captures[i] == S.captures[i];
    }
    forall i, j | 0 <= i <= j < n && S'.captures[i].scope == S'.captures[j].scope
      ensures SameStretch(S'.captures, i, j)
    {
      assert SameStretch(S.captures, i, j);
    }
    forall i | 0 <= i <= n
      ensures S'.captures[i].scope == S.conns[k].cred.current ==> Unbroken(S'.captures, i, n + 1)
    {
      assert i < n ==> S'.captures[i] == S.captures[i];
    }
  }

  /** Another credential gets a scope nobody was given before. */
  lemma OtherCredentialOk(S: Site, k: nat, fp: Option<nat>)
    requires ScopesOk(S) && k < |S.conns| && fp != S.conns[k].cred.fingerprint
    ensures ScopesOk(Next(S, Present(k, fp)))
  {
    var S' := Next(S, Present(k, fp));
    var n := |S.captures|;
    forall i, j | 0 <= i <= j < n && S'.captures[i].scope == S'.captures[j].scope
      ensures SameStretch(S'.captures, i, j)
    {
      assert SameStretch(S.captures, i, j);
    }
    forall i, m | 0 <= i < n && 0 <= m < |S'.conns| && S'.captures[i].scope == S'.conns[m].cred.current
      ensures S'.captures[i].k == m && S'.captures[i].fingerprint == S'.conns[m].cred.fingerprint
      ensures Unbroken(S'.captures, i, n + 1)
    {
      assert m != k && S'.conns[m] == S.conns[m];
      assert Unbroken(S.captures, i, n);
    }
  }

  lemma {:induction false} ReachableScopes(events: seq<Event>)
    requires At(events).Some?
    ensures ScopesOk(At(events).value)
  {
    if events != [] {
      hide ScopesOk, Next;
      var init, e := events[..|events| - 1], events[|events| - 1];
      ReachableScopes(init);
      var S := At(init).value;
      match e
      case Connect => ConnectOk(S);
      case Present(k, fp) =>
        if fp == S.conns[k].cred.fingerprint { SameCredentialOk(S, k); } else { OtherCredentialOk(S, k, fp); }
      case _ => UseOk(S, e);
    } else {
      assert ScopesOk(FIRST);
    }
  }

  /** Scopes are never reused: two workers with the same scope are on one connection, have the same
      credential, and no other credential was presented there between the two. */
  lemma OneScopeOneCredential(events: seq<Event>, i: nat, j: nat)
    requires At(events).Some? && i <= j < |At(events).value.captures|
    requires At(events).value.captures[i].scope == At(events).value.captures[j].scope
    ensures SameStretch(At(events).value.captures, i, j)
  {
    ReachableScopes(events);
  }

  // ---- Cached answers stay within their scope

  function Ops(calls: seq<Call>): (ops: seq<Op>)
    ensures |ops| == |calls|
  {
    seq(|calls|, n requires 0 <= n < |calls| => calls[n].op)
  }

  ghost predicate CallOk(S: Site, k: nat, call: Call) {
    NamesNoEntry(call.op)
    || (call.from < |S.captures| && S.captures[call.from].k == k && Under(call.op, S.captures[call.from].scope))
  }

  /** The cache of each connection is what its calls make of it. */
  ghost predicate CachesOk(S: Site) {
    forall k :: 0 <= k < |S.conns| ==>
      && S.conns[k].cache == Run(Ops(S.conns[k].calls))
      && forall n :: 0 <= n < |S.conns[k].calls| ==> CallOk(S, k, S.conns[k].calls[n])
  }

  lemma RunMore(calls: seq<Call>, call: Call)
    ensures Run(Ops(calls + [call])) == CacheRuns.Step(Run(Ops(calls)), call.op)
  {
    var ops := Ops(calls + [call]);
    assert ops[..|ops| - 1] == Ops(calls);
  }

  lemma CachesKeep(S: Site, e: Event)
    requires CachesOk(S) && Can(S, e)
    ensures CachesOk(Next(S, e))
  {
    hide CacheRuns.Step, Run, Ops, Under;
    var S' := Next(S, e);
    match e
    case Connect => assert Run(Ops([])) == [] by { EmptyRun(); }
    case Present(k, fp) =>
      RunMore(S.conns[k].calls, Call(Wipe, |S.captures|));
      WipeEmpties(Run(Ops(S.conns[k].calls)));
      CallsStayOk(S, S');
    case Use(from, op) =>
      RunMore(S.conns[S.captures[from].k].calls, Call(op, from));
    case Sweep(k, op) =>
      RunMore(S.conns[k].calls, Call(op, |S.captures|));
  }

  lemma CallsStayOk(S: Site, S': Site)
    requires |S.captures| <= |S'.captures| && S'.captures[..|S.captures|] == S.captures
    ensures forall k: nat, call :: CallOk(S, k, call) ==> CallOk(S', k, call)
  {
    hide Under;
    forall k: nat, call | CallOk(S, k, call)
      ensures CallOk(S', k, call)
    {
      if !NamesNoEntry(call.op) {
        assert S'.captures[call.from] == S.captures[call.from];
      }
    }
  }

  lemma EmptyRun()
    ensures Run(Ops([])) == []
  {
  }

  lemma WipeEmpties(log: Log)
    ensures CacheRuns.Step(log, Wipe) == []
  {
  }

  lemma {:induction false} ReachableCaches(events: seq<Event>)
    requires At(events).Some?
    ensures CachesOk(At(events).value)
  {
    if events != [] {
      hide Next;
      var init := events[..|events| - 1];
      ReachableCaches(init);
      CachesKeep(At(init).value, events[|events| - 1]);
    }
  }

  /** `result` was stored on connection `k` for `id` by a worker whose credential is that of the
      worker behind capture `from`, with no other credential presented there between the two; nobody
      cleared that cache since. */
  ghost predicate StoredUnderSameCredential(S: Site, from: nat, id: Identity, result: JudgmentResult)
    requires from < |S.captures|
  {
    var k := S.captures[from].k;
    && k < |S.conns|
    && exists n :: 0 <= n < |S.conns[k].calls| && IsSource(S, from, S.conns[k].calls[n], id, result)
                   && forall m :: n < m < |S.conns[k].calls| ==> !S.conns[k].calls[m].op.Wipe?
  }

  ghost predicate IsSource(S: Site, from: nat, call: Call, id: Identity, result: JudgmentResult)
    requires from < |S.captures|
  {
    && call.op.Store? && call.op.id == id && call.op.result == result && call.from < |S.captures|
    && if call.from <= from then SameStretch(S.captures, call.from, from) else SameStretch(S.captures, from, call.from)
  }

  /** A hit comes from an insert made under the same credential epoch of the same connection, even
      when that insert landed after a rotation had cleared the cache, and after every clear by a user. */
  lemma HitStaysInEpoch(events: seq<Event>, from: nat, id: Identity, now: nat, policy: Policy)
    requires At(events).Some? && from < |At(events).value.captures| && policy.Valid() && now <= LAST_INSTANT
    requires var S := At(events).value;
             && id.credentialScope == S.captures[from].scope && S.captures[from].k < |S.conns|
             && Lookup(Reconcile(S.conns[S.captures[from].k].cache, now, policy), id, now).1.Some?
    ensures var S := At(events).value;
            StoredUnderSameCredential(S, from, id,
              Lookup(Reconcile(S.conns[S.captures[from].k].cache, now, policy), id, now).1.value)
  {
    ReachableScopes(events);
    ReachableCaches(events);
    hide At, Lookup, Reconcile, Run, ConnsOk, CurrentOk, SameStretch;
    var S := At(events).value;
    var k := S.captures[from].k;
    var calls := S.conns[k].calls;
    var result := Lookup(Reconcile(S.conns[k].cache, now, policy), id, now).1.value;
    PolicyHitIsFresh(Ops(calls), id, now, policy);
    var j :| FreshFrom(Ops(calls), j, id, result, now) && now < Ops(calls)[j].at + policy.ttl;
    assert calls[j].op == Ops(calls)[j];
    assert CallOk(S, k, calls[j]);
    assert IsSource(S, from, calls[j], id, result);
    forall m | j < m < |calls|
      ensures !calls[m].op.Wipe?
    {
      assert calls[m].op == Ops(calls)[m];
    }
  }

  /** Right after a rotation nothing is served, and what older workers insert later is served only to
      them: a lookup under the new scope finds nothing until its own worker stores it. */
  lemma RotationHidesOldAnswers(events: seq<Event>, k: nat, fp: Option<nat>)
    requires At(events).Some? && k < |At(events).value.conns| && fp != At(events).value.conns[k].cred.fingerprint
    ensures var S := At(events).value;
            var S' := Next(S, Present(k, fp));
            && S'.conns[k].cache == []
            && forall i :: 0 <= i < |S.captures| ==> S.captures[i].scope != S'.conns[k].cred.current
  {
    ReachableScopes(events);
  }
}
