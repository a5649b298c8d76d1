/** The cache is ordered by use over whole runs, so what it evicts was used longest ago. */
module CacheRecency {
  import opened Text
  import opened Judgment
  import opened CacheLog
  import opened CacheRuns

  /** Call `k` of a run used the entry of `id`: it stored it and was accepted, or it found it. */
  predicate Uses(ops: seq<Op>, k: nat, id: Identity)
    requires k < |ops|
  {
    match ops[k]
    case Store(stored, result, at, policy, bytes) => stored == id && Insertable(at, policy) && bytes <= policy.maxBytes
    case Find(sought, at, policy) =>
      sought == Some(id) && policy.Valid() && Lookup(Reconcile(Run(ops[..k]), at, policy), id, at).1.Some?
    case FindBare(wanted, at) => wanted == id && Lookup(Run(ops[..k]), id, at).1.Some?
    case _ => false
  }

  /** The last call that used the entry of `id`, or -1. */
  function LastUse(ops: seq<Op>, id: Identity): int {
    if ops == [] then -1
    else if Uses(ops, |ops| - 1, id) then |ops| - 1
    else LastUse(ops[..|ops| - 1], id)
  }

  lemma {:induction false} LastUseIsLast(ops: seq<Op>, id: Identity)
    ensures -1 <= LastUse(ops, id) < |ops|
    ensures LastUse(ops, id) >= 0 ==> Uses(ops, LastUse(ops, id), id)
    ensures forall k :: LastUse(ops, id) < k < |ops| ==> !Uses(ops, k, id)
  {
    hide Uses;
    if ops != [] {
      var n := |ops| - 1;
      LastUseIsLast(ops[..n], id);
      forall k: nat | k < n
        ensures Uses(ops, k, id) == Uses(ops[..n], k, id)
      {
        UsesEarlier(ops, n, k, id);
      }
    }
  }

  lemma UsesEarlier(ops: seq<Op>, n: nat, k: nat, id: Identity)
    requires k < n <= |ops|
    ensures Uses(ops, k, id) == Uses(ops[..n], k, id)
  {
    assert ops[..n][..k] == ops[..k];
  }

  // ---- Orders

  /** The log is ordered by `use`, and everything in it has been used. */
  ghost predicate Ordered(log: Log, use: Identity -> int) {
    && (forall i :: 0 <= i < |log| ==> use(log[i].id) >= 0)
    && forall i, j :: 0 <= i < j < |log| ==> use(log[i].id) < use(log[j].id)
  }

  lemma TightenOrdered(log: Log, ttl: nat, use: Identity -> int)
    requires Ordered(log, use)
    ensures Ordered(Tighten(log, ttl), use)
  {
  }

  lemma {:induction false} UnexpiredOrdered(log: Log, now: nat, use: Identity -> int)
    requires Ordered(log, use)
    ensures Ordered(Unexpired(log, now), use)
  {
    if log != [] {
      var rest := Unexpired(log[1..], now);
      UnexpiredOrdered(log[1..], now, use);
      forall i | 0 <= i < |rest|
        ensures use(log[0].id) < use(rest[i].id)
      {
        UnexpiredMembers(log[1..], now, rest[i]);
        var j :| 0 <= j < |log[1..]| && log[1..][j] == rest[i];
        assert log[j + 1] == rest[i];
      }
    }
  }

  lemma {:induction false} DropOrdered(log: Log, ids: set<Identity>, use: Identity -> int)
    requires Ordered(log, use)
    ensures Ordered(Drop(log, ids), use)
  {
    if log != [] {
      var rest := Drop(log[1..], ids);
      DropOrdered(log[1..], ids, use);
      forall i | 0 <= i < |rest|
        ensures use(log[0].id) < use(rest[i].id)
      {
        DropMembers(log[1..], ids, rest[i]);
        var j :| 0 <= j < |log[1..]| && log[1..][j] == rest[i];
        assert log[j + 1] == rest[i];
      }
    }
  }

  lemma ShedOrdered(log: Log, maxEntries: nat, maxBytes: nat, use: Identity -> int)
    requires Ordered(log, use)
    ensures Ordered(Shed(log, maxEntries, maxBytes), use)
  {
    ShedIsLongestSuffix(log, maxEntries, maxBytes);
  }

  lemma ReconcileOrdered(log: Log, now: nat, p: Policy, use: Identity -> int)
    requires Ordered(log, use)
    ensures Ordered(Reconcile(log, now, p), use)
  {
    if p.Valid() {
      TightenOrdered(log, p.ttl, use);
      UnexpiredOrdered(Tighten(log, p.ttl), now, use);
      ShedOrdered(Unexpired(Tighten(log, p.ttl), now), p.maxEntries, p.maxBytes, use);
    }
  }

  /** Another order that agrees on the identities present. */
  lemma SameOrder(log: Log, use: Identity -> int, use': Identity -> int)
    requires Ordered(log, use) && forall i :: 0 <= i < |log| ==> use'(log[i].id) == use(log[i].id)
    ensures Ordered(log, use')
  {
  }

  /** An item used later than all others belongs at the end. */
  lemma OrderedSnoc(log: Log, item: Item, use: Identity -> int, use': Identity -> int)
    requires Ordered(log, use) && use'(item.id) >= 0
    requires forall i :: 0 <= i < |log| ==> use'(log[i].id) == use(log[i].id) < use'(item.id)
    ensures Ordered(log + [item], use')
  {
  }

  // ---- One call at a time

  ghost function UseIn(ops: seq<Op>): Identity -> int { (id: Identity) => LastUse(ops, id) }

  /** What the last call does to the uses. */
  lemma UseAfter(ops: seq<Op>, id: Identity)
    requires ops != []
    ensures var n := |ops| - 1;
            UseIn(ops)(id) == if Uses(ops, n, id) then n else UseIn(ops[..n])(id)
    ensures UseIn(ops[..|ops| - 1])(id) < |ops| - 1
  {
    hide Uses;
    LastUseIsLast(ops[..|ops| - 1], id);
  }

  lemma NotUsed(ops: seq<Op>, log: Log)
    requires ops != [] && Ordered(log, UseIn(ops[..|ops| - 1]))
    requires forall i :: 0 <= i < |log| ==> !Uses(ops, |ops| - 1, log[i].id)
    ensures Ordered(log, UseIn(ops))
  {
    hide Uses, LastUse;
    forall i | 0 <= i < |log|
      ensures UseIn(ops)(log[i].id) == UseIn(ops[..|ops| - 1])(log[i].id)
    {
      UseAfter(ops, log[i].id);
    }
    SameOrder(log, UseIn(ops[..|ops| - 1]), UseIn(ops));
  }

  lemma UsedLast(ops: seq<Op>, log: Log, item: Item)
    requires ops != [] && Ordered(log, UseIn(ops[..|ops| - 1])) && Uses(ops, |ops| - 1, item.id)
    requires forall i :: 0 <= i < |log| ==> log[i].id != item.id && !Uses(ops, |ops| - 1, log[i].id)
    ensures Ordered(log + [item], UseIn(ops))
  {
    hide Uses, LastUse;
    UseAfter(ops, item.id);
    forall i | 0 <= i < |log|
      ensures UseIn(ops)(log[i].id) == UseIn(ops[..|ops| - 1])(log[i].id) < |ops| - 1
    {
      UseAfter(ops, log[i].id);
    }
    OrderedSnoc(log, item, UseIn(ops[..|ops| - 1]), UseIn(ops));
  }

  lemma DroppedIsElsewhere(log: Log, id: Identity)
    ensures forall i :: 0 <= i < |Drop(log, {id})| ==> Drop(log, {id})[i].id != id
  {
    forall i | 0 <= i < |Drop(log, {id})|
      ensures Drop(log, {id})[i].id != id
    {
      DropMembers(log, {id}, Drop(log, {id})[i]);
    }
  }

  /** A lookup in the log `log`, which is what the call left before it looked. */
  lemma LookupOrdered(ops: seq<Op>, n: nat, log: Log, id: Identity, at: nat)
    requires |ops| == n + 1 && Ordered(log, UseIn(ops[..n]))
    requires forall other :: Uses(ops, n, other) <==> other == id && Lookup(log, id, at).1.Some?
    ensures Ordered(Lookup(log, id, at).0, UseIn(ops))
  {
    hide Uses, LastUse;
    DropOrdered(log, {id}, UseIn(ops[..n]));
    DroppedIsElsewhere(log, id);
    if Lookup(log, id, at).1.Some? {
      UsedLast(ops, Drop(log, {id}), Item(id, EntryOf(log, id)));
    } else {
      NotUsed(ops, Lookup(log, id, at).0);
    }
  }

  lemma StoreOrdered(ops: seq<Op>, log: Log)
    requires ops != [] && ops[|ops| - 1].Store? && Ordered(log, UseIn(ops[..|ops| - 1]))
    ensures Ordered(CacheRuns.Step(log, ops[|ops| - 1]), UseIn(ops))
  {
    var n := |ops| - 1;
    var op, use := ops[n], UseIn(ops[..n]);
    hide LastUse, Ordered, UseIn, Reconcile, Drop, Shed, Uses;
    StoreUses(ops);
    if Insertable(op.at, op.policy) {
      ReconcileOrdered(log, op.at, op.policy, use);
      AdmitOrdered(ops, Reconcile(log, op.at, op.policy));
    } else {
      NotUsed(ops, log);
    }
  }

  lemma StoreUses(ops: seq<Op>)
    requires ops != [] && ops[|ops| - 1].Store?
    ensures var n, op := |ops| - 1, ops[|ops| - 1];
            forall id {:trigger Uses(ops, n, id)} ::
              Uses(ops, n, id) <==> id == op.id && Insertable(op.at, op.policy) && op.bytes <= op.policy.maxBytes
  {
  }

  lemma AdmitOrdered(ops: seq<Op>, log: Log)
    requires ops != [] && ops[|ops| - 1].Store? && Ordered(log, UseIn(ops[..|ops| - 1]))
    requires var op := ops[|ops| - 1]; Insertable(op.at, op.policy)
    ensures var op := ops[|ops| - 1]; Ordered(Admit(log, Stored(op), op.policy).0, UseIn(ops))
  {
    var n := |ops| - 1;
    var op, use := ops[n], UseIn(ops[..n]);
    hide LastUse, Ordered, UseIn, Uses, Drop, Shed, Within, Reconcile;
    StoreUses(ops);
    var others := Drop(log, {op.id});
    DropOrdered(log, {op.id}, use);
    DroppedIsElsewhere(log, op.id);
    if op.bytes <= op.policy.maxBytes {
      var kept := Shed(others, op.policy.maxEntries - 1, op.policy.maxBytes - op.bytes);
      ShedOrdered(others, op.policy.maxEntries - 1, op.policy.maxBytes - op.bytes, use);
      ShedIsLongestSuffix(others, op.policy.maxEntries - 1, op.policy.maxBytes - op.bytes);
      UsedLast(ops, kept, Stored(op));
    } else {
      NotUsed(ops, others);
    }
  }

  /** Recency over runs: the cache lists its entries by their last use, a hit or an accepted insert. */
  lemma {:induction false} ByLastUse(ops: seq<Op>)
    ensures Ordered(Run(ops), UseIn(ops))
  {
    if ops != [] {
      var n := |ops| - 1;
      var log, op, use := Run(ops[..n]), ops[n], UseIn(ops[..n]);
      ByLastUse(ops[..n]);
      hide LastUse, Ordered, UseIn;
      match op
      case Store(_, _, _, _, _) => StoreOrdered(ops, log);
      case Find(sought, at, policy) =>
        ReconcileOrdered(log, at, policy, use);
        if policy.Valid() && sought.Some? {
          LookupOrdered(ops, n, Reconcile(log, at, policy), sought.value, at);
        } else {
          NotUsed(ops, Reconcile(log, at, policy));
        }
      case FindBare(wanted, at) => LookupOrdered(ops, n, log, wanted, at);
      case Apply(at, policy) =>
        ReconcileOrdered(log, at, policy, use);
        NotUsed(ops, Reconcile(log, at, policy));
      case Wipe => NothingOrdered(UseIn(ops));
      case Count(at) =>
        UnexpiredOrdered(log, at, use);
        NotUsed(ops, Unexpired(log, at));
    }
  }

  lemma NothingOrdered(use: Identity -> int)
    ensures Ordered([], use)
  {
  }

  // ---- Eviction

  /** Eviction keeps an entry if and only if it is within both limits together with every entry used
      after it. */
  lemma ShedKeeps(log: Log, maxEntries: nat, maxBytes: nat, k: nat)
    requires UniqueIds(log) && k < |log|
    ensures log[k] in Shed(log, maxEntries, maxBytes) <==> Within(log[k..], maxEntries, maxBytes)
  {
    var kept := Shed(log, maxEntries, maxBytes);
    ShedIsLongestSuffix(log, maxEntries, maxBytes);
    WithinSuffix(log, k, |log| - |kept|, maxEntries, maxBytes);
    InSuffix(log, |log| - |kept|, k);
    if log[k] in kept {
      var i :| 0 <= i < |kept| && kept[i] == log[k];
      assert kept[i] == log[|log| - |kept| + i];
    }
  }

  /** Applying a policy keeps an entry if and only if it is alive under the policy and, with every entry
      alive and used after it, within both limits. */
  lemma PolicyKeeps(log: Log, now: nat, p: Policy, k: nat)
    requires p.Valid() && UniqueIds(log) && k < |Unexpired(Tighten(log, p.ttl), now)|
    ensures var alive := Unexpired(Tighten(log, p.ttl), now);
            alive[k] in Reconcile(log, now, p) <==> Within(alive[k..], p.maxEntries, p.maxBytes)
  {
    UnexpiredUnique(Tighten(log, p.ttl), now);
    ShedKeeps(Unexpired(Tighten(log, p.ttl), now), p.maxEntries, p.maxBytes, k);
  }

  /** A lookup loses nothing but the entry looked for, and that only when its time is up. */
  lemma LookupKeeps(log: Log, id: Identity, now: nat, x: Item)
    requires UniqueIds(log)
    ensures x in Lookup(log, id, now).0 <==> x in log && (x.id == id ==> now < x.entry.expiresAt)
  {
    DropMembers(log, {id}, x);
    if Holds(log, id) {
      EntryOfMember(log, id);
    }
    if x in log && x.id == id {
      var i :| 0 <= i < |log| && log[i] == x;
      EntryOfUnique(log, i);
    }
  }

  /** An accepted insert keeps another entry if and only if, with every other entry used after it, it
      leaves room for the new one; one that is too large keeps all others. */
  lemma InsertKeeps(log: Log, item: Item, p: Policy, k: nat)
    requires p.Valid() && UniqueIds(log) && k < |Drop(log, {item.id})|
    ensures var others := Drop(log, {item.id});
            others[k] in Admit(log, item, p).0
            <==> (item.entry.bytes <= p.maxBytes ==>
                    Within(others[k..], p.maxEntries - 1, p.maxBytes - item.entry.bytes))
  {
    var others := Drop(log, {item.id});
    DropUnique(log, {item.id});
    DroppedIsElsewhere(log, item.id);
    if item.entry.bytes <= p.maxBytes {
      ShedKeeps(others, p.maxEntries - 1, p.maxBytes - item.entry.bytes, k);
    }
  }

  lemma {:induction false} DropUnique(log: Log, ids: set<Identity>)
    requires UniqueIds(log)
    ensures UniqueIds(Drop(log, ids))
  {
    if log != [] {
      DropUnique(log[1..], ids);
      var rest := Drop(log[1..], ids);
      forall i | 0 <= i < |rest|
        ensures rest[i].id != log[0].id
      {
        DropMembers(log[1..], ids, rest[i]);
        var j :| 0 <= j < |log[1..]| && log[1..][j] == rest[i];
        assert log[j + 1] == rest[i];
      }
    }
  }

  lemma InSuffix(log: Log, m: nat, i: nat)
    requires m <= |log| && i < |log|
    ensures i >= m ==> log[i] in log[m..]
  {
    if i >= m {
      assert log[m..][i - m] == log[i];
    }
  }

  lemma {:induction false} UnexpiredUnique(log: Log, now: nat)
    requires UniqueIds(log)
    ensures UniqueIds(Unexpired(log, now))
  {
    if log != [] {
      UnexpiredUnique(log[1..], now);
      var rest := Unexpired(log[1..], now);
      forall i | 0 <= i < |rest|
        ensures rest[i].id != log[0].id
      {
        UnexpiredMembers(log[1..], now, rest[i]);
        var j :| 0 <= j < |log[1..]| && log[1..][j] == rest[i];
        assert log[j + 1] == rest[i];
      }
    }
  }

  lemma {:induction false} WithinSuffix(log: Log, k: nat, m: nat, maxEntries: nat, maxBytes: nat)
    requires m <= |log| && k <= |log| && Within(log[m..], maxEntries, maxBytes)
    ensures k >= m ==> Within(log[k..], maxEntries, maxBytes)
    decreases k
  {
    if k > m {
      WithinSuffix(log, k - 1, m, maxEntries, maxBytes);
      assert log[k - 1..][1..] == log[k..];
    }
  }

  /** The members a policy leaves alive: each entry with its time cut to the policy's, unless that is
      past. */
  lemma AliveMembers(log: Log, now: nat, ttl: nat, x: Item)
    ensures x in Unexpired(Tighten(log, ttl), now)
       <==> exists y :: y in log && x == Item(y.id, TightenEntry(y.entry, ttl)) && now < x.entry.expiresAt
  {
    var tight := Tighten(log, ttl);
    UnexpiredMembers(tight, now, x);
    if x in tight {
      var i :| 0 <= i < |tight| && tight[i] == x;
      assert log[i] in log;
    }
    if y :| y in log && x == Item(y.id, TightenEntry(y.entry, ttl)) {
      var i :| 0 <= i < |log| && log[i] == y;
      assert tight[i] == x;
    }
  }

  /** Nothing is cached twice. */
  lemma RunUnique(ops: seq<Op>)
    ensures UniqueIds(Run(ops))
  {
    ByLastUse(ops);
  }

  /** Least recently used goes first: of the entries alive when a policy is applied, one that is evicted
      was last used before every one that is kept. */
  lemma EvictsLeastRecent(ops: seq<Op>, now: nat, p: Policy, x: Item, y: Item)
    requires p.Valid()
    requires var alive := Unexpired(Tighten(Run(ops), p.ttl), now);
             x in alive && y in alive && x !in Reconcile(Run(ops), now, p) && y in Reconcile(Run(ops), now, p)
    ensures LastUse(ops, x.id) < LastUse(ops, y.id)
  {
    ByLastUse(ops);
    hide LastUse;
    var alive := Unexpired(Tighten(Run(ops), p.ttl), now);
    TightenOrdered(Run(ops), p.ttl, UseIn(ops));
    UnexpiredOrdered(Tighten(Run(ops), p.ttl), now, UseIn(ops));
    ShedSplits(alive, p.maxEntries, p.maxBytes, x, y, UseIn(ops));
  }

  lemma ShedSplits(log: Log, maxEntries: nat, maxBytes: nat, x: Item, y: Item, use: Identity -> int)
    requires Ordered(log, use) && x in log && x !in Shed(log, maxEntries, maxBytes) && y in Shed(log, maxEntries, maxBytes)
    ensures use(x.id) < use(y.id)
  {
    hide Within;
    var kept := Shed(log, maxEntries, maxBytes);
    ShedIsLongestSuffix(log, maxEntries, maxBytes);
    var i :| 0 <= i < |log| && log[i] == x;
    var j :| 0 <= j < |kept| && kept[j] == y;
    var m := |log| - |kept|;
    InSuffix(log, m, i);
    assert log[m + j] == y;
  }

  /** What an accepted insert leaves: what is kept of the others, and the new entry. */
  lemma RunStores(ops: seq<Op>, op: Op)
    requires op.Store? && Insertable(op.at, op.policy) && op.bytes <= op.policy.maxBytes
    ensures var others := Drop(Reconcile(Run(ops), op.at, op.policy), {op.id});
            Run(ops + [op]) == Shed(others, op.policy.maxEntries - 1, op.policy.maxBytes - op.bytes) + [Stored(op)]
  {
    hide Drop, Reconcile, Shed;
    assert (ops + [op])[..|ops|] == ops;
  }

  lemma OthersOrdered(ops: seq<Op>, op: Op)
    requires op.Store?
    ensures var others := Drop(Reconcile(Run(ops), op.at, op.policy), {op.id});
            Ordered(others, UseIn(ops)) && forall x :: x in others ==> x.id != op.id
  {
    hide LastUse, Ordered, UseIn, Reconcile, Run, Drop;
    ByLastUse(ops);
    ReconcileOrdered(Run(ops), op.at, op.policy, UseIn(ops));
    DropOrdered(Reconcile(Run(ops), op.at, op.policy), {op.id}, UseIn(ops));
    forall x | x in Drop(Reconcile(Run(ops), op.at, op.policy), {op.id})
      ensures x.id != op.id
    {
      DropMembers(Reconcile(Run(ops), op.at, op.policy), {op.id}, x);
    }
  }

  /** The same when an insert makes room. */
  lemma InsertEvictsLeastRecent(ops: seq<Op>, op: Op, x: Item, y: Item)
    requires op.Store? && Insertable(op.at, op.policy) && op.bytes <= op.policy.maxBytes
    requires var others := Drop(Reconcile(Run(ops), op.at, op.policy), {op.id});
             x in others && y in others && x !in Run(ops + [op]) && y in Run(ops + [op])
    ensures LastUse(ops, x.id) < LastUse(ops, y.id)
  {
    hide LastUse, Ordered, Reconcile, Run, Drop, Shed;
    RunStores(ops, op);
    OthersOrdered(ops, op);
    var others := Drop(Reconcile(Run(ops), op.at, op.policy), {op.id});
    assert Stored(op).id == op.id;
    ShedSplits(others, op.policy.maxEntries - 1, op.policy.maxBytes - op.bytes, x, y, UseIn(ops));
  }

  // ---- What is accepted

  /** A policy with a zero in it changes nothing and admits nothing; an insert is accepted if and only if
      the policy has none, its end can be told on the clock, and the entry fits on its own. */
  lemma AcceptedIff(log: Log, id: Identity, result: JudgmentResult, now: nat, p: Policy, bytes: nat)
    ensures p.maxEntries == 0 || p.maxBytes == 0 || p.ttl == 0 ==> Reconcile(log, now, p) == log
    ensures InsertSized(log, id, result, now, p, bytes).1 <==>
      && p.maxEntries > 0 && p.maxBytes > 0 && p.ttl > 0 && now + p.ttl <= 0xFFFF_FFFF_FFFF_FFFF && bytes <= p.maxBytes
    ensures p.maxEntries == 0 || p.maxBytes == 0 || p.ttl == 0 || now + p.ttl > 0xFFFF_FFFF_FFFF_FFFF ==>
      InsertSized(log, id, result, now, p, bytes).0 == log
  {
  }

  /** A policy cuts an entry's time to its own, counted from the insert, where the clock can tell the end;
      it never extends it. */
  lemma TimeIsCut(e: Entry, ttl: nat)
    ensures TightenEntry(e, ttl).expiresAt
         == if e.insertedAt + ttl <= 0xFFFF_FFFF_FFFF_FFFF && e.insertedAt + ttl < e.expiresAt then e.insertedAt + ttl
            else e.expiresAt
    ensures TightenEntry(e, ttl) == e.(expiresAt := TightenEntry(e, ttl).expiresAt)
  {
  }
}
