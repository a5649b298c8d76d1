/** Freshness of cache hits over whole runs, under policies that change from call to call. */
module CacheRuns {
  import opened Text
  import opened Judgment
  import opened CacheLog

  /** One call on the cache. `Find` without an identity applies the policy and nothing else; a
      `Store` carries the estimated size of its entry. */
  datatype Op =
    | Find(sought: Option<Identity>, at: nat, policy: Policy)
    | FindBare(wanted: Identity, at: nat)
    | Apply(at: nat, policy: Policy)
    | Store(id: Identity, result: JudgmentResult, at: nat, policy: Policy, bytes: nat)
    | Wipe
    | Count(at: nat)

  function Step(log: Log, op: Op): Log {
    match op
    case Find(sought, at, policy) =>
      if policy.Valid() && sought.Some? then Lookup(Reconcile(log, at, policy), sought.value, at).0
      else Reconcile(log, at, policy)
    case FindBare(wanted, at) => Lookup(log, wanted, at).0
    case Apply(at, policy) => Reconcile(log, at, policy)
    case Store(id, result, at, policy, bytes) => InsertSized(log, id, result, at, policy, bytes).0
    case Wipe => []
    case Count(at) => Unexpired(log, at)
  }

  /** The cache after a run that starts empty. */
  function Run(ops: seq<Op>): Log {
    if ops == [] then [] else Step(Run(ops[..|ops| - 1]), ops[|ops| - 1])
  }

  /** The TTL a call imposes on every entry present, if it imposes one. */
  function Imposed(op: Op): Option<nat> {
    match op
    case Find(_, _, policy) => if policy.Valid() then Some(policy.ttl) else None
    case Apply(_, policy) => if policy.Valid() then Some(policy.ttl) else None
    case Store(_, _, at, policy, _) => if Insertable(at, policy) then Some(policy.ttl) else None
    case _ => None
  }

  /** An effective insert: it replaces whatever was stored under its identity. */
  predicate IsStore(op: Op, id: Identity) {
    op.Store? && op.id == id && Insertable(op.at, op.policy)
  }

  /** When an entry stored by `ops[j]` expires: the insert time plus the smallest TTL imposed since. */
  function Expiry(ops: seq<Op>, j: nat): nat
    requires j < |ops| && ops[j].Store?
    decreases |ops|
  {
    if |ops| == j + 1 then ops[j].at + ops[j].policy.ttl
    else
      var before := Expiry(ops[..|ops| - 1], j);
      match Imposed(ops[|ops| - 1])
      case None => before
      case Some(ttl) =>
        match CheckedAdd(ops[j].at, ttl)
        case None => before
        case Some(t) => if t < before then t else before
  }

  /** `ops[j]` is the latest effective insert of `id`, it was accepted, and nothing was cleared
      since. */
  ghost predicate LatestStore(ops: seq<Op>, j: int, id: Identity) {
    && 0 <= j < |ops| && IsStore(ops[j], id)
    && ops[j].bytes <= ops[j].policy.maxBytes
    && forall k :: j < k < |ops| ==> !IsStore(ops[k], id) && !ops[k].Wipe?
  }

  ghost predicate BornAt(ops: seq<Op>, j: int, x: Item) {
    && LatestStore(ops, j, x.id)
    && x.entry.result == ops[j].result
    && x.entry.insertedAt == ops[j].at
    && x.entry.expiresAt == Expiry(ops, j)
  }

  // ---- One call at a time

  function After(op: Op, x: Item): Item {
    match Imposed(op)
    case None => x
    case Some(ttl) => Item(x.id, TightenEntry(x.entry, ttl))
  }

  function Stored(op: Op): Item
    requires op.Store?
  {
    Item(op.id, Entry(op.result, op.at, op.at + op.policy.ttl, op.bytes))
  }

  lemma ReconcileMembers(log: Log, at: nat, p: Policy, x: Item)
    requires p.Valid() && x in Reconcile(log, at, p)
    ensures exists y :: y in log && x == Item(y.id, TightenEntry(y.entry, p.ttl))
  {
    var tight := Tighten(log, p.ttl);
    ShedIsLongestSuffix(Unexpired(tight, at), p.maxEntries, p.maxBytes);
    UnexpiredMembers(tight, at, x);
    var i :| 0 <= i < |tight| && tight[i] == x;
    assert log[i] in log;
  }

  lemma LookupMembers(log: Log, id: Identity, at: nat, x: Item)
    requires x in Lookup(log, id, at).0
    ensures x in log
  {
    DropMembers(log, {id}, x);
    if Holds(log, id) {
      EntryOfMember(log, id);
    }
  }

  lemma AdmitMembers(log: Log, item: Item, p: Policy, x: Item)
    requires p.Valid() && x in Admit(log, item, p).0
    ensures (x in log && x.id != item.id) || (x == item && item.entry.bytes <= p.maxBytes)
  {
    var others := Drop(log, {item.id});
    DropMembers(log, {item.id}, x);
    if item.entry.bytes <= p.maxBytes {
      ShedIsLongestSuffix(others, p.maxEntries - 1, p.maxBytes - item.entry.bytes);
    }
  }

  /** After a call, an entry is an old one with its time tightened, or the one just stored. */
  lemma StepMembers(log: Log, op: Op, x: Item)
    requires x in Step(log, op)
    ensures || (op.Store? && IsStore(op, x.id) && x == Stored(op) && x.entry.bytes <= op.policy.maxBytes)
            || (exists y :: y in log && x == After(op, y) && !IsStore(op, x.id) && !op.Wipe?)
  {
    match op
    case Find(sought, at, policy) =>
      if policy.Valid() {
        if sought.Some? { LookupMembers(Reconcile(log, at, policy), sought.value, at, x); }
        ReconcileMembers(log, at, policy, x);
      }
    case FindBare(wanted, at) => LookupMembers(log, wanted, at, x);
    case Apply(at, policy) => if policy.Valid() { ReconcileMembers(log, at, policy, x); }
    case Store(id, result, at, policy, bytes) =>
      if Insertable(at, policy) {
        AdmitMembers(Reconcile(log, at, policy), Stored(op), policy, x);
        if x in Reconcile(log, at, policy) && x.id != id { ReconcileMembers(log, at, policy, x); }
      }
    case Wipe =>
    case Count(at) => UnexpiredMembers(log, at, x);
  }

  lemma BornStays(ops: seq<Op>, op: Op, j: int, y: Item)
    requires BornAt(ops, j, y) && !IsStore(op, y.id) && !op.Wipe?
    ensures BornAt(ops + [op], j, After(op, y))
  {
    var ops' := ops + [op];
    assert ops'[..|ops'| - 1] == ops;
  }

  /** Every entry in the cache is the latest store of its identity, with exactly the expiry the
      policies since then leave it. */
  lemma {:induction false} RunProvenance(ops: seq<Op>, x: Item)
    requires x in Run(ops)
    ensures exists j :: BornAt(ops, j, x)
  {
    var init, op := ops[..|ops| - 1], ops[|ops| - 1];
    assert ops == init + [op];
    StepMembers(Run(init), op, x);
    if op.Store? && IsStore(op, x.id) && x == Stored(op) && x.entry.bytes <= op.policy.maxBytes {
      assert BornAt(ops, |ops| - 1, x);
    } else {
      var y :| y in Run(init) && x == After(op, y) && !IsStore(op, x.id) && !op.Wipe?;
      RunProvenance(init, y);
      var j :| BornAt(init, j, y);
      BornStays(init, op, j, y);
    }
  }

  lemma {:induction false} ExpiryBound(ops: seq<Op>, j: nat, k: nat)
    requires j <= k < |ops| && ops[j].Store? && Insertable(ops[j].at, ops[j].policy)
    requires Imposed(ops[k]).Some? && CheckedAdd(ops[j].at, Imposed(ops[k]).value).Some?
    ensures Expiry(ops, j) <= ops[j].at + Imposed(ops[k]).value
    decreases |ops|
  {
    if |ops| > j + 1 && k < |ops| - 1 {
      ExpiryBound(ops[..|ops| - 1], j, k);
    }
  }

  /** `result` is what the latest accepted insert of `id` stored, and `now` is before its time
      plus every TTL imposed since, the inserting policy's own included. */
  ghost predicate FreshFrom(ops: seq<Op>, j: int, id: Identity, result: JudgmentResult, now: nat) {
    && LatestStore(ops, j, id)
    && ops[j].result == result
    && forall k :: j <= k < |ops| && Imposed(ops[k]).Some? ==> now < ops[j].at + Imposed(ops[k]).value
  }

  lemma BornIsFresh(ops: seq<Op>, j: int, x: Item, now: nat)
    requires BornAt(ops, j, x) && now < x.entry.expiresAt && now <= LAST_INSTANT
    ensures FreshFrom(ops, j, x.id, x.entry.result, now)
  {
    forall k | j <= k < |ops| && Imposed(ops[k]).Some?
      ensures now < ops[j].at + Imposed(ops[k]).value
    {
      if CheckedAdd(ops[j].at, Imposed(ops[k]).value).Some? {
        ExpiryBound(ops, j, k);
      }
    }
  }

  /** A hit returns the result of the latest accepted insert, within every TTL imposed since:
      raising the TTL later revives nothing. */
  lemma HitIsFresh(ops: seq<Op>, id: Identity, now: nat)
    requires now <= LAST_INSTANT && Lookup(Run(ops), id, now).1.Some?
    ensures exists j :: FreshFrom(ops, j, id, Lookup(Run(ops), id, now).1.value, now)
  {
    var x := Item(id, EntryOf(Run(ops), id));
    EntryOfMember(Run(ops), id);
    RunProvenance(ops, x);
    var j :| BornAt(ops, j, x);
    BornIsFresh(ops, j, x, now);
  }

  lemma FreshBeforeApply(ops: seq<Op>, policy: Policy, at: nat, j: int, id: Identity, result: JudgmentResult, now: nat)
    requires policy.Valid() && FreshFrom(ops + [Apply(at, policy)], j, id, result, now)
    ensures FreshFrom(ops, j, id, result, now) && now < ops[j].at + policy.ttl
  {
    var ops' := ops + [Apply(at, policy)];
    assert j < |ops|;
    assert forall k :: 0 <= k < |ops| ==> ops'[k] == ops[k];
    assert Imposed(ops'[|ops|]) == Some(policy.ttl);
  }

  /** The same for the lookup the executor uses, which applies the active policy first: that
      policy's TTL counts too. */
  lemma PolicyHitIsFresh(ops: seq<Op>, id: Identity, now: nat, policy: Policy)
    requires policy.Valid() && now <= LAST_INSTANT
    requires Lookup(Reconcile(Run(ops), now, policy), id, now).1.Some?
    ensures exists j :: FreshFrom(ops, j, id, Lookup(Reconcile(Run(ops), now, policy), id, now).1.value, now)
                        && now < ops[j].at + policy.ttl
  {
    var ops' := ops + [Apply(now, policy)];
    assert ops'[..|ops'| - 1] == ops;
    HitIsFresh(ops', id, now);
    var j :| FreshFrom(ops', j, id, Lookup(Run(ops'), id, now).1.value, now);
    FreshBeforeApply(ops, policy, now, j, id, Lookup(Run(ops'), id, now).1.value, now);
  }

  lemma AbsentAfterDrop(log: Log, id: Identity)
    ensures !Holds(Drop(log, {id}), id)
  {
    if Holds(Drop(log, {id}), id) {
      var i :| 0 <= i < |Drop(log, {id})| && Drop(log, {id})[i].id == id;
      DropMembers(log, {id}, Drop(log, {id})[i]);
    }
  }

  /** After a miss nothing is held under the identity. */
  lemma MissIsAbsent(log: Log, id: Identity, now: nat)
    requires Lookup(log, id, now).1.None?
    ensures !Holds(Lookup(log, id, now).0, id)
  {
    AbsentAfterDrop(log, id);
  }

  /** Replacing an entry by one that is too large leaves nothing stale behind. */
  lemma OversizedReplacementLeavesNothing(log: Log, id: Identity, result: JudgmentResult, now: nat, p: Policy,
                                          bytes: nat, later: nat)
    requires Insertable(now, p) && bytes > p.maxBytes
    ensures Lookup(InsertSized(log, id, result, now, p, bytes).0, id, later).1.None?
  {
    AbsentAfterDrop(Reconcile(log, now, p), id);
  }

  lemma AdmittedIsFound(log: Log, item: Item, p: Policy)
    requires p.Valid() && Admit(log, item, p).1
    ensures Holds(Admit(log, item, p).0, item.id) && EntryOf(Admit(log, item, p).0, item.id) == item.entry
  {
    var others := Drop(log, {item.id});
    var kept := Shed(others, p.maxEntries - 1, p.maxBytes - item.entry.bytes);
    ShedIsLongestSuffix(others, p.maxEntries - 1, p.maxBytes - item.entry.bytes);
    AbsentAfterDrop(log, item.id);
    forall i | 0 <= i < |kept|
      ensures kept[i].id != item.id
    {
      assert kept[i] == others[|others| - |kept| + i];
    }
    LastIsFound(kept, item);
  }

  /** An accepted insert is served until its time is up, and not after. */
  lemma InsertThenLookup(log: Log, id: Identity, result: JudgmentResult, now: nat, p: Policy, bytes: nat, later: nat)
    requires InsertSized(log, id, result, now, p, bytes).1
    ensures Lookup(InsertSized(log, id, result, now, p, bytes).0, id, later).1
         == if later < now + p.ttl then Some(result) else None
  {
    AdmittedIsFound(Reconcile(log, now, p), Item(id, Entry(result, now, now + p.ttl, bytes)), p);
  }

  lemma {:induction false} LastIsFound(log: Log, item: Item)
    requires forall i :: 0 <= i < |log| ==> log[i].id != item.id
    ensures Holds(log + [item], item.id) && EntryOf(log + [item], item.id) == item.entry
  {
    assert (log + [item])[|log|].id == item.id;
    if log != [] {
      LastIsFound(log[1..], item);
      assert (log + [item])[1..] == log[1..] + [item];
    }
  }

  /** Both limits hold after every applied policy and every accepted insert. */
  lemma LimitsHold(log: Log, id: Identity, result: JudgmentResult, now: nat, p: Policy, bytes: nat)
    requires p.Valid()
    ensures Within(Reconcile(log, now, p), p.maxEntries, p.maxBytes)
    ensures InsertSized(log, id, result, now, p, bytes).1 ==>
      Within(InsertSized(log, id, result, now, p, bytes).0, p.maxEntries, p.maxBytes)
  {
    ShedIsLongestSuffix(Unexpired(Tighten(log, p.ttl), now), p.maxEntries, p.maxBytes);
    if bytes <= p.maxBytes {
      var others := Drop(Reconcile(log, now, p), {id});
      ShedIsLongestSuffix(others, p.maxEntries - 1, p.maxBytes - bytes);
      BytesConcat(Shed(others, p.maxEntries - 1, p.maxBytes - bytes),
                  [Item(id, Entry(result, now, now + p.ttl, bytes))]);
    }
  }

  function Heavy(id: Identity, bytes: nat): Item { Item(id, Entry(ChoiceResult(""), 0, 1, bytes)) }

  /** A byte limit keeps the counter exact whatever is cached and inserted if and only if it is below
      the machine maximum: at the maximum two entries suffice to saturate it. */
  lemma ByteLimitKeepsAccountingExact(p: Policy, a: Identity, b: Identity)
    requires p.Valid() && p.maxEntries > 1 && p.maxBytes <= USIZE_MAX && a != b
    ensures (forall log, item :: Countable(log, item, p)) <==> p.maxBytes < USIZE_MAX
  {
    if p.maxBytes < USIZE_MAX {
      forall log, item ensures Countable(log, item, p) {
        BelowMaximum(log, item, p);
      }
    } else {
      var log := [Heavy(a, USIZE_MAX)];
      assert log[1..] == [] && Drop(log, {b}) == log;
      assert !Countable(log, Heavy(b, USIZE_MAX), p);
    }
  }
}
