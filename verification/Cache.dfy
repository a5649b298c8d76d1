/** The bounded in-memory cache: a map, a recency queue and a byte counter, kept in step so that
    together they are one list, and every operation acts on that list. */
module Cache {
  import opened Text
  import opened Collections
  import opened Judgment
  import opened CacheLog

  /** The queue lists the keys of the map, each once. */
  ghost predicate Consistent(lru: seq<Identity>, entries: map<Identity, Entry>) {
    && Distinct(lru)
    && (forall id :: id in lru ==> id in entries)
    && (forall id :: id in entries ==> id in lru)
  }

  ghost function LogOf(lru: seq<Identity>, entries: map<Identity, Entry>): (log: Log)
    requires forall id :: id in lru ==> id in entries
    ensures |log| == |lru|
    ensures forall i :: 0 <= i < |lru| ==> log[i] == Item(lru[i], entries[lru[i]])
  {
    seq(|lru|, i requires 0 <= i < |lru| => Item(lru[i], entries[lru[i]]))
  }

  lemma SameSize(lru: seq<Identity>, entries: map<Identity, Entry>)
    requires Consistent(lru, entries)
    ensures |entries| == |lru|
  {
    DistinctCount(lru);
    assert Elements(lru) == entries.Keys;
    assert |entries| == |entries.Keys|;
  }

  lemma InQueue(lru: seq<Identity>, entries: map<Identity, Entry>, id: Identity)
    requires Consistent(lru, entries) && id in entries
    ensures id in lru
  {
  }

  lemma UniqueLog(lru: seq<Identity>, entries: map<Identity, Entry>)
    requires Consistent(lru, entries)
    ensures UniqueIds(LogOf(lru, entries))
  {
  }

  function Cut<T>(s: seq<T>, k: nat): (r: seq<T>)
    requires k < |s|
    ensures |r| == |s| - 1
    ensures forall i :: 0 <= i < k ==> r[i] == s[i]
    ensures forall i :: k <= i < |r| ==> r[i] == s[i + 1]
  {
    s[..k] + s[k + 1..]
  }

  lemma CutConsistent(lru: seq<Identity>, entries: map<Identity, Entry>, k: nat)
    requires Consistent(lru, entries) && k < |lru|
    ensures Consistent(Cut(lru, k), entries - {lru[k]})
    ensures lru[k] !in Cut(lru, k)
  {
    var lru' := Cut(lru, k);
    forall id | id in entries && id != lru[k]
      ensures id in lru'
    {
      var i :| 0 <= i < |lru| && lru[i] == id;
      assert lru'[if i < k then i else i - 1] == id;
    }
  }

  /** Taking position `k` out of queue and map takes that identity out of the list. */
  lemma CutOut(lru: seq<Identity>, entries: map<Identity, Entry>, k: nat)
    requires Consistent(lru, entries) && k < |lru|
    ensures Consistent(Cut(lru, k), entries - {lru[k]})
    ensures LogOf(Cut(lru, k), entries - {lru[k]}) == Drop(LogOf(lru, entries), {lru[k]})
    ensures Bytes(LogOf(lru, entries)) == Bytes(LogOf(Cut(lru, k), entries - {lru[k]})) + entries[lru[k]].bytes
  {
    CutConsistent(lru, entries, k);
    UniqueLog(lru, entries);
    DropAt(LogOf(lru, entries), k);
    assert LogOf(Cut(lru, k), entries - {lru[k]}) == Cut(LogOf(lru, entries), k);
  }

  lemma PopFront(lru: seq<Identity>, entries: map<Identity, Entry>)
    requires Consistent(lru, entries) && lru != []
    ensures Consistent(lru[1..], entries - {lru[0]})
    ensures LogOf(lru[1..], entries - {lru[0]}) == LogOf(lru, entries)[1..]
    ensures Bytes(LogOf(lru, entries)) == Bytes(LogOf(lru[1..], entries - {lru[0]})) + entries[lru[0]].bytes
  {
    CutOut(lru, entries, 0);
    UniqueLog(lru, entries);
    DropAt(LogOf(lru, entries), 0);
    assert Cut(lru, 0) == lru[1..];
    assert LogOf(lru, entries)[..0] + LogOf(lru, entries)[1..] == LogOf(lru, entries)[1..];
  }

  /** Expiry by map is expiry by list. */
  lemma ExpiredIds(lru: seq<Identity>, entries: map<Identity, Entry>, now: nat, expired: set<Identity>)
    requires Consistent(lru, entries)
    requires expired == set id | id in entries && now >= entries[id].expiresAt
    ensures Drop(LogOf(lru, entries), {}) == LogOf(lru, entries)
    ensures Drop(LogOf(lru, entries), expired) == Unexpired(LogOf(lru, entries), now)
  {
    var log := LogOf(lru, entries);
    DropNone(log, {});
    forall x | x in log
      ensures x.id in expired <==> now >= x.entry.expiresAt
    {
      var i :| 0 <= i < |log| && log[i] == x;
      assert lru[i] in entries;
    }
    UnexpiredIsDrop(log, now, expired);
  }

  /** Appending a new identity to queue and map appends it to the list. */
  lemma PushBack(lru: seq<Identity>, entries: map<Identity, Entry>, id: Identity, e: Entry)
    requires Consistent(lru, entries) && id !in entries
    ensures Consistent(lru + [id], entries[id := e])
    ensures LogOf(lru + [id], entries[id := e]) == LogOf(lru, entries) + [Item(id, e)]
    ensures Bytes(LogOf(lru + [id], entries[id := e])) == Bytes(LogOf(lru, entries)) + e.bytes
  {
    BytesConcat(LogOf(lru, entries), [Item(id, e)]);
    forall x | x in entries[id := e]
      ensures x in lru + [id]
    {
    }
  }

  lemma AbsentFromLog(lru: seq<Identity>, entries: map<Identity, Entry>, id: Identity)
    requires Consistent(lru, entries) && id !in entries
    ensures Drop(LogOf(lru, entries), {id}) == LogOf(lru, entries)
  {
    DropNone(LogOf(lru, entries), {id});
  }

  lemma {:induction false} TightenKeepsBytes(log: Log, ttl: nat)
    ensures Bytes(Tighten(log, ttl)) == Bytes(log)
  {
    if log != [] {
      TightenKeepsBytes(log[1..], ttl);
      assert Tighten(log, ttl)[1..] == Tighten(log[1..], ttl);
    }
  }

  /** Tightening every map entry in place tightens the list. */
  lemma TightenedMap(lru: seq<Identity>, entries: map<Identity, Entry>, entries': map<Identity, Entry>, ttl: nat)
    requires Consistent(lru, entries) && entries'.Keys == entries.Keys
    requires forall id :: id in entries ==> entries'[id] == TightenEntry(entries[id], ttl)
    ensures Consistent(lru, entries')
    ensures LogOf(lru, entries') == Tighten(LogOf(lru, entries), ttl)
    ensures Bytes(LogOf(lru, entries')) == Bytes(LogOf(lru, entries))
  {
    TightenKeepsBytes(LogOf(lru, entries), ttl);
  }

  lemma HoldsByMap(lru: seq<Identity>, entries: map<Identity, Entry>, id: Identity)
    requires Consistent(lru, entries)
    ensures Holds(LogOf(lru, entries), id) <==> id in entries
    ensures id in entries ==> EntryOf(LogOf(lru, entries), id) == entries[id]
  {
    UniqueLog(lru, entries);
    if id in entries {
      var i :| 0 <= i < |lru| && lru[i] == id;
      EntryOfUnique(LogOf(lru, entries), i);
    }
  }

  class JudgmentCache {
    var entries: map<Identity, Entry>
    var lru: seq<Identity>
    var estimatedBytes: nat
    var expirations: nat
    var evictions: nat

    /** Queue and map agree, and the counter is the exact sum of sizes. */
    ghost predicate Valid()
      reads this
    {
      Consistent(lru, entries) && estimatedBytes == Bytes(LogOf(lru, entries))
    }

    ghost function Contents(): Log
      requires Valid()
      reads this
    {
      LogOf(lru, entries)
    }

    constructor ()
      ensures Valid() && Contents() == [] && expirations == 0 && evictions == 0
    {
      entries, lru, estimatedBytes := map[], [], 0;
      expirations, evictions := 0, 0;
    }

    method Position(id: Identity) returns (index: Option<nat>)
      ensures index.Some? ==> index.value < |lru| && lru[index.value] == id
      ensures index.None? ==> id !in lru
    {
      for i := 0 to |lru|
        invariant id !in lru[..i]
      {
        if lru[i] == id {
          return Some(i);
        }
      }
      return None;
    }

    method RemoveEntry(id: Identity)
      modifies this`entries, this`estimatedBytes
      ensures entries == old(entries) - {id}
      ensures id !in old(entries) ==> estimatedBytes == old(estimatedBytes)
      ensures id in old(entries) ==> estimatedBytes == SaturatingSub(old(estimatedBytes), old(entries)[id].bytes)
    {
      if id in entries {
        estimatedBytes := SaturatingSub(estimatedBytes, entries[id].bytes);
        entries := entries - {id};
      } else {
        assert entries - {id} == entries;
      }
    }

    method Remove(id: Identity)
      requires Valid()
      modifies this`entries, this`lru, this`estimatedBytes
      ensures Valid() && Contents() == Drop(old(Contents()), {id})
      ensures entries == old(entries) - {id}
    {
      var index := Position(id);
      if index.Some? {
        CutOut(lru, entries, index.value);
      } else {
        AbsentFromLog(lru, entries, id);
      }
      RemoveEntry(id);
      if index.Some? {
        lru := Cut(lru, index.value);
      } else {
        assert entries == old(entries);
      }
    }

    method Touch(id: Identity)
      requires Valid() && id in entries
      modifies this`lru
      ensures Valid() && Contents() == Drop(old(Contents()), {id}) + [Item(id, entries[id])]
    {
      hide Consistent, Bytes, Drop;
      var index := Position(id);
      InQueue(lru, entries, id);
      CutOut(lru, entries, index.value);
      lru := Cut(lru, index.value);
      PushBack(lru, entries - {id}, id, entries[id]);
      assert (entries - {id})[id := entries[id]] == entries;
      lru := lru + [id];
    }

    /** Removes the least recently used entry; the queue is never empty when this is needed. */
    method Evict()
      requires Valid() && lru != []
      modifies this`entries, this`lru, this`estimatedBytes, this`evictions
      ensures Valid() && Contents() == old(Contents())[1..] && evictions == old(evictions) + 1
      ensures entries.Keys <= old(entries).Keys
    {
      PopFront(lru, entries);
      var oldest := lru[0];
      lru := lru[1..];
      RemoveEntry(oldest);
      evictions := evictions + 1;
    }

    method RemoveExpired(id: Identity)
      requires Valid() && id in entries
      modifies this`entries, this`lru, this`estimatedBytes, this`expirations
      ensures Valid() && Contents() == Drop(old(Contents()), {id})
      ensures entries == old(entries) - {id}
      ensures expirations == old(expirations) + 1 && |Contents()| == |old(Contents())| - 1
    {
      SameSize(lru, entries);
      Remove(id);
      SameSize(lru, entries);
      expirations := expirations + 1;
    }

    method PruneExpired(now: nat)
      requires Valid()
      modifies this`entries, this`lru, this`estimatedBytes, this`expirations
      ensures Valid() && Contents() == Unexpired(old(Contents()), now)
      ensures expirations == old(expirations) + |old(Contents())| - |Contents()|
    {
      hide Consistent, Bytes, Drop, Unexpired;
      ghost var log := Contents();
      var expired := set id | id in entries && now >= entries[id].expiresAt;
      var todo := expired;
      ExpiredIds(lru, entries, now, expired);
      assert expired - todo == {};
      while todo != {}
        invariant Valid() && todo <= expired
        invariant Contents() == Drop(log, expired - todo)
        invariant forall id :: id in todo ==> id in entries
        invariant expirations == old(expirations) + |log| - |Contents()|
        decreases |todo|
      {
        var id :| id in todo;
        RemoveExpired(id);
        DropDrop(log, expired - todo, {id});
        assert expired - (todo - {id}) == (expired - todo) + {id};
        todo := todo - {id};
      }
      assert expired - todo == expired;
    }

    method TightenAll(ttl: nat)
      requires Valid()
      modifies this`entries
      ensures Valid() && Contents() == Tighten(old(Contents()), ttl)
    {
      ghost var before := entries;
      var todo := entries.Keys;
      while todo != {}
        invariant todo <= entries.Keys == before.Keys
        invariant forall id :: id in before ==>
          entries[id] == if id in todo then before[id] else TightenEntry(before[id], ttl)
        decreases |todo|
      {
        var id :| id in todo;
        entries := entries[id := TightenEntry(entries[id], ttl)];
        todo := todo - {id};
      }
      TightenedMap(lru, before, entries, ttl);
    }

    /** The eviction loop of `reconcile_policy`. */
    method EvictToLimits(policy: Policy)
      requires Valid()
      modifies this`entries, this`lru, this`estimatedBytes, this`evictions
      ensures Valid() && Contents() == Shed(old(Contents()), policy.maxEntries, policy.maxBytes)
      ensures evictions == old(evictions) + |old(Contents())| - |Contents()|
    {
      hide Consistent;
      SameSize(lru, entries);
      while |entries| > policy.maxEntries || estimatedBytes > policy.maxBytes
        invariant Valid() && |entries| == |lru|
        invariant Shed(Contents(), policy.maxEntries, policy.maxBytes)
               == Shed(old(Contents()), policy.maxEntries, policy.maxBytes)
        invariant evictions == old(evictions) + |old(Contents())| - |Contents()|
        decreases |lru|
      {
        // Popping from an empty queue cannot happen: an empty cache meets every limit.
        assert lru != [];
        Evict();
        SameSize(lru, entries);
      }
    }

    /** `reconcile_policy`. */
    method ReconcilePolicy(now: nat, policy: Policy) returns (ok: bool)
      requires Valid()
      modifies this
      ensures Valid() && ok == policy.Valid()
      ensures Contents() == Reconcile(old(Contents()), now, policy)
      ensures ok ==>
        && expirations - old(expirations)
           == |old(Contents())| - |Unexpired(Tighten(old(Contents()), policy.ttl), now)|
        && evictions - old(evictions)
           == |Unexpired(Tighten(old(Contents()), policy.ttl), now)| - |Contents()|
      ensures !ok ==> unchanged(this)
    {
      hide Consistent, Bytes, Tighten, Unexpired, Shed;
      if !policy.Valid() {
        return false;
      }
      TightenAll(policy.ttl);
      PruneExpired(now);
      EvictToLimits(policy);
      return true;
    }

    method LookupEntry(id: Identity, now: nat) returns (r: Option<JudgmentResult>)
      requires Valid()
      modifies this
      ensures Valid() && (Contents(), r) == Lookup(old(Contents()), id, now)
      ensures evictions == old(evictions)
      ensures expirations == old(expirations) + |old(Contents())| - |Contents()|
    {
      HoldsByMap(lru, entries, id);
      if id in entries && now >= entries[id].expiresAt {
        RemoveExpired(id);
        return None;
      }
      if id !in entries {
        return None;
      }
      var result := entries[id].result;
      SameSize(lru, entries);
      Touch(id);
      SameSize(lru, entries);
      return Some(result);
    }

    /** Applies the active limits before serving an entry; without an identity only the limits are
        applied. */
    method LookupWithPolicy(id: Option<Identity>, now: nat, policy: Policy) returns (r: Option<JudgmentResult>)
      requires Valid()
      modifies this
      ensures Valid()
      ensures !policy.Valid() || id.None? ==> r.None? && Contents() == Reconcile(old(Contents()), now, policy)
      ensures policy.Valid() && id.Some? ==>
        (Contents(), r) == Lookup(Reconcile(old(Contents()), now, policy), id.value, now)
    {
      var ok := ReconcilePolicy(now, policy);
      if !ok || id.None? {
        return None;
      }
      r := LookupEntry(id.value, now);
    }

    /** The eviction loop of `insert_success`. */
    method MakeRoom(bytes: nat, policy: Policy)
      requires Valid() && policy.Valid() && bytes <= policy.maxBytes <= USIZE_MAX
      modifies this`entries, this`lru, this`estimatedBytes, this`evictions
      ensures Valid()
      ensures Contents() == Room(old(Contents()), policy.maxEntries, policy.maxBytes, bytes)
      ensures Bytes(Contents()) + bytes <= USIZE_MAX ==>
        Contents() == Shed(old(Contents()), policy.maxEntries - 1, policy.maxBytes - bytes)
      ensures evictions == old(evictions) + |old(Contents())| - |Contents()|
      ensures entries.Keys <= old(entries).Keys
    {
      hide Consistent;
      SameSize(lru, entries);
      while |entries| >= policy.maxEntries || SaturatingAdd(estimatedBytes, bytes) > policy.maxBytes
        invariant Valid() && |entries| == |lru|
        invariant Room(Contents(), policy.maxEntries, policy.maxBytes, bytes)
               == Room(old(Contents()), policy.maxEntries, policy.maxBytes, bytes)
        invariant evictions == old(evictions) + |old(Contents())| - |Contents()|
        invariant entries.Keys <= old(entries).Keys
        decreases |lru|
      {
        // Popping from an empty queue cannot happen: the new entry alone meets both limits.
        assert lru != [];
        Evict();
        SameSize(lru, entries);
      }
      RoomIsShed(old(Contents()), policy.maxEntries, policy.maxBytes, bytes);
    }

    /** The new entry goes to the recent end; the counter stays exact unless the sum saturates. */
    method PushEntry(id: Identity, entry: Entry)
      requires Valid() && id !in entries
      modifies this`entries, this`lru, this`estimatedBytes
      ensures Consistent(lru, entries) && LogOf(lru, entries) == old(Contents()) + [Item(id, entry)]
      ensures Valid() <==> Bytes(old(Contents())) + entry.bytes <= USIZE_MAX
    {
      PushBack(lru, entries, id, entry);
      estimatedBytes := SaturatingAdd(estimatedBytes, entry.bytes);
      lru := lru + [id];
      entries := entries[id := entry];
    }

    /** The part of `insert_success` after the policy is applied. */
    method AdmitEntry(id: Identity, entry: Entry, policy: Policy) returns (ok: bool)
      requires Valid() && policy.Valid() && policy.maxBytes <= USIZE_MAX
      modifies this`entries, this`lru, this`estimatedBytes, this`evictions
      ensures Consistent(lru, entries)
      ensures Valid() <==> Countable(old(Contents()), Item(id, entry), policy)
      ensures Valid() ==> (Contents(), ok) == Admit(old(Contents()), Item(id, entry), policy)
      ensures Valid() ==>
        evictions == old(evictions) + |Drop(old(Contents()), {id})| + (if ok then 1 else 0) - |Contents()|
    {
      hide Consistent, Bytes, Drop, Shed, Room;
      if entry.bytes > policy.maxBytes {
        Remove(id);
        return false;
      }
      Remove(id);
      MakeRoom(entry.bytes, policy);
      PushEntry(id, entry);
      return true;
    }

    /** `insert_success`. Map and queue always agree afterwards. The byte counter stays exact, and the
        cache is then what the list operation makes of it, exactly when the sizes can be counted,
        which every limit below the machine maximum ensures. */
    method InsertSuccess(id: Identity, result: JudgmentResult, now: nat, policy: Policy) returns (ok: bool)
      requires Valid() && policy.maxBytes <= USIZE_MAX
      modifies this
      ensures Consistent(lru, entries)
      ensures Valid() <==> Counted(old(Contents()), id, result, now, policy)
      ensures Valid() ==> (Contents(), ok) == Insert(old(Contents()), id, result, now, policy)
      ensures policy.maxBytes < USIZE_MAX ==> Valid()
      // An entry that is no longer there has expired, was evicted, or had the same identity.
      ensures !Insertable(now, policy) ==> unchanged(this) && !ok
      ensures Insertable(now, policy) ==>
        var alive := Unexpired(Tighten(old(Contents()), policy.ttl), now);
        var others := Drop(Reconcile(old(Contents()), now, policy), {id});
        && expirations == old(expirations) + |old(Contents())| - |alive|
        && (Valid() ==>
              evictions - old(evictions)
              == (|alive| - |Reconcile(old(Contents()), now, policy)|) + (|others| + (if ok then 1 else 0) - |Contents()|))
    {
      hide Consistent, Bytes, Reconcile, Admit, EstimatedEntryBytes, Countable, Unexpired, Tighten, Drop;
      if !policy.Valid() {
        return false;
      }
      var expiresAt := CheckedAdd(now, policy.ttl);
      if expiresAt.None? {
        return false;
      }
      var _ := ReconcilePolicy(now, policy);
      var bytes := EstimatedEntryBytes(id, result);
      ghost var item := Item(id, Entry(result, now, expiresAt.value, bytes));
      if policy.maxBytes < USIZE_MAX {
        BelowMaximum(Contents(), item, policy);
      }
      ok := AdmitEntry(id, Entry(result, now, expiresAt.value, bytes), policy);
    }

    method Clear() returns (removed: nat)
      requires Valid()
      modifies this
      ensures Valid() && Contents() == [] && removed == |old(Contents())|
      ensures evictions == old(evictions) && expirations == old(expirations)
    {
      SameSize(lru, entries);
      removed := |entries|;
      entries, lru, estimatedBytes := map[], [], 0;
    }

    method Len(now: nat) returns (n: nat)
      requires Valid()
      modifies this
      ensures Valid() && Contents() == Unexpired(old(Contents()), now) && n == |Contents()|
    {
      PruneExpired(now);
      SameSize(lru, entries);
      n := |entries|;
    }
  }
}
