/** What the judgment cache does, stated on a single list: entries from least to most recently
    used. */
module CacheLog {
  import opened Text
  import opened Collections
  import opened Judgment

  /** The last instant the platform clock can represent; `checked_add` fails beyond it. */
  const LAST_INSTANT: nat := 0xFFFF_FFFF_FFFF_FFFF

  function CheckedAdd(at: nat, ttl: nat): Option<nat> {
    if at + ttl <= LAST_INSTANT then Some(at + ttl) else None
  }

  datatype Policy = Policy(maxEntries: nat, maxBytes: nat, ttl: nat) {
    predicate Valid() { maxEntries > 0 && maxBytes > 0 && ttl > 0 }
  }

  datatype Entry = Entry(result: JudgmentResult, insertedAt: nat, expiresAt: nat, bytes: nat)

  datatype Item = Item(id: Identity, entry: Entry)

  type Log = seq<Item>

  function Bytes(log: Log): nat {
    if log == [] then 0 else log[0].entry.bytes + Bytes(log[1..])
  }

  ghost predicate UniqueIds(log: Log) {
    forall i, j :: 0 <= i < j < |log| ==> log[i].id != log[j].id
  }

  predicate Holds(log: Log, id: Identity) {
    exists i :: 0 <= i < |log| && log[i].id == id
  }

  /** An entry never lives longer than the policy in force allows, and never regains time. */
  function TightenEntry(e: Entry, ttl: nat): Entry {
    match CheckedAdd(e.insertedAt, ttl)
    case None => e
    case Some(t) => if t < e.expiresAt then e.(expiresAt := t) else e
  }

  function Tighten(log: Log, ttl: nat): (r: Log)
    ensures |r| == |log|
  {
    seq(|log|, i requires 0 <= i < |log| => Item(log[i].id, TightenEntry(log[i].entry, ttl)))
  }

  /** The log without the entries of `ids`. */
  function Drop(log: Log, ids: set<Identity>): Log {
    if log == [] then []
    else if log[0].id in ids then Drop(log[1..], ids)
    else [log[0]] + Drop(log[1..], ids)
  }

  function Unexpired(log: Log, now: nat): Log {
    if log == [] then []
    else if now >= log[0].entry.expiresAt then Unexpired(log[1..], now)
    else [log[0]] + Unexpired(log[1..], now)
  }

  predicate Within(log: Log, maxEntries: nat, maxBytes: nat) {
    |log| <= maxEntries && Bytes(log) <= maxBytes
  }

  /** Evicts from the least recently used end until both limits hold. */
  function Shed(log: Log, maxEntries: nat, maxBytes: nat): Log {
    if Within(log, maxEntries, maxBytes) || log == [] then log else Shed(log[1..], maxEntries, maxBytes)
  }

  /** Evicts for a new entry of size `bytes` as the machine tests it: with a saturating sum. */
  function Room(log: Log, maxEntries: nat, maxBytes: nat, bytes: nat): Log {
    if (|log| < maxEntries && SaturatingAdd(Bytes(log), bytes) <= maxBytes) || log == [] then log
    else Room(log[1..], maxEntries, maxBytes, bytes)
  }

  function Reconcile(log: Log, now: nat, p: Policy): Log {
    if p.Valid() then Shed(Unexpired(Tighten(log, p.ttl), now), p.maxEntries, p.maxBytes) else log
  }

  predicate Insertable(now: nat, p: Policy) {
    p.Valid() && CheckedAdd(now, p.ttl).Some?
  }

  /** Admits an entry to a reconciled log: an oversized one only displaces its own identity. */
  function Admit(log: Log, item: Item, p: Policy): (Log, bool)
    requires p.Valid()
  {
    var others := Drop(log, {item.id});
    if item.entry.bytes > p.maxBytes then (others, false)
    else (Shed(others, p.maxEntries - 1, p.maxBytes - item.entry.bytes) + [item], true)
  }

  /** Inserting a result whose entry is estimated at `bytes`. */
  function InsertSized(log: Log, id: Identity, result: JudgmentResult, now: nat, p: Policy, bytes: nat): (Log, bool) {
    if Insertable(now, p) then Admit(Reconcile(log, now, p), Item(id, Entry(result, now, now + p.ttl, bytes)), p)
    else (log, false)
  }

  function Insert(log: Log, id: Identity, result: JudgmentResult, now: nat, p: Policy): (Log, bool) {
    InsertSized(log, id, result, now, p, EstimatedEntryBytes(id, result))
  }

  function Lookup(log: Log, id: Identity, now: nat): (Log, Option<JudgmentResult>) {
    if !Holds(log, id) then (log, None)
    else
      var entry := EntryOf(log, id);
      if now >= entry.expiresAt then (Drop(log, {id}), None)
      else (Drop(log, {id}) + [Item(id, entry)], Some(entry.result))
  }

  function EntryOf(log: Log, id: Identity): Entry
    requires Holds(log, id)
  {
    if log[0].id == id then log[0].entry
    else
      assert exists i :: 0 <= i < |log[1..]| && log[1..][i].id == id by {
        var i :| 0 <= i < |log| && log[i].id == id;
        assert log[1..][i - 1].id == id;
      }
      EntryOf(log[1..], id)
  }

  // ---- Size accounting

  function ChoicesLen(choices: seq<string>): nat {
    if choices == [] then 0
    else SaturatingAdd(ChoicesLen(choices[..|choices| - 1]), TextLen(choices[|choices| - 1]))
  }

  /** `estimated_entry_bytes`. */
  function EstimatedEntryBytes(id: Identity, result: JudgmentResult): nat {
    var text0 := SaturatingAdd(OptionLen(id.criterion), OptionLen(id.question));
    var text1 := SaturatingAdd(text0, ChoicesLen(id.choices));
    var text2 := SaturatingAdd(text1, TextLen(id.providerNamespace));
    var text3 := SaturatingAdd(text2, TextLen(id.endpoint));
    var text4 := SaturatingAdd(text3, TextLen(id.requestedModel));
    var textBytes := SaturatingAdd(text4, OptionLen(id.effectiveModel));
    var resultBytes := match result case NoulResult(_) => 8 case ChoiceResult(chosen) => TextLen(chosen);
    var total := SaturatingAdd(512, SaturatingMul(|id.canonicalBytes|, 6));
    SaturatingAdd(SaturatingAdd(total, SaturatingMul(textBytes, 6)), resultBytes)
  }

  /** What an entry takes without a machine limit: a fixed part, six bytes for every byte of the state and
      the texts of its identity, and the bytes of the result. */
  ghost function ExactEntryBytes(id: Identity, result: JudgmentResult): nat {
    512
    + 6 * (|id.canonicalBytes| + BytesOf(id.criterion) + BytesOf(id.question) + LabelBytes(id.choices)
           + BytesOf(Some(id.providerNamespace)) + BytesOf(Some(id.endpoint)) + BytesOf(Some(id.requestedModel))
           + BytesOf(id.effectiveModel))
    + (match result case NoulResult(_) => 8 case ChoiceResult(chosen) => BytesOf(Some(chosen)))
  }

  lemma {:induction false} ChoicesAreCapped(choices: seq<string>)
    ensures ChoicesLen(choices) == Capped(LabelBytes(choices))
  {
    if choices != [] {
      ChoicesAreCapped(choices[..|choices| - 1]);
    }
  }

  lemma LengthsAreBytes()
    ensures forall s :: OptionLen(s) == BytesOf(s)
    ensures forall s :: TextLen(s) == BytesOf(Some(s))
  {
  }

  /** The estimate is that sum, capped at the machine maximum. */
  lemma EntryBytesAreCapped(id: Identity, result: JudgmentResult)
    ensures EstimatedEntryBytes(id, result) == Capped(ExactEntryBytes(id, result))
  {
    ChoicesAreCapped(id.choices);
    LengthsAreBytes();
    hide TextLen, OptionLen, ChoicesLen, BytesOf, LabelBytes;
    var texts := BytesOf(id.criterion) + BytesOf(id.question) + LabelBytes(id.choices)
                 + BytesOf(Some(id.providerNamespace)) + BytesOf(Some(id.endpoint)) + BytesOf(Some(id.requestedModel))
                 + BytesOf(id.effectiveModel);
    var bytes := match result case NoulResult(_) => 8 case ChoiceResult(chosen) => BytesOf(Some(chosen));
    CapTimesSix(|id.canonicalBytes|);
    CapTimesSix(texts);
    assert SaturatingMul(Capped(texts), 6) == Capped(6 * texts);
    assert SaturatingAdd(512, Capped(6 * |id.canonicalBytes|)) == Capped(512 + 6 * |id.canonicalBytes|);
    assert ExactEntryBytes(id, result) == 512 + 6 * |id.canonicalBytes| + 6 * texts + bytes;
  }

  lemma CapTimesSix(n: nat)
    ensures SaturatingMul(Capped(n), 6) == Capped(6 * n) == SaturatingMul(n, 6)
  {
  }

  // ---- Laws of the list operations

  /** Evicting keeps exactly the longest suffix, by recency, that meets both limits. */
  lemma {:induction false} ShedIsLongestSuffix(log: Log, maxEntries: nat, maxBytes: nat)
    ensures var kept := Shed(log, maxEntries, maxBytes);
            && |kept| <= |log| && kept == log[|log| - |kept|..]
            && Within(kept, maxEntries, maxBytes)
            && forall k :: 0 <= k <= |log| && Within(log[k..], maxEntries, maxBytes) ==> |log| - |kept| <= k
  {
    if Within(log, maxEntries, maxBytes) || log == [] {
    } else {
      ShedIsLongestSuffix(log[1..], maxEntries, maxBytes);
      var kept := Shed(log, maxEntries, maxBytes);
      forall k | 0 <= k <= |log| && Within(log[k..], maxEntries, maxBytes)
        ensures |log| - |kept| <= k
      {
        assert log[0..] == log;
        assert log[1..][k - 1..] == log[k..];
      }
    }
  }

  /** Whether the byte counter can hold the sum once the entry is in: always below the machine
      maximum, and up to it as long as the sizes really add up to no more. */
  predicate Countable(log: Log, item: Item, p: Policy) {
    item.entry.bytes > p.maxBytes
    || Bytes(Room(Drop(log, {item.id}), p.maxEntries, p.maxBytes, item.entry.bytes)) + item.entry.bytes <= USIZE_MAX
  }

  /** Whether inserting a result keeps the counter exact. */
  predicate Counted(log: Log, id: Identity, result: JudgmentResult, now: nat, p: Policy) {
    Insertable(now, p) ==>
      Countable(Reconcile(log, now, p), Item(id, Entry(result, now, now + p.ttl, EstimatedEntryBytes(id, result))), p)
  }

  lemma BelowMaximum(log: Log, item: Item, p: Policy)
    requires p.Valid() && p.maxBytes < USIZE_MAX
    ensures Countable(log, item, p)
  {
    if item.entry.bytes <= p.maxBytes {
      RoomIsShed(Drop(log, {item.id}), p.maxEntries, p.maxBytes, item.entry.bytes);
    }
  }

  lemma {:induction false} RoomIsShed(log: Log, maxEntries: nat, maxBytes: nat, bytes: nat)
    requires maxEntries > 0 && bytes <= maxBytes <= USIZE_MAX
    ensures var kept := Room(log, maxEntries, maxBytes, bytes);
            && (maxBytes < USIZE_MAX ==> Bytes(kept) + bytes <= maxBytes)
            && (Bytes(kept) + bytes <= USIZE_MAX ==> kept == Shed(log, maxEntries - 1, maxBytes - bytes))
  {
    if log != [] && !(|log| < maxEntries && SaturatingAdd(Bytes(log), bytes) <= maxBytes) {
      RoomIsShed(log[1..], maxEntries, maxBytes, bytes);
    }
  }

  lemma {:induction false} DropMembers(log: Log, ids: set<Identity>, x: Item)
    ensures x in Drop(log, ids) <==> x in log && x.id !in ids
  {
    if log != [] {
      DropMembers(log[1..], ids, x);
      assert x in log <==> x == log[0] || x in log[1..];
    }
  }

  lemma {:induction false} DropNone(log: Log, ids: set<Identity>)
    requires forall x :: x in log ==> x.id !in ids
    ensures Drop(log, ids) == log
  {
    if log != [] {
      DropNone(log[1..], ids);
      assert log == [log[0]] + log[1..];
    }
  }

  lemma {:induction false} DropDrop(log: Log, a: set<Identity>, b: set<Identity>)
    ensures Drop(Drop(log, a), b) == Drop(log, a + b)
  {
    if log != [] {
      DropDrop(log[1..], a, b);
      if log[0].id !in a {
        assert Drop(log, a)[1..] == Drop(log[1..], a);
      }
    }
  }

  lemma {:induction false} BytesConcat(xs: Log, ys: Log)
    ensures Bytes(xs + ys) == Bytes(xs) + Bytes(ys)
  {
    if xs == [] {
      assert xs + ys == ys;
    } else {
      BytesConcat(xs[1..], ys);
      assert (xs + ys)[1..] == xs[1..] + ys;
    }
  }

  /** Dropping one identity of a duplicate-free log cuts out its one position. */
  lemma {:induction false} DropAt(log: Log, k: nat)
    requires UniqueIds(log) && k < |log|
    ensures Drop(log, {log[k].id}) == log[..k] + log[k + 1..]
    ensures Bytes(log) == Bytes(Drop(log, {log[k].id})) + log[k].entry.bytes
  {
    var tail := log[1..];
    if k == 0 {
      DropNone(tail, {log[0].id});
      assert log[..0] + log[1..] == tail;
    } else {
      DropAt(tail, k - 1);
      assert Drop(log, {log[k].id}) == [log[0]] + Drop(tail, {log[k].id});
      assert Drop(log, {log[k].id})[1..] == Drop(tail, {log[k].id});
      assert [log[0]] + (tail[..k - 1] + tail[k..]) == log[..k] + log[k + 1..];
    }
  }

  /** Expiry is a drop of the expired identities. */
  lemma {:induction false} UnexpiredIsDrop(log: Log, now: nat, ids: set<Identity>)
    requires forall x :: x in log ==> (x.id in ids <==> now >= x.entry.expiresAt)
    ensures Unexpired(log, now) == Drop(log, ids)
  {
    if log != [] {
      UnexpiredIsDrop(log[1..], now, ids);
    }
  }

  lemma {:induction false} UnexpiredMembers(log: Log, now: nat, x: Item)
    ensures x in Unexpired(log, now) <==> x in log && now < x.entry.expiresAt
  {
    if log != [] {
      UnexpiredMembers(log[1..], now, x);
      assert x in log <==> x == log[0] || x in log[1..];
    }
  }

  lemma {:induction false} EntryOfMember(log: Log, id: Identity)
    requires Holds(log, id)
    ensures Item(id, EntryOf(log, id)) in log
  {
    if log[0].id != id {
      var i :| 0 <= i < |log| && log[i].id == id;
      assert log[1..][i - 1].id == id;
      EntryOfMember(log[1..], id);
    }
  }

  lemma EntryOfUnique(log: Log, k: nat)
    requires UniqueIds(log) && k < |log|
    ensures Holds(log, log[k].id) && EntryOf(log, log[k].id) == log[k].entry
  {
    EntryOfMember(log, log[k].id);
    var j :| 0 <= j < |log| && log[j] == Item(log[k].id, EntryOf(log, log[k].id));
    assert j == k;
  }
}
