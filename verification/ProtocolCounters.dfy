/** Conservation laws of the query counters, at every state of every run. */
module ProtocolCounters {
  import opened Text
  import opened Judgment
  import opened Histogram
  import opened Host
  import opened Protocol
  import opened ProtocolInv

  /** The entries of a query, and those of them with a given fate. */
  ghost function Cells(meta: seq<Meta>, q: nat): set<nat> {
    set e: nat | e < |meta| && meta[e].query == q
  }

  ghost function Fated(meta: seq<Meta>, q: nat, fate: Fate): set<nat> {
    set e: nat | e < |meta| && meta[e].query == q && meta[e].fate == fate
  }

  /** Groups of recorded chunks of the query that are still to be claimed. */
  function Pending(w: Worker): int {
    if w.pc.Arriving? || w.pc.Recording? then 0 else |w.groups| - w.next
  }

  function Unclaimed(workers: seq<Worker>, q: nat): int {
    if workers == [] then 0
    else
      var w := workers[|workers| - 1];
      Unclaimed(workers[..|workers| - 1], q) + (if w.scope == q then Pending(w) else 0)
  }

  // ---- Sums

  lemma {:induction false} UnclaimedUpdate(workers: seq<Worker>, i: nat, w: Worker, q: nat)
    requires i < |workers| && w.scope == workers[i].scope
    ensures Unclaimed(workers[i := w], q)
         == Unclaimed(workers, q) + (if w.scope == q then Pending(w) - Pending(workers[i]) else 0)
  {
    var n := |workers| - 1;
    if i < n {
      UnclaimedUpdate(workers[..n], i, w, q);
      assert workers[i := w][..n] == workers[..n][i := w];
    } else {
      assert workers[i := w][..n] == workers[..n];
    }
  }

  lemma {:induction false} UnclaimedNone(workers: seq<Worker>, q: nat)
    requires forall j :: 0 <= j < |workers| ==> workers[j].scope != q
    ensures Unclaimed(workers, q) == 0
  {
    if workers != [] {
      UnclaimedNone(workers[..|workers| - 1], q);
    }
  }

  lemma {:induction false} BoundedSet(b: set<nat>, n: nat)
    requires forall e :: e in b ==> e < n
    ensures |b| <= n
  {
    if n > 0 {
      BoundedSet(b - {n - 1}, n - 1);
      assert b <= (b - {n - 1}) + {n - 1};
    } else {
      assert b == {};
    }
  }

  // ---- The invariant

  ghost predicate Balanced(q: nat, c: Counts, entries: map<Identity, nat>, meta: seq<Meta>, workers: seq<Worker>) {
    && |entries| == c.uniqueJudgments == |Cells(meta, q)|
    && c.cacheHits == |Fated(meta, q, FromCache)|
    && KeysBelow(c.histogram, |meta| + 1)
    && Judged(c.histogram, |meta| + 1) == |Fated(meta, q, SentExternal)|
    && Requests(c.histogram, |meta| + 1) == c.externalRequests
    && c.validRows == c.uniqueJudgments + c.deduplicatedRows + Unclaimed(workers, q)
  }

  ghost predicate CountersOk(W: World) {
    W.h.active.Some? ==>
      Balanced(W.h.active.value.id, W.h.active.value.counts, W.h.entries, W.meta, W.workers)
  }

  /** The counts the balance is about. */
  predicate SameTally(c: Counts, c': Counts) {
    && c'.uniqueJudgments == c.uniqueJudgments && c'.cacheHits == c.cacheHits && c'.histogram == c.histogram
    && c'.externalRequests == c.externalRequests && c'.validRows == c.validRows
    && c'.deduplicatedRows == c.deduplicatedRows
  }

  /** A step that claims nothing, looks nothing up and calls nobody. */
  ghost predicate Quiet(W: World, i: nat, W': World)
    requires i < |W.workers|
  {
    && W'.meta == W.meta && W'.h.entries == W.h.entries
    && |W'.workers| == |W.workers| && W'.workers == W.workers[i := W'.workers[i]]
    && W'.workers[i].external == W.workers[i].external
    && W'.workers[i].scope == W.workers[i].scope && Pending(W'.workers[i]) == Pending(W.workers[i])
    && W'.h.active.Some? == W.h.active.Some?
    && (W.h.active.Some? ==>
          W'.h.active.value.id == W.h.active.value.id
          && SameTally(W.h.active.value.counts, W'.h.active.value.counts))
  }

  lemma QuietKeeps(W: World, i: nat, W': World)
    requires CountersOk(W) && i < |W.workers| && Quiet(W, i, W')
    ensures CountersOk(W')
  {
    hide Pending, Unclaimed, Judged, Requests, Cells, Fated;
    if W.h.active.Some? {
      UnclaimedUpdate(W.workers, i, W'.workers[i], W.h.active.value.id);
    }
  }

  lemma ArrivingIsQuiet(W: World, i: nat)
    requires i < |W.workers| && W.workers[i].pc.Arriving?
    ensures Quiet(W, i, StepArriving(W, i))
  {
  }

  lemma GateIsQuiet(W: World, i: nat)
    requires i < |W.workers| && W.workers[i].pc.Claiming?
    ensures Quiet(W, i, StepGate(W, i))
  {
  }

  lemma ClaimedIsQuiet(W: World, i: nat)
    requires i < |W.workers| && W.workers[i].pc.Claimed?
    ensures Quiet(W, i, StepClaimed(W, i))
  {
    hide IsActive;
  }

  lemma HitIsQuiet(W: World, i: nat)
    requires i < |W.workers| && W.workers[i].pc.HitRecorded?
    ensures Quiet(W, i, StepHit(W, i))
  {
  }

  lemma PlanningIsQuiet(W: World, i: nat, choice: Choice)
    requires i < |W.workers| && W.workers[i].pc.Planning? && Allowed(W, i, choice)
    ensures Quiet(W, i, StepPlanning(W, i, choice))
  {
    hide AllFail;
  }

  lemma AcquiringIsQuiet(W: World, i: nat)
    requires i < |W.workers| && W.workers[i].pc.Acquiring?
    ensures Quiet(W, i, StepAcquiring(W, i))
  {
    hide AllFail, Acquire;
  }

  lemma CallingIsQuiet(W: World, i: nat, choice: Choice)
    requires i < |W.workers| && W.workers[i].pc.Calling? && Allowed(W, i, choice)
    ensures Quiet(W, i, StepCalling(W, i, choice))
  {
  }

  lemma ReturnedIsQuiet(W: World, i: nat)
    requires i < |W.workers| && W.workers[i].pc.Returned?
    ensures Quiet(W, i, StepReturned(W, i))
  {
    hide AllFail, AllAnswered, Release;
  }

  lemma FailingIsQuiet(W: World, i: nat)
    requires i < |W.workers| && W.workers[i].pc.Failing?
    ensures Quiet(W, i, StepFailing(W, i))
  {
    hide AllFail;
  }

  lemma FailingUsageIsQuiet(W: World, i: nat)
    requires i < |W.workers| && W.workers[i].pc.FailingUsage?
    ensures Quiet(W, i, StepFailingUsage(W, i))
  {
    hide AllFail;
  }

  lemma SettlingIsQuiet(W: World, i: nat, choice: Choice)
    requires i < |W.workers| && W.workers[i].pc.Settling? && Allowed(W, i, choice)
    ensures Quiet(W, i, StepSettling(W, i, choice))
  {
  }

  lemma WaitingIsQuiet(W: World, i: nat)
    requires i < |W.workers| && W.workers[i].pc.Waiting? && Ready(W, i)
    ensures Quiet(W, i, StepWaiting(W, i))
  {
  }

  // ---- The steps that count

  lemma RecordingBalances(W: World, i: nat, choice: Choice)
    requires Inv(W) && CountersOk(W) && i < |W.workers| && W.workers[i].pc.Recording?
    ensures CountersOk(StepRecording(W, i, choice))
  {
    hide Inv, Unclaimed, Judged, Requests, Cells, Fated, KeysBelow;
    var w, w' := W.workers[i], StepRecording(W, i, choice).workers[i];
    RecordedShape(W, i);
    if W.h.active.Some? {
      UnclaimedUpdate(W.workers, i, w', W.h.active.value.id);
      assert SaturatingSub(w.validRows, |w.groups|) == w.validRows - |w.groups|;
    }
  }

  lemma RecordedShape(W: World, i: nat)
    requires Inv(W) && i < |W.workers| && W.workers[i].pc.Recording?
    ensures W.workers[i].next == 0 && |W.workers[i].groups| <= W.workers[i].validRows
  {
    assert WorkerOk(W.h, W.meta, W.workers[i], i);
  }

  /** The balance after an entry of query `scope` is added. */
  lemma GrownSets(meta: seq<Meta>, m: Meta, q: nat, fate: Fate)
    ensures Cells(meta + [m], q) == Cells(meta, q) + (if m.query == q then {|meta|} else {})
    ensures Fated(meta + [m], q, fate) == Fated(meta, q, fate) + (if m.query == q && m.fate == fate then {|meta|} else {})
  {
    assert forall e: nat :: e < |meta| ==> (meta + [m])[e] == meta[e];
  }

  lemma GrownSizes(meta: seq<Meta>, m: Meta, q: nat, fate: Fate)
    ensures |Cells(meta + [m], q)| == |Cells(meta, q)| + (if m.query == q then 1 else 0)
    ensures |Fated(meta + [m], q, fate)| == |Fated(meta, q, fate)| + (if m.query == q && m.fate == fate then 1 else 0)
  {
    GrownSets(meta, m, q, fate);
    assert |meta| !in Cells(meta, q) && |meta| !in Fated(meta, q, fate);
  }

  lemma ClaimCounts(h: State, scope: nat, id: Identity)
    ensures var h', c := AfterClaim(h, scope, id), Now(h);
            match ClaimResult(h, scope, id)
            case NotActive => h' == h
            case Follows(_) =>
              IsActive(h, scope) && h'.entries == h.entries
              && h'.active == Some(ActiveQuery(scope, c.(deduplicatedRows := c.deduplicatedRows + 1)))
            case Leads(_) =>
              IsActive(h, scope) && id !in h.entries && h'.entries.Keys == h.entries.Keys + {id}
              && h'.active == Some(ActiveQuery(scope, c.(uniqueJudgments := c.uniqueJudgments + 1)))
  {
  }

  lemma FollowBalances(q: nat, c: Counts, entries: map<Identity, nat>, meta: seq<Meta>, workers: seq<Worker>, i: nat,
                       w: Worker)
    requires Balanced(q, c, entries, meta, workers) && i < |workers| && w.scope == workers[i].scope == q
    requires Pending(w) == Pending(workers[i]) - 1
    ensures Balanced(q, c.(deduplicatedRows := c.deduplicatedRows + 1), entries, meta, workers[i := w])
  {
    hide Pending, Unclaimed, Judged, Requests, Cells, Fated, KeysBelow;
    UnclaimedUpdate(workers, i, w, q);
  }

  lemma LeadBalances(q: nat, c: Counts, entries: map<Identity, nat>, meta: seq<Meta>, workers: seq<Worker>, i: nat,
                     w: Worker, id: Identity, entries': map<Identity, nat>)
    requires Balanced(q, c, entries, meta, workers) && i < |workers| && w.scope == workers[i].scope == q
    requires Pending(w) == Pending(workers[i]) - 1 && id !in entries && entries'.Keys == entries.Keys + {id}
    ensures Balanced(q, c.(uniqueJudgments := c.uniqueJudgments + 1), entries', meta + [Meta(q, id, i, Led)],
                     workers[i := w])
  {
    hide Pending, Unclaimed, Judged, Requests, Cells, Fated;
    UnclaimedUpdate(workers, i, w, q);
    GrownSizes(meta, Meta(q, id, i, Led), q, FromCache);
    GrownSizes(meta, Meta(q, id, i, Led), q, SentExternal);
    SumsSettle(c.histogram, |meta| + 1, |meta| + 2);
    assert |entries'.Keys| == |entries.Keys| + 1;
  }

  lemma ClaimingBalances(W: World, i: nat)
    requires Inv(W) && CountersOk(W) && i < |W.workers| && W.workers[i].pc.Claiming?
    requires W.workers[i].next < |W.workers[i].groups|
    ensures CountersOk(StepClaiming(W, i))
  {
    hide Inv, Balanced, AfterClaim, ClaimResult;
    var w, W' := W.workers[i], StepClaiming(W, i);
    var id := w.groups[w.next];
    ClaimCounts(W.h, w.scope, id);
    if W.h.active.Some? {
      var q, c := W.h.active.value.id, W.h.active.value.counts;
      match ClaimResult(W.h, w.scope, id)
      case NotActive => SameWork(q, c, W.h.entries, W.meta, W.workers, i, W'.workers[i]);
      case Follows(_) => FollowBalances(q, c, W.h.entries, W.meta, W.workers, i, W'.workers[i]);
      case Leads(_) => LeadBalances(q, c, W.h.entries, W.meta, W.workers, i, W'.workers[i], id, W'.h.entries);
    }
  }

  /** Giving a fate to entries of one query whose fate was open. */
  lemma RefatedCells(meta: seq<Meta>, S: set<nat>, fate: Fate, q: nat)
    ensures Cells(WithFate(meta, S, fate), q) == Cells(meta, q)
  {
    hide WithFate;
    assert forall e: nat :: e < |meta| ==> WithFate(meta, S, fate)[e].query == meta[e].query;
  }

  lemma RefatedIn(meta: seq<Meta>, S: set<nat>, s: nat, fate: Fate, q: nat, f: Fate, e: nat)
    requires fate != Led && f != Led && e < |meta|
    requires e in S ==> meta[e].query == s && meta[e].fate == Led
    ensures e in Fated(WithFate(meta, S, fate), q, f) <==> e in Fated(meta, q, f) || (q == s && f == fate && e in S)
    ensures e in Fated(meta, q, f) ==> e !in S
  {
    hide WithFate;
  }

  lemma DisjointSize<T>(a: set<T>, b: set<T>)
    requires a !! b
    ensures |a + b| == |a| + |b|
  {
  }

  lemma RefatedSets(meta: seq<Meta>, S: set<nat>, s: nat, fate: Fate, q: nat, f: Fate)
    requires fate != Led && f != Led
    requires forall e :: e in S ==> e < |meta| && meta[e].query == s && meta[e].fate == Led
    ensures Cells(WithFate(meta, S, fate), q) == Cells(meta, q)
    ensures |Fated(WithFate(meta, S, fate), q, f)| == |Fated(meta, q, f)| + (if q == s && f == fate then |S| else 0)
  {
    RefatedCells(meta, S, fate, q);
    var more := if q == s && f == fate then S else {};
    var before, after := Fated(meta, q, f), Fated(WithFate(meta, S, fate), q, f);
    forall e: nat
      ensures e in after <==> e in before || e in more
      ensures e in before ==> e !in more
    {
      if e < |meta| {
        RefatedIn(meta, S, s, fate, q, f, e);
      }
    }
    hide Fated, WithFate;
    assert after == before + more;
    DisjointSize(before, more);
  }

  lemma FreshIsOpen(W: World, i: nat)
    requires Inv(W) && i < |W.workers|
    ensures forall e :: e in Fresh(W.workers[i]) ==>
      e < |W.meta| && W.meta[e].query == W.workers[i].scope && W.meta[e].fate == Led
  {
    assert WorkerOk(W.h, W.meta, W.workers[i], i);
    OwedParts(W.workers[i]);
  }

  /** The balance after entries of query `s` got their fate and the counts of `q` moved along. */
  lemma RefatedBalance(q: nat, c: Counts, entries: map<Identity, nat>, meta: seq<Meta>, workers: seq<Worker>,
                       S: set<nat>, s: nat, fate: Fate, c': Counts)
    requires Balanced(q, c, entries, meta, workers) && fate != Led
    requires forall e :: e in S ==> e < |meta| && meta[e].query == s && meta[e].fate == Led
    requires c'.uniqueJudgments == c.uniqueJudgments && c'.validRows == c.validRows
    requires c'.deduplicatedRows == c.deduplicatedRows
    requires c'.cacheHits == c.cacheHits + (if q == s && fate == FromCache then |S| else 0)
    requires if q == s && fate == SentExternal
             then c'.histogram == HistogramAdd(c.histogram, |S|) && c'.externalRequests == c.externalRequests + 1
             else c'.histogram == c.histogram && c'.externalRequests == c.externalRequests
    ensures Balanced(q, c', entries, WithFate(meta, S, fate), workers)
  {
    hide Unclaimed, Judged, Requests, Cells, Fated, WithFate, HistogramAdd, KeysBelow;
    RefatedSets(meta, S, s, fate, q, FromCache);
    RefatedSets(meta, S, s, fate, q, SentExternal);
    BoundedSet(S, |meta|);
    SumsAdd(c.histogram, |S|, |meta| + 1);
    HistogramKeys(c.histogram, |S|, |meta| + 1);
  }

  lemma SameWork(q: nat, c: Counts, entries: map<Identity, nat>, meta: seq<Meta>, workers: seq<Worker>, i: nat, w: Worker)
    requires Balanced(q, c, entries, meta, workers) && i < |workers|
    requires w.scope == workers[i].scope && Pending(w) == Pending(workers[i])
    ensures Balanced(q, c, entries, meta, workers[i := w])
  {
    hide Pending, Unclaimed, Judged, Requests, Cells, Fated, KeysBelow;
    UnclaimedUpdate(workers, i, w, q);
  }

  lemma LookingBalances(W: World, i: nat, choice: Choice)
    requires Inv(W) && CountersOk(W) && i < |W.workers| && W.workers[i].pc.Looking?
    ensures CountersOk(StepLooking(W, i, choice))
  {
    hide Inv, Balanced, AllFail, WithFate;
    var w, W' := W.workers[i], StepLooking(W, i, choice);
    FreshIsOpen(W, i);
    assert w.pc.entry in Fresh(w);
    if W.h.active.Some? {
      var q, c := W.h.active.value.id, W.h.active.value.counts;
      SameWork(q, c, W.h.entries, W.meta, W.workers, i, W'.workers[i]);
      if w.policyOk && choice.Finds? {
        RefatedBalance(q, c, W.h.entries, W.meta, W'.workers, {w.pc.entry}, w.scope, FromCache, Now(W'.h));
      }
    }
  }

  lemma GrantedBalances(W: World, i: nat)
    requires Inv(W) && CountersOk(W) && i < |W.workers| && W.workers[i].pc.Granted?
    ensures CountersOk(StepGranted(W, i))
  {
    hide Inv, Balanced, WithFate, HistogramAdd;
    var w, W' := W.workers[i], StepGranted(W, i);
    var b := w.pc.batch;
    FreshIsOpen(W, i);
    assert b <= Fresh(w);
    if W.h.active.Some? {
      var q, c := W.h.active.value.id, W.h.active.value.counts;
      var fate := if w.external then SentExternal else SentLocal;
      SameWork(q, c, W.h.entries, W.meta, W.workers, i, W'.workers[i]);
      RefatedBalance(q, c, W.h.entries, W.meta, W'.workers, b, w.scope, fate, Now(W'.h));
    }
  }

  // ---- Every step, every run

  /** The steps that claim, look up or call. */
  predicate Counting(w: Worker, choice: Choice) {
    w.pc.Recording? || (w.pc.Claiming? && !choice.GateFails?) || w.pc.Looking? || w.pc.Granted?
  }

  lemma OthersAreQuiet(W: World, i: nat, choice: Choice)
    requires i < |W.workers| && Allowed(W, i, choice) && !Counting(W.workers[i], choice)
    ensures Quiet(W, i, WorkerStep(W, i, choice))
  {
    hide Quiet, StepArriving, StepRecording, StepClaiming, StepGate, StepClaimed, StepLooking, StepHit, StepPlanning,
         StepAcquiring, StepGranted, StepCalling, StepReturned, StepFailing, StepFailingUsage, StepSettling,
         StepWaiting;
    match W.workers[i].pc
    case Arriving => ArrivingIsQuiet(W, i);
    case Claiming => GateIsQuiet(W, i);
    case Claimed(_, _) => ClaimedIsQuiet(W, i);
    case HitRecorded(_, _) => HitIsQuiet(W, i);
    case Planning => PlanningIsQuiet(W, i, choice);
    case Acquiring(_) => AcquiringIsQuiet(W, i);
    case Calling(_) => CallingIsQuiet(W, i, choice);
    case Returned(_, _, _) => ReturnedIsQuiet(W, i);
    case Failing(_, _) => FailingIsQuiet(W, i);
    case FailingUsage(_) => FailingUsageIsQuiet(W, i);
    case Settling(_, _) => SettlingIsQuiet(W, i, choice);
    case Waiting(_) => WaitingIsQuiet(W, i);
    case _ =>
  }

  lemma WorkBalances(W: World, i: nat, choice: Choice)
    requires Inv(W) && CountersOk(W) && i < |W.workers| && Allowed(W, i, choice)
    ensures CountersOk(WorkerStep(W, i, choice))
  {
    hide Inv, CountersOk, Quiet, StepArriving, StepRecording, StepClaiming, StepGate, StepClaimed, StepLooking,
         StepHit, StepPlanning, StepAcquiring, StepGranted, StepCalling, StepReturned, StepFailing, StepFailingUsage,
         StepSettling, StepWaiting;
    if Counting(W.workers[i], choice) {
      match W.workers[i].pc
      case Recording => RecordingBalances(W, i, choice);
      case Claiming => ClaimingBalances(W, i);
      case Looking(_) => LookingBalances(W, i, choice);
      case _ => GrantedBalances(W, i);
    } else {
      OthersAreQuiet(W, i, choice);
      QuietKeeps(W, i, WorkerStep(W, i, choice));
    }
  }

  lemma BeginBalances(W: World)
    requires Inv(W)
    ensures CountersOk(W.(h := Begin(W.h)))
  {
    var q := W.h.nextQuery;
    forall j | 0 <= j < |W.workers| ensures W.workers[j].scope != q {
      assert WorkerOk(W.h, W.meta, W.workers[j], j);
    }
    UnclaimedNone(W.workers, q);
    assert Cells(W.meta, q) == {} && Fated(W.meta, q, FromCache) == {} && Fated(W.meta, q, SentExternal) == {};
    SumsSettle(map[], 0, |W.meta| + 1);
  }

  lemma SpawnBalances(W: World, w: Worker)
    requires CountersOk(W) && Newcomer(W, w)
    ensures CountersOk(W.(workers := W.workers + [w]))
  {
    assert (W.workers + [w])[..|W.workers + [w]| - 1] == W.workers;
  }

  lemma StepBalances(W: World, a: Action)
    requires Inv(W) && CountersOk(W) && Possible(W, a)
    ensures CountersOk(Step(W, a))
  {
    hide Inv, WorkerStep, Balanced, Begin;
    match a
    case BeginQuery => BeginBalances(W);
    case EndQuery(outcome) =>
    case Spawn(w) => SpawnBalances(W, w);
    case Work(i, choice) => WorkBalances(W, i, choice);
  }

  lemma {:induction false} ReachableBalanced(actions: seq<Action>)
    requires Exec(actions).Some?
    ensures CountersOk(Exec(actions).value)
  {
    if actions != [] {
      var init := actions[..|actions| - 1];
      ReachableBalanced(init);
      ReachableInv(init);
      StepBalances(Exec(init).value, actions[|actions| - 1]);
    }
  }

  /** Only a worker with a local provider makes calls that are not external requests. */
  ghost predicate LocalOk(W: World) {
    forall e :: 0 <= e < |W.meta| && W.meta[e].fate == SentLocal ==>
      W.meta[e].owner < |W.workers| && !W.workers[W.meta[e].owner].external
  }

  /** What a step does to fates and to the kind of provider. */
  ghost predicate FatesFollow(W: World, W': World) {
    && |W.meta| <= |W'.meta| && |W.workers| <= |W'.workers|
    && (forall j :: 0 <= j < |W.workers| ==> W'.workers[j].external == W.workers[j].external)
    && (forall e :: 0 <= e < |W'.meta| && W'.meta[e].fate == SentLocal ==> e < |W.meta|)
    && (forall e :: 0 <= e < |W.meta| ==> W'.meta[e].owner == W.meta[e].owner)
    && (forall e :: 0 <= e < |W.meta| && W'.meta[e].fate == SentLocal && W.meta[e].fate != SentLocal ==>
          W.meta[e].owner < |W.workers| && !W.workers[W.meta[e].owner].external)
  }

  lemma QuietFates(W: World, i: nat, W': World)
    requires i < |W.workers| && Quiet(W, i, W')
    ensures FatesFollow(W, W')
  {
    hide Pending;
  }

  lemma CountingFates(W: World, i: nat, choice: Choice)
    requires Inv(W) && i < |W.workers| && Allowed(W, i, choice) && Counting(W.workers[i], choice)
    requires !W.workers[i].pc.Granted?
    ensures FatesFollow(W, WorkerStep(W, i, choice))
  {
    hide Inv, Record, CacheHit, OptimizedRows, AfterClaim, AllFail, WithFate;
  }

  lemma GrantedFates(W: World, i: nat)
    requires Inv(W) && i < |W.workers| && W.workers[i].pc.Granted?
    ensures FatesFollow(W, StepGranted(W, i))
  {
    hide Inv, HostOk, Record, Attempt, WithFate, OneEntry;
    var w, W' := W.workers[i], StepGranted(W, i);
    BatchOwned(W, i, w.pc.batch);
    assert W'.workers == W.workers[i := w.(pc := Calling(w.pc.batch))];
    assert forall e :: 0 <= e < |W.meta| && W'.meta[e].fate != W.meta[e].fate ==> e in w.pc.batch && W.meta[e].owner == i;
  }

  lemma BatchOwned(W: World, i: nat, b: set<nat>)
    requires Inv(W) && i < |W.workers| && W.workers[i].pc == Granted(b)
    ensures forall e :: e in b ==> e < |W.meta| && W.meta[e].owner == i
    ensures forall e :: 0 <= e < |W.meta| && W.meta[e].fate == SentLocal ==> e !in b
  {
    hide HostOk, OneEntry, OwnersOk;
    FreshIsOpen(W, i);
    OwedFacts(W.h, W.meta, W.workers[i], i);
    assert b <= Owed(W.workers[i]) && b <= Fresh(W.workers[i]);
  }

  lemma LocalKeeps(W: World, a: Action)
    requires Inv(W) && Possible(W, a)
    ensures FatesFollow(W, Step(W, a))
  {
    hide Inv, WorkerStep, StepGranted, FatesFollow, Quiet, Begin, End;
    match a
    case Work(i, choice) =>
      if !Counting(W.workers[i], choice) {
        OthersAreQuiet(W, i, choice);
        QuietFates(W, i, WorkerStep(W, i, choice));
      } else if W.workers[i].pc.Granted? {
        GrantedFates(W, i);
        GrantedIs(W, i, choice);
      } else {
        CountingFates(W, i, choice);
      }
    case _ => LifecycleFates(W, a);
  }

  lemma GrantedIs(W: World, i: nat, choice: Choice)
    requires i < |W.workers| && Allowed(W, i, choice) && W.workers[i].pc.Granted?
    ensures WorkerStep(W, i, choice) == StepGranted(W, i)
  {
    hide StepGranted;
  }

  lemma LifecycleFates(W: World, a: Action)
    requires Possible(W, a) && !a.Work?
    ensures FatesFollow(W, Step(W, a))
  {
    hide Begin, End;
  }

  lemma {:induction false} ReachableLocal(actions: seq<Action>)
    requires Exec(actions).Some?
    ensures LocalOk(Exec(actions).value)
  {
    hide Step, Possible;
    if actions != [] {
      var init := actions[..|actions| - 1];
      ReachableLocal(init);
      ReachableInv(init);
      LocalKeeps(Exec(init).value, actions[|actions| - 1]);
    }
  }

  lemma FatesPartition(meta: seq<Meta>, q: nat)
    ensures |Cells(meta, q)| == |Fated(meta, q, Led)| + |Fated(meta, q, FromCache)|
                              + |Fated(meta, q, SentExternal)| + |Fated(meta, q, SentLocal)|
  {
    var led, hit := Fated(meta, q, Led), Fated(meta, q, FromCache);
    var sent, locally := Fated(meta, q, SentExternal), Fated(meta, q, SentLocal);
    assert led !! hit && (led + hit) !! sent && (led + hit + sent) !! locally;
    assert Cells(meta, q) == led + hit + sent + locally;
  }

  /** At every state of an active query: every valid row is a unique judgment, a deduplicated row or
      a group recorded but not yet claimed, and the unique judgments are the query's entries. */
  lemma RowsConserved(actions: seq<Action>)
    requires Exec(actions).Some? && Exec(actions).value.h.active.Some?
    ensures var W := Exec(actions).value;
            var q, c := W.h.active.value.id, W.h.active.value.counts;
            && c.validRows == c.uniqueJudgments + c.deduplicatedRows + Unclaimed(W.workers, q)
            && c.uniqueJudgments == |W.h.entries| == |Cells(W.meta, q)|
  {
    ReachableBalanced(actions);
  }

  lemma NoLocalCalls(W: World, q: nat)
    requires Inv(W) && LocalOk(W)
    requires forall j :: 0 <= j < |W.workers| && W.workers[j].scope == q ==> W.workers[j].external
    ensures Fated(W.meta, q, SentLocal) == {}
  {
    forall e | 0 <= e < |W.meta| && W.meta[e].query == q
      ensures W.meta[e].fate != SentLocal
    {
      var j := W.meta[e].owner;
      assert j < |W.workers|;
      assert WorkerOk(W.h, W.meta, W.workers[j], j);
    }
  }

  /** With an external provider the unique judgments split into cache hits, the judgments carried by
      requests and those never attempted; the requests are those in the histogram. */
  lemma JudgmentsConserved(actions: seq<Action>, n: nat)
    requires Exec(actions).Some? && Exec(actions).value.h.active.Some?
    requires KeysBelow(Exec(actions).value.h.active.value.counts.histogram, n)
    requires var W := Exec(actions).value;
             forall j :: 0 <= j < |W.workers| && W.workers[j].scope == W.h.active.value.id ==> W.workers[j].external
    ensures var W := Exec(actions).value;
            var q, c := W.h.active.value.id, W.h.active.value.counts;
            && c.uniqueJudgments == c.cacheHits + Judged(c.histogram, n) + |Fated(W.meta, q, Led)|
            && c.externalRequests == Requests(c.histogram, n)
  {
    ReachableBalanced(actions);
    ReachableLocal(actions);
    ReachableInv(actions);
    hide Exec, Inv, Cells, Fated, LocalOk, Unclaimed;
    var W := Exec(actions).value;
    var q, c := W.h.active.value.id, W.h.active.value.counts;
    FatesPartition(W.meta, q);
    if n <= |W.meta| + 1 {
      SumsSettle(c.histogram, n, |W.meta| + 1);
    } else {
      SumsSettle(c.histogram, |W.meta| + 1, n);
    }
    NoLocalCalls(W, q);
  }
}
