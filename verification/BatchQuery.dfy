/** `execute_batch_groups` as a whole: the claim loop, the partitions in turn, the followers. */
module BatchQuery {
  import opened Text
  import opened Collections
  import opened Judgment
  import opened Errors
  import opened ProviderProtocol
  import opened Grouping
  import opened Batching
  import opened WorkerRuntime
  import opened Executor
  import opened Planning
  import opened BatchExecutor
  import CacheLog

  // ---- Order does not matter to a collection of targets

  function Upto(n: nat): (r: seq<nat>)
    ensures |r| == n && forall i :: 0 <= i < n ==> r[i] == i
  {
    seq(n, i => i)
  }

  lemma UptoSnoc(n: nat)
    ensures Upto(n + 1) == Upto(n) + [n]
  {
  }

  lemma MultisetInRange(xs: seq<nat>, ys: seq<nat>, n: nat)
    requires multiset(xs) == multiset(ys) && InRange(xs, n)
    ensures InRange(ys, n) && |xs| == |ys|
  {
    assert |xs| == |multiset(xs)| == |multiset(ys)| == |ys|;
    forall k | 0 <= k < |ys|
      ensures ys[k] < n
    {
      assert ys[k] in multiset(xs);
    }
  }

  function Without(ys: seq<nat>, k: nat): seq<nat>
    requires k < |ys|
  {
    ys[..k] + ys[k + 1..]
  }

  lemma WithoutMultiset(ys: seq<nat>, k: nat)
    requires k < |ys|
    ensures multiset(ys) == multiset(Without(ys, k)) + multiset{ys[k]}
  {
    assert ys == ys[..k] + [ys[k]] + ys[k + 1..];
  }

  lemma WithoutTargets(groups: seq<Group>, ys: seq<nat>, k: nat)
    requires InRange(ys, |groups|) && k < |ys|
    ensures InRange(Without(ys, k), |groups|)
    ensures multiset(TargetsAt(groups, ys))
         == multiset(TargetsAt(groups, Without(ys, k))) + multiset(groups[ys[k]].targets)
  {
    hide TargetsAt;
    var before, x, after := ys[..k], ys[k], ys[k + 1..];
    assert ys == before + ([x] + after) && Without(ys, k) == before + after;
    SplitTargets(groups, before, x, after);
  }

  lemma SplitTargets(groups: seq<Group>, before: seq<nat>, x: nat, after: seq<nat>)
    requires InRange(before, |groups|) && x < |groups| && InRange(after, |groups|)
    ensures multiset(TargetsAt(groups, before + ([x] + after)))
         == multiset(TargetsAt(groups, before + after)) + multiset(groups[x].targets)
  {
    hide TargetsAt;
    TargetsAtConcat(groups, before, [x] + after);
    TargetsAtConcat(groups, [x], after);
    TargetsAtConcat(groups, before, after);
    TargetsAtOne(groups, x);
    MovedToEnd(TargetsAt(groups, before), groups[x].targets, TargetsAt(groups, after));
  }

  lemma MovedToEnd<T>(a: seq<T>, b: seq<T>, c: seq<T>)
    ensures multiset(a + (b + c)) == multiset(a + c) + multiset(b)
  {
  }

  lemma TargetsAtOne(groups: seq<Group>, x: nat)
    requires x < |groups|
    ensures TargetsAt(groups, [x]) == groups[x].targets
  {
    assert [x][..0] == [];
  }

  lemma {:induction false} TargetsPermute(groups: seq<Group>, xs: seq<nat>, ys: seq<nat>)
    requires InRange(xs, |groups|) && InRange(ys, |groups|) && multiset(xs) == multiset(ys)
    ensures multiset(TargetsAt(groups, xs)) == multiset(TargetsAt(groups, ys))
    decreases |xs|
  {
    hide TargetsAt, Without;
    MultisetInRange(xs, ys, |groups|);
    if xs == [] {
      assert ys == [];
    } else {
      assert xs[0] in multiset(ys);
      var k :| 0 <= k < |ys| && ys[k] == xs[0];
      WithoutMultiset(xs, 0);
      WithoutMultiset(ys, k);
      WithoutTargets(groups, xs, 0);
      WithoutTargets(groups, ys, k);
      assert multiset(Without(xs, 0)) == multiset(xs) - multiset{xs[0]};
      assert multiset(Without(ys, k)) == multiset(ys) - multiset{xs[0]};
      assert |Without(xs, 0)| == |multiset(Without(xs, 0))| == |multiset(xs)| - 1;
      TargetsPermute(groups, Without(xs, 0), Without(ys, k));
    }
  }

  lemma {:induction false} TargetsAtAll(groups: seq<Group>, n: nat)
    requires n <= |groups|
    ensures TargetsAt(groups, Upto(n)) == AllTargets(groups[..n])
  {
    if n > 0 {
      TargetsAtAll(groups, n - 1);
      UptoSnoc(n - 1);
      assert Upto(n)[..n - 1] == Upto(n - 1);
      AllTargetsSnoc(groups, n - 1);
    }
  }

  // ---- The plan for all partitions

  /** The greedy split of every partition, in turn. */
  function PlanAll(partitions: seq<seq<nat>>, fits: seq<nat> -> bool): Option<seq<seq<nat>>> {
    if partitions == [] then Some([])
    else
      var before :- PlanAll(partitions[..|partitions| - 1], fits);
      var last :- Greedy(partitions[|partitions| - 1], [], fits);
      Some(before + last)
  }

  lemma PlanSnoc(partitions: seq<seq<nat>>, k: nat, fits: seq<nat> -> bool, before: seq<seq<nat>>, last: seq<seq<nat>>)
    requires k < |partitions| && PlanAll(partitions[..k], fits) == Some(before)
    requires Greedy(partitions[k], [], fits) == Some(last)
    ensures PlanAll(partitions[..k + 1], fits) == Some(before + last)
  {
    assert partitions[..k + 1][..k] == partitions[..k];
  }

  lemma FlattenSnoc(partitions: seq<seq<nat>>, k: nat)
    requires k < |partitions|
    ensures Flatten(partitions[..k + 1]) == Flatten(partitions[..k]) + partitions[k]
    ensures Flatten(partitions[k..]) == partitions[k] + Flatten(partitions[k + 1..])
  {
    assert partitions[..k + 1] == partitions[..k] + [partitions[k]];
    FlattenConcat(partitions[..k], [partitions[k]]);
    FlattenOne(partitions[k]);
    assert partitions[k..][1..] == partitions[k + 1..];
  }

  /** A plan puts every leader into exactly one batch, in order; every batch fits and its members
      share one context pairwise. */
  lemma {:induction false} PlanIsRight(partitions: seq<seq<nat>>, fits: seq<nat> -> bool, ids: seq<Identity>)
    requires PlanAll(partitions, fits).Some?
    requires forall k :: 0 <= k < |partitions| ==> PartitionOk(partitions[k], ids)
    ensures Flatten(PlanAll(partitions, fits).value) == Flatten(partitions)
    ensures forall b :: 0 <= b < |PlanAll(partitions, fits).value| ==>
      var batch := PlanAll(partitions, fits).value[b];
      batch != [] && fits(batch) && InRange(batch, |ids|) && OneContext(batch, ids)
  {
    if partitions != [] {
      var k := |partitions| - 1;
      PlanIsRight(partitions[..k], fits, ids);
      var before, last := PlanAll(partitions[..k], fits).value, Greedy(partitions[k], [], fits).value;
      GreedySplits(partitions[k], [], fits);
      assert [] + partitions[k] == partitions[k];
      FlattenConcat(before, last);
      FlattenSnoc(partitions, k);
      assert partitions[..k + 1] == partitions;
      forall b | 0 <= b < |last|
        ensures InRange(last[b], |ids|) && OneContext(last[b], ids)
      {
        PartOfOneContext(last, partitions[k], b, ids);
      }
    }
  }

  lemma PartOfOneContext(batches: seq<seq<nat>>, part: seq<nat>, b: nat, ids: seq<Identity>)
    requires Flatten(batches) == part && b < |batches| && PartitionOk(part, ids)
    ensures InRange(batches[b], |ids|) && OneContext(batches[b], ids)
  {
    forall i | 0 <= i < |batches[b]|
      ensures batches[b][i] in part
    {
      FlattenMembers(batches, batches[b][i]);
    }
  }

  // ---- Dispatching every partition

  ghost predicate DispatchState(p: Provider, groups: seq<Group>, partitions: seq<seq<nat>>, fits: seq<nat> -> bool,
                                s0: Snapshot, s: Snapshot, k: nat, batches: seq<seq<nat>>, output: Output)
    requires InRange(Flatten(partitions), |groups|)
  {
    && k <= |partitions|
    && InRange(Flatten(partitions[..k]), |groups|) && InRange(Flatten(partitions[k..]), |groups|)
    && PlanAll(partitions[..k], fits) == Some(batches)
    && SentWithinLimits(groups, fits, s0, s, batches)
    && Moves(s0, s, {}, IdsAt(groups, Flatten(partitions)))
    && Succeeded(groups, Flatten(partitions[..k]), s)
    && Owed(groups, Flatten(partitions[k..]), s)
    && RowsCorrect(p, groups, output)
    && OutTargets(output) == TargetsAt(groups, Flatten(partitions[..k]))
  }

  lemma StartDispatch(p: Provider, groups: seq<Group>, partitions: seq<seq<nat>>, fits: seq<nat> -> bool, s: Snapshot)
    requires InRange(Flatten(partitions), |groups|) && Owed(groups, Flatten(partitions), s)
    ensures DispatchState(p, groups, partitions, fits, s, s, 0, [], [])
  {
    assert partitions[..0] == [] && partitions[0..] == partitions;
    assert s.calls == s.calls + CallsFor(groups, []);
  }

  lemma CallsConcat(groups: seq<Group>, xs: seq<seq<nat>>, ys: seq<seq<nat>>)
    requires AllInRange(xs, |groups|) && AllInRange(ys, |groups|)
    ensures AllInRange(xs + ys, |groups|) && CallsFor(groups, xs + ys) == CallsFor(groups, xs) + CallsFor(groups, ys)
  {
  }

  lemma SentConcat(groups: seq<Group>, fits: seq<nat> -> bool, s0: Snapshot, s: Snapshot, t: Snapshot,
                   xs: seq<seq<nat>>, ys: seq<seq<nat>>)
    requires SentWithinLimits(groups, fits, s0, s, xs) && SentWithinLimits(groups, fits, s, t, ys)
    ensures SentWithinLimits(groups, fits, s0, t, xs + ys)
  {
    CallsConcat(groups, xs, ys);
  }

  lemma SucceededJoin(groups: seq<Group>, xs: seq<nat>, ys: seq<nat>, s: Snapshot)
    requires InRange(xs, |groups|) && InRange(ys, |groups|) && Succeeded(groups, xs, s) && Succeeded(groups, ys, s)
    ensures Succeeded(groups, xs + ys, s)
  {
  }

  lemma OwedSplit(groups: seq<Group>, xs: seq<nat>, ys: seq<nat>, s: Snapshot)
    requires InRange(xs, |groups|) && InRange(ys, |groups|) && Owed(groups, xs + ys, s)
    ensures Owed(groups, xs, s) && Owed(groups, ys, s)
  {
    assert forall k :: 0 <= k < |xs| ==> (xs + ys)[k] == xs[k];
    assert forall k :: 0 <= k < |ys| ==> (xs + ys)[|xs| + k] == ys[k];
  }

  lemma DistinctSplit(groups: seq<Group>, xs: seq<nat>, ys: seq<nat>, zs: seq<nat>)
    requires InRange(xs, |groups|) && InRange(ys, |groups|) && InRange(zs, |groups|)
    requires DistinctAt(groups, xs + (ys + zs))
    ensures DistinctAt(groups, ys)
    ensures NoneAmong(groups, zs, IdsAt(groups, ys))
    ensures IdsAt(groups, ys) <= IdsAt(groups, xs + (ys + zs))
  {
    var all := xs + (ys + zs);
    assert forall k :: 0 <= k < |ys| ==> all[|xs| + k] == ys[k];
    assert forall k :: 0 <= k < |zs| ==> all[|xs| + |ys| + k] == zs[k];
  }

  lemma FlattenAround(partitions: seq<seq<nat>>, k: nat)
    requires k < |partitions|
    ensures Flatten(partitions) == Flatten(partitions[..k]) + (partitions[k] + Flatten(partitions[k + 1..]))
  {
    assert partitions == partitions[..k] + partitions[k..];
    FlattenConcat(partitions[..k], partitions[k..]);
    FlattenSnoc(partitions, k);
  }

  lemma RangeSplit(xs: seq<nat>, ys: seq<nat>, n: nat)
    requires InRange(xs + ys, n)
    ensures InRange(xs, n) && InRange(ys, n)
  {
    assert forall k :: 0 <= k < |xs| ==> (xs + ys)[k] == xs[k];
    assert forall k :: 0 <= k < |ys| ==> (xs + ys)[|xs| + k] == ys[k];
  }

  /** Before partition `k`: its members are owed, distinct, and no one else's. */
  lemma NextPartition(p: Provider, groups: seq<Group>, partitions: seq<seq<nat>>, fits: seq<nat> -> bool,
                      s0: Snapshot, s: Snapshot, k: nat, batches: seq<seq<nat>>, output: Output)
    requires InRange(Flatten(partitions), |groups|) && DistinctAt(groups, Flatten(partitions)) && k < |partitions|
    requires DispatchState(p, groups, partitions, fits, s0, s, k, batches, output)
    ensures InRange(partitions[k], |groups|) && InRange(Flatten(partitions[k + 1..]), |groups|)
    ensures Owed(groups, partitions[k], s) && DistinctAt(groups, partitions[k])
    ensures Owed(groups, Flatten(partitions[k + 1..]), s)
    ensures NoneAmong(groups, Flatten(partitions[k + 1..]), IdsAt(groups, partitions[k]))
    ensures IdsAt(groups, partitions[k]) <= IdsAt(groups, Flatten(partitions))
  {
    hide DistinctAt, Owed, IdsAt, Succeeded, Moves, RowsCorrect, TargetsAt, PlanAll, Flatten;
    FlattenAround(partitions, k);
    FlattenSnoc(partitions, k);
    RangeSplit(Flatten(partitions[..k]), partitions[k] + Flatten(partitions[k + 1..]), |groups|);
    RangeSplit(partitions[k], Flatten(partitions[k + 1..]), |groups|);
    OwedSplit(groups, partitions[k], Flatten(partitions[k + 1..]), s);
    DistinctSplit(groups, Flatten(partitions[..k]), partitions[k], Flatten(partitions[k + 1..]));
  }

  lemma PartitionDone(p: Provider, groups: seq<Group>, partitions: seq<seq<nat>>, fits: seq<nat> -> bool,
                      s0: Snapshot, s: Snapshot, t: Snapshot, k: nat, batches: seq<seq<nat>>, output: Output,
                      more: seq<seq<nat>>, rows: Output)
    requires InRange(Flatten(partitions), |groups|) && DistinctAt(groups, Flatten(partitions)) && k < |partitions|
    requires DispatchState(p, groups, partitions, fits, s0, s, k, batches, output)
    requires s0.owned <= s0.entries.Keys && InRange(partitions[k], |groups|)
    requires Moves(s, t, {}, IdsAt(groups, partitions[k])) && SentWithinLimits(groups, fits, s, t, more)
    requires Greedy(partitions[k], [], fits) == Some(more)
    requires Succeeded(groups, partitions[k], t) && RowsCorrect(p, groups, rows)
    requires OutTargets(rows) == TargetsAt(groups, partitions[k])
    ensures DispatchState(p, groups, partitions, fits, s0, t, k + 1, batches + more, output + rows)
  {
    hide DistinctAt, Owed, IdsAt, Succeeded, Moves, RowsCorrect, TargetsAt, PlanAll, Flatten, SentWithinLimits, Greedy;
    NextPartition(p, groups, partitions, fits, s0, s, k, batches, output);
    var done, rest := Flatten(partitions[..k]), Flatten(partitions[k + 1..]);
    FlattenSnoc(partitions, k);
    PlanSnoc(partitions, k, fits, batches, more);
    SentConcat(groups, fits, s0, s, t, batches, more);
    MovesWiden(s, t, {}, IdsAt(groups, partitions[k]), IdsAt(groups, Flatten(partitions)));
    Chain(s0, s, t, {}, IdsAt(groups, Flatten(partitions)), {}, IdsAt(groups, Flatten(partitions)),
          {}, IdsAt(groups, Flatten(partitions)));
    SucceededStays(groups, done, s, t, {}, IdsAt(groups, partitions[k]));
    SucceededJoin(groups, done, partitions[k], t);
    OwedStays(groups, rest, s, t, {}, IdsAt(groups, partitions[k]));
    RowsConcat(p, groups, output, rows);
    TargetsAtConcat(groups, done, partitions[k]);
  }

  lemma PartitionFailed(p: Provider, groups: seq<Group>, partitions: seq<seq<nat>>, fits: seq<nat> -> bool,
                        s0: Snapshot, s: Snapshot, t: Snapshot, k: nat, batches: seq<seq<nat>>, output: Output,
                        more: seq<seq<nat>>)
    requires InRange(Flatten(partitions), |groups|) && DistinctAt(groups, Flatten(partitions)) && k < |partitions|
    requires DispatchState(p, groups, partitions, fits, s0, s, k, batches, output)
    requires s0.owned <= s0.entries.Keys && InRange(partitions[k], |groups|)
    requires Moves(s, t, {}, IdsAt(groups, partitions[k])) && SentWithinLimits(groups, fits, s, t, more)
    ensures SentWithinLimits(groups, fits, s0, t, batches + more)
    ensures Moves(s0, t, {}, IdsAt(groups, Flatten(partitions)))
  {
    hide DistinctAt, Owed, IdsAt, Succeeded, Moves, RowsCorrect, TargetsAt, PlanAll, Flatten, SentWithinLimits, Greedy;
    NextPartition(p, groups, partitions, fits, s0, s, k, batches, output);
    SentConcat(groups, fits, s0, s, t, batches, more);
    MovesWiden(s, t, {}, IdsAt(groups, partitions[k]), IdsAt(groups, Flatten(partitions)));
    Chain(s0, s, t, {}, IdsAt(groups, Flatten(partitions)), {}, IdsAt(groups, Flatten(partitions)),
          {}, IdsAt(groups, Flatten(partitions)));
  }

  lemma DispatchDone(p: Provider, groups: seq<Group>, partitions: seq<seq<nat>>, fits: seq<nat> -> bool,
                     s0: Snapshot, s: Snapshot, batches: seq<seq<nat>>, output: Output)
    requires InRange(Flatten(partitions), |groups|)
    requires DispatchState(p, groups, partitions, fits, s0, s, |partitions|, batches, output)
    ensures PlanAll(partitions, fits) == Some(batches) && SentWithinLimits(groups, fits, s0, s, batches)
    ensures Moves(s0, s, {}, IdsAt(groups, Flatten(partitions))) && Succeeded(groups, Flatten(partitions), s)
    ensures RowsCorrect(p, groups, output) && OutTargets(output) == TargetsAt(groups, Flatten(partitions))
  {
    hide DistinctAt, Owed, IdsAt, Succeeded, Moves, RowsCorrect, TargetsAt, PlanAll, Flatten, SentWithinLimits;
    assert partitions[..|partitions|] == partitions;
  }

  /** Some judgment does not fit a batch of its own. */
  predicate MisfitAmong(groups: seq<Group>, fits: seq<nat> -> bool) {
    exists g :: 0 <= g < |groups| && !fits([g])
  }

  lemma PartitionMisfit(groups: seq<Group>, partitions: seq<seq<nat>>, k: nat, fits: seq<nat> -> bool)
    requires k < |partitions| && InRange(partitions[k], |groups|) && !AllFitAlone(partitions[k], fits)
    ensures MisfitAmong(groups, fits)
  {
    var m :| 0 <= m < |partitions[k]| && !fits([partitions[k][m]]);
    assert partitions[k][m] < |groups|;
  }

  /** The dispatch phase: every partition split and sent. */
  method DispatchPartitions(groups: seq<Group>, partitions: seq<seq<nat>>, p: Provider, rt: Runtime, maxJudgments: nat,
                            limits: Limits, policy: Option<CacheLog.Policy>)
    returns (r: Result<Output>, ghost batches: seq<seq<nat>>)
    requires Honest(p) && GroupsOk(p, groups) && Inv(p, rt.Now())
    requires InRange(Flatten(partitions), |groups|) && DistinctAt(groups, Flatten(partitions))
    requires Owed(groups, Flatten(partitions), rt.Now())
    modifies rt
    ensures Inv(p, rt.Now()) && Moves(old(rt.Now()), rt.Now(), {}, IdsAt(groups, Flatten(partitions)))
    ensures SentWithinLimits(groups, BatchFits(groups, p.estimate, maxJudgments, limits.maxRequestBytes),
                             old(rt.Now()), rt.Now(), batches)
    ensures r.Ok? ==>
      PlanAll(partitions, BatchFits(groups, p.estimate, maxJudgments, limits.maxRequestBytes)) == Some(batches)
    ensures r.Ok? ==> Succeeded(groups, Flatten(partitions), rt.Now())
    ensures r.Ok? ==> RowsCorrect(p, groups, r.value) && OutTargets(r.value) == TargetsAt(groups, Flatten(partitions))
    ensures r.Err? ==>
      || CallFault(p, limits.maxInflight, rt.Now())
      || MisfitAmong(groups, BatchFits(groups, p.estimate, maxJudgments, limits.maxRequestBytes))
  {
    hide DistinctAt, Owed, IdsAt, Succeeded, Moves, RowsCorrect, TargetsAt, PlanAll, Flatten, SentWithinLimits,
         DispatchState, Inv, GroupsOk, Honest, BatchFits, Greedy, CallFault, AllFitAlone, MisfitAmong;
    ghost var s0 := rt.Now();
    SelfOwned(p, s0);
    ghost var fits := BatchFits(groups, p.estimate, maxJudgments, limits.maxRequestBytes);
    StartDispatch(p, groups, partitions, fits, s0);
    var output: Output := [];
    batches := [];
    for k := 0 to |partitions|
      invariant Inv(p, rt.Now())
      invariant DispatchState(p, groups, partitions, fits, s0, rt.Now(), k, batches, output)
    {
      ghost var s := rt.Now();
      NextPartition(p, groups, partitions, fits, s0, s, k, batches, output);
      var rows, more := SplitPartition(groups, partitions[k], p, rt, maxJudgments, limits, policy);
      if rows.Err? {
        if !AllFitAlone(partitions[k], fits) {
          PartitionMisfit(groups, partitions, k, fits);
        }
        PartitionFailed(p, groups, partitions, fits, s0, s, rt.Now(), k, batches, output, more);
        return Err(rows.error), batches + more;
      }
      PartitionDone(p, groups, partitions, fits, s0, s, rt.Now(), k, batches, output, more, rows.value);
      output, batches := output + rows.value, batches + more;
    }
    DispatchDone(p, groups, partitions, fits, s0, rt.Now(), batches, output);
    return Ok(output), batches;
  }

  // ---- The claim loop

  /** Where the claim loop puts each judgment: answered from the cache, led, or followed. */
  datatype Claims = Claims(hits: seq<nat>, leaders: seq<nat>, followers: seq<nat>, partitions: seq<seq<nat>>)

  /** Every judgment of the first `i` is in exactly one of the three, and the leaders are the
      members of the partitions. */
  ghost predicate Classified(c: Claims, ids: seq<Identity>, i: nat) {
    && i <= |ids|
    && InRange(c.hits, |ids|) && InRange(c.leaders, |ids|) && InRange(c.followers, |ids|)
    && multiset(c.hits) + multiset(c.leaders) + multiset(c.followers) == multiset(Upto(i))
    && multiset(Flatten(c.partitions)) == multiset(c.leaders)
    && PartitionsOk(c.partitions, ids) && AllBelow(c.partitions, i)
  }

  ghost predicate Known(groups: seq<Group>, indices: seq<nat>, s: Snapshot)
    requires InRange(indices, |groups|)
  {
    forall k :: 0 <= k < |indices| ==> groups[indices[k]].identity in s.entries
  }

  ghost predicate ClaimState(p: Provider, groups: seq<Group>, s0: Snapshot, s: Snapshot, c: Claims, i: nat,
                             claimed: set<Identity>, output: Output)
  {
    && Classified(c, IdsOf(groups), i)
    && DistinctAt(groups, c.leaders) && Owed(groups, c.leaders, s)
    && Succeeded(groups, c.hits, s) && Known(groups, c.followers, s)
    && claimed == IdsAt(groups, c.hits) + IdsAt(groups, c.leaders)
    && Moves(s0, s, claimed, {}) && claimed !! s0.owned
    && s.calls == s0.calls
    && RowsCorrect(p, groups, output) && OutTargets(output) == TargetsAt(groups, c.hits)
  }

  lemma StartClaims(p: Provider, groups: seq<Group>, s: Snapshot)
    ensures ClaimState(p, groups, s, s, Claims([], [], [], []), 0, {}, [])
  {
    assert Upto(0) == [];
  }

  lemma KnownStays(groups: seq<Group>, indices: seq<nat>, s: Snapshot, t: Snapshot, c: set<Identity>, k: set<Identity>)
    requires InRange(indices, |groups|) && Known(groups, indices, s) && Moves(s, t, c, k)
    ensures Known(groups, indices, t)
  {
  }

  lemma NothingCompleted(groups: seq<Group>, indices: seq<nat>)
    requires InRange(indices, |groups|)
    ensures NoneAmong(groups, indices, {})
  {
  }

  /** The claim state survives steps of the others. */
  lemma ClaimsWait(p: Provider, groups: seq<Group>, s0: Snapshot, s: Snapshot, t: Snapshot, c: Claims, i: nat,
                   claimed: set<Identity>, output: Output)
    requires s0.owned <= s0.entries.Keys && ClaimState(p, groups, s0, s, c, i, claimed, output)
    requires Moves(s, t, {}, {}) && t.calls == s.calls
    ensures ClaimState(p, groups, s0, t, c, i, claimed, output)
  {
    hide DistinctAt, Owed, IdsAt, Succeeded, Moves, RowsCorrect, TargetsAt, Flatten, Known, PartitionsOk, AllBelow;
    NothingCompleted(groups, c.leaders);
    OwedStays(groups, c.leaders, s, t, {}, {});
    SucceededStays(groups, c.hits, s, t, {}, {});
    KnownStays(groups, c.followers, s, t, {}, {});
    Chain(s0, s, t, claimed, {}, {}, {}, claimed, {});
  }

  lemma ClassifyFollower(c: Claims, ids: seq<Identity>, i: nat)
    requires Classified(c, ids, i) && i < |ids|
    ensures Classified(c.(followers := c.followers + [i]), ids, i + 1)
  {
    UptoSnoc(i);
    assert AllBelow(c.partitions, i + 1);
  }

  lemma ClassifyHit(c: Claims, ids: seq<Identity>, i: nat)
    requires Classified(c, ids, i) && i < |ids|
    ensures Classified(c.(hits := c.hits + [i]), ids, i + 1)
  {
    UptoSnoc(i);
    assert AllBelow(c.partitions, i + 1);
  }

  lemma ClassifyLeader(c: Claims, ids: seq<Identity>, i: nat)
    requires Classified(c, ids, i) && i < |ids|
    ensures forall p :: 0 <= p < |c.partitions| ==> c.partitions[p] != [] && c.partitions[p][0] < |ids|
    ensures Classified(c.(leaders := c.leaders + [i], partitions := Place(c.partitions, ids, i)), ids, i + 1)
  {
    hide Place, Flatten, PartitionsOk, AllBelow;
    UptoSnoc(i);
    PartitionHeads(c.partitions, ids);
    PlaceKeeps(c.partitions, ids, i);
  }

  lemma AddFollower(p: Provider, groups: seq<Group>, s0: Snapshot, s: Snapshot, c: Claims, i: nat,
                    claimed: set<Identity>, output: Output)
    requires ClaimState(p, groups, s0, s, c, i, claimed, output)
    requires i < |groups| && groups[i].identity in s.entries
    ensures ClaimState(p, groups, s0, s, c.(followers := c.followers + [i]), i + 1, claimed, output)
  {
    hide DistinctAt, Owed, IdsAt, Succeeded, Moves, RowsCorrect, TargetsAt, Classified;
    ClassifyInRange(c, IdsOf(groups), i);
    ClassifyFollower(c, IdsOf(groups), i);
    ClassifyInRange(c.(followers := c.followers + [i]), IdsOf(groups), i + 1);
  }

  lemma ClassifyInRange(c: Claims, ids: seq<Identity>, i: nat)
    requires Classified(c, ids, i)
    ensures i <= |ids| && InRange(c.hits, |ids|) && InRange(c.leaders, |ids|) && InRange(c.followers, |ids|)
  {
  }

  lemma IdsAtAppend(groups: seq<Group>, indices: seq<nat>, i: nat)
    requires InRange(indices, |groups|) && i < |groups|
    ensures InRange(indices + [i], |groups|)
    ensures IdsAt(groups, indices + [i]) == IdsAt(groups, indices) + {groups[i].identity}
  {
    var all := indices + [i];
    assert all[..|indices|] == indices && all[..|indices| + 1] == all && all[|indices|] == i;
    IdsAtSnoc(groups, all, |indices|);
  }

  lemma NewIsDistinct(groups: seq<Group>, indices: seq<nat>, i: nat, s: Snapshot)
    requires InRange(indices, |groups|) && i < |groups|
    requires DistinctAt(groups, indices) && Owed(groups, indices, s) && groups[i].identity !in s.owned
    ensures DistinctAt(groups, indices + [i])
  {
  }

  lemma OwedJoin(groups: seq<Group>, xs: seq<nat>, ys: seq<nat>, s: Snapshot)
    requires InRange(xs, |groups|) && InRange(ys, |groups|) && Owed(groups, xs, s) && Owed(groups, ys, s)
    ensures Owed(groups, xs + ys, s)
  {
  }

  /** Leading judgment `i`, claimed between `s` and `t`. */
  lemma AddLeader(p: Provider, groups: seq<Group>, s0: Snapshot, s: Snapshot, t: Snapshot, c: Claims, i: nat,
                  claimed: set<Identity>, output: Output)
    requires s0.owned <= s0.entries.Keys && ClaimState(p, groups, s0, s, c, i, claimed, output) && i < |groups|
    requires Moves(s, t, {groups[i].identity}, {}) && t.calls == s.calls && groups[i].identity !in s.owned
    requires Owed(groups, [i], t)
    ensures forall q :: 0 <= q < |c.partitions| ==> c.partitions[q] != [] && c.partitions[q][0] < |groups|
    ensures ClaimState(p, groups, s0, t,
                       c.(leaders := c.leaders + [i], partitions := Place(c.partitions, IdsOf(groups), i)), i + 1,
                       claimed + {groups[i].identity}, output)
  {
    hide DistinctAt, Owed, IdsAt, Succeeded, Moves, RowsCorrect, TargetsAt, Classified, Known, Place;
    ghost var id := groups[i].identity;
    ClassifyInRange(c, IdsOf(groups), i);
    ClassifyLeader(c, IdsOf(groups), i);
    NewIsDistinct(groups, c.leaders, i, s);
    NothingCompleted(groups, c.leaders);
    OwedStays(groups, c.leaders, s, t, {id}, {});
    OwedJoin(groups, c.leaders, [i], t);
    SucceededStays(groups, c.hits, s, t, {id}, {});
    KnownStays(groups, c.followers, s, t, {id}, {});
    IdsAtAppend(groups, c.leaders, i);
    Chain(s0, s, t, claimed, {}, {id}, {}, claimed + {id}, {});
    FreshClaim(s0, s, claimed, id);
  }

  lemma FreshClaim(s0: Snapshot, s: Snapshot, claimed: set<Identity>, id: Identity)
    requires Moves(s0, s, claimed, {}) && claimed !! s0.owned && id !in s.owned
    ensures claimed + {id} !! s0.owned
  {
  }

  /** Judgment `i` answered from the cache between `s` and `t`. */
  lemma AddHit(p: Provider, groups: seq<Group>, s0: Snapshot, s: Snapshot, t: Snapshot, c: Claims, i: nat,
               claimed: set<Identity>, output: Output, v: JudgmentResult)
    requires s0.owned <= s0.entries.Keys && ClaimState(p, groups, s0, s, c, i, claimed, output) && i < |groups|
    requires Moves(s, t, {groups[i].identity}, {}) && t.calls == s.calls && groups[i].identity !in s.owned
    requires Succeeded(groups, [i], t) && Answers(p, groups[i].identity, v)
    ensures ClaimState(p, groups, s0, t, c.(hits := c.hits + [i]), i + 1, claimed + {groups[i].identity},
                       output + Expand(groups[i].targets, v))
  {
    hide DistinctAt, Owed, IdsAt, Succeeded, Moves, RowsCorrect, TargetsAt, Classified, Known, Answers;
    ghost var id := groups[i].identity;
    ClassifyInRange(c, IdsOf(groups), i);
    ClassifyHit(c, IdsOf(groups), i);
    NothingCompleted(groups, c.leaders);
    OwedStays(groups, c.leaders, s, t, {id}, {});
    SucceededStays(groups, c.hits, s, t, {id}, {});
    SucceededJoin(groups, c.hits, [i], t);
    KnownStays(groups, c.followers, s, t, {id}, {});
    IdsAtAppend(groups, c.hits, i);
    Chain(s0, s, t, claimed, {}, {id}, {}, claimed + {id}, {});
    FreshClaim(s0, s, claimed, id);
    RowsExtend(p, groups, output, i, v);
    TargetsAtConcat(groups, c.hits, [i]);
    TargetsAtOne(groups, i);
  }

  /** The checks each group passes before it is claimed. */
  predicate Capable(p: Provider, g: Group) {
    p.capabilities.Admits(g.request.kind, g.request.choices)
  }

  predicate AllCapable(p: Provider, groups: seq<Group>) {
    forall i :: 0 <= i < |groups| ==> Capable(p, groups[i])
  }

  /** Some group fails the checks, and the first one does not: then earlier groups may be claimed. */
  predicate FailsMidway(p: Provider, groups: seq<Group>) {
    groups != [] && Capable(p, groups[0]) && !AllCapable(p, groups)
  }

  predicate PolicyOk(policy: Option<CacheLog.Policy>) { policy.Some? ==> policy.value.Valid() }

  /** Entries in `ids` still without an outcome belong to a query that is over. */
  ghost predicate NoneAbandoned(ids: set<Identity>, s: Snapshot) {
    s.active ==> forall id :: id in ids ==> id in s.entries && s.entries[id].Some?
  }

  /** What one turn of the claim loop did: led, answered from the cache, followed, or gave up. */
  datatype Turn = Led | Hit(found: JudgmentResult) | Followed | GaveUp(error: JudgmentError)

  /** What a turn on judgment `i` achieves between `s` and `t`. Giving up leaves an entry without an
      outcome only when the query is over. */
  ghost predicate TurnDone(p: Provider, groups: seq<Group>, i: nat, policy: Option<CacheLog.Policy>,
                           s: Snapshot, t: Snapshot, turn: Turn, mine: set<Identity>)
    requires i < |groups|
  {
    var id := groups[i].identity;
    && Moves(s, t, mine, {}) && t.calls == s.calls && mine !! s.owned
    && mine == (if turn.Followed? then {} else if turn.GaveUp? then mine else {id}) && mine <= {id}
    && (turn.Led? ==> Owed(groups, [i], t) && PolicyOk(policy))
    && (turn.Hit? ==> Succeeded(groups, [i], t) && Answers(p, id, turn.found) && PolicyOk(policy))
    && (turn.Followed? ==> id in t.entries)
    && (turn.GaveUp? ==> NoneAbandoned(mine, t) && (t.active ==> !PolicyOk(policy)))
  }

  /** What a leader's turn asks of the cache: with a valid policy one look under its key, whose find, and
      only it, makes the turn a hit. */
  ghost function LookedUp(p: Provider, id: Identity, policy: Option<CacheLog.Policy>, turn: Turn): seq<HostCall> {
    if policy.Some? && policy.value.Valid() && (turn.Led? || turn.Hit?)
    then [Looked(PinnedKey(p, id), if turn.Hit? then Some(turn.found) else None)] else []
  }

  /** The part of a turn for a judgment just claimed as leader. */
  method LeadTurn(groups: seq<Group>, i: nat, p: Provider, rt: Runtime, policy: Option<CacheLog.Policy>)
    returns (turn: Turn)
    requires i < |groups| && Inv(p, rt.Now()) && Honest(p) && GroupOk(p, groups[i]) && Owed(groups, [i], rt.Now())
    modifies rt
    ensures Inv(p, rt.Now()) && Moves(old(rt.Now()), rt.Now(), {}, {groups[i].identity}) && rt.calls == old(rt.calls)
    ensures turn.Led? ==> Owed(groups, [i], rt.Now()) && PolicyOk(policy)
    ensures turn.Led? ==>
      policy.None? || CacheKey(p, groups[i]).None? || !CacheLog.Holds(rt.cached, CacheKey(p, groups[i]).value)
    ensures turn.Hit? ==> Succeeded(groups, [i], rt.Now()) && Answers(p, groups[i].identity, turn.found) && PolicyOk(policy)
    ensures turn.GaveUp? ==> Settled(groups, [i], rt.Now()) && !PolicyOk(policy)
    ensures !turn.Followed?
    ensures rt.hostCalls == old(rt.hostCalls) + LookedUp(p, groups[i].identity, policy, turn)
  {
    hide Inv, Moves, Answers, CacheLog.Holds, CacheLog.Lookup, CacheLog.Reconcile, KeyedAnswer, GroupOk, Honest;
    var id := groups[i].identity;
    assert [i][0] == i;
    ghost var s := rt.Now();
    MovesItself(s);
    SelfOwned(p, s);
    if policy.Some? {
      if !policy.value.Valid() {
        var error := CACHE_LIMITS_ZERO;
        rt.Complete(p, id, Err(error));
        StillOwned(s, rt.Now(), {}, {id});
        return GaveUp(error);
      }
      var cached, _ := rt.CacheLookup(p, CacheKey(p, groups[i]), policy.value);
      ghost var t := rt.Now();
      StaysClaimed(s, t, {}, {}, id);
      MovesWiden(s, t, {}, {}, {id});
      if cached.Some? {
        HitAnswers(p, groups[i], cached.value);
        rt.Complete(p, id, Ok(cached.value));
        StillOwned(t, rt.Now(), {}, {id});
        Chain(s, t, rt.Now(), {}, {}, {}, {id}, {}, {id});
        return Hit(cached.value);
      }
    } else {
      MovesWiden(s, s, {}, {}, {id});
    }
    return Led;
  }

  /** One turn of the claim loop, after the capability checks. */
  method ClaimOne(groups: seq<Group>, i: nat, p: Provider, rt: Runtime, policy: Option<CacheLog.Policy>)
    returns (turn: Turn, ghost mine: set<Identity>)
    requires i < |groups| && Inv(p, rt.Now()) && Honest(p) && GroupOk(p, groups[i])
    modifies rt
    ensures Inv(p, rt.Now()) && TurnDone(p, groups, i, policy, old(rt.Now()), rt.Now(), turn, mine)
    // A turn that does not give up has checked that the query runs before it looked into the cache.
    ensures !turn.GaveUp? ==>
      rt.hostCalls == old(rt.hostCalls) + [Checked(true)] + LookedUp(p, groups[i].identity, policy, turn)
    ensures turn.Led? ==>
      policy.None? || CacheKey(p, groups[i]).None? || !CacheLog.Holds(rt.cached, CacheKey(p, groups[i]).value)
  {
    hide Inv, Moves, Answers, CacheLog.Holds, GroupOk, Honest, CacheKey, PolicyOk;
    ghost var s0 := rt.Now();
    SelfOwned(p, s0);
    mine := {};
    var id := groups[i].identity;
    assert [i][0] == i;
    var claim := rt.ClaimQueryEntry(p, id);
    if claim.Err? {
      return GaveUp(claim.error), {};
    }
    ghost var s1 := rt.Now();
    mine := if claim.value then {id} else {};
    var cancelled := rt.QueryCancellation(p);
    ghost var s2 := rt.Now();
    SelfOwned(p, s2);
    Chain(s0, s1, s2, mine, {}, {}, {}, mine, {});
    StaysClaimed(s1, s2, {}, {}, id);
    if cancelled.Err? {
      return GaveUp(cancelled.error), mine;
    }
    if !claim.value {
      return Followed, {};
    }
    turn := LeadTurn(groups, i, p, rt, policy);
    Chain(s0, s2, rt.Now(), mine, {}, {}, {id}, mine, {id});
    OnlyOwnCompleted(s0, rt.Now(), mine, {id});
  }

  /** Where a turn puts judgment `i`. */
  function Classify(c: Claims, ids: seq<Identity>, i: nat, turn: Turn): Claims
    requires i < |ids| && forall q :: 0 <= q < |c.partitions| ==> c.partitions[q] != [] && c.partitions[q][0] < |ids|
  {
    match turn
    case Led => c.(leaders := c.leaders + [i], partitions := Place(c.partitions, ids, i))
    case Hit(_) => c.(hits := c.hits + [i])
    case Followed => c.(followers := c.followers + [i])
    case GaveUp(_) => c
  }

  function RowsOf(group: Group, turn: Turn): Output {
    if turn.Hit? then Expand(group.targets, turn.found) else []
  }

  /** A turn that does not give up keeps the claim state, with judgment `i` in its place. */
  lemma NextClaims(p: Provider, groups: seq<Group>, policy: Option<CacheLog.Policy>, s0: Snapshot, s: Snapshot,
                   t: Snapshot, c: Claims, i: nat, claimed: set<Identity>, output: Output, turn: Turn, mine: set<Identity>)
    requires s0.owned <= s0.entries.Keys && ClaimState(p, groups, s0, s, c, i, claimed, output) && i < |groups|
    requires TurnDone(p, groups, i, policy, s, t, turn, mine) && !turn.GaveUp?
    ensures forall q :: 0 <= q < |c.partitions| ==> c.partitions[q] != [] && c.partitions[q][0] < |groups|
    ensures ClaimState(p, groups, s0, t, Classify(c, IdsOf(groups), i, turn), i + 1, claimed + mine,
                       output + RowsOf(groups[i], turn))
    ensures Classify(c, IdsOf(groups), i, turn).leaders == if turn.Led? then c.leaders + [i] else c.leaders
    ensures turn.Led? ==> PolicyOk(policy)
  {
    hide ClaimState, Owed, Succeeded, Moves, Answers, Place, PolicyOk, Classified, NoneAbandoned;
    ClaimHeads(p, groups, s0, s, c, i, claimed, output);
    match turn
    case Followed =>
      assert claimed + mine == claimed && output + RowsOf(groups[i], turn) == output;
      ClaimsWait(p, groups, s0, s, t, c, i, claimed, output);
      AddFollower(p, groups, s0, t, c, i, claimed, output);
    case Led =>
      assert output + RowsOf(groups[i], turn) == output;
      AddLeader(p, groups, s0, s, t, c, i, claimed, output);
    case Hit(found) =>
      AddHit(p, groups, s0, s, t, c, i, claimed, output, found);
  }

  lemma ClaimHeads(p: Provider, groups: seq<Group>, s0: Snapshot, s: Snapshot, c: Claims, i: nat,
                   claimed: set<Identity>, output: Output)
    requires ClaimState(p, groups, s0, s, c, i, claimed, output)
    ensures forall q :: 0 <= q < |c.partitions| ==> c.partitions[q] != [] && c.partitions[q][0] < |groups|
  {
    hide DistinctAt, Owed, IdsAt, Succeeded, Moves, RowsCorrect, TargetsAt, Known;
    PartitionHeads(c.partitions, IdsOf(groups));
  }

  /** A turn that gives up, after earlier turns. */
  lemma GivingUp(p: Provider, groups: seq<Group>, policy: Option<CacheLog.Policy>, s0: Snapshot, s: Snapshot,
                 t: Snapshot, c: Claims, i: nat, claimed: set<Identity>, output: Output, turn: Turn, mine: set<Identity>)
    requires s0.owned <= s0.entries.Keys && ClaimState(p, groups, s0, s, c, i, claimed, output) && i < |groups|
    requires TurnDone(p, groups, i, policy, s, t, turn, mine) && turn.GaveUp?
    requires !PolicyOk(policy) ==> c.leaders == []
    ensures Moves(s0, t, claimed + mine, {}) && claimed + mine !! s0.owned && t.calls == s0.calls
    ensures NoneAbandoned(claimed + mine, t) && (t.active ==> !PolicyOk(policy))
  {
    hide RowsCorrect, TargetsAt, Classified, Answers, PolicyOk;
    Chain(s0, s, t, claimed, {}, mine, {}, claimed + mine, {});
    ClassifyInRange(c, IdsOf(groups), i);
    SucceededStays(groups, c.hits, s, t, mine, {});
  }

  /** The check of the claim loop, on a group the row loop made. */
  lemma CheckIsCapable(p: Provider, g: Group)
    requires GroupOk(p, g)
    ensures Capable(p, g) <==>
      && p.capabilities.Supports(g.request.kind) == Verified
      && (p.capabilities.maxChoices.Some? ==> |g.request.choices| <= p.capabilities.maxChoices.value)
  {
  }

  /** One iteration of the claim loop: check, claim, classify. */
  method ClaimNext(groups: seq<Group>, i: nat, p: Provider, rt: Runtime, policy: Option<CacheLog.Policy>,
                   c: Claims, output: Output, ghost claimed: set<Identity>, ghost s0: Snapshot)
    returns (r: Result<(Claims, Output)>, ghost mine: set<Identity>)
    requires Honest(p) && GroupsOk(p, groups) && Inv(p, rt.Now()) && i < |groups| && s0.owned <= s0.entries.Keys
    requires ClaimState(p, groups, s0, rt.Now(), c, i, claimed, output) && (!PolicyOk(policy) ==> c.leaders == [])
    modifies rt
    ensures Inv(p, rt.Now())
    ensures r.Ok? ==> ClaimState(p, groups, s0, rt.Now(), r.value.0, i + 1, claimed + mine, r.value.1)
    ensures r.Ok? ==> Capable(p, groups[i]) && (!PolicyOk(policy) ==> r.value.0.leaders == [])
    ensures Moves(s0, rt.Now(), claimed + mine, {}) && claimed + mine !! s0.owned && rt.calls == s0.calls
    ensures r.Err? && Capable(p, groups[i]) ==>
      NoneAbandoned(claimed + mine, rt.Now()) && (rt.active ==> !PolicyOk(policy))
    ensures r.Err? && !Capable(p, groups[i]) ==> mine == {} && rt.Now() == old(rt.Now())
  {
    hide Moves, Inv, ClaimState, NoneAbandoned, TurnDone, Classify, RowsOf, PolicyOk, Capable, Honest, GroupOk, Place;
    ghost var s := rt.Now();
    ClaimFacts(p, groups, s0, s, c, i, claimed, output);
    assert claimed + {} == claimed;
    CheckIsCapable(p, groups[i]);
    if p.capabilities.Supports(groups[i].request.kind) != Verified {
      return Err(KIND_UNVERIFIED), {};
    }
    if p.capabilities.maxChoices.Some? && |groups[i].request.choices| > p.capabilities.maxChoices.value {
      return Err(TOO_MANY_CHOICES), {};
    }
    var turn;
    turn, mine := ClaimOne(groups, i, p, rt, policy);
    if turn.GaveUp? {
      GivingUp(p, groups, policy, s0, s, rt.Now(), c, i, claimed, output, turn, mine);
      return Err(turn.error), mine;
    }
    NextClaims(p, groups, policy, s0, s, rt.Now(), c, i, claimed, output, turn, mine);
    var next, rows := Classify(c, IdsOf(groups), i, turn), output + RowsOf(groups[i], turn);
    ClaimFacts(p, groups, s0, rt.Now(), next, i + 1, claimed + mine, rows);
    return Ok((next, rows)), mine;
  }

  /** The claim loop. Giving up abandons no entry of a running query, and neither does a failed check
      on the first group; a check that fails midway returns at once and may leave earlier leaders'
      entries without an outcome. */
  method ClaimGroups(groups: seq<Group>, p: Provider, rt: Runtime, policy: Option<CacheLog.Policy>)
    returns (r: Result<(Claims, Output)>, ghost claimed: set<Identity>)
    requires Honest(p) && GroupsOk(p, groups) && Inv(p, rt.Now())
    modifies rt
    ensures Inv(p, rt.Now())
    ensures r.Ok? ==> ClaimState(p, groups, old(rt.Now()), rt.Now(), r.value.0, |groups|, claimed, r.value.1)
    ensures Moves(old(rt.Now()), rt.Now(), claimed, {}) && claimed !! old(rt.owned) && rt.calls == old(rt.calls)
    ensures r.Err? && !FailsMidway(p, groups) ==> NoneAbandoned(claimed, rt.Now())
    ensures r.Ok? ==> AllCapable(p, groups)
    ensures r.Err? ==> !AllCapable(p, groups) || !rt.active || !PolicyOk(policy)
  {
    hide Moves, Inv, ClaimState, NoneAbandoned, PolicyOk, Capable, Honest, GroupsOk;
    ghost var s0 := rt.Now();
    SelfOwned(p, s0);
    StartClaims(p, groups, s0);
    NoneOfNone(s0);
    var c := Claims([], [], [], []);
    var output: Output := [];
    claimed := {};
    ClaimFacts(p, groups, s0, s0, c, 0, claimed, output);
    for i := 0 to |groups|
      invariant Inv(p, rt.Now()) && ClaimState(p, groups, s0, rt.Now(), c, i, claimed, output)
      invariant Moves(s0, rt.Now(), claimed, {}) && claimed !! s0.owned && rt.calls == s0.calls
      invariant !PolicyOk(policy) ==> c.leaders == []
      invariant forall k :: 0 <= k < i ==> Capable(p, groups[k])
      invariant i == 0 ==> NoneAbandoned(claimed, rt.Now())
    {
      var next, mine := ClaimNext(groups, i, p, rt, policy, c, output, claimed, s0);
      if next.Err? {
        assert mine == {} ==> claimed + mine == claimed;
        return Err(next.error), claimed + mine;
      }
      c, output, claimed := next.value.0, next.value.1, claimed + mine;
    }
    return Ok((c, output)), claimed;
  }

  lemma NoneOfNone(s: Snapshot)
    ensures NoneAbandoned({}, s)
  {
  }

  lemma ClaimFacts(p: Provider, groups: seq<Group>, s0: Snapshot, s: Snapshot, c: Claims, i: nat,
                   claimed: set<Identity>, output: Output)
    requires ClaimState(p, groups, s0, s, c, i, claimed, output)
    ensures Moves(s0, s, claimed, {}) && claimed !! s0.owned && s.calls == s0.calls
  {
  }

  // ---- The whole of `execute_batch_groups`

  /** Leaders and partition members are the same judgments, so what holds of the ones holds of the
      others. */
  lemma PartitionsAreLeaders(groups: seq<Group>, c: Claims, i: nat, s: Snapshot)
    requires Classified(c, IdsOf(groups), i) && DistinctAt(groups, c.leaders) && Owed(groups, c.leaders, s)
    ensures InRange(Flatten(c.partitions), |groups|)
    ensures DistinctAt(groups, Flatten(c.partitions)) && Owed(groups, Flatten(c.partitions), s)
    ensures IdsAt(groups, Flatten(c.partitions)) == IdsAt(groups, c.leaders)
  {
    hide Flatten, PartitionsOk, AllBelow;
    var flat := Flatten(c.partitions);
    MultisetInRange(c.leaders, flat, |groups|);
    DistinctPositions(groups, c.leaders);
    SameMultisetDistinct(c.leaders, flat);
    SameMembers(c.leaders, flat);
    forall i, j | 0 <= i < j < |flat|
      ensures groups[flat[i]].identity != groups[flat[j]].identity
    {
      assert flat[i] in c.leaders && flat[j] in c.leaders && flat[i] != flat[j];
    }
    forall k | 0 <= k < |flat|
      ensures var id := groups[flat[k]].identity; id in s.owned && id in s.entries && s.entries[id].None?
    {
      assert flat[k] in c.leaders;
    }
    SameIds(groups, c.leaders, flat);
  }

  lemma DistinctPositions(groups: seq<Group>, indices: seq<nat>)
    requires InRange(indices, |groups|) && DistinctAt(groups, indices)
    ensures Distinct(indices)
  {
  }

  lemma SameMembers(xs: seq<nat>, ys: seq<nat>)
    requires multiset(xs) == multiset(ys)
    ensures forall x :: x in xs <==> x in ys
  {
    forall x ensures x in xs <==> x in ys {
      assert x in xs <==> x in multiset(xs);
      assert x in ys <==> x in multiset(ys);
    }
  }

  lemma SameIds(groups: seq<Group>, xs: seq<nat>, ys: seq<nat>)
    requires InRange(xs, |groups|) && InRange(ys, |groups|) && forall x :: x in xs <==> x in ys
    ensures IdsAt(groups, xs) == IdsAt(groups, ys)
  {
    forall id ensures id in IdsAt(groups, xs) <==> id in IdsAt(groups, ys) {
      if id in IdsAt(groups, xs) {
        var k :| 0 <= k < |xs| && groups[xs[k]].identity == id;
        assert xs[k] in ys;
      }
      if id in IdsAt(groups, ys) {
        var k :| 0 <= k < |ys| && groups[ys[k]].identity == id;
        assert ys[k] in xs;
      }
    }
  }

  /** `entry.wait` on every followed judgment, after all own work is done. */
  method AwaitFollowers(groups: seq<Group>, followers: seq<nat>, p: Provider, rt: Runtime)
    returns (r: Result<Output>)
    requires InRange(followers, |groups|) && Inv(p, rt.Now()) && Known(groups, followers, rt.Now())
    requires GroupsOk(p, groups)
    modifies rt
    ensures Inv(p, rt.Now()) && Moves(old(rt.Now()), rt.Now(), {}, {}) && rt.calls == old(rt.calls)
    ensures r.Ok? ==> RowsCorrect(p, groups, r.value) && OutTargets(r.value) == TargetsAt(groups, followers)
    ensures r.Err? ==> exists k :: 0 <= k < |followers| && WaitFault(rt.Now(), groups[followers[k]].identity)
  {
    hide Inv, Moves, Answers, RowsCorrect, WaitFault;
    ghost var s0 := rt.Now();
    SelfOwned(p, s0);
    MovesItself(s0);
    NoRows(p, groups);
    var output: Output := [];
    for i := 0 to |followers|
      invariant Inv(p, rt.Now()) && Moves(s0, rt.Now(), {}, {}) && rt.calls == old(rt.calls)
      invariant Known(groups, followers, rt.Now())
      invariant RowsCorrect(p, groups, output) && OutTargets(output) == TargetsAt(groups, followers[..i])
    {
      ghost var s1 := rt.Now();
      var result := rt.Wait(p, groups[followers[i]].identity);
      Chain(s0, s1, rt.Now(), {}, {}, {}, {}, {}, {});
      KnownStays(groups, followers, s1, rt.Now(), {}, {});
      if result.Err? {
        return Err(result.error);
      }
      assert GroupOk(p, groups[followers[i]]);
      RowsExtend(p, groups, output, followers[i], result.value);
      output := output + Expand(groups[followers[i]].targets, result.value);
      assert followers[..i + 1][..i] == followers[..i];
    }
    assert followers[..|followers|] == followers;
    return Ok(output);
  }

  lemma ThreePartsAreAll(hits: seq<nat>, leaders: seq<nat>, followers: seq<nat>, flat: seq<nat>, n: nat)
    requires multiset(hits) + multiset(leaders) + multiset(followers) == multiset(Upto(n))
    requires multiset(flat) == multiset(leaders)
    ensures multiset(hits + flat + followers) == multiset(Upto(n))
  {
    hide Upto;
  }

  lemma ClassifiedParts(c: Claims, ids: seq<Identity>, i: nat)
    requires Classified(c, ids, i)
    ensures multiset(c.hits) + multiset(c.leaders) + multiset(c.followers) == multiset(Upto(i))
    ensures multiset(Flatten(c.partitions)) == multiset(c.leaders)
  {
    hide Flatten, PartitionsOk, AllBelow, Upto;
  }

  lemma JoinedTargets(groups: seq<Group>, xs: seq<nat>, ys: seq<nat>, zs: seq<nat>)
    requires InRange(xs, |groups|) && InRange(ys, |groups|) && InRange(zs, |groups|)
    ensures InRange(xs + ys + zs, |groups|)
    ensures TargetsAt(groups, xs + ys + zs) == TargetsAt(groups, xs) + TargetsAt(groups, ys) + TargetsAt(groups, zs)
  {
    hide TargetsAt;
    TargetsAtConcat(groups, xs, ys);
    TargetsAtConcat(groups, xs + ys, zs);
  }

  /** Every group once, in whatever order, gives all targets. */
  lemma PermutedTargets(groups: seq<Group>, all: seq<nat>)
    requires InRange(all, |groups|) && multiset(all) == multiset(Upto(|groups|))
    ensures multiset(TargetsAt(groups, all)) == multiset(AllTargets(groups))
  {
    hide TargetsAt, AllTargets, Upto;
    TargetsPermute(groups, all, Upto(|groups|));
    TargetsAtAll(groups, |groups|);
    assert groups[..|groups|] == groups;
  }

  /** Hits, led and followed judgments together are all judgments. */
  lemma AllTargetsServed(groups: seq<Group>, c: Claims)
    requires Classified(c, IdsOf(groups), |groups|)
    ensures InRange(Flatten(c.partitions), |groups|)
    ensures multiset(TargetsAt(groups, c.hits) + TargetsAt(groups, Flatten(c.partitions)) + TargetsAt(groups, c.followers))
         == multiset(AllTargets(groups))
  {
    hide Flatten, TargetsAt, Classified, AllTargets, Upto, IdsOf;
    var flat, n := Flatten(c.partitions), |groups|;
    ClassifiedParts(c, IdsOf(groups), n);
    ClassifyInRange(c, IdsOf(groups), n);
    MultisetInRange(c.leaders, flat, n);
    ThreePartsAreAll(c.hits, c.leaders, c.followers, flat, n);
    JoinedTargets(groups, c.hits, flat, c.followers);
    PermutedTargets(groups, c.hits + flat + c.followers);
  }

  /** Every claimed entry has an outcome. */
  ghost predicate AllSettled(ids: set<Identity>, s: Snapshot) {
    forall id :: id in ids ==> id in s.entries && s.entries[id].Some?
  }

  ghost predicate AllSucceeded(ids: set<Identity>, s: Snapshot) {
    forall id :: id in ids ==> id in s.entries && s.entries[id].Some? && s.entries[id].value.Ok?
  }

  lemma LeadersSettled(groups: seq<Group>, c: Claims, claimed: set<Identity>, s: Snapshot)
    requires InRange(c.hits, |groups|) && InRange(c.leaders, |groups|)
    requires claimed == IdsAt(groups, c.hits) + IdsAt(groups, c.leaders)
    requires Succeeded(groups, c.hits, s)
    ensures Settled(groups, c.leaders, s) ==> AllSettled(claimed, s)
    ensures Succeeded(groups, c.leaders, s) ==> AllSucceeded(claimed, s)
  {
  }

  lemma SameSucceeded(groups: seq<Group>, xs: seq<nat>, ys: seq<nat>, s: Snapshot)
    requires InRange(xs, |groups|) && InRange(ys, |groups|) && multiset(xs) == multiset(ys) && Succeeded(groups, xs, s)
    ensures Succeeded(groups, ys, s)
  {
    SameMembers(xs, ys);
    forall k | 0 <= k < |ys|
      ensures var id := groups[ys[k]].identity;
              id in s.owned && id in s.entries && s.entries[id].Some? && s.entries[id].value.Ok?
    {
      assert ys[k] in xs;
    }
  }

  /** The batch limit in force: the configured one, capped by the service's. */
  function BatchLimit(configured: nat, p: Provider): nat {
    match p.capabilities.maxBatchJudgments
    case None => configured
    case Some(service) => if configured <= service then configured else service
  }

  /** The limits on one batch: the configured number of judgments, the service's own, and the bytes. */
  ghost predicate MeetsLimits(p: Provider, groups: seq<Group>, maxJudgments: nat, maxBytes: nat, batch: seq<nat>) {
    && InRange(batch, |groups|) && |batch| <= maxJudgments
    && (p.capabilities.maxBatchJudgments.Some? ==> |batch| <= p.capabilities.maxBatchJudgments.value)
    && p.estimate(RequestsFor(groups, batch)) <= maxBytes
  }

  lemma FitsIsLimits(p: Provider, groups: seq<Group>, maxJudgments: nat, maxBytes: nat, batch: seq<nat>)
    ensures BatchFits(groups, p.estimate, BatchLimit(maxJudgments, p), maxBytes)(batch)
       <==> MeetsLimits(p, groups, maxJudgments, maxBytes, batch)
  {
  }

  lemma SentMeetLimits(p: Provider, groups: seq<Group>, maxJudgments: nat, maxBytes: nat, s: Snapshot, t: Snapshot,
                       batches: seq<seq<nat>>)
    requires SentWithinLimits(groups, BatchFits(groups, p.estimate, BatchLimit(maxJudgments, p), maxBytes), s, t, batches)
    ensures forall b :: 0 <= b < |batches| ==> MeetsLimits(p, groups, maxJudgments, maxBytes, batches[b])
  {
    hide BatchFits, MeetsLimits, BatchLimit;
    forall b | 0 <= b < |batches|
      ensures MeetsLimits(p, groups, maxJudgments, maxBytes, batches[b])
    {
      FitsIsLimits(p, groups, maxJudgments, maxBytes, batches[b]);
    }
  }

  lemma MisfitIsTooLarge(p: Provider, groups: seq<Group>, maxJudgments: nat, maxBytes: nat)
    requires BatchLimit(maxJudgments, p) > 0
    requires MisfitAmong(groups, BatchFits(groups, p.estimate, BatchLimit(maxJudgments, p), maxBytes))
    ensures exists g :: 0 <= g < |groups| && p.estimate([Rekeyed(groups, g, 0)]) > maxBytes
  {
    var g :| 0 <= g < |groups| && !BatchFits(groups, p.estimate, BatchLimit(maxJudgments, p), maxBytes)([g]);
    assert RequestsFor(groups, [g]) == [Rekeyed(groups, g, 0)];
  }

  /** The number of batches in the rival splits of all partitions. */
  function TotalBatches(rivals: seq<seq<seq<nat>>>): nat {
    if rivals == [] then 0 else TotalBatches(rivals[..|rivals| - 1]) + |rivals[|rivals| - 1]|
  }

  /** A split of a partition into consecutive batches within the limits. */
  ghost predicate SplitsWithin(p: Provider, groups: seq<Group>, maxJudgments: nat, maxBytes: nat,
                               batches: seq<seq<nat>>, part: seq<nat>)
  {
    && Flatten(batches) == part
    && forall b :: 0 <= b < |batches| ==>
         batches[b] != [] && MeetsLimits(p, groups, maxJudgments, maxBytes, batches[b])
  }

  lemma {:induction false} PlanIsFewest(partitions: seq<seq<nat>>, fits: seq<nat> -> bool, rivals: seq<seq<seq<nat>>>)
    requires Hereditary(fits) && PlanAll(partitions, fits).Some? && |rivals| == |partitions|
    requires forall k :: 0 <= k < |partitions| ==> IsSplit(rivals[k], partitions[k], fits)
    ensures |PlanAll(partitions, fits).value| <= TotalBatches(rivals)
  {
    hide Hereditary, IsSplit, Greedy;
    if partitions != [] {
      var n := |partitions| - 1;
      PlanIsFewest(partitions[..n], fits, rivals[..n]);
      GreedyIsOptimal(partitions[n], fits, rivals[n]);
    }
  }

  /** With the default estimate, no order-preserving way of splitting the partitions within the three
      limits sends fewer batches than the plan. */
  lemma FewestBatches(p: Provider, groups: seq<Group>, maxJudgments: nat, maxBytes: nat, partitions: seq<seq<nat>>,
                      batches: seq<seq<nat>>, rivals: seq<seq<seq<nat>>>)
    requires forall requests :: p.estimate(requests) == DefaultEstimate(requests)
    requires PlanAll(partitions, BatchFits(groups, p.estimate, BatchLimit(maxJudgments, p), maxBytes)) == Some(batches)
    requires |rivals| == |partitions|
    requires forall k :: 0 <= k < |partitions| ==>
      SplitsWithin(p, groups, maxJudgments, maxBytes, rivals[k], partitions[k])
    ensures |batches| <= TotalBatches(rivals)
  {
    var fits := BatchFits(groups, p.estimate, BatchLimit(maxJudgments, p), maxBytes);
    DefaultLimitsAreHereditary(p, groups, BatchLimit(maxJudgments, p), maxBytes);
    hide BatchFits, DefaultEstimate, BatchLimit, MeetsLimits, Flatten;
    forall k | 0 <= k < |partitions|
      ensures IsSplit(rivals[k], partitions[k], fits)
    {
      assert SplitsWithin(p, groups, maxJudgments, maxBytes, rivals[k], partitions[k]);
      forall b | 0 <= b < |rivals[k]|
        ensures rivals[k][b] != [] && fits(rivals[k][b])
      {
        FitsIsLimits(p, groups, maxJudgments, maxBytes, rivals[k][b]);
      }
    }
    PlanIsFewest(partitions, fits, rivals);
  }

  lemma DefaultLimitsAreHereditary(p: Provider, groups: seq<Group>, maxJudgments: nat, maxBytes: nat)
    requires forall requests :: p.estimate(requests) == DefaultEstimate(requests)
    ensures Hereditary(BatchFits(groups, p.estimate, maxJudgments, maxBytes))
  {
    hide DefaultEstimate, BatchFits;
    DefaultFitsIsHereditary(groups, maxJudgments, maxBytes);
    var fits, theirs := BatchFits(groups, DefaultEstimate, maxJudgments, maxBytes),
                        BatchFits(groups, p.estimate, maxJudgments, maxBytes);
    forall s: seq<nat>, a: nat, b: nat | a < b <= |s| && theirs(s)
      ensures theirs(s[a..b])
    {
      SameFits(p, groups, maxJudgments, maxBytes, s);
      SameFits(p, groups, maxJudgments, maxBytes, s[a..b]);
      assert fits(s[a..b]);
    }
  }

  lemma SameFits(p: Provider, groups: seq<Group>, maxJudgments: nat, maxBytes: nat, batch: seq<nat>)
    requires forall requests :: p.estimate(requests) == DefaultEstimate(requests)
    ensures BatchFits(groups, p.estimate, maxJudgments, maxBytes)(batch)
       <==> BatchFits(groups, DefaultEstimate, maxJudgments, maxBytes)(batch)
  {
    hide DefaultEstimate;
    if InRange(batch, |groups|) {
      assert p.estimate(RequestsFor(groups, batch)) == DefaultEstimate(RequestsFor(groups, batch));
    }
  }

  /** Everything that can make batched execution fail. */
  ghost predicate BatchFault(p: Provider, groups: seq<Group>, maxJudgments: nat, limits: Limits,
                             policy: Option<CacheLog.Policy>, claimed: set<Identity>, s: Snapshot)
  {
    || p.capabilities.multiStateBatch != Verified || !AllCapable(p, groups)
    || limits.maxRequestBytes == 0 || maxJudgments == 0 || p.capabilities.maxBatchJudgments == Some(0)
    || !PolicyOk(policy)
    || (exists g :: 0 <= g < |groups| && p.estimate([Rekeyed(groups, g, 0)]) > limits.maxRequestBytes)
    || CallFault(p, limits.maxInflight, s)
    || FollowFault(IdSet(groups), claimed, s)
  }

  lemma InactiveFault(p: Provider, maxInflight: nat, s: Snapshot)
    requires !s.active
    ensures CallFault(p, maxInflight, s)
  {
  }

  lemma DispatchFault(p: Provider, groups: seq<Group>, limits: Limits, fits: seq<nat> -> bool, s: Snapshot, t: Snapshot,
                      k: set<Identity>)
    requires CallFault(p, limits.maxInflight, s) || MisfitAmong(groups, fits)
    requires Moves(s, t, {}, k) && t.calls == s.calls
    ensures CallFault(p, limits.maxInflight, t) || MisfitAmong(groups, fits)
  {
    hide MisfitAmong, CallFault;
    if CallFault(p, limits.maxInflight, s) {
      CallFaultStays(p, limits.maxInflight, s, t, {}, k);
    }
  }

  /** A failed wait was for someone else's entry: the own ones have all succeeded. */
  lemma FollowersFault(groups: seq<Group>, followers: seq<nat>, claimed: set<Identity>, s: Snapshot)
    requires InRange(followers, |groups|) && AllSucceeded(claimed, s)
    requires exists k :: 0 <= k < |followers| && WaitFault(s, groups[followers[k]].identity)
    ensures FollowFault(IdSet(groups), claimed, s)
  {
    var k :| 0 <= k < |followers| && WaitFault(s, groups[followers[k]].identity);
    var id := groups[followers[k]].identity;
    assert id in IdSet(groups) && id !in claimed;
  }

  /** The part of `execute_batch_groups` after the claim loop: dispatch, then wait for the others. */
  method DispatchAndAwait(groups: seq<Group>, c: Claims, hitRows: Output, p: Provider, rt: Runtime, batchLimit: nat,
                          limits: Limits, policy: Option<CacheLog.Policy>, ghost s0: Snapshot,
                          ghost claimed: set<Identity>, ghost fits: seq<nat> -> bool)
    returns (r: Result<Output>, ghost batches: seq<seq<nat>>)
    requires Honest(p) && GroupsOk(p, groups) && Inv(p, rt.Now()) && s0.owned <= s0.entries.Keys
    requires fits == BatchFits(groups, p.estimate, batchLimit, limits.maxRequestBytes)
    requires ClaimState(p, groups, s0, rt.Now(), c, |groups|, claimed, hitRows)
    modifies rt
    ensures Inv(p, rt.Now()) && Moves(s0, rt.Now(), claimed, {}) && AllSettled(claimed, rt.Now())
    ensures r.Ok? ==> RowsCorrect(p, groups, r.value) && multiset(OutTargets(r.value)) == multiset(AllTargets(groups))
    ensures r.Ok? ==> AllSucceeded(claimed, rt.Now()) && PlanAll(c.partitions, fits) == Some(batches)
    ensures NoneAbandoned(claimed, rt.Now()) && SentWithinLimits(groups, fits, s0, rt.Now(), batches)
    ensures r.Err? ==>
      || MisfitAmong(groups, fits) || CallFault(p, limits.maxInflight, rt.Now())
      || FollowFault(IdSet(groups), claimed, rt.Now())
  {
    hide DistinctAt, Owed, IdsAt, Succeeded, Moves, RowsCorrect, TargetsAt, Known, Answers, Inv, Classified,
         NoneAbandoned, SentWithinLimits, PlanAll, Flatten, AllSettled, AllSucceeded, Settled, Honest, GroupsOk,
         BatchFits, CallFault, WaitFault, FollowFault, MisfitAmong, AllTargets;
    ghost var s1 := rt.Now();
    ClassifyInRange(c, IdsOf(groups), |groups|);
    PartitionsAreLeaders(groups, c, |groups|, s1);
    var sent;
    sent, batches := DispatchPartitions(groups, c.partitions, p, rt, batchLimit, limits, policy);
    ghost var s2 := rt.Now();
    SentNothing(groups, fits, s0, s1);
    AfterDispatch(p, groups, s0, s1, s2, c, claimed, hitRows, fits, batches);
    if sent.Err? {
      CompleteWithError(groups, c.leaders, p, rt, sent.error);
      DispatchFault(p, groups, limits, fits, s2, rt.Now(), IdsAt(groups, c.leaders));
      AfterFailure(p, groups, s0, s2, rt.Now(), c, claimed, fits, batches);
      return Err(sent.error), batches;
    }
    SameMultiset(c, groups);
    SameSucceeded(groups, Flatten(c.partitions), c.leaders, s2);
    var followed := AwaitFollowers(groups, c.followers, p, rt);
    AfterWait(groups, s0, s2, rt.Now(), c, claimed, fits, batches);
    if followed.Err? {
      FollowersFault(groups, c.followers, claimed, rt.Now());
      return Err(followed.error), batches;
    }
    AllRowsServed(p, groups, c, hitRows, sent.value, followed.value);
    return Ok(hitRows + sent.value + followed.value), batches;
  }

  lemma AllRowsServed(p: Provider, groups: seq<Group>, c: Claims, hits: Output, led: Output, followed: Output)
    requires Classified(c, IdsOf(groups), |groups|)
    requires InRange(c.hits, |groups|) && InRange(Flatten(c.partitions), |groups|) && InRange(c.followers, |groups|)
    requires RowsCorrect(p, groups, hits) && OutTargets(hits) == TargetsAt(groups, c.hits)
    requires RowsCorrect(p, groups, led) && OutTargets(led) == TargetsAt(groups, Flatten(c.partitions))
    requires RowsCorrect(p, groups, followed) && OutTargets(followed) == TargetsAt(groups, c.followers)
    ensures RowsCorrect(p, groups, hits + led + followed)
    ensures multiset(OutTargets(hits + led + followed)) == multiset(AllTargets(groups))
  {
    hide Classified, RowsCorrect, TargetsAt, Flatten, AllTargets, IdsOf;
    RowsConcat(p, groups, hits, led);
    RowsConcat(p, groups, hits + led, followed);
    AllTargetsServed(groups, c);
    assert OutTargets(hits + led + followed) == OutTargets(hits) + OutTargets(led) + OutTargets(followed);
  }

  /** `execute_batch_groups`. `claims` is present once the claim loop has finished; `batches` are
      the batches handed to the provider. */
  method ExecuteBatchGroups(groups: seq<Group>, p: Provider, rt: Runtime, maxJudgments: nat, limits: Limits,
                            policy: Option<CacheLog.Policy>)
    returns (r: Result<Output>, ghost claims: Option<Claims>, ghost claimed: set<Identity>, ghost batches: seq<seq<nat>>)
    requires Honest(p) && GroupsOk(p, groups) && Inv(p, rt.Now())
    modifies rt
    ensures Inv(p, rt.Now()) && Moves(old(rt.Now()), rt.Now(), claimed, {}) && claimed !! old(rt.owned)
    // Output association: each target as often as it was asked for, with its own answer.
    ensures r.Ok? ==> RowsCorrect(p, groups, r.value) && multiset(OutTargets(r.value)) == multiset(AllTargets(groups))
    // Leader completion.
    ensures claims.Some? ==> AllSettled(claimed, rt.Now())
    ensures r.Ok? ==> claims.Some? && AllSucceeded(claimed, rt.Now())
    ensures r.Err? && !FailsMidway(p, groups) ==> NoneAbandoned(claimed, rt.Now())
    // Unusable limits or capabilities end it before anything is claimed.
    ensures p.capabilities.multiStateBatch != Verified ==> r == Err(BATCHING_UNVERIFIED) && rt.Now() == old(rt.Now())
    ensures p.capabilities.multiStateBatch == Verified && (maxJudgments == 0 || limits.maxRequestBytes == 0) ==>
      r == Err(BATCH_LIMITS_ZERO) && rt.Now() == old(rt.Now())
    ensures
      p.capabilities.multiStateBatch == Verified && maxJudgments > 0 && limits.maxRequestBytes > 0
      && p.capabilities.maxBatchJudgments == Some(0) ==>
        r == Err(SERVICE_LIMIT_ZERO) && rt.Now() == old(rt.Now())
    // Batch planning. Nothing is sent before every group has passed the checks.
    ensures claims.Some? ==> AllCapable(p, groups) && p.capabilities.multiStateBatch == Verified
    ensures batches != [] ==> claims.Some?
    ensures SentWithinLimits(groups, BatchFits(groups, p.estimate, BatchLimit(maxJudgments, p), limits.maxRequestBytes),
                             old(rt.Now()), rt.Now(), batches)
    ensures forall b :: 0 <= b < |batches| ==>
      MeetsLimits(p, groups, maxJudgments, limits.maxRequestBytes, batches[b])
    ensures claims.Some? ==> Classified(claims.value, IdsOf(groups), |groups|)
    ensures r.Ok? ==>
      PlanAll(claims.value.partitions,
              BatchFits(groups, p.estimate, BatchLimit(maxJudgments, p), limits.maxRequestBytes)) == Some(batches)
    // Failures.
    ensures r.Err? ==> BatchFault(p, groups, maxJudgments, limits, policy, claimed, rt.Now())
  {
    hide Moves, RowsCorrect, Inv, Classified, NoneAbandoned, SentWithinLimits, PlanAll, AllSettled, AllSucceeded, Honest,
         GroupsOk, BatchFits, CallFault, FollowFault, AllCapable, MisfitAmong, AllTargets, ClaimState, PolicyOk,
         FailsMidway, MeetsLimits;
    ghost var s0 := rt.Now();
    SelfOwned(p, s0);
    ghost var fits := BatchFits(groups, p.estimate, BatchLimit(maxJudgments, p), limits.maxRequestBytes);
    NothingSent(groups, fits, s0);
    claims, claimed, batches := None, {}, [];
    if p.capabilities.multiStateBatch != Verified {
      return Err(BATCHING_UNVERIFIED), None, {}, [];
    }
    if maxJudgments == 0 || limits.maxRequestBytes == 0 {
      return Err(BATCH_LIMITS_ZERO), None, {}, [];
    }
    var batchLimit := BatchLimit(maxJudgments, p);
    if batchLimit == 0 {
      return Err(SERVICE_LIMIT_ZERO), None, {}, [];
    }
    var claim;
    claim, claimed := ClaimGroups(groups, p, rt, policy);
    ghost var s1 := rt.Now();
    SentNothing(groups, fits, s0, s1);
    if claim.Err? {
      if !s1.active {
        InactiveFault(p, limits.maxInflight, s1);
      }
      return Err(claim.error), None, claimed, [];
    }
    var c, hitRows := claim.value.0, claim.value.1;
    claims := Some(c);
    StateIsClassified(p, groups, s0, s1, c, claimed, hitRows);
    r, batches := DispatchAndAwait(groups, c, hitRows, p, rt, batchLimit, limits, policy, s0, claimed, fits);
    SentMeetLimits(p, groups, maxJudgments, limits.maxRequestBytes, s0, rt.Now(), batches);
    if MisfitAmong(groups, fits) {
      MisfitIsTooLarge(p, groups, maxJudgments, limits.maxRequestBytes);
    }
  }

  lemma StateIsClassified(p: Provider, groups: seq<Group>, s0: Snapshot, s: Snapshot, c: Claims,
                          claimed: set<Identity>, output: Output)
    requires ClaimState(p, groups, s0, s, c, |groups|, claimed, output)
    ensures Classified(c, IdsOf(groups), |groups|)
  {
  }

  lemma NothingSent(groups: seq<Group>, fits: seq<nat> -> bool, s: Snapshot)
    ensures SentWithinLimits(groups, fits, s, s, []) && Moves(s, s, {}, {}) && NoneAbandoned({}, s)
  {
    assert s.calls == s.calls + CallsFor(groups, []);
  }

  lemma SentNothing(groups: seq<Group>, fits: seq<nat> -> bool, s: Snapshot, t: Snapshot)
    requires t.calls == s.calls
    ensures SentWithinLimits(groups, fits, s, t, [])
  {
    assert t.calls == s.calls + CallsFor(groups, []);
  }

  lemma SameMultiset(c: Claims, groups: seq<Group>)
    requires Classified(c, IdsOf(groups), |groups|)
    ensures multiset(Flatten(c.partitions)) == multiset(c.leaders)
  {
  }

  lemma AfterDispatch(p: Provider, groups: seq<Group>, s0: Snapshot, s1: Snapshot, s2: Snapshot, c: Claims,
                      claimed: set<Identity>, output: Output, fits: seq<nat> -> bool, batches: seq<seq<nat>>)
    requires s0.owned <= s0.entries.Keys && ClaimState(p, groups, s0, s1, c, |groups|, claimed, output)
    requires InRange(Flatten(c.partitions), |groups|)
    requires IdsAt(groups, Flatten(c.partitions)) == IdsAt(groups, c.leaders)
    requires Moves(s1, s2, {}, IdsAt(groups, Flatten(c.partitions))) && SentWithinLimits(groups, fits, s1, s2, batches)
    ensures Moves(s0, s2, claimed, {}) && SentWithinLimits(groups, fits, s0, s2, batches)
    ensures Succeeded(groups, c.hits, s2) && Known(groups, c.followers, s2)
    ensures forall k :: 0 <= k < |c.leaders| ==> groups[c.leaders[k]].identity in s2.owned
  {
    hide RowsCorrect, TargetsAt, Classified, Flatten, DistinctAt;
    ClassifyInRange(c, IdsOf(groups), |groups|);
    var led := IdsAt(groups, c.leaders);
    Chain(s0, s1, s2, claimed, {}, {}, led, claimed, led);
    OnlyOwnCompleted(s0, s2, claimed, led);
    SucceededStays(groups, c.hits, s1, s2, {}, led);
    KnownStays(groups, c.followers, s1, s2, {}, led);
  }

  lemma AfterFailure(p: Provider, groups: seq<Group>, s0: Snapshot, s2: Snapshot, s3: Snapshot, c: Claims,
                     claimed: set<Identity>, fits: seq<nat> -> bool, batches: seq<seq<nat>>)
    requires s0.owned <= s0.entries.Keys && InRange(c.leaders, |groups|) && InRange(c.hits, |groups|)
    requires claimed == IdsAt(groups, c.hits) + IdsAt(groups, c.leaders) && claimed !! s0.owned
    requires Moves(s0, s2, claimed, {}) && Moves(s2, s3, {}, IdsAt(groups, c.leaders)) && s3.calls == s2.calls
    requires Succeeded(groups, c.hits, s2) && Settled(groups, c.leaders, s3)
    requires SentWithinLimits(groups, fits, s0, s2, batches)
    ensures Moves(s0, s3, claimed, {}) && AllSettled(claimed, s3) && NoneAbandoned(claimed, s3)
    ensures SentWithinLimits(groups, fits, s0, s3, batches)
  {
    var led := IdsAt(groups, c.leaders);
    Chain(s0, s2, s3, claimed, {}, {}, led, claimed, led);
    OnlyOwnCompleted(s0, s3, claimed, led);
    SucceededStays(groups, c.hits, s2, s3, {}, led);
    LeadersSettled(groups, c, claimed, s3);
  }

  lemma AfterWait(groups: seq<Group>, s0: Snapshot, s2: Snapshot, s3: Snapshot, c: Claims, claimed: set<Identity>,
                  fits: seq<nat> -> bool, batches: seq<seq<nat>>)
    requires s0.owned <= s0.entries.Keys && InRange(c.leaders, |groups|) && InRange(c.hits, |groups|)
    requires claimed == IdsAt(groups, c.hits) + IdsAt(groups, c.leaders)
    requires Moves(s0, s2, claimed, {}) && Moves(s2, s3, {}, {}) && s3.calls == s2.calls
    requires Succeeded(groups, c.hits, s2) && Succeeded(groups, c.leaders, s2)
    requires SentWithinLimits(groups, fits, s0, s2, batches)
    ensures Moves(s0, s3, claimed, {}) && AllSettled(claimed, s3) && AllSucceeded(claimed, s3)
    ensures NoneAbandoned(claimed, s3) && SentWithinLimits(groups, fits, s0, s3, batches)
  {
    Chain(s0, s2, s3, claimed, {}, {}, {}, claimed, {});
    SucceededStays(groups, c.hits, s2, s3, {}, {});
    SucceededStays(groups, c.leaders, s2, s3, {}, {});
    LeadersSettled(groups, c, claimed, s3);
  }
}
