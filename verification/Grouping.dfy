/** `group_by_identity`: one group per distinct judgment, keeping every output target. */
module Grouping {
  import opened Judgment
  import opened Collections

  datatype RowTarget = RowTarget(functionInvocation: nat, dataChunk: nat, row: nat)

  datatype Work = Work(identity: Identity, request: JudgmentRequest, target: RowTarget)

  datatype Group = Group(identity: Identity, request: JudgmentRequest, targets: seq<RowTarget>)

  /** The targets of the work items with identity `id`, in input order. */
  function TargetsFor(work: seq<Work>, id: Identity): seq<RowTarget> {
    if work == [] then []
    else
      var last := work[|work| - 1];
      TargetsFor(work[..|work| - 1], id) + (if last.identity == id then [last.target] else [])
  }

  /** Where `id` first occurs; the length when it does not. */
  function First(work: seq<Work>, id: Identity): (i: nat)
    ensures i <= |work| && (i < |work| ==> work[i].identity == id)
    ensures forall k :: 0 <= k < i ==> work[k].identity != id
  {
    if work == [] then 0 else if work[0].identity == id then 0 else 1 + First(work[1..], id)
  }

  function Targets(work: seq<Work>): (r: seq<RowTarget>)
    ensures |r| == |work|
  {
    seq(|work|, i requires 0 <= i < |work| => work[i].target)
  }

  function AllTargets(groups: seq<Group>): seq<RowTarget> {
    if groups == [] then [] else groups[0].targets + AllTargets(groups[1..])
  }

  ghost predicate GroupMatches(group: Group, work: seq<Work>) {
    && First(work, group.identity) < |work|
    && group.request == work[First(work, group.identity)].request
    && group.targets == TargetsFor(work, group.identity)
  }

  ghost predicate AllMatch(groups: seq<Group>, work: seq<Work>) {
    forall g :: 0 <= g < |groups| ==> GroupMatches(groups[g], work)
  }

  ghost predicate InFirstOrder(groups: seq<Group>, work: seq<Work>) {
    forall g, h :: 0 <= g < h < |groups| ==>
      First(work, groups[g].identity) < First(work, groups[h].identity)
  }

  predicate HasGroup(groups: seq<Group>, id: Identity) {
    exists g :: 0 <= g < |groups| && groups[g].identity == id
  }

  ghost predicate Covers(groups: seq<Group>, work: seq<Work>) {
    forall i :: 0 <= i < |work| ==> HasGroup(groups, work[i].identity)
  }

  /** A stable partition: groups stand in first-occurrence order, so their identities are pairwise
      distinct, each has the request of its first occurrence and exactly its own targets, and every
      work item belongs to one. */
  ghost predicate StablePartition(groups: seq<Group>, work: seq<Work>) {
    AllMatch(groups, work) && InFirstOrder(groups, work) && Covers(groups, work)
  }

  lemma {:induction false} FirstSnoc(work: seq<Work>, item: Work, id: Identity)
    ensures First(work + [item], id)
         == if First(work, id) < |work| then First(work, id)
            else if item.identity == id then |work| else |work| + 1
  {
    var all := work + [item];
    if work != [] {
      assert all[1..] == work[1..] + [item];
      FirstSnoc(work[1..], item, id);
    }
  }

  lemma {:induction false} AllTargetsConcat(xs: seq<Group>, ys: seq<Group>)
    ensures AllTargets(xs + ys) == AllTargets(xs) + AllTargets(ys)
  {
    if xs == [] {
      assert xs + ys == ys;
    } else {
      AllTargetsConcat(xs[1..], ys);
      assert (xs + ys)[1..] == xs[1..] + ys;
      ConcatAssociative(xs[0].targets, AllTargets(xs[1..]), AllTargets(ys));
    }
  }

  lemma TargetAdded(groups: seq<Group>, g: nat, t: RowTarget)
    requires g < |groups|
    ensures var grown := groups[g := groups[g].(targets := groups[g].targets + [t])];
            multiset(AllTargets(grown)) == multiset(AllTargets(groups)) + multiset{t}
  {
    var grown := groups[g := groups[g].(targets := groups[g].targets + [t])];
    assert groups == groups[..g] + ([groups[g]] + groups[g + 1..]);
    assert grown == groups[..g] + ([grown[g]] + groups[g + 1..]);
    AllTargetsConcat(groups[..g], [groups[g]] + groups[g + 1..]);
    AllTargetsConcat(groups[..g], [grown[g]] + groups[g + 1..]);
    assert ([groups[g]] + groups[g + 1..])[1..] == groups[g + 1..];
    assert ([grown[g]] + groups[g + 1..])[1..] == groups[g + 1..];
  }

  function Grown(groups: seq<Group>, g: nat, t: RowTarget): (r: seq<Group>)
    requires g < |groups|
    ensures |r| == |groups| && forall h :: 0 <= h < |groups| ==> r[h].identity == groups[h].identity
  {
    groups[g := groups[g].(targets := groups[g].targets + [t])]
  }

  lemma DistinctFromOrder(groups: seq<Group>, work: seq<Work>)
    requires InFirstOrder(groups, work)
    ensures forall g, h :: 0 <= g < h < |groups| ==> groups[g].identity != groups[h].identity
  {
    forall g, h | 0 <= g < h < |groups|
      ensures groups[g].identity != groups[h].identity
    {
      assert First(work, groups[g].identity) < First(work, groups[h].identity);
    }
  }

  /** A group whose identity is not the newcomer's still matches. */
  lemma StillMatches(group: Group, work: seq<Work>, item: Work)
    requires GroupMatches(group, work)
    ensures First(work + [item], group.identity) == First(work, group.identity)
    ensures group.identity != item.identity ==> GroupMatches(group, work + [item])
    ensures group.identity == item.identity ==>
      GroupMatches(group.(targets := group.targets + [item.target]), work + [item])
  {
    FirstSnoc(work, item, group.identity);
    assert (work + [item])[..|work|] == work;
  }

  lemma OrderSurvives(groups: seq<Group>, grown: seq<Group>, work: seq<Work>, item: Work)
    requires AllMatch(groups, work) && InFirstOrder(groups, work)
    requires |grown| == |groups| && forall h :: 0 <= h < |groups| ==> grown[h].identity == groups[h].identity
    ensures InFirstOrder(grown, work + [item])
  {
    forall g, h | 0 <= g < h < |grown|
      ensures First(work + [item], grown[g].identity) < First(work + [item], grown[h].identity)
    {
      assert First(work, groups[g].identity) < First(work, groups[h].identity);
      StillMatches(groups[g], work, item);
      StillMatches(groups[h], work, item);
    }
  }

  lemma CoverGrows(groups: seq<Group>, grown: seq<Group>, work: seq<Work>, item: Work)
    requires Covers(groups, work) && HasGroup(grown, item.identity)
    requires forall h :: 0 <= h < |groups| ==> HasGroup(grown, groups[h].identity)
    ensures Covers(grown, work + [item])
  {
    forall i | 0 <= i < |work|
      ensures HasGroup(grown, work[i].identity)
    {
      var h :| 0 <= h < |groups| && groups[h].identity == work[i].identity;
    }
  }

  /** One more occurrence of a known identity. */
  lemma PartitionGrows(groups: seq<Group>, work: seq<Work>, item: Work, g: nat)
    requires StablePartition(groups, work) && g < |groups| && groups[g].identity == item.identity
    ensures StablePartition(Grown(groups, g, item.target), work + [item])
  {
    var grown := Grown(groups, g, item.target);
    DistinctFromOrder(groups, work);
    forall h | 0 <= h < |grown|
      ensures GroupMatches(grown[h], work + [item])
    {
      StillMatches(groups[h], work, item);
    }
    OrderSurvives(groups, grown, work, item);
    forall h | 0 <= h < |groups|
      ensures HasGroup(grown, groups[h].identity)
    {
      assert grown[h].identity == groups[h].identity;
    }
    CoverGrows(groups, grown, work, item);
  }

  lemma {:induction false} NoTargetsFor(work: seq<Work>, id: Identity)
    requires forall i :: 0 <= i < |work| ==> work[i].identity != id
    ensures TargetsFor(work, id) == []
  {
    if work != [] {
      NoTargetsFor(work[..|work| - 1], id);
    }
  }

  function Opened(item: Work): Group {
    Group(item.identity, item.request, [item.target])
  }

  lemma OpenedMatches(groups: seq<Group>, work: seq<Work>, item: Work)
    requires Covers(groups, work) && !HasGroup(groups, item.identity)
    ensures First(work + [item], item.identity) == |work|
    ensures GroupMatches(Opened(item), work + [item])
  {
    forall i | 0 <= i < |work|
      ensures work[i].identity != item.identity
    {
      assert HasGroup(groups, work[i].identity);
    }
    NoTargetsFor(work, item.identity);
    FirstSnoc(work, item, item.identity);
    assert (work + [item])[..|work|] == work;
  }

  /** The first occurrence of a new identity. */
  lemma PartitionOpens(groups: seq<Group>, work: seq<Work>, item: Work)
    requires StablePartition(groups, work) && !HasGroup(groups, item.identity)
    ensures StablePartition(groups + [Opened(item)], work + [item])
  {
    var all, grown := work + [item], groups + [Opened(item)];
    OpenedMatches(groups, work, item);
    forall h | 0 <= h < |groups|
      ensures GroupMatches(groups[h], all) && First(all, groups[h].identity) < |work|
      ensures HasGroup(grown, groups[h].identity)
    {
      StillMatches(groups[h], work, item);
      assert grown[h] == groups[h];
    }
    OrderSurvives(groups, groups, work, item);
    assert grown[|groups|].identity == item.identity;
    CoverGrows(groups, grown, work, item);
  }

  /** The position index knows exactly the groups there are. */
  ghost predicate Indexed(positions: map<Identity, nat>, groups: seq<Group>) {
    && (forall id :: id in positions ==> positions[id] < |groups| && groups[positions[id]].identity == id)
    && (forall g :: 0 <= g < |groups| ==> groups[g].identity in positions)
  }

  ghost predicate SameTargets(groups: seq<Group>, work: seq<Work>) {
    multiset(AllTargets(groups)) == multiset(Targets(work))
  }

  lemma TargetsSnoc(work: seq<Work>, item: Work)
    ensures multiset(Targets(work + [item])) == multiset(Targets(work)) + multiset{item.target}
  {
    assert Targets(work + [item]) == Targets(work) + [item.target];
  }

  lemma SameTargetsGrows(groups: seq<Group>, work: seq<Work>, item: Work, g: nat)
    requires SameTargets(groups, work) && g < |groups|
    ensures SameTargets(Grown(groups, g, item.target), work + [item])
  {
    TargetAdded(groups, g, item.target);
    TargetsSnoc(work, item);
  }

  lemma SameTargetsOpens(groups: seq<Group>, work: seq<Work>, item: Work)
    requires SameTargets(groups, work)
    ensures SameTargets(groups + [Opened(item)], work + [item])
  {
    AllTargetsConcat(groups, [Opened(item)]);
    assert AllTargets([Opened(item)]) == [item.target];
    TargetsSnoc(work, item);
  }

  /** What the loop has established once the first `i` items are placed. */
  ghost predicate GroupedUpTo(groups: seq<Group>, work: seq<Work>, i: nat)
    requires i <= |work|
  {
    StablePartition(groups, work[..i]) && SameTargets(groups, work[..i])
  }

  lemma NothingPlaced(work: seq<Work>)
    ensures GroupedUpTo([], work, 0)
  {
  }

  lemma KnownPlaced(groups: seq<Group>, work: seq<Work>, i: nat, g: nat)
    requires i < |work| && GroupedUpTo(groups, work, i)
    requires g < |groups| && groups[g].identity == work[i].identity
    ensures GroupedUpTo(Grown(groups, g, work[i].target), work, i + 1)
  {
    assert work[..i + 1] == work[..i] + [work[i]];
    PartitionGrows(groups, work[..i], work[i], g);
    SameTargetsGrows(groups, work[..i], work[i], g);
  }

  lemma NewPlaced(groups: seq<Group>, work: seq<Work>, i: nat)
    requires i < |work| && GroupedUpTo(groups, work, i) && !HasGroup(groups, work[i].identity)
    ensures GroupedUpTo(groups + [Opened(work[i])], work, i + 1)
  {
    assert work[..i + 1] == work[..i] + [work[i]];
    PartitionOpens(groups, work[..i], work[i]);
    SameTargetsOpens(groups, work[..i], work[i]);
  }

  lemma AllPlaced(groups: seq<Group>, work: seq<Work>)
    requires GroupedUpTo(groups, work, |work|)
    ensures StablePartition(groups, work) && SameTargets(groups, work)
  {
    assert work[..|work|] == work;
  }

  method GroupByIdentity(work: seq<Work>) returns (groups: seq<Group>)
    ensures StablePartition(groups, work)
    ensures SameTargets(groups, work)
  {
    hide GroupedUpTo, StablePartition, SameTargets;
    groups := [];
    var positions: map<Identity, nat> := map[];
    NothingPlaced(work);
    for i := 0 to |work|
      invariant GroupedUpTo(groups, work, i)
      invariant Indexed(positions, groups)
    {
      var item := work[i];
      if item.identity in positions {
        var index := positions[item.identity];
        KnownPlaced(groups, work, i, index);
        groups := Grown(groups, index, item.target);
      } else {
        var index := |groups|;
        NewPlaced(groups, work, i);
        positions := positions[item.identity := index];
        groups := groups + [Opened(item)];
      }
    }
    AllPlaced(groups, work);
  }

  lemma {:induction false} TargetsForMembers(work: seq<Work>, id: Identity, t: RowTarget)
    ensures t in TargetsFor(work, id) <==> exists i :: 0 <= i < |work| && work[i].identity == id && work[i].target == t
  {
    if work != [] {
      var init := work[..|work| - 1];
      TargetsForMembers(init, id, t);
      if t in TargetsFor(init, id) {
        var i :| 0 <= i < |init| && init[i].identity == id && init[i].target == t;
        assert work[i].identity == id && work[i].target == t;
      }
      if exists i :: 0 <= i < |work| && work[i].identity == id && work[i].target == t {
        var i :| 0 <= i < |work| && work[i].identity == id && work[i].target == t;
        if i < |init| { assert init[i].identity == id && init[i].target == t; }
      }
    }
  }

  /** In a stable partition the group at `k` opens where no earlier group has a first occurrence. */
  lemma EarlierGroup(groups: seq<Group>, work: seq<Work>, k: nat, i: nat) returns (g: nat)
    requires StablePartition(groups, work) && k < |groups| && i < First(work, groups[k].identity)
    ensures g < k && groups[g].identity == work[i].identity
  {
    assert GroupMatches(groups[k], work) && HasGroup(groups, work[i].identity);
    g :| 0 <= g < |groups| && groups[g].identity == work[i].identity;
    assert forall h :: k < h < |groups| ==> First(work, groups[k].identity) < First(work, groups[h].identity);
  }

  lemma NotEarlier(xs: seq<Group>, ys: seq<Group>, work: seq<Work>, k: nat)
    requires StablePartition(xs, work) && StablePartition(ys, work)
    requires k < |xs| && k < |ys| && xs[..k] == ys[..k]
    ensures First(work, ys[k].identity) <= First(work, xs[k].identity)
  {
    var i := First(work, xs[k].identity);
    assert GroupMatches(xs[k], work);
    assert work[i].identity == xs[k].identity;
    DistinctFromOrder(xs, work);
    hide StablePartition, First;
    assert forall h :: 0 <= h < k ==> ys[h] == ys[..k][h] == xs[..k][h] == xs[h];
    if i < First(work, ys[k].identity) {
      var g := EarlierGroup(ys, work, k, i);
      assert false;
    }
  }

  lemma SameGroup(xs: seq<Group>, ys: seq<Group>, work: seq<Work>, k: nat)
    requires StablePartition(xs, work) && StablePartition(ys, work) && k < |xs| && k < |ys|
    requires First(work, xs[k].identity) == First(work, ys[k].identity)
    ensures xs[k] == ys[k]
  {
    assert GroupMatches(xs[k], work) && GroupMatches(ys[k], work);
  }

  /** There is only one stable partition: two of them agree group by group. */
  lemma {:induction false} StablePartitionUnique(xs: seq<Group>, ys: seq<Group>, work: seq<Work>, k: nat)
    requires StablePartition(xs, work) && StablePartition(ys, work)
    requires k <= |xs| && k <= |ys|
    ensures xs[..k] == ys[..k]
  {
    hide StablePartition, First;
    if k > 0 {
      StablePartitionUnique(xs, ys, work, k - 1);
      NotEarlier(xs, ys, work, k - 1);
      NotEarlier(ys, xs, work, k - 1);
      SameGroup(xs, ys, work, k - 1);
      assert xs[..k] == xs[..k - 1] + [xs[k - 1]] && ys[..k] == ys[..k - 1] + [ys[k - 1]];
    }
  }

  lemma GroupKnown(xs: seq<Group>, ys: seq<Group>, work: seq<Work>, k: nat) returns (g: nat)
    requires StablePartition(xs, work) && StablePartition(ys, work) && k < |ys|
    ensures g < |xs| && xs[g].identity == ys[k].identity
  {
    hide First, TargetsFor;
    assert GroupMatches(ys[k], work);
    var i := First(work, ys[k].identity);
    assert HasGroup(xs, work[i].identity);
    g :| 0 <= g < |xs| && xs[g].identity == work[i].identity;
  }

  lemma NoMoreGroups(xs: seq<Group>, ys: seq<Group>, work: seq<Work>)
    requires StablePartition(xs, work) && StablePartition(ys, work) && |xs| <= |ys|
    ensures |xs| == |ys|
  {
    DistinctFromOrder(ys, work);
    hide StablePartition, First;
    StablePartitionUnique(xs, ys, work, |xs|);
    assert xs[..|xs|] == xs;
    assert forall h :: 0 <= h < |xs| ==> ys[h] == ys[..|xs|][h] == xs[h];
    if |xs| < |ys| {
      var g := GroupKnown(xs, ys, work, |xs|);
      assert false;
    }
  }

  /** The grouping is determined by the work: there is exactly one stable partition of it. */
  lemma OneStablePartition(xs: seq<Group>, ys: seq<Group>, work: seq<Work>)
    requires StablePartition(xs, work) && StablePartition(ys, work)
    ensures xs == ys
  {
    hide StablePartition;
    if |xs| <= |ys| {
      NoMoreGroups(xs, ys, work);
    } else {
      NoMoreGroups(ys, xs, work);
    }
    StablePartitionUnique(xs, ys, work, |xs|);
    assert xs[..|xs|] == xs && ys[..|xs|] == ys;
  }
}
