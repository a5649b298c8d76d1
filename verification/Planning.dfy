/** How a chunk's leaders become provider batches: compatible partitions, then a greedy split. */
module Planning {
  import opened Text
  import opened Collections
  import opened Judgment
  import opened Grouping

  // ---- Compatible partitions

  /** Adds `index` to the first partition whose first member shares its batch context, or opens a
      new one. */
  function Place(partitions: seq<seq<nat>>, ids: seq<Identity>, index: nat): seq<seq<nat>>
    requires index < |ids|
    requires forall p :: 0 <= p < |partitions| ==> partitions[p] != [] && partitions[p][0] < |ids|
  {
    if partitions == [] then [[index]]
    else if SameBatchContext(ids[partitions[0][0]], ids[index]) then [partitions[0] + [index]] + partitions[1..]
    else [partitions[0]] + Place(partitions[1..], ids, index)
  }

  ghost predicate OneContext(part: seq<nat>, ids: seq<Identity>)
    requires forall k :: 0 <= k < |part| ==> part[k] < |ids|
  {
    forall i, j :: 0 <= i < |part| && 0 <= j < |part| ==> SameBatchContext(ids[part[i]], ids[part[j]])
  }

  ghost predicate Separate(p: seq<nat>, q: seq<nat>, ids: seq<Identity>)
    requires forall k :: 0 <= k < |p| ==> p[k] < |ids|
    requires forall k :: 0 <= k < |q| ==> q[k] < |ids|
  {
    forall i, j :: 0 <= i < |p| && 0 <= j < |q| ==> !SameBatchContext(ids[p[i]], ids[q[j]])
  }

  predicate InRange(part: seq<nat>, n: nat) {
    forall k :: 0 <= k < |part| ==> part[k] < n
  }

  ghost predicate Ascending(part: seq<nat>) {
    forall i, j :: 0 <= i < j < |part| ==> part[i] < part[j]
  }

  ghost predicate PartitionOk(part: seq<nat>, ids: seq<Identity>) {
    part != [] && InRange(part, |ids|) && Ascending(part) && OneContext(part, ids)
  }

  /** Each partition is nonempty, keeps input order and shares one context pairwise; two partitions
      never share a context. */
  ghost predicate PartitionsOk(partitions: seq<seq<nat>>, ids: seq<Identity>) {
    && (forall p :: 0 <= p < |partitions| ==> PartitionOk(partitions[p], ids))
    && (forall p, q :: 0 <= p < q < |partitions| ==> Separate(partitions[p], partitions[q], ids))
  }

  function Flatten(parts: seq<seq<nat>>): seq<nat> {
    if parts == [] then [] else parts[0] + Flatten(parts[1..])
  }

  lemma {:induction false} FlattenConcat(xs: seq<seq<nat>>, ys: seq<seq<nat>>)
    ensures Flatten(xs + ys) == Flatten(xs) + Flatten(ys)
  {
    if xs == [] {
      assert xs + ys == ys;
    } else {
      FlattenConcat(xs[1..], ys);
      assert (xs + ys)[1..] == xs[1..] + ys;
      ConcatAssociative(xs[0], Flatten(xs[1..]), Flatten(ys));
    }
  }

  lemma {:induction false} FlattenMembers(parts: seq<seq<nat>>, x: nat)
    ensures x in Flatten(parts) <==> exists p :: 0 <= p < |parts| && x in parts[p]
  {
    if parts != [] {
      FlattenMembers(parts[1..], x);
      if x in Flatten(parts[1..]) {
        var p :| 0 <= p < |parts[1..]| && x in parts[1..][p];
        assert x in parts[p + 1];
      }
      if exists p :: 0 <= p < |parts| && x in parts[p] {
        var p :| 0 <= p < |parts| && x in parts[p];
        if p > 0 { assert x in parts[1..][p - 1]; }
      }
    }
  }

  lemma JoinPartition(part: seq<nat>, ids: seq<Identity>, index: nat)
    requires PartitionOk(part, ids) && index < |ids| && part[|part| - 1] < index
    requires SameBatchContext(ids[part[0]], ids[index])
    ensures PartitionOk(part + [index], ids)
  {
    var grown := part + [index];
    forall i, j | 0 <= i < |grown| && 0 <= j < |grown|
      ensures SameBatchContext(ids[grown[i]], ids[grown[j]])
    {
      assert i < |part| ==> SameBatchContext(ids[part[i]], ids[part[0]]);
      assert j < |part| ==> SameBatchContext(ids[part[0]], ids[part[j]]);
    }
  }

  /** Comparing with the first member settles the whole partition. */
  lemma SeparateByHead(part: seq<nat>, ids: seq<Identity>, index: nat)
    requires PartitionOk(part, ids) && index < |ids|
    requires !SameBatchContext(ids[part[0]], ids[index])
    ensures Separate(part, [index], ids)
  {
    forall i | 0 <= i < |part|
      ensures !SameBatchContext(ids[part[i]], ids[index])
    {
      assert SameBatchContext(ids[part[0]], ids[part[i]]);
    }
  }

  lemma JoinSeparate(p: seq<nat>, q: seq<nat>, ids: seq<Identity>, index: nat)
    requires PartitionOk(p, ids) && PartitionOk(q, ids) && index < |ids| && Separate(p, q, ids)
    requires SameBatchContext(ids[p[0]], ids[index])
    ensures Separate(p + [index], q, ids)
  {
    forall j | 0 <= j < |q|
      ensures !SameBatchContext(ids[index], ids[q[j]])
    {
      assert !SameBatchContext(ids[p[0]], ids[q[j]]);
    }
  }

  /** Where the newcomer goes: the position of the first partition it is compatible with, or the
      number of partitions. */
  function Slot(partitions: seq<seq<nat>>, ids: seq<Identity>, index: nat): (k: nat)
    requires index < |ids|
    requires forall p :: 0 <= p < |partitions| ==> partitions[p] != [] && partitions[p][0] < |ids|
    ensures k <= |partitions|
  {
    if partitions == [] then 0
    else if SameBatchContext(ids[partitions[0][0]], ids[index]) then 0
    else 1 + Slot(partitions[1..], ids, index)
  }

  lemma {:induction false} SlotIsFirst(partitions: seq<seq<nat>>, ids: seq<Identity>, index: nat)
    requires index < |ids|
    requires forall p :: 0 <= p < |partitions| ==> partitions[p] != [] && partitions[p][0] < |ids|
    ensures var k := Slot(partitions, ids, index);
            && (k < |partitions| ==> SameBatchContext(ids[partitions[k][0]], ids[index]))
            && forall p :: 0 <= p < k ==> !SameBatchContext(ids[partitions[p][0]], ids[index])
  {
    hide SameBatchContext;
    if partitions != [] && !SameBatchContext(ids[partitions[0][0]], ids[index]) {
      SlotIsFirst(partitions[1..], ids, index);
      var k := Slot(partitions, ids, index);
      assert k == 1 + Slot(partitions[1..], ids, index);
      forall p | 0 <= p < k
        ensures !SameBatchContext(ids[partitions[p][0]], ids[index])
      {
        assert p > 0 ==> partitions[p] == partitions[1..][p - 1];
      }
    }
  }

  lemma {:induction false} PlaceAtSlot(partitions: seq<seq<nat>>, ids: seq<Identity>, index: nat)
    requires index < |ids|
    requires forall p :: 0 <= p < |partitions| ==> partitions[p] != [] && partitions[p][0] < |ids|
    ensures var k := Slot(partitions, ids, index);
            Place(partitions, ids, index)
            == if k < |partitions| then partitions[k := partitions[k] + [index]] else partitions + [[index]]
  {
    hide SameBatchContext;
    if partitions != [] && !SameBatchContext(ids[partitions[0][0]], ids[index]) {
      PlaceAtSlot(partitions[1..], ids, index);
      assert partitions == [partitions[0]] + partitions[1..];
    }
  }

  lemma FlattenGrows(parts: seq<seq<nat>>, k: nat, index: nat)
    requires k < |parts|
    ensures multiset(Flatten(parts[k := parts[k] + [index]])) == multiset(Flatten(parts)) + multiset{index}
  {
    var grown := parts[k := parts[k] + [index]];
    assert parts == parts[..k] + ([parts[k]] + parts[k + 1..]);
    assert grown == parts[..k] + ([grown[k]] + parts[k + 1..]);
    FlattenConcat(parts[..k], [parts[k]] + parts[k + 1..]);
    FlattenConcat(parts[..k], [grown[k]] + parts[k + 1..]);
    assert ([parts[k]] + parts[k + 1..])[1..] == parts[k + 1..];
    assert ([grown[k]] + parts[k + 1..])[1..] == parts[k + 1..];
  }

  ghost predicate AllBelow(partitions: seq<seq<nat>>, bound: nat) {
    forall p :: 0 <= p < |partitions| ==> forall k :: 0 <= k < |partitions[p]| ==> partitions[p][k] < bound
  }

  lemma PlaceJoins(partitions: seq<seq<nat>>, ids: seq<Identity>, index: nat, k: nat)
    requires PartitionsOk(partitions, ids) && index < |ids| && AllBelow(partitions, index)
    requires k < |partitions| && SameBatchContext(ids[partitions[k][0]], ids[index])
    ensures PartitionsOk(partitions[k := partitions[k] + [index]], ids)
  {
    var placed := partitions[k := partitions[k] + [index]];
    assert forall p :: 0 <= p < |partitions| ==> PartitionOk(partitions[p], ids);
    JoinPartition(partitions[k], ids, index);
    forall p, q | 0 <= p < q < |placed|
      ensures Separate(placed[p], placed[q], ids)
    {
      assert Separate(partitions[p], partitions[q], ids);
      if p == k {
        JoinSeparate(partitions[p], partitions[q], ids, index);
      } else if q == k {
        SeparateSymmetric(partitions[p], partitions[q], ids);
        JoinSeparate(partitions[q], partitions[p], ids, index);
        SeparateSymmetric(placed[q], placed[p], ids);
      }
    }
  }

  lemma SeparateSymmetric(p: seq<nat>, q: seq<nat>, ids: seq<Identity>)
    requires InRange(p, |ids|) && InRange(q, |ids|) && Separate(p, q, ids)
    ensures Separate(q, p, ids)
  {
    forall i, j | 0 <= i < |q| && 0 <= j < |p|
      ensures !SameBatchContext(ids[q[i]], ids[p[j]])
    {
      assert !SameBatchContext(ids[p[j]], ids[q[i]]);
    }
  }

  lemma PlaceOpens(partitions: seq<seq<nat>>, ids: seq<Identity>, index: nat)
    requires PartitionsOk(partitions, ids) && index < |ids|
    requires forall p :: 0 <= p < |partitions| ==> !SameBatchContext(ids[partitions[p][0]], ids[index])
    ensures PartitionsOk(partitions + [[index]], ids)
  {
    var placed := partitions + [[index]];
    assert PartitionOk([index], ids);
    forall p, q | 0 <= p < q < |placed|
      ensures Separate(placed[p], placed[q], ids)
    {
      assert PartitionOk(partitions[p], ids);
      if q == |partitions| {
        SeparateByHead(partitions[p], ids, index);
      } else {
        assert Separate(partitions[p], partitions[q], ids);
      }
    }
  }

  /** Placing keeps the partitions right and adds exactly the newcomer. */
  lemma PlaceKeeps(partitions: seq<seq<nat>>, ids: seq<Identity>, index: nat)
    requires PartitionsOk(partitions, ids) && index < |ids| && AllBelow(partitions, index)
    ensures PartitionsOk(Place(partitions, ids, index), ids) && AllBelow(Place(partitions, ids, index), index + 1)
    ensures multiset(Flatten(Place(partitions, ids, index))) == multiset(Flatten(partitions)) + multiset{index}
  {
    hide SameBatchContext, PartitionOk, Separate, Flatten, Place;
    assert forall p :: 0 <= p < |partitions| ==> PartitionOk(partitions[p], ids);
    PartitionHeads(partitions, ids);
    var k := Slot(partitions, ids, index);
    SlotIsFirst(partitions, ids, index);
    PlaceAtSlot(partitions, ids, index);
    if k < |partitions| {
      PlaceJoins(partitions, ids, index, k);
      FlattenGrows(partitions, k, index);
    } else {
      PlaceOpens(partitions, ids, index);
      FlattenConcat(partitions, [[index]]);
      FlattenOne([index]);
    }
  }

  lemma PartitionHeads(partitions: seq<seq<nat>>, ids: seq<Identity>)
    requires PartitionsOk(partitions, ids)
    ensures forall p :: 0 <= p < |partitions| ==> partitions[p] != [] && partitions[p][0] < |ids|
  {
    assert forall p :: 0 <= p < |partitions| ==> PartitionOk(partitions[p], ids);
  }

  lemma FlattenOne(part: seq<nat>)
    ensures Flatten([part]) == part
  {
    assert [part][1..] == [];
  }

  // ---- Greedy split

  /** One pass over a partition: extend the current batch while it fits, otherwise close it and
      start the next. `None` is the error for a judgment that does not fit alone. */
  function Greedy(rest: seq<nat>, current: seq<nat>, fits: seq<nat> -> bool): Option<seq<seq<nat>>> {
    if rest == [] then Some(if current == [] then [] else [current])
    else if fits(current + [rest[0]]) then Greedy(rest[1..], current + [rest[0]], fits)
    else if current == [] || !fits([rest[0]]) then None
    else
      var later :- Greedy(rest[1..], [rest[0]], fits);
      Some([current] + later)
  }

  /** A split of `part` into consecutive nonempty batches that all fit. */
  ghost predicate IsSplit(batches: seq<seq<nat>>, part: seq<nat>, fits: seq<nat> -> bool) {
    && Flatten(batches) == part
    && forall b :: 0 <= b < |batches| ==> batches[b] != [] && fits(batches[b])
  }

  /** A batch that fits still fits after members are taken off either end. */
  ghost predicate Hereditary(fits: seq<nat> -> bool) {
    forall s: seq<nat>, a: nat, b: nat :: a < b <= |s| && fits(s) ==> fits(s[a..b])
  }

  /** On success every member lies in exactly one batch, in order, and every batch fits. */
  lemma {:induction false} GreedySplits(rest: seq<nat>, current: seq<nat>, fits: seq<nat> -> bool)
    requires Greedy(rest, current, fits).Some?
    requires current == [] || fits(current)
    ensures IsSplit(Greedy(rest, current, fits).value, current + rest, fits)
  {
    if rest == [] {
      assert current + rest == current;
    } else {
      var x := rest[0];
      assert current + rest == (current + [x]) + rest[1..];
      if fits(current + [x]) {
        GreedySplits(rest[1..], current + [x], fits);
      } else {
        GreedySplits(rest[1..], [x], fits);
        var later := Greedy(rest[1..], [x], fits).value;
        assert ([current] + later)[1..] == later;
        assert [x] + rest[1..] == rest;
      }
    }
  }

  /** Greedy stays ahead. `rest` is what both sides still have to place: the rival's open batch is
      `open + first`, then come `others`. Greedy's open batch `current` lies inside the rival's
      unless greedy is a whole batch `ahead`. */
  lemma {:induction false} StaysAhead(rest: seq<nat>, current: seq<nat>, fits: seq<nat> -> bool,
                                      open: seq<nat>, first: seq<nat>, others: seq<seq<nat>>, ahead: bool)
    requires Hereditary(fits) && Greedy(rest, current, fits).Some? && current != []
    requires rest == first + Flatten(others) && (first != [] ==> fits(open + first))
    requires forall b :: 0 <= b < |others| ==> others[b] != [] && fits(others[b])
    requires !ahead ==> |current| <= |open| && current == open[|open| - |current|..]
    ensures |Greedy(rest, current, fits).value| <= 1 + |others| + (if ahead then 1 else 0)
    decreases |rest|
  {
    if rest != [] {
      var x, rest' := rest[0], rest[1..];
      if first != [] {
        assert open + first == (open + [x]) + first[1..];
        assert rest' == first[1..] + Flatten(others);
        if !ahead {
          assert (open + first)[|open| - |current|..|open| + 1] == current + [x];
        }
        if fits(current + [x]) {
          StaysAhead(rest', current + [x], fits, open + [x], first[1..], others, ahead);
        } else {
          StaysAhead(rest', [x], fits, open + [x], first[1..], others, false);
        }
      } else {
        assert others != [];
        var b := others[0];
        assert x == b[0] && b == [x] + b[1..];
        assert rest' == b[1..] + Flatten(others[1..]);
        if fits(current + [x]) {
          StaysAhead(rest', current + [x], fits, [x], b[1..], others[1..], true);
        } else {
          StaysAhead(rest', [x], fits, [x], b[1..], others[1..], false);
        }
      }
    }
  }

  /** No order-preserving split of a partition uses fewer batches than the greedy one. */
  lemma GreedyIsOptimal(part: seq<nat>, fits: seq<nat> -> bool, rival: seq<seq<nat>>)
    requires Hereditary(fits) && Greedy(part, [], fits).Some? && IsSplit(rival, part, fits)
    ensures |Greedy(part, [], fits).value| <= |rival|
  {
    if part != [] {
      assert rival != [];
      var b, x := rival[0], part[0];
      assert x == b[0] && b == [x] + b[1..];
      assert [] + [x] == [x];
      assert part[1..] == b[1..] + Flatten(rival[1..]);
      StaysAhead(part[1..], [x], fits, [x], b[1..], rival[1..], false);
    }
  }

  predicate AllFitAlone(rest: seq<nat>, fits: seq<nat> -> bool) {
    forall i :: 0 <= i < |rest| ==> fits([rest[i]])
  }

  lemma FitAloneCons(rest: seq<nat>, fits: seq<nat> -> bool)
    requires rest != []
    ensures AllFitAlone(rest, fits) <==> fits([rest[0]]) && AllFitAlone(rest[1..], fits)
  {
    assert forall i :: 0 <= i < |rest[1..]| ==> rest[1..][i] == rest[i + 1];
    if AllFitAlone(rest[1..], fits) {
      forall i | 1 <= i < |rest|
        ensures fits([rest[i]])
      {
        assert rest[1..][i - 1] == rest[i];
      }
    }
  }

  /** Whatever the limits, the split succeeds when every judgment fits a batch of its own. For limits
      that survive dropping members it succeeds only then. */
  lemma {:induction false} GreedySucceedsIff(rest: seq<nat>, current: seq<nat>, fits: seq<nat> -> bool)
    ensures AllFitAlone(rest, fits) ==> Greedy(rest, current, fits).Some?
    ensures Hereditary(fits) && Greedy(rest, current, fits).Some? ==> AllFitAlone(rest, fits)
  {
    hide AllFitAlone;
    if rest == [] {
      assert AllFitAlone(rest, fits) by { NoneToFit(rest, fits); }
    } else {
      FitAloneCons(rest, fits);
      var whole := current + [rest[0]];
      assert whole[|current|..|current| + 1] == [rest[0]];
      assert current == [] ==> whole == [rest[0]];
      GreedySucceedsIff(rest[1..], whole, fits);
      GreedySucceedsIff(rest[1..], [rest[0]], fits);
    }
  }

  lemma NoneToFit(rest: seq<nat>, fits: seq<nat> -> bool)
    requires rest == []
    ensures AllFitAlone(rest, fits)
  {
  }
}
