/** Batch requests and the default size estimate. */
module Batching {
  import opened Text
  import opened Collections
  import opened Judgment
  import opened Grouping
  import opened Planning

  function BatchKey(i: nat): string { "r" + NatText(i) }

  function Rekeyed(groups: seq<Group>, index: nat, i: nat): JudgmentRequest
    requires index < |groups|
  {
    groups[index].request.(requestKey := BatchKey(i))
  }

  /** `requests_for_groups`: the groups' requests, keyed by their position in the batch. */
  function RequestsFor(groups: seq<Group>, indices: seq<nat>): (r: seq<JudgmentRequest>)
    requires InRange(indices, |groups|)
    ensures |r| == |indices|
    ensures forall i :: 0 <= i < |indices| ==> r[i] == Rekeyed(groups, indices[i], i)
  {
    seq(|indices|, i requires 0 <= i < |indices| => Rekeyed(groups, indices[i], i))
  }

  lemma BatchKeysDistinct(i: nat, j: nat)
    requires BatchKey(i) == BatchKey(j)
    ensures i == j
  {
    assert BatchKey(i)[1..] == NatText(i) && BatchKey(j)[1..] == NatText(j);
    NatTextInjective(i, j);
  }

  /** The first key is the one a request on its own carries. */
  lemma FirstKey()
    ensures BatchKey(0) == "r0"
  {
    assert NatText(0) == "0";
  }

  /** When a batch may be sent: within the count and the byte limit. */
  function BatchFits(groups: seq<Group>, estimate: seq<JudgmentRequest> -> nat, maxJudgments: nat, maxBytes: nat)
    : seq<nat> -> bool
  {
    (indices: seq<nat>) =>
      InRange(indices, |groups|) && |indices| <= maxJudgments && estimate(RequestsFor(groups, indices)) <= maxBytes
  }

  // ---- The default estimate

  function TotalLen(choices: seq<string>): nat {
    if choices == [] then 0 else TotalLen(choices[..|choices| - 1]) + TextLen(choices[|choices| - 1])
  }

  /** One step of the fold: what a request adds to the running total. */
  function AddRequest(total: nat, q: JudgmentRequest): nat {
    var textBytes := SaturatingAdd(SaturatingAdd(OptionLen(q.criterion), OptionLen(q.question)), TotalLen(q.choices));
    var t0 := SaturatingAdd(total, 512);
    var t1 := SaturatingAdd(t0, SaturatingMul(|q.state.canonical|, 6));
    var t2 := SaturatingAdd(t1, SaturatingMul(textBytes, 6));
    SaturatingAdd(t2, SaturatingMul(TextLen(q.requestKey), 6))
  }

  /** The provider trait's `estimate_request_bytes`. */
  function DefaultEstimate(requests: seq<JudgmentRequest>): nat {
    if requests == [] then 1024
    else AddRequest(DefaultEstimate(requests[..|requests| - 1]), requests[|requests| - 1])
  }

  /** What a request takes without a machine limit: a fixed part, and six bytes for every byte of its
      state, its texts, its labels and its key. */
  ghost function ExactSize(q: JudgmentRequest): nat {
    512 + 6 * (|q.state.canonical| + BytesOf(q.criterion) + BytesOf(q.question) + LabelBytes(q.choices)
               + BytesOf(Some(q.requestKey)))
  }

  ghost function ExactEstimate(requests: seq<JudgmentRequest>): nat {
    if requests == [] then 1024 else ExactEstimate(requests[..|requests| - 1]) + ExactSize(requests[|requests| - 1])
  }

  /** The estimate is that sum, capped at the machine maximum: saturation never loses more. */
  lemma {:induction false} DefaultEstimateIsCapped(requests: seq<JudgmentRequest>)
    ensures DefaultEstimate(requests) == Capped(ExactEstimate(requests))
  {
    if requests != [] {
      var q := requests[|requests| - 1];
      DefaultEstimateIsCapped(requests[..|requests| - 1]);
      AddRequestIsCapped(ExactEstimate(requests[..|requests| - 1]), q);
    }
  }

  lemma AddRequestIsCapped(total: nat, q: JudgmentRequest)
    ensures AddRequest(Capped(total), q) == Capped(total + ExactSize(q))
  {
    TotalIsBytes(q.choices);
    var c, k, l, t := OptionLen(q.criterion), OptionLen(q.question), TotalLen(q.choices), TextLen(q.requestKey);
    assert c == BytesOf(q.criterion) && k == BytesOf(q.question) && t == BytesOf(Some(q.requestKey));
    hide OptionLen, TotalLen, TextLen, BytesOf, LabelBytes;
  }

  lemma {:induction false} TotalIsBytes(choices: seq<string>)
    ensures TotalLen(choices) == LabelBytes(choices)
  {
    if choices != [] {
      TotalIsBytes(choices[..|choices| - 1]);
    }
  }

  lemma AddRequestMonotone(total: nat, total': nat, q: JudgmentRequest, q': JudgmentRequest)
    requires total <= total' && WithoutKey(q) == WithoutKey(q') && TextLen(q.requestKey) <= TextLen(q'.requestKey)
    ensures AddRequest(total, q) <= AddRequest(total', q')
    ensures total <= USIZE_MAX ==> total <= AddRequest(total, q)
    ensures AddRequest(total, q) <= USIZE_MAX
  {
    assert q.state == WithoutKey(q).state == q'.state;
    assert q.criterion == WithoutKey(q).criterion == q'.criterion;
    assert q.question == WithoutKey(q).question == q'.question;
    assert q.choices == WithoutKey(q).choices == q'.choices;
  }

  lemma {:induction false} AsciiLength(s: string)
    requires forall i :: 0 <= i < |s| ==> s[i] < 128 as char
    ensures TextLen(s) == |s|
  {
    if s != "" {
      AsciiLength(s[1..]);
    }
  }

  lemma KeyLengthMonotone(i: nat, j: nat)
    requires i <= j
    ensures TextLen(BatchKey(i)) <= TextLen(BatchKey(j))
  {
    AsciiLength(BatchKey(i));
    AsciiLength(BatchKey(j));
    NatTextLengthMonotone(i, j);
  }

  lemma EstimateInRange(requests: seq<JudgmentRequest>)
    ensures DefaultEstimate(requests) <= USIZE_MAX
  {
    if requests != [] {
      AddRequestMonotone(0, 0, requests[|requests| - 1], requests[|requests| - 1]);
    }
  }

  /** Dropping the last judgment of a batch does not raise its estimate. */
  lemma DropLast(groups: seq<Group>, s: seq<nat>)
    requires InRange(s, |groups|) && s != []
    ensures DefaultEstimate(RequestsFor(groups, s[..|s| - 1])) <= DefaultEstimate(RequestsFor(groups, s))
  {
    hide AddRequest;
    var all := RequestsFor(groups, s);
    assert all[..|all| - 1] == RequestsFor(groups, s[..|s| - 1]);
    EstimateInRange(all[..|all| - 1]);
    AddRequestMonotone(DefaultEstimate(all[..|all| - 1]), DefaultEstimate(all[..|all| - 1]),
                       all[|all| - 1], all[|all| - 1]);
  }

  lemma EstimateSnoc(requests: seq<JudgmentRequest>)
    requires requests != []
    ensures DefaultEstimate(requests)
         == AddRequest(DefaultEstimate(requests[..|requests| - 1]), requests[|requests| - 1])
  {
  }

  /** A later position makes a judgment's part of the estimate no smaller. */
  lemma RekeyedMonotone(groups: seq<Group>, index: nat, i: nat, total: nat, total': nat)
    requires index < |groups| && total <= total'
    ensures AddRequest(total, Rekeyed(groups, index, i)) <= AddRequest(total', Rekeyed(groups, index, i + 1))
  {
    hide AddRequest, BatchKey;
    KeyLengthMonotone(i, i + 1);
    AddRequestMonotone(total, total', Rekeyed(groups, index, i), Rekeyed(groups, index, i + 1));
  }

  /** Nor does dropping the first, although every later judgment is re-keyed. */
  lemma {:induction false} DropFirst(groups: seq<Group>, s: seq<nat>)
    requires InRange(s, |groups|) && s != []
    ensures DefaultEstimate(RequestsFor(groups, s[1..])) <= DefaultEstimate(RequestsFor(groups, s))
  {
    hide AddRequest, BatchKey, DefaultEstimate, Rekeyed;
    if |s| == 1 {
      DropLast(groups, s);
      assert s[..0] == s[1..];
    } else {
      var n := |s|;
      var init := s[..n - 1];
      DropFirst(groups, init);
      var all, rest := RequestsFor(groups, s), RequestsFor(groups, s[1..]);
      assert all[..n - 1] == RequestsFor(groups, init);
      assert s[1..][..n - 2] == init[1..];
      assert rest[..n - 2] == RequestsFor(groups, init[1..]);
      EstimateSnoc(all);
      EstimateSnoc(rest);
      assert rest[n - 2] == Rekeyed(groups, s[n - 1], n - 2) && all[n - 1] == Rekeyed(groups, s[n - 1], n - 1);
      RekeyedMonotone(groups, s[n - 1], n - 2, DefaultEstimate(rest[..n - 2]), DefaultEstimate(all[..n - 1]));
    }
  }

  lemma SliceOfTail(s: seq<nat>, a: nat, b: nat)
    requires 1 <= a <= b <= |s|
    ensures s[1..][a - 1..b - 1] == s[a..b]
  {
    var x, y := s[1..][a - 1..b - 1], s[a..b];
    assert |x| == |y| && forall i :: 0 <= i < |x| ==> x[i] == y[i];
  }

  lemma {:induction false} SliceEstimate(groups: seq<Group>, s: seq<nat>, a: nat, b: nat)
    requires InRange(s, |groups|) && a <= b <= |s|
    ensures InRange(s[a..b], |groups|)
    ensures DefaultEstimate(RequestsFor(groups, s[a..b])) <= DefaultEstimate(RequestsFor(groups, s))
    decreases |s|
  {
    hide AddRequest, BatchKey, DefaultEstimate, Rekeyed;
    if b < |s| {
      DropLast(groups, s);
      SliceEstimate(groups, s[..|s| - 1], a, b);
      assert s[..|s| - 1][a..b] == s[a..b];
    } else if a > 0 {
      DropFirst(groups, s);
      SliceEstimate(groups, s[1..], a - 1, b - 1);
      SliceOfTail(s, a, b);
    } else {
      assert s[a..b] == s;
    }
  }

  /** Under the default estimate, fitting is hereditary, so the greedy split is optimal. */
  lemma DefaultFitsIsHereditary(groups: seq<Group>, maxJudgments: nat, maxBytes: nat)
    ensures Hereditary(BatchFits(groups, DefaultEstimate, maxJudgments, maxBytes))
  {
    var fits := BatchFits(groups, DefaultEstimate, maxJudgments, maxBytes);
    forall s: seq<nat>, a: nat, b: nat | a < b <= |s| && fits(s)
      ensures fits(s[a..b])
    {
      SliceEstimate(groups, s, a, b);
    }
  }

  /** With the default estimate no order-preserving split uses fewer batches, and the split fails
      exactly when some judgment does not fit alone. */
  lemma DefaultSplitIsOptimal(groups: seq<Group>, maxJudgments: nat, maxBytes: nat, part: seq<nat>,
                              rival: seq<seq<nat>>)
    ensures Greedy(part, [], BatchFits(groups, DefaultEstimate, maxJudgments, maxBytes)).Some?
       <==> AllFitAlone(part, BatchFits(groups, DefaultEstimate, maxJudgments, maxBytes))
    ensures var fits := BatchFits(groups, DefaultEstimate, maxJudgments, maxBytes);
            Greedy(part, [], fits).Some? && IsSplit(rival, part, fits) ==>
              |Greedy(part, [], fits).value| <= |rival|
  {
    var fits := BatchFits(groups, DefaultEstimate, maxJudgments, maxBytes);
    DefaultFitsIsHereditary(groups, maxJudgments, maxBytes);
    GreedySucceedsIff(part, [], fits);
    if Greedy(part, [], fits).Some? && IsSplit(rival, part, fits) {
      GreedyIsOptimal(part, fits, rival);
    }
  }
}
