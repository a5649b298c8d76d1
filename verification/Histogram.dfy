/** The batch-size histogram: how many external requests carried how many judgments. */
module Histogram {

  function HistogramAdd(h: map<nat, nat>, size: nat): map<nat, nat> {
    h[size := Times(h, size) + 1]
  }

  function Times(h: map<nat, nat>, size: nat): nat { if size in h then h[size] else 0 }

  /** Requests of a size below `n`, and the judgments they carried. */
  function Requests(h: map<nat, nat>, n: nat): nat {
    if n == 0 then 0 else Requests(h, n - 1) + Times(h, n - 1)
  }

  function Judged(h: map<nat, nat>, n: nat): nat {
    if n == 0 then 0 else Judged(h, n - 1) + (n - 1) * Times(h, n - 1)
  }

  predicate KeysBelow(h: map<nat, nat>, n: nat) { forall k :: k in h ==> k < n }

  lemma {:induction false} SumsSettle(h: map<nat, nat>, m: nat, n: nat)
    requires m <= n && KeysBelow(h, m)
    ensures Requests(h, n) == Requests(h, m) && Judged(h, n) == Judged(h, m)
  {
    if m < n {
      SumsSettle(h, m, n - 1);
    }
  }

  lemma TimesAdd(h: map<nat, nat>, size: nat, k: nat)
    ensures Times(HistogramAdd(h, size), k) == Times(h, k) + (if k == size then 1 else 0)
    ensures k * Times(HistogramAdd(h, size), k) == k * Times(h, k) + (if k == size then size else 0)
  {
    var extra := if k == size then 1 else 0;
    assert Times(HistogramAdd(h, size), k) == Times(h, k) + extra;
    assert k * (Times(h, k) + extra) == k * Times(h, k) + k * extra;
  }

  lemma {:induction false} SumsAdd(h: map<nat, nat>, size: nat, n: nat)
    ensures Requests(HistogramAdd(h, size), n) == Requests(h, n) + (if size < n then 1 else 0)
    ensures Judged(HistogramAdd(h, size), n) == Judged(h, n) + (if size < n then size else 0)
  {
    hide Times, HistogramAdd;
    if n > 0 {
      SumsAdd(h, size, n - 1);
      TimesAdd(h, size, n - 1);
    }
  }

  lemma HistogramKeys(h: map<nat, nat>, size: nat, n: nat)
    requires KeysBelow(h, n) && size < n
    ensures KeysBelow(HistogramAdd(h, size), n)
  {
  }

  /** One more request of a size below `n` adds one request and `size` judgments to the sums. */
  lemma AttemptSums(h: map<nat, nat>, size: nat)
    ensures forall n: nat :: KeysBelow(h, n) && size < n ==>
      KeysBelow(HistogramAdd(h, size), n)
      && Requests(HistogramAdd(h, size), n) == Requests(h, n) + 1
      && Judged(HistogramAdd(h, size), n) == Judged(h, n) + size
  {
    forall n: nat | KeysBelow(h, n) && size < n
      ensures KeysBelow(HistogramAdd(h, size), n)
      ensures Requests(HistogramAdd(h, size), n) == Requests(h, n) + 1
      ensures Judged(HistogramAdd(h, size), n) == Judged(h, n) + size
    {
      HistogramKeys(h, size, n);
      SumsAdd(h, size, n);
    }
  }
}
