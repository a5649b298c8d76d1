/** What every reachable state of the query protocol satisfies. */
module ProtocolInv {
  import opened Text
  import opened Judgment
  import opened Host
  import opened Protocol
  import opened ProviderProtocol

  /** The led entries a worker still owes an outcome. */
  function Owed(w: Worker): set<nat> {
    match w.pc
    case Claimed(e, leads) => w.todo + (if leads then {e} else {})
    case Looking(e) => w.todo + {e}
    case HitRecorded(e, _) => w.todo + {e}
    case Acquiring(b) => w.todo + b
    case Granted(b) => w.todo + b
    case Calling(b) => w.todo + b
    case Returned(b, _, _) => w.todo + b
    case Failing(b, _) => w.todo + b
    case FailingUsage(b) => w.todo + b
    case Settling(outcomes, _) => w.todo + outcomes.Keys
    case _ => w.todo
  }

  /** Those of them no provider call and no cache hit is for yet. */
  function Fresh(w: Worker): set<nat> {
    match w.pc
    case Claimed(e, leads) => w.todo + (if leads then {e} else {})
    case Looking(e) => w.todo + {e}
    case Acquiring(b) => w.todo + b
    case Granted(b) => w.todo + b
    case _ => w.todo
  }

  /** Those it is acting on, apart from the ones it has set aside. */
  function InHand(w: Worker): set<nat> {
    match w.pc
    case Claimed(e, leads) => if leads then {e} else {}
    case Looking(e) => {e}
    case HitRecorded(e, _) => {e}
    case Acquiring(b) => b
    case Granted(b) => b
    case Calling(b) => b
    case Returned(b, _, _) => b
    case Failing(b, _) => b
    case FailingUsage(b) => b
    case Settling(outcomes, _) => outcomes.Keys
    case _ => {}
  }

  lemma OwedParts(w: Worker)
    ensures Owed(w) == w.todo + InHand(w)
    ensures Fresh(w) <= Owed(w) && w.todo <= Fresh(w)
  {
  }

  predicate Erring(w: Worker) {
    (w.pc.Settling? && w.pc.fatal) || w.pc == Done(false)
  }

  predicate HoldsPermit(w: Worker) {
    w.pc.Granted? || w.pc.Calling? || w.pc.Returned?
  }

  /** The shape of a worker's own data. */
  predicate Shaped(w: Worker) {
    && w.next <= |w.groups|
    && InHand(w) !! w.todo
    && (w.pc.Arriving? || w.pc.Recording? ==> w.next == 0 && w.todo == {} && |w.groups| <= w.validRows <= w.rows)
    && (w.pc.Claiming? ==> w.next < |w.groups|)
    && (w.pc.Waiting? || w.pc.Done? || (w.pc.Settling? && w.pc.fatal) ==> w.todo == {})
    && (!w.policyOk ==> w.todo == {})
    && (w.pc.Acquiring? ==> w.pc.batch != {})
    && (w.pc.Granted? ==> w.pc.batch != {})
    && (w.pc.Returned? && w.pc.answers.Some? ==> w.pc.received && w.pc.answers.value.Keys == w.pc.batch)
    && (w.pc.Settling? && !w.pc.fatal ==> forall e :: e in w.pc.outcomes ==> w.pc.outcomes[e].Ok?)
    && (w.pc == Done(true) ==> w.next == |w.groups| && w.waits == [])
    && (w.abandoned != {} ==> w.pc == Done(false))
    && ClaimShape(w)
  }

  predicate AdmittedUpTo(caps: Capabilities, groups: seq<Identity>, n: nat) {
    forall k :: 0 <= k < n && k < |groups| ==> Admitted(caps, groups[k])
  }

  /** How far a worker has got with its claims, and why it left early if it did. */
  predicate ClaimShape(w: Worker) {
    && (w.next == 0 ==> w.todo == {} && w.abandoned == {} && InHand(w) == {})
    && (w.pc.Claimed? ==> w.next > 0)
    && (w.next > 0 ==> MayClaim(w.batched, w.caps))
    && (w.next < |w.groups| && !w.pc.Arriving? && !w.pc.Recording? && !w.pc.Done? ==> MayClaim(w.batched, w.caps))
    && (w.batched ==> AdmittedUpTo(w.caps, w.groups, w.next))
    && (w.early ==>
          && w.pc == Done(false) && w.batched && MayClaim(w.batched, w.caps)
          && w.next < |w.groups| && !Admitted(w.caps, w.groups[w.next]))
    && (w.early && w.abandoned != {} ==> w.policyOk)
  }

  /** The entries worker `j` owes exist, are its own, of its query and without an outcome; those it
      left are the only others; all it completed are successes unless it is failing. */
  ghost predicate WorkerOk(h: State, meta: seq<Meta>, w: Worker, j: nat)
    requires |meta| == |h.cells|
  {
    && Shaped(w)
    && w.scope < h.nextQuery
    && (forall e :: e in Owed(w) || e in w.abandoned ==>
          e < |meta| && meta[e].owner == j && meta[e].query == w.scope && h.cells[e].None?)
    && (forall e :: e in Fresh(w) ==> e < |meta| && meta[e].fate == Led)
    && (forall k :: 0 <= k < |w.waits| ==> w.waits[k] < |meta| && meta[w.waits[k]].query == w.scope)
    && (w.pc.Waiting? ==> w.pc.entry < |meta| && meta[w.pc.entry].query == w.scope)
    && (w.pc.Claimed? ==> w.pc.entry < |meta| && meta[w.pc.entry].query == w.scope)
    && (forall e :: e in w.got ==> e < |meta| && h.cells[e] == Some(w.got[e]))
    && (forall e :: 0 <= e < |meta| && meta[e].owner == j ==>
          && meta[e].query == w.scope
          && (h.cells[e].None? ==> e in Owed(w) || e in w.abandoned)
          && (h.cells[e].Some? && !Erring(w) ==> h.cells[e].value.Ok?))
    && (w.abandoned != {} ==> w.early || w.scope in h.cancelled)
  }

  /** Queries, cancellation flags and the entry map. */
  ghost predicate HostOk(h: State, meta: seq<Meta>) {
    && |meta| == |h.cells|
    && (h.active.Some? ==> h.active.value.id < h.nextQuery)
    && (forall q: nat :: q in h.cancelled <==> q < h.nextQuery && !IsActive(h, q))
    && (h.active.None? ==> h.entries == map[])
    && (forall id :: id in h.entries ==>
          h.entries[id] < |meta| && meta[h.entries[id]].id == id && IsActive(h, meta[h.entries[id]].query))
    && (forall e :: 0 <= e < |meta| ==> meta[e].query < h.nextQuery)
    && (forall e :: 0 <= e < |meta| && IsActive(h, meta[e].query) ==>
          meta[e].id in h.entries && h.entries[meta[e].id] == e)
  }

  /** One entry per identity and query, ever. */
  ghost predicate OneEntry(meta: seq<Meta>) {
    forall e, f :: 0 <= e < f < |meta| ==> !(meta[e].query == meta[f].query && meta[e].id == meta[f].id)
  }

  ghost predicate WorkersOk(W: World)
    requires |W.meta| == |W.h.cells|
  {
    forall j :: 0 <= j < |W.workers| ==> WorkerOk(W.h, W.meta, W.workers[j], j)
  }

  ghost predicate OwnersOk(W: World) {
    forall e :: 0 <= e < |W.meta| ==> W.meta[e].owner < |W.workers|
  }

  ghost predicate Inv(W: World) {
    |W.meta| == |W.h.cells| && HostOk(W.h, W.meta) && OneEntry(W.meta) && OwnersOk(W) && WorkersOk(W)
  }

  // ---- Frames

  /** A step of worker `i` as the others see it: entries and their facts persist, outcomes are not
      taken back, and what is not `i`'s stays as it is. */
  ghost predicate Framed(h: State, meta: seq<Meta>, h': State, meta': seq<Meta>, i: nat)
    requires |meta| == |h.cells| && |meta'| == |h'.cells|
  {
    && |meta| <= |meta'|
    && h.nextQuery <= h'.nextQuery && h.cancelled <= h'.cancelled
    && (forall e :: 0 <= e < |meta| ==>
          && meta'[e].query == meta[e].query && meta'[e].id == meta[e].id && meta'[e].owner == meta[e].owner
          && (h.cells[e].Some? ==> h'.cells[e] == h.cells[e])
          && (meta[e].owner != i ==> h'.cells[e] == h.cells[e] && meta'[e].fate == meta[e].fate))
    && (forall e :: |meta| <= e < |meta'| ==> meta'[e].owner == i)
  }

  lemma FrameWorker(h: State, meta: seq<Meta>, h': State, meta': seq<Meta>, i: nat, w: Worker, j: nat)
    requires |meta| == |h.cells| && |meta'| == |h'.cells|
    requires Framed(h, meta, h', meta', i) && j != i && WorkerOk(h, meta, w, j)
    ensures WorkerOk(h', meta', w, j)
  {
    hide Shaped, Erring;
    OwedParts(w);
  }

  /** The same queries, flags and entries; counts, outcomes and fates may differ. */
  ghost predicate SameShape(h: State, meta: seq<Meta>, h': State, meta': seq<Meta>) {
    && |meta'| == |meta| && |h'.cells| == |h.cells|
    && h'.nextQuery == h.nextQuery && h'.cancelled == h.cancelled && h'.entries == h.entries
    && h'.active.Some? == h.active.Some? && (h.active.Some? ==> h'.active.value.id == h.active.value.id)
    && (forall e :: 0 <= e < |meta| ==>
          meta'[e].query == meta[e].query && meta'[e].id == meta[e].id && meta'[e].owner == meta[e].owner)
  }

  lemma ShapeKeeps(h: State, meta: seq<Meta>, h': State, meta': seq<Meta>)
    requires HostOk(h, meta) && OneEntry(meta) && SameShape(h, meta, h', meta')
    ensures HostOk(h', meta') && OneEntry(meta')
  {
    assert forall q: nat :: IsActive(h', q) <==> IsActive(h, q);
  }

  /** Only worker `i` and what is its own changed. */
  ghost predicate OwnStep(W: World, i: nat, W': World)
    requires i < |W.workers|
  {
    && |W'.meta| == |W'.h.cells| == |W.meta| == |W.h.cells|
    && SameShape(W.h, W.meta, W'.h, W'.meta)
    && Framed(W.h, W.meta, W'.h, W'.meta, i)
    && |W'.workers| == |W.workers|
    && (forall j :: 0 <= j < |W.workers| && j != i ==> W'.workers[j] == W.workers[j])
  }

  lemma OwnStepKeeps(W: World, i: nat, W': World)
    requires Inv(W) && i < |W.workers| && OwnStep(W, i, W')
    requires WorkerOk(W'.h, W'.meta, W'.workers[i], i)
    ensures Inv(W')
  {
    hide WorkerOk, HostOk, OneEntry, Framed;
    ShapeKeeps(W.h, W.meta, W'.h, W'.meta);
    forall j | 0 <= j < |W'.workers|
      ensures WorkerOk(W'.h, W'.meta, W'.workers[j], j)
    {
      if j != i {
        FrameWorker(W.h, W.meta, W'.h, W'.meta, i, W.workers[j], j);
      }
    }
  }

  lemma RecordShape(h: State, scope: nat, counts: Counts)
    ensures var h' := Record(h, scope, counts);
            && h'.nextQuery == h.nextQuery && h'.cancelled == h.cancelled && h'.entries == h.entries
            && h'.cells == h.cells && h'.last == h.last
            && h'.active.Some? == h.active.Some? && (h.active.Some? ==> h'.active.value.id == h.active.value.id)
  {
  }

  // ---- The four effects a step can have on entries

  lemma PlainStep(W: World, i: nat, W': World, w': Worker)
    requires Inv(W) && i < |W.workers| && W'.h == W.h && W'.meta == W.meta && W'.workers == W.workers[i := w']
    ensures OwnStep(W, i, W')
  {
  }

  lemma RecordStep(W: World, i: nat, W': World, w': Worker, scope: nat, counts: Counts)
    requires Inv(W) && i < |W.workers| && W'.h == Record(W.h, scope, counts) && W'.meta == W.meta
    requires W'.workers == W.workers[i := w']
    ensures OwnStep(W, i, W')
  {
    RecordShape(W.h, scope, counts);
  }

  lemma FateStep(W: World, i: nat, W': World, w': Worker, scope: nat, counts: Counts, S: set<nat>, fate: Fate)
    requires Inv(W) && i < |W.workers| && W'.h == Record(W.h, scope, counts) && W'.meta == WithFate(W.meta, S, fate)
    requires W'.workers == W.workers[i := w']
    requires forall e :: e in S ==> e < |W.meta| && W.meta[e].owner == i
    ensures OwnStep(W, i, W')
  {
    RecordShape(W.h, scope, counts);
  }

  lemma CompleteStep(W: World, i: nat, W': World, w': Worker, e: nat, outcome: Outcome)
    requires Inv(W) && i < |W.workers| && W'.h == Complete(W.h, e, outcome) && W'.meta == W.meta
    requires W'.workers == W.workers[i := w']
    requires e < |W.meta| && W.meta[e].owner == i
    ensures OwnStep(W, i, W')
  {
  }

  // ---- How each effect leaves the acting worker

  lemma RecordOk(h: State, meta: seq<Meta>, w: Worker, j: nat, scope: nat, counts: Counts)
    requires |meta| == |h.cells| && WorkerOk(h, meta, w, j)
    ensures WorkerOk(Record(h, scope, counts), meta, w, j)
  {
    RecordShape(h, scope, counts);
  }

  /** Moving on without touching an outcome: what is owed or left stays owed or left. */
  lemma MoveOn(h: State, meta: seq<Meta>, w: Worker, w': Worker, j: nat)
    requires |meta| == |h.cells| && WorkerOk(h, meta, w, j) && Shaped(w')
    requires w'.scope == w.scope && w'.got == w.got && w'.waits == w.waits
    requires Owed(w') + w'.abandoned == Owed(w) + w.abandoned && Fresh(w') <= Fresh(w)
    requires Erring(w) ==> Erring(w')
    requires w'.abandoned != {} ==> w'.early || w'.scope in h.cancelled
    requires !w'.pc.Waiting? && (w'.pc.Claimed? ==> w.pc.Claimed? && w'.pc.entry == w.pc.entry)
    ensures WorkerOk(h, meta, w', j)
  {
    hide Shaped, Erring, Owed, Fresh;
    assert forall e :: e in Owed(w') || e in w'.abandoned <==> e in Owed(w') + w'.abandoned;
    assert forall e :: e in Owed(w) || e in w.abandoned <==> e in Owed(w) + w.abandoned;
  }

  lemma FateOk(h: State, meta: seq<Meta>, w: Worker, j: nat, S: set<nat>, fate: Fate)
    requires |meta| == |h.cells| && WorkerOk(h, meta, w, j) && S !! Fresh(w)
    ensures WorkerOk(h, WithFate(meta, S, fate), w, j)
  {
    hide Shaped, Erring, Owed, Fresh;
  }

  /** Completing an owed entry: with an error only when the worker is failing. */
  lemma CompleteOk(h: State, meta: seq<Meta>, w: Worker, w': Worker, j: nat, e: nat, outcome: Outcome)
    requires |meta| == |h.cells| && WorkerOk(h, meta, w, j) && Shaped(w') && e in Owed(w)
    requires w'.scope == w.scope && w'.got == w.got && w'.waits == w.waits && w'.abandoned == w.abandoned
    requires w'.early == w.early
    requires Owed(w') == Owed(w) - {e} && Fresh(w') <= Fresh(w)
    requires (Erring(w) ==> Erring(w')) && (outcome.Err? ==> Erring(w'))
    requires !w'.pc.Waiting? && !w'.pc.Claimed?
    ensures e < |meta| && meta[e].owner == j && |Complete(h, e, outcome).cells| == |meta|
    ensures e !in w.abandoned ==> WorkerOk(Complete(h, e, outcome), meta, w', j)
  {
    hide Shaped, Erring, Owed, Fresh;
  }

  lemma OwedFacts(h: State, meta: seq<Meta>, w: Worker, j: nat)
    requires |meta| == |h.cells| && WorkerOk(h, meta, w, j)
    ensures forall e :: e in Owed(w) ==> e < |meta| && meta[e].owner == j && h.cells[e].None?
    ensures Shaped(w)
  {
  }

  // ---- The steps

  /** Turning to failure: everything in hand and set aside is to be completed with an error. */
  lemma FailAllParts(w: Worker, b: set<nat>)
    requires Shaped(w) && !w.pc.Done? && !w.pc.Arriving? && !w.pc.Recording? && b <= InHand(w)
    ensures var w' := FailAll(w, b);
            && Shaped(w') && Owed(w') == w.todo + b && Fresh(w') == {} && Erring(w')
            && w'.scope == w.scope && w'.got == w.got && w'.waits == w.waits && w'.abandoned == w.abandoned
            && w'.early == w.early && w'.pc.Settling?
  {
    var w' := FailAll(w, b);
    assert AllFail(b + w.todo).Keys == b + w.todo;
  }

  lemma ArrivingKeeps(W: World, i: nat)
    requires Inv(W) && i < |W.workers| && W.workers[i].pc.Arriving?
    ensures Inv(StepArriving(W, i)) && OwnStep(W, i, StepArriving(W, i))
  {
    hide WorkerOk, HostOk, OneEntry, OwnStep, OptimizedRows, Record;
    var w, W' := W.workers[i], StepArriving(W, i);
    var counts := OptimizedRows(Now(W.h), w.rows, 0, 0, 0);
    OwedFacts(W.h, W.meta, w, i);
    RecordStep(W, i, W', W'.workers[i], w.scope, counts);
    RecordOk(W.h, W.meta, w, i, w.scope, counts);
    RecordShape(W.h, w.scope, counts);
    MoveOn(W'.h, W.meta, w, W'.workers[i], i);
    OwnStepKeeps(W, i, W');
  }

  lemma BadRowKeeps(W: World, i: nat)
    requires Inv(W) && i < |W.workers| && W.workers[i].pc.Recording?
    ensures Inv(StepRecording(W, i, BadRow)) && OwnStep(W, i, StepRecording(W, i, BadRow))
  {
    hide WorkerOk, HostOk, OneEntry, OwnStep, OptimizedRows, Record;
    var w, W' := W.workers[i], StepRecording(W, i, BadRow);
    OwedFacts(W.h, W.meta, w, i);
    PlainStep(W, i, W', W'.workers[i]);
    NotAbandoned(W, i);
    MoveOn(W.h, W.meta, w, W'.workers[i], i);
    OwnStepKeeps(W, i, W');
  }

  lemma RecordingKeeps(W: World, i: nat, choice: Choice)
    requires Inv(W) && i < |W.workers| && W.workers[i].pc.Recording? && Allowed(W, i, choice)
    ensures Inv(StepRecording(W, i, choice)) && OwnStep(W, i, StepRecording(W, i, choice))
  {
    hide WorkerOk, HostOk, OneEntry, OwnStep, OptimizedRows, Record;
    var w, W' := W.workers[i], StepRecording(W, i, choice);
    if choice.BadRow? {
      BadRowKeeps(W, i);
    } else {
      var counts := OptimizedRows(Now(W.h), 0, SaturatingSub(w.rows, w.validRows), w.validRows, |w.groups|);
      OwedFacts(W.h, W.meta, w, i);
      NotAbandoned(W, i);
      RecordStep(W, i, W', W'.workers[i], w.scope, counts);
      RecordOk(W.h, W.meta, w, i, w.scope, counts);
      RecordShape(W.h, w.scope, counts);
      MoveOn(W'.h, W.meta, w, W'.workers[i], i);
      OwnStepKeeps(W, i, W');
    }
  }

  lemma GateKeeps(W: World, i: nat)
    requires Inv(W) && i < |W.workers| && W.workers[i].pc.Claiming? && Allowed(W, i, GateFails)
    ensures Inv(StepGate(W, i)) && OwnStep(W, i, StepGate(W, i))
  {
    hide WorkerOk, HostOk, OneEntry, OwnStep;
    var w, W' := W.workers[i], StepGate(W, i);
    OwedFacts(W.h, W.meta, w, i);
    PlainStep(W, i, W', W'.workers[i]);
    MoveOn(W.h, W.meta, w, W'.workers[i], i);
    OwnStepKeeps(W, i, W');
  }

  /** A scope that is not the active query's is cancelled. */
  lemma InactiveIsCancelled(W: World, i: nat)
    requires Inv(W) && i < |W.workers|
    ensures W.workers[i].scope in W.h.cancelled <==> !IsActive(W.h, W.workers[i].scope)
  {
    assert WorkerOk(W.h, W.meta, W.workers[i], i);
  }

  lemma ClaimedKeeps(W: World, i: nat)
    requires Inv(W) && i < |W.workers| && W.workers[i].pc.Claimed?
    ensures Inv(StepClaimed(W, i)) && OwnStep(W, i, StepClaimed(W, i))
  {
    hide WorkerOk, HostOk, OneEntry, OwnStep;
    var w, W' := W.workers[i], StepClaimed(W, i);
    OwedFacts(W.h, W.meta, w, i);
    InactiveIsCancelled(W, i);
    PlainStep(W, i, W', W'.workers[i]);
    if IsActive(W.h, w.scope) && !w.pc.leads {
      FollowOk(W.h, W.meta, w, W'.workers[i], i);
    } else {
      MoveOn(W.h, W.meta, w, W'.workers[i], i);
    }
    OwnStepKeeps(W, i, W');
  }

  lemma FollowOk(h: State, meta: seq<Meta>, w: Worker, w': Worker, j: nat)
    requires |meta| == |h.cells| && WorkerOk(h, meta, w, j) && w.pc.Claimed? && !w.pc.leads
    requires w' == w.(waits := w.waits + [w.pc.entry], pc := Resume(w))
    ensures WorkerOk(h, meta, w', j)
  {
  }

  lemma LookingParts(w: Worker, value: JudgmentResult)
    requires w.pc.Looking? && Shaped(w)
    ensures Owed(w) == w.todo + {w.pc.entry} && Fresh(w) == Owed(w) && !Erring(w)
    ensures var w' := w.(pc := Settling(AllFail({w.pc.entry}), true));
            !w.policyOk ==> Shaped(w') && Owed(w') == Owed(w) && Fresh(w') <= Fresh(w)
    ensures var w' := w.(pc := HitRecorded(w.pc.entry, value));
            Shaped(w') && Owed(w') == Owed(w) && Fresh(w') <= Fresh(w) && w.pc.entry !in Fresh(w')
    ensures var w' := w.(todo := w.todo + {w.pc.entry}, pc := Resume(w));
            w.policyOk ==> Shaped(w') && Owed(w') == Owed(w) && Fresh(w') <= Fresh(w)
  {
    hide AdmittedUpTo, MayClaim;
    assert AllFail({w.pc.entry}).Keys == {w.pc.entry};
  }

  lemma LookingKeeps(W: World, i: nat, choice: Choice)
    requires Inv(W) && i < |W.workers| && W.workers[i].pc.Looking?
    ensures Inv(StepLooking(W, i, choice)) && OwnStep(W, i, StepLooking(W, i, choice))
  {
    hide WorkerOk, HostOk, OneEntry, OwnStep, Record, CacheHit, Shaped, Owed, Fresh, Erring, AllFail, WithFate;
    var w, W' := W.workers[i], StepLooking(W, i, choice);
    var w', e := W'.workers[i], w.pc.entry;
    OwedFacts(W.h, W.meta, w, i);
    NotAbandoned(W, i);
    LookingParts(w, if choice.Finds? then choice.value else NoulResult(NaN));
    MoveOn(W.h, W.meta, w, w', i);
    if w.policyOk && choice.Finds? {
      FateStep(W, i, W', w', w.scope, CacheHit(Now(W.h)), {e}, FromCache);
      FateOk(W.h, W.meta, w', i, {e}, FromCache);
      RecordOk(W.h, W'.meta, w', i, w.scope, CacheHit(Now(W.h)));
    } else {
      PlainStep(W, i, W', w');
    }
    OwnStepKeeps(W, i, W');
  }

  lemma NotAbandoned(W: World, i: nat)
    requires Inv(W) && i < |W.workers| && !W.workers[i].pc.Done?
    ensures W.workers[i].abandoned == {}
  {
    assert WorkerOk(W.h, W.meta, W.workers[i], i);
  }

  lemma HitKeeps(W: World, i: nat)
    requires Inv(W) && i < |W.workers| && W.workers[i].pc.HitRecorded?
    ensures Inv(StepHit(W, i)) && OwnStep(W, i, StepHit(W, i))
  {
    hide WorkerOk, HostOk, OneEntry, OwnStep, Complete;
    var w, W' := W.workers[i], StepHit(W, i);
    OwedFacts(W.h, W.meta, w, i);
    NotAbandoned(W, i);
    assert w.pc.entry in Owed(w);
    CompleteStep(W, i, W', W'.workers[i], w.pc.entry, Ok(w.pc.value));
    CompleteOk(W.h, W.meta, w, W'.workers[i], i, w.pc.entry, Ok(w.pc.value));
    OwnStepKeeps(W, i, W');
  }

  lemma PlanningParts(w: Worker, b: set<nat>)
    requires w.pc.Planning? && Shaped(w)
    ensures Owed(w) == w.todo == Fresh(w) && InHand(w) == {} && !Erring(w)
    ensures var w' := w.(todo := w.todo - b, pc := Acquiring(b));
            b != {} && b <= w.todo ==> Shaped(w') && Owed(w') == Owed(w) && Fresh(w') <= Fresh(w)
    ensures var w' := w.(pc := Claiming);
            w.todo == {} && w.next < |w.groups| ==> Shaped(w') && Owed(w') == Owed(w) && Fresh(w') == Fresh(w)
    ensures var w' := w.(pc := Done(true));
            w.todo == {} && w.waits == [] && w.next == |w.groups| ==>
              Shaped(w') && Owed(w') == Owed(w) && Fresh(w') == Fresh(w)
    ensures w.next <= |w.groups|
  {
    hide AdmittedUpTo, MayClaim;
  }

  lemma PlanningKeeps(W: World, i: nat, choice: Choice)
    requires Inv(W) && i < |W.workers| && W.workers[i].pc.Planning? && Allowed(W, i, choice)
    ensures Inv(StepPlanning(W, i, choice)) && OwnStep(W, i, StepPlanning(W, i, choice))
  {
    hide WorkerOk, HostOk, OneEntry, OwnStep, Shaped, Owed, Fresh, Erring, FailAll, InHand;
    var w, W' := W.workers[i], StepPlanning(W, i, choice);
    OwedFacts(W.h, W.meta, w, i);
    NotAbandoned(W, i);
    PlanningParts(w, if choice.Sends? then choice.batch else {});
    FailAllParts(w, {});
    PlainStep(W, i, W', W'.workers[i]);
    if w.todo == {} && w.waits != [] {
      StartWaitOk(W.h, W.meta, w, W'.workers[i], i);
    } else {
      MoveOn(W.h, W.meta, w, W'.workers[i], i);
    }
    OwnStepKeeps(W, i, W');
  }

  lemma StartWaitOk(h: State, meta: seq<Meta>, w: Worker, w': Worker, j: nat)
    requires |meta| == |h.cells| && WorkerOk(h, meta, w, j) && w.pc.Planning? && w.todo == {} && w.waits != []
    requires w' == w.(waits := w.waits[1..], pc := Waiting(w.waits[0]))
    ensures WorkerOk(h, meta, w', j)
  {
  }

  lemma AcquiringKeeps(W: World, i: nat)
    requires Inv(W) && i < |W.workers| && W.workers[i].pc.Acquiring?
    ensures Inv(StepAcquiring(W, i)) && OwnStep(W, i, StepAcquiring(W, i))
  {
    hide WorkerOk, HostOk, OneEntry, OwnStep;
    hide Owed, Fresh, Shaped, FailAll, Erring;
    var w, W' := W.workers[i], StepAcquiring(W, i);
    OwedFacts(W.h, W.meta, w, i);
    PlainStep(W, i, W', W'.workers[i]);
    BatchOwed(w, w.pc.batch);
    NotAbandoned(W, i);
    FailAllParts(w, w.pc.batch);
    AcquiredParts(w);
    MoveOn(W.h, W.meta, w, W'.workers[i], i);
    OwnStepKeeps(W, i, W');
  }

  lemma BatchOwed(w: Worker, b: set<nat>)
    ensures w.pc == Acquiring(b) || w.pc == Granted(b) || w.pc == Calling(b) || w.pc == FailingUsage(b) ==>
      Owed(w) == w.todo + b && InHand(w) == b && !Erring(w)
    ensures (w.pc.Returned? || w.pc.Failing?) && w.pc.batch == b ==>
      Owed(w) == w.todo + b && InHand(w) == b && !Erring(w)
  {
  }

  lemma AcquiredParts(w: Worker)
    requires w.pc.Acquiring? && Shaped(w)
    ensures var w' := w.(pc := Granted(w.pc.batch));
            Shaped(w') && Owed(w') == Owed(w) && Fresh(w') == Fresh(w) && !Erring(w')
  {
  }

  lemma GrantedKeeps(W: World, i: nat)
    requires Inv(W) && i < |W.workers| && W.workers[i].pc.Granted?
    ensures Inv(StepGranted(W, i)) && OwnStep(W, i, StepGranted(W, i))
  {
    hide WorkerOk, HostOk, OneEntry, OwnStep, Record, Attempt, Owed, Fresh, Shaped, Erring;
    var w, W' := W.workers[i], StepGranted(W, i);
    var w', b := W'.workers[i], w.pc.batch;
    var fate := if w.external then SentExternal else SentLocal;
    OwedFacts(W.h, W.meta, w, i);
    GrantedParts(w);
    NotAbandoned(W, i);
    assert forall e :: e in b ==> e in Owed(w);
    MoveOn(W.h, W.meta, w, w', i);
    FateStep(W, i, W', w', w.scope, Attempt(Now(W.h), |b|, w.external), b, fate);
    FateOk(W.h, W.meta, w', i, b, fate);
    RecordOk(W.h, W'.meta, w', i, w.scope, Attempt(Now(W.h), |b|, w.external));
    OwnStepKeeps(W, i, W');
  }

  lemma GrantedParts(w: Worker)
    requires w.pc.Granted? && Shaped(w)
    ensures var w' := w.(pc := Calling(w.pc.batch));
            Shaped(w') && Owed(w') == Owed(w) && Fresh(w') <= Fresh(w) && !Erring(w') && !Erring(w)
            && w.pc.batch <= Owed(w) && w.pc.batch !! Fresh(w')
  {
  }

  lemma CallingParts(w: Worker, answers: Option<map<nat, JudgmentResult>>, received: bool)
    requires w.pc.Calling? && Shaped(w) && (answers.Some? ==> received && answers.value.Keys == w.pc.batch)
    ensures var w' := w.(pc := Returned(w.pc.batch, answers, received));
            Shaped(w') && Owed(w') == Owed(w) && Fresh(w') <= Fresh(w) && !Erring(w)
  {
    hide AdmittedUpTo, MayClaim;
  }

  lemma CallingKeeps(W: World, i: nat, choice: Choice)
    requires Inv(W) && i < |W.workers| && W.workers[i].pc.Calling? && Allowed(W, i, choice)
    ensures Inv(StepCalling(W, i, choice)) && OwnStep(W, i, StepCalling(W, i, choice))
  {
    hide WorkerOk, HostOk, OneEntry, OwnStep, Record, Response, Shaped, Owed, Fresh, Erring;
    var w, W' := W.workers[i], StepCalling(W, i, choice);
    var w' := W'.workers[i];
    OwedFacts(W.h, W.meta, w, i);
    NotAbandoned(W, i);
    CallingParts(w, if choice.Replies? then Some(choice.answers) else None, !choice.CallFails?);
    MoveOn(W.h, W.meta, w, w', i);
    if choice.CallFails? {
      PlainStep(W, i, W', w');
    } else {
      var usage := if choice.Replies? then choice.usage else choice.reported;
      RecordStep(W, i, W', w', w.scope, Response(Now(W.h), usage, w.external));
      RecordOk(W.h, W.meta, w', i, w.scope, Response(Now(W.h), usage, w.external));
    }
    OwnStepKeeps(W, i, W');
  }

  lemma ReturnedKeeps(W: World, i: nat)
    requires Inv(W) && i < |W.workers| && W.workers[i].pc.Returned?
    ensures Inv(StepReturned(W, i)) && OwnStep(W, i, StepReturned(W, i))
  {
    hide WorkerOk, HostOk, OneEntry, OwnStep;
    hide Owed, Fresh, Shaped, FailAll, Erring;
    var w, W' := W.workers[i], StepReturned(W, i);
    OwedFacts(W.h, W.meta, w, i);
    NotAbandoned(W, i);
    PlainStep(W, i, W', W'.workers[i]);
    BatchOwed(w, w.pc.batch);
    FailAllParts(w, w.pc.batch);
    ReturnedParts(w);
    MoveOn(W.h, W.meta, w, W'.workers[i], i);
    OwnStepKeeps(W, i, W');
  }

  lemma ReturnedParts(w: Worker)
    requires w.pc.Returned? && Shaped(w)
    ensures w.pc.answers.Some? ==>
      var w' := w.(pc := Settling(AllAnswered(w.pc.answers.value), false));
      Shaped(w') && Owed(w') == Owed(w) && Fresh(w') == Fresh(w) && !Erring(w')
    ensures var w' := w.(pc := Failing(w.pc.batch, w.pc.received));
            Shaped(w') && Owed(w') == Owed(w) && Fresh(w') == Fresh(w) && !Erring(w')
  {
    if w.pc.answers.Some? {
      assert AllAnswered(w.pc.answers.value).Keys == w.pc.batch;
    }
  }

  lemma FailingKeeps(W: World, i: nat)
    requires Inv(W) && i < |W.workers| && W.workers[i].pc.Failing?
    ensures Inv(StepFailing(W, i)) && OwnStep(W, i, StepFailing(W, i))
  {
    hide WorkerOk, HostOk, OneEntry, OwnStep, Record, FailedRequest, Owed, Fresh, Shaped, FailAll, Erring;
    var w, W' := W.workers[i], StepFailing(W, i);
    var counts := FailedRequest(Now(W.h));
    OwedFacts(W.h, W.meta, w, i);
    NotAbandoned(W, i);
    BatchOwed(w, w.pc.batch);
    FailAllParts(w, w.pc.batch);
    FailingParts(w);
    RecordStep(W, i, W', W'.workers[i], w.scope, counts);
    MoveOn(W.h, W.meta, w, W'.workers[i], i);
    RecordOk(W.h, W.meta, W'.workers[i], i, w.scope, counts);
    OwnStepKeeps(W, i, W');
  }

  lemma FailingParts(w: Worker)
    requires w.pc.Failing? && Shaped(w)
    ensures var w' := w.(pc := FailingUsage(w.pc.batch));
            Shaped(w') && Owed(w') == Owed(w) && Fresh(w') == Fresh(w) && !Erring(w')
  {
  }

  lemma FailingUsageKeeps(W: World, i: nat)
    requires Inv(W) && i < |W.workers| && W.workers[i].pc.FailingUsage?
    ensures Inv(StepFailingUsage(W, i)) && OwnStep(W, i, StepFailingUsage(W, i))
  {
    hide WorkerOk, HostOk, OneEntry, OwnStep, Record, Failure, Owed, Fresh, Shaped, FailAll, Erring;
    var w, W' := W.workers[i], StepFailingUsage(W, i);
    var counts := Failure(Now(W.h), w.external);
    OwedFacts(W.h, W.meta, w, i);
    NotAbandoned(W, i);
    BatchOwed(w, w.pc.batch);
    FailAllParts(w, w.pc.batch);
    RecordStep(W, i, W', W'.workers[i], w.scope, counts);
    MoveOn(W.h, W.meta, w, W'.workers[i], i);
    RecordOk(W.h, W.meta, W'.workers[i], i, w.scope, counts);
    OwnStepKeeps(W, i, W');
  }

  lemma SettlingParts(w: Worker, e: nat)
    requires w.pc.Settling? && Shaped(w)
    ensures e in w.pc.outcomes ==> e in Owed(w) && (w.pc.outcomes[e].Err? ==> Erring(w))
    ensures var w' := w.(pc := Settling(w.pc.outcomes - {e}, w.pc.fatal));
            Shaped(w') && (e in w.pc.outcomes ==> Owed(w') == Owed(w) - {e}) && Fresh(w') == Fresh(w)
            && (Erring(w) <==> Erring(w'))
    ensures var w' := w.(pc := if w.pc.fatal then Done(false) else Planning);
            w.pc.outcomes == map[] ==>
              Shaped(w') && Owed(w') == Owed(w) && Fresh(w') == Fresh(w) && (Erring(w) ==> Erring(w'))
  {
    hide AdmittedUpTo, MayClaim;
    assert (w.pc.outcomes - {e}).Keys == w.pc.outcomes.Keys - {e};
  }

  lemma SettlingKeeps(W: World, i: nat, choice: Choice)
    requires Inv(W) && i < |W.workers| && W.workers[i].pc.Settling? && Allowed(W, i, choice)
    ensures Inv(StepSettling(W, i, choice)) && OwnStep(W, i, StepSettling(W, i, choice))
  {
    hide WorkerOk, HostOk, OneEntry, OwnStep, Complete, Shaped, Owed, Fresh, Erring;
    var w, W' := W.workers[i], StepSettling(W, i, choice);
    var w' := W'.workers[i];
    OwedFacts(W.h, W.meta, w, i);
    NotAbandoned(W, i);
    if w.pc.outcomes == map[] {
      SettlingParts(w, 0);
      PlainStep(W, i, W', w');
      MoveOn(W.h, W.meta, w, w', i);
    } else {
      var e, outcome := choice.entry, w.pc.outcomes[choice.entry];
      SettlingParts(w, e);
      CompleteStep(W, i, W', w', e, outcome);
      CompleteOk(W.h, W.meta, w, w', i, e, outcome);
    }
    OwnStepKeeps(W, i, W');
  }

  lemma WaitingKeeps(W: World, i: nat)
    requires Inv(W) && i < |W.workers| && W.workers[i].pc.Waiting? && Ready(W, i)
    ensures Inv(StepWaiting(W, i)) && OwnStep(W, i, StepWaiting(W, i))
  {
    hide WorkerOk, HostOk, OneEntry, OwnStep;
    var w, W' := W.workers[i], StepWaiting(W, i);
    OwedFacts(W.h, W.meta, w, i);
    PlainStep(W, i, W', W'.workers[i]);
    if W.h.cells[w.pc.entry].Some? {
      WokenOk(W.h, W.meta, w, W'.workers[i], i);
    } else {
      MoveOn(W.h, W.meta, w, W'.workers[i], i);
    }
    OwnStepKeeps(W, i, W');
  }

  lemma WokenOk(h: State, meta: seq<Meta>, w: Worker, w': Worker, j: nat)
    requires |meta| == |h.cells| && WorkerOk(h, meta, w, j) && w.pc.Waiting? && h.cells[w.pc.entry].Some?
    requires var outcome := h.cells[w.pc.entry].value;
             w' == w.(got := w.got[w.pc.entry := outcome], pc := if outcome.Ok? then Planning else Done(false))
    ensures WorkerOk(h, meta, w', j)
  {
  }

  // ---- Claims

  /** A leading claim appends an entry nobody had and that only the claimer owns. */
  lemma LeadHost(h: State, meta: seq<Meta>, scope: nat, id: Identity, i: nat)
    requires |meta| == |h.cells| && HostOk(h, meta) && OneEntry(meta) && ClaimResult(h, scope, id).Leads?
    ensures var h', meta' := AfterClaim(h, scope, id), meta + [Meta(scope, id, i, Led)];
            && |meta'| == |h'.cells| && HostOk(h', meta') && OneEntry(meta') && Framed(h, meta, h', meta', i)
            && h'.nextQuery == h.nextQuery && h'.cancelled == h.cancelled
            && h'.cells == h.cells + [None] && IsActive(h, scope)
  {
    var c := Now(h);
    RecordShape(h, scope, c.(uniqueJudgments := c.uniqueJudgments + 1));
    var h' := AfterClaim(h, scope, id);
    assert forall q: nat :: IsActive(h', q) <==> IsActive(h, q);
  }

  lemma ClaimingParts(w: Worker, e: nat, leads: bool)
    requires w.pc.Claiming? && w.next < |w.groups| && Shaped(w) && (leads ==> e !in w.todo)
    requires w.batched ==> Admitted(w.caps, w.groups[w.next])
    ensures var w' := w.(next := w.next + 1, pc := Claimed(e, leads));
            && Shaped(w') && Owed(w') == w.todo + (if leads then {e} else {}) && Fresh(w') == Owed(w')
            && Owed(w) == w.todo == Fresh(w) && !Erring(w) && w.abandoned == {}
  {
    hide MayClaim;
  }

  lemma LeadWorker(h: State, meta: seq<Meta>, w: Worker, i: nat, id: Identity)
    requires |meta| == |h.cells| && HostOk(h, meta) && OneEntry(meta) && WorkerOk(h, meta, w, i)
    requires w.pc.Claiming? && w.next < |w.groups| && ClaimResult(h, w.scope, id).Leads?
    requires w.batched ==> Admitted(w.caps, w.groups[w.next])
    ensures var h', meta' := AfterClaim(h, w.scope, id), meta + [Meta(w.scope, id, i, Led)];
            |meta'| == |h'.cells| && WorkerOk(h', meta', w.(next := w.next + 1, pc := Claimed(|meta|, true)), i)
  {
    hide OneEntry, HostOk, AfterClaim, Shaped, Owed, Fresh, Erring, Framed, ClaimResult, IsActive;
    LeadHost(h, meta, w.scope, id, i);
    OwedFacts(h, meta, w, i);
    OwedParts(w);
    ClaimingParts(w, |meta|, true);
  }

  lemma ClaimingKeeps(W: World, i: nat)
    requires Inv(W) && i < |W.workers| && W.workers[i].pc.Claiming? && Allowed(W, i, Plain)
    ensures Inv(StepClaiming(W, i))
  {
    hide WorkerOk, HostOk, OneEntry, OwnStep, Framed, AfterClaim;
    var w, W' := W.workers[i], StepClaiming(W, i);
    var id, w' := w.groups[w.next], W'.workers[i];
    OwedFacts(W.h, W.meta, w, i);
    match ClaimResult(W.h, w.scope, id)
    case NotActive =>
      NotActiveIsCancelled(W, i, id);
      PlainStep(W, i, W', w');
      MoveOn(W.h, W.meta, w, w', i);
      OwnStepKeeps(W, i, W');
    case Follows(e) =>
      FollowStep(W, i, W', w', id, e);
      OwnStepKeeps(W, i, W');
    case Leads(e) =>
      LeadHost(W.h, W.meta, w.scope, id, i);
      LeadWorker(W.h, W.meta, w, i, id);
      forall j | 0 <= j < |W'.workers|
        ensures WorkerOk(W'.h, W'.meta, W'.workers[j], j)
      {
        if j != i {
          FrameWorker(W.h, W.meta, W'.h, W'.meta, i, W.workers[j], j);
        }
      }
  }

  lemma NotActiveIsCancelled(W: World, i: nat, id: Identity)
    requires Inv(W) && i < |W.workers| && ClaimResult(W.h, W.workers[i].scope, id).NotActive?
    ensures W.workers[i].scope in W.h.cancelled
  {
    InactiveIsCancelled(W, i);
  }

  lemma FollowStep(W: World, i: nat, W': World, w': Worker, id: Identity, e: nat)
    requires Inv(W) && i < |W.workers| && W.workers[i].pc.Claiming? && Allowed(W, i, Plain)
    requires ClaimResult(W.h, W.workers[i].scope, id) == Follows(e)
    requires W'.h == AfterClaim(W.h, W.workers[i].scope, id) && W'.meta == W.meta && W'.workers == W.workers[i := w']
    requires w' == W.workers[i].(next := W.workers[i].next + 1, pc := Claimed(e, false))
    ensures OwnStep(W, i, W') && WorkerOk(W'.h, W'.meta, w', i)
    ensures e < |W.meta| && W.meta[e].query == W.workers[i].scope && W.meta[e].id == id
  {
    var w := W.workers[i];
    var counts := Now(W.h).(deduplicatedRows := Now(W.h).deduplicatedRows + 1);
    assert WorkerOk(W.h, W.meta, w, i);
    RecordStep(W, i, W', w', w.scope, counts);
    FollowWorker(W.h, W.meta, w, w', i, e);
    RecordOk(W.h, W.meta, w', i, w.scope, counts);
  }

  lemma FollowWorker(h: State, meta: seq<Meta>, w: Worker, w': Worker, i: nat, e: nat)
    requires |meta| == |h.cells| && WorkerOk(h, meta, w, i) && w.pc.Claiming? && w.next < |w.groups|
    requires w.batched ==> Admitted(w.caps, w.groups[w.next])
    requires e < |meta| && meta[e].query == w.scope
    requires w' == w.(next := w.next + 1, pc := Claimed(e, false))
    ensures WorkerOk(h, meta, w', i)
  {
    assert Owed(w') == w.todo == Owed(w) && Fresh(w') == w.todo == Fresh(w);
    assert Shaped(w');
  }

  // ---- Queries and newcomers

  lemma BeginHost(h: State, meta: seq<Meta>)
    requires |meta| == |h.cells| && HostOk(h, meta)
    ensures HostOk(Begin(h), meta) && Framed(h, meta, Begin(h), meta, |meta|)
  {
  }

  lemma EndHost(h: State, meta: seq<Meta>, outcome: QueryOutcome)
    requires |meta| == |h.cells| && HostOk(h, meta)
    ensures HostOk(End(h, outcome), meta) && Framed(h, meta, End(h, outcome), meta, |meta|)
  {
  }

  lemma LifecycleKeeps(W: World, h': State)
    requires Inv(W) && HostOk(h', W.meta) && |W.meta| == |h'.cells|
    requires h'.cells == W.h.cells && W.h.nextQuery <= h'.nextQuery && W.h.cancelled <= h'.cancelled
    ensures Inv(W.(h := h'))
  {
    hide HostOk, OneEntry;
    var nobody := |W.workers|;
    forall j | 0 <= j < |W.workers|
      ensures WorkerOk(h', W.meta, W.workers[j], j)
    {
      FrameWorker(W.h, W.meta, h', W.meta, nobody, W.workers[j], j);
    }
  }

  lemma SpawnKeeps(W: World, w: Worker)
    requires Inv(W) && Newcomer(W, w)
    ensures Inv(W.(workers := W.workers + [w]))
  {
    hide OneEntry;
    var j := |W.workers|;
    assert WorkerOk(W.h, W.meta, w, j);
  }

  lemma StepKeeps(W: World, a: Action)
    requires Inv(W) && Possible(W, a)
    ensures Inv(Step(W, a))
  {
    hide WorkersOk, HostOk, OneEntry, OwnersOk, Begin, End;
    match a
    case BeginQuery => BeginKeeps(W);
    case EndQuery(outcome) => EndKeeps(W, outcome);
    case Spawn(w) => SpawnKeeps(W, w);
    case Work(i, choice) => WorkKeeps(W, i, choice);
  }

  lemma BeginKeeps(W: World)
    requires Inv(W)
    ensures Inv(W.(h := Begin(W.h)))
  {
    hide WorkersOk, OneEntry, OwnersOk;
    BeginHost(W.h, W.meta);
    LifecycleKeeps(W, Begin(W.h));
  }

  lemma EndKeeps(W: World, outcome: QueryOutcome)
    requires Inv(W)
    ensures Inv(W.(h := End(W.h, outcome)))
  {
    hide WorkersOk, OneEntry, OwnersOk;
    EndHost(W.h, W.meta, outcome);
    LifecycleKeeps(W, End(W.h, outcome));
  }

  lemma WorkKeeps(W: World, i: nat, choice: Choice)
    requires Inv(W) && i < |W.workers| && Allowed(W, i, choice)
    ensures Inv(WorkerStep(W, i, choice))
  {
    hide Inv, StepArriving, StepRecording, StepClaiming, StepGate, StepClaimed, StepLooking, StepHit, StepPlanning,
         StepAcquiring, StepGranted, StepCalling, StepReturned, StepFailing, StepFailingUsage, StepSettling,
         StepWaiting, OwnStep;
    match W.workers[i].pc
    case Arriving => ArrivingKeeps(W, i);
    case Recording => RecordingKeeps(W, i, choice);
    case Claiming => if choice.GateFails? { GateKeeps(W, i); } else { ClaimingKeeps(W, i); }
    case Claimed(_, _) => ClaimedKeeps(W, i);
    case Looking(_) => LookingKeeps(W, i, choice);
    case HitRecorded(_, _) => HitKeeps(W, i);
    case Planning => PlanningKeeps(W, i, choice);
    case Acquiring(_) => AcquiringKeeps(W, i);
    case Granted(_) => GrantedKeeps(W, i);
    case Calling(_) => CallingKeeps(W, i, choice);
    case Returned(_, _, _) => ReturnedKeeps(W, i);
    case Failing(_, _) => FailingKeeps(W, i);
    case FailingUsage(_) => FailingUsageKeeps(W, i);
    case Settling(_, _) => SettlingKeeps(W, i, choice);
    case Waiting(_) => WaitingKeeps(W, i);
    case Done(_) =>
  }

  /** Every state of every run satisfies the invariant. */
  lemma {:induction false} ReachableInv(actions: seq<Action>)
    requires Exec(actions).Some?
    ensures Inv(Exec(actions).value)
  {
    if actions != [] {
      var init := actions[..|actions| - 1];
      ReachableInv(init);
      StepKeeps(Exec(init).value, actions[|actions| - 1]);
    }
  }
}
