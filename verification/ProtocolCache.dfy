/** The query protocol together with the connection's result cache and the clock. What workers find in
    the cache is what workers stored there, so only the service has to be trusted. */
module ProtocolCache {
  import opened Text
  import opened Judgment
  import opened Host
  import opened Protocol
  import opened ProtocolInv
  import opened ProtocolSteps
  import opened ProtocolView
  import WorkerRuntime
  import Executor
  import CacheLog

  type Provider = WorkerRuntime.Provider

  /** A worker's cache policy, if its cache is on, and the model that the response to its latest call
      reported. */
  datatype Side = Side(policy: Option<CacheLog.Policy>, reported: Option<string>)

  datatype Joint = Joint(W: World, log: CacheLog.Log, clock: nat, sides: seq<Side>)

  const FIRST := Joint(START, [], 0, [])

  /** `Act` is any protocol action but a spawn; `reported` is the model a reply names. `Store` is a
      worker's insert, `Clear` a user's clear or a change of credential. */
  datatype Move =
    | Act(a: Action, reported: Option<string>)
    | Join(worker: Worker, policy: Option<CacheLog.Policy>)
    | Store(i: nat, entry: nat)
    | Tick(at: nat)
    | Clear

  /** What a lookup for `id` leaves of the cache, and what it finds. */
  function LookedUp(p: Provider, J: Joint, id: Identity, policy: CacheLog.Policy)
    : (CacheLog.Log, Option<JudgmentResult>)
  {
    var log := CacheLog.Reconcile(J.log, J.clock, policy);
    match Executor.KeyFor(p, id)
    case None => (log, None)
    case Some(key) => CacheLog.Lookup(log, key, J.clock)
  }

  /** The worker looks into the cache: its cache is on and the policy is valid. */
  predicate Looks(J: Joint, i: nat) {
    && i < |J.W.workers| && i < |J.sides| && J.W.workers[i].pc.Looking? && J.W.workers[i].pc.entry < |J.W.meta|
    && J.sides[i].policy.Some? && J.sides[i].policy.value.Valid()
  }

  function Found(p: Provider, J: Joint, i: nat): (CacheLog.Log, Option<JudgmentResult>)
    requires Looks(J, i)
  {
    LookedUp(p, J, J.W.meta[J.W.workers[i].pc.entry].id, J.sides[i].policy.value)
  }

  /** A lookup's outcome is the cache's. */
  predicate CanAct(p: Provider, J: Joint, a: Action) {
    && Possible(J.W, a) && !a.Spawn?
    && (a.Work? && J.W.workers[a.i].pc.Looking? ==>
          a.choice == if Looks(J, a.i) && Found(p, J, a.i).1.Some? then Finds(Found(p, J, a.i).1.value) else Plain)
  }

  /** The answer to entry `e` that a worker has received and not yet passed on. */
  function Pending(pc: Pc, e: nat): Option<JudgmentResult> {
    match pc
    case Returned(_, Some(answers), _) => if e in answers then Some(answers[e]) else None
    case Settling(outcomes, _) => if e in outcomes && outcomes[e].Ok? then Some(outcomes[e].value) else None
    case _ => None
  }

  /** The key under which worker `i` may store its answer to entry `e`: the response named the very model
      the key is pinned to. */
  function StoreKey(p: Provider, J: Joint, i: nat, e: nat): Option<Identity> {
    if i < |J.sides| && e < |J.W.meta| && J.sides[i].policy.Some? then
      var key :- Executor.KeyFor(p, J.W.meta[e].id);
      if J.sides[i].reported == key.effectiveModel then Some(key) else None
    else None
  }

  predicate Can(p: Provider, J: Joint, m: Move) {
    match m
    case Act(a, _) => CanAct(p, J, a)
    case Join(w, policy) => Newcomer(J.W, w) && w.policyOk == (policy.Some? ==> policy.value.Valid())
    case Store(i, e) => i < |J.W.workers| && Pending(J.W.workers[i].pc, e).Some? && StoreKey(p, J, i, e).Some?
    case Tick(at) => J.clock <= at
    case Clear => true
  }

  function LogAfter(p: Provider, J: Joint, m: Move): CacheLog.Log
    requires Can(p, J, m)
  {
    match m
    case Act(a, _) => if a.Work? && Looks(J, a.i) then Found(p, J, a.i).0 else J.log
    case Store(i, e) =>
      CacheLog.Insert(J.log, StoreKey(p, J, i, e).value, Pending(J.W.workers[i].pc, e).value, J.clock,
                      J.sides[i].policy.value).0
    case Clear => []
    case _ => J.log
  }

  function SidesAfter(p: Provider, J: Joint, m: Move): seq<Side>
    requires Can(p, J, m)
  {
    match m
    case Act(a, reported) =>
      if a.Work? && a.i < |J.sides| && J.W.workers[a.i].pc.Calling? then
        J.sides[a.i := J.sides[a.i].(reported := reported)]
      else J.sides
    case Join(_, policy) => J.sides + [Side(policy, None)]
    case _ => J.sides
  }

  function WorldAfter(J: Joint, m: Move): World
    requires m.Act? ==> Possible(J.W, m.a)
  {
    match m
    case Act(a, _) => Step(J.W, a)
    case Join(w, _) => J.W.(workers := J.W.workers + [w])
    case _ => J.W
  }

  function Next(p: Provider, J: Joint, m: Move): Joint
    requires Can(p, J, m)
  {
    Joint(WorldAfter(J, m), LogAfter(p, J, m), if m.Tick? then m.at else J.clock, SidesAfter(p, J, m))
  }

  // ---- Only the service is trusted

  ghost predicate Told(p: Provider, id: Identity, v: JudgmentResult, reported: Option<string>) {
    WorkerRuntime.SameService(p, id) ==> WorkerRuntime.ReportedAnswer(p, id, v, reported)
  }

  /** A reply answers each of its judgments, by the model it reports. */
  ghost predicate ServiceHonest(p: Provider, J: Joint, m: Move) {
    m.Act? && m.a.Work? && m.a.i < |J.W.workers| && J.W.workers[m.a.i].pc.Calling? && m.a.choice.Replies? ==>
      forall e :: e in m.a.choice.answers && e < |J.W.meta| ==>
        Told(p, J.W.meta[e].id, m.a.choice.answers[e], m.reported)
  }

  ghost predicate TellsTrue(p: Provider, meta: seq<Meta>, pc: Pc, reported: Option<string>) {
    forall e: nat :: Pending(pc, e).Some? ==> e < |meta| && Told(p, meta[e].id, Pending(pc, e).value, reported)
  }

  ghost predicate PendingTold(p: Provider, J: Joint) {
    && |J.sides| == |J.W.workers|
    && forall i :: 0 <= i < |J.W.workers| ==> TellsTrue(p, J.W.meta, J.W.workers[i].pc, J.sides[i].reported)
  }

  ghost predicate Sound(p: Provider, J: Joint) {
    Inv(J.W) && AllValid(p, J.W) && WorkerRuntime.CacheHolds(p, J.log) && PendingTold(p, J)
  }

  /** What a lookup finds under the key of an identity answers that identity's judgment. */
  lemma FoundIsValid(p: Provider, J: Joint, i: nat)
    requires WorkerRuntime.Honest(p) && WorkerRuntime.CacheHolds(p, J.log) && Looks(J, i)
    ensures WorkerRuntime.CacheHolds(p, Found(p, J, i).0)
    ensures Found(p, J, i).1.Some? ==> Valid(p, J.W.meta[J.W.workers[i].pc.entry].id, Found(p, J, i).1.value)
  {
    hide WorkerRuntime.CacheHolds, CacheLog.Reconcile, CacheLog.Lookup, WorkerRuntime.SaysFor, WorkerRuntime.SameService;
    var id, policy := J.W.meta[J.W.workers[i].pc.entry].id, J.sides[i].policy.value;
    var log := CacheLog.Reconcile(J.log, J.clock, policy);
    WorkerRuntime.ReconcileHolds(p, J.log, J.clock, policy);
    var key := Executor.KeyFor(p, id);
    if key.Some? {
      WorkerRuntime.LookupHolds(p, log, key.value, J.clock);
      var found := CacheLog.Lookup(log, key.value, J.clock).1;
      if found.Some? {
        Executor.KeyOfIdentity(p, id, key.value.effectiveModel.value, found.value);
      }
    }
  }

  /** Truthfulness is no assumption on the cache. */
  lemma LookupsAreTruthful(p: Provider, J: Joint, m: Move)
    requires WorkerRuntime.Honest(p) && Sound(p, J) && Can(p, J, m) && ServiceHonest(p, J, m) && m.Act?
    ensures Truthful(p, J.W, m.a)
  {
    hide Inv, AllValid, WorkerRuntime.Honest, WorkerRuntime.SameService, Found, WorkerRuntime.CacheHolds, Possible;
    if m.a.Work? && m.a.i < |J.W.workers| {
      if Looks(J, m.a.i) {
        FoundIsValid(p, J, m.a.i);
      }
      forall id, v | Told(p, id, v, m.reported)
        ensures Valid(p, id, v)
      {
        if WorkerRuntime.SameService(p, id) {
          Executor.ReportedAnswers(p, id, v, m.reported);
        }
      }
    }
  }

  /** A stored answer is that of the model in its key. */
  lemma StoredIsKeyed(p: Provider, J: Joint, i: nat, e: nat)
    requires Sound(p, J) && Can(p, J, Store(i, e))
    ensures WorkerRuntime.KeyedAnswer(p, StoreKey(p, J, i, e).value, Pending(J.W.workers[i].pc, e).value)
  {
    hide Inv, AllValid, WorkerRuntime.CacheHolds, WorkerRuntime.SaysFor, WorkerRuntime.SameService, Pending;
    var id, v, model := J.W.meta[e].id, Pending(J.W.workers[i].pc, e).value, J.sides[i].reported;
    assert TellsTrue(p, J.W.meta, J.W.workers[i].pc, model);
    Executor.KeyOfIdentity(p, id, model.value, v);
  }

  /** Steps after which the worker carries no answer. */
  lemma EarlyPending(W: World, i: nat, choice: Choice, e: nat)
    requires i < |W.workers|
    ensures W.workers[i].pc.Arriving? ==> Pending(StepArriving(W, i).workers[i].pc, e).None?
    ensures W.workers[i].pc.Recording? ==> Pending(StepRecording(W, i, choice).workers[i].pc, e).None?
    ensures W.workers[i].pc.Granted? ==> Pending(StepGranted(W, i).workers[i].pc, e).None?
    ensures W.workers[i].pc.HitRecorded? ==> Pending(StepHit(W, i).workers[i].pc, e).None?
  {
    hide Record, OptimizedRows, Attempt, WithFate, Complete;
  }

  lemma ClaimPending(W: World, i: nat, e: nat)
    requires i < |W.workers|
    ensures W.workers[i].pc.Claiming? && W.workers[i].next < |W.workers[i].groups| ==>
      Pending(StepClaiming(W, i).workers[i].pc, e).None?
    ensures Pending(StepGate(W, i).workers[i].pc, e).None?
  {
    hide AfterClaim, ClaimResult;
  }

  lemma FollowPending(W: World, i: nat, e: nat)
    requires i < |W.workers|
    ensures W.workers[i].pc.Claimed? ==> Pending(StepClaimed(W, i).workers[i].pc, e).None?
    ensures W.workers[i].pc.Waiting? && Ready(W, i) ==> Pending(StepWaiting(W, i).workers[i].pc, e).None?
  {
    hide IsActive;
  }

  lemma LookingPending(W: World, i: nat, choice: Choice, e: nat)
    requires i < |W.workers| && W.workers[i].pc.Looking?
    ensures Pending(StepLooking(W, i, choice).workers[i].pc, e).None?
  {
    hide Record, CacheHit, WithFate, AllFail;
    FailuresAnswerNothing({W.workers[i].pc.entry}, e);
  }

  lemma FailingPending(W: World, i: nat, e: nat)
    requires i < |W.workers|
    ensures W.workers[i].pc.Acquiring? ==> Pending(StepAcquiring(W, i).workers[i].pc, e).None?
    ensures W.workers[i].pc.Failing? ==> Pending(StepFailing(W, i).workers[i].pc, e).None?
    ensures W.workers[i].pc.FailingUsage? ==> Pending(StepFailingUsage(W, i).workers[i].pc, e).None?
  {
    hide Record, Acquire, AllFail, FailedRequest, Failure;
    var w := W.workers[i];
    if w.pc.Acquiring? || w.pc.Failing? || w.pc.FailingUsage? {
      FailuresAnswerNothing(w.pc.batch + w.todo, e);
    }
  }

  lemma PlanningPending(W: World, i: nat, choice: Choice, e: nat)
    requires i < |W.workers| && W.workers[i].pc.Planning? && Allowed(W, i, choice)
    ensures Pending(StepPlanning(W, i, choice).workers[i].pc, e).None?
  {
    hide AllFail;
    FailuresAnswerNothing({} + W.workers[i].todo, e);
  }

  /** An answer that has come in is passed on as it is. */
  lemma AnswerPending(W: World, i: nat, choice: Choice, e: nat)
    requires i < |W.workers| && Allowed(W, i, choice) && (W.workers[i].pc.Returned? || W.workers[i].pc.Settling?)
    ensures var pc, pc' := W.workers[i].pc, WorkerStep(W, i, choice).workers[i].pc;
            Pending(pc', e).Some? ==> Pending(pc', e) == Pending(pc, e)
  {
    hide Release, AllFail, Complete, Ready;
    var w := W.workers[i];
    if w.pc.Returned? {
      FailuresAnswerNothing(w.pc.batch + w.todo, e);
      hide Pending, AllAnswered;
      if w.pc.answers.Some? {
        AnswersAreThose(w.pc.batch, w.pc.answers.value, e);
      }
    }
  }

  lemma AnswersAreThose(b: set<nat>, answers: map<nat, JudgmentResult>, e: nat)
    ensures Pending(Settling(AllAnswered(answers), false), e) == Pending(Returned(b, Some(answers), true), e)
    ensures Pending(Settling(AllAnswered(answers), false), e) == Pending(Returned(b, Some(answers), false), e)
  {
  }

  /** An answer under way has just come in, or was under way before. */
  lemma PendingNext(W: World, i: nat, choice: Choice, e: nat)
    requires i < |W.workers| && Allowed(W, i, choice)
    ensures var pc, pc' := W.workers[i].pc, WorkerStep(W, i, choice).workers[i].pc;
            Pending(pc', e).Some? ==>
              if pc.Calling? then choice.Replies? && e in choice.answers && Pending(pc', e).value == choice.answers[e]
              else Pending(pc', e) == Pending(pc, e)
  {
    hide Pending, StepArriving, StepRecording, StepClaiming, StepGate, StepClaimed, StepLooking, StepHit, StepPlanning,
         StepAcquiring, StepGranted, StepCalling, StepReturned, StepFailing, StepFailingUsage, StepSettling, StepWaiting;
    match W.workers[i].pc
    case Looking(_) => LookingPending(W, i, choice, e);
    case Planning => PlanningPending(W, i, choice, e);
    case Calling(_) => CallPending(W, i, choice, e);
    case Returned(_, _, _) => AnswerPending(W, i, choice, e);
    case Settling(_, _) => AnswerPending(W, i, choice, e);
    case _ =>
      EarlyPending(W, i, choice, e);
      ClaimPending(W, i, e);
      FollowPending(W, i, e);
      FailingPending(W, i, e);
  }

  lemma CallPending(W: World, i: nat, choice: Choice, e: nat)
    requires i < |W.workers| && W.workers[i].pc.Calling? && Allowed(W, i, choice)
    ensures var pc' := StepCalling(W, i, choice).workers[i].pc;
            Pending(pc', e).Some? ==>
              choice.Replies? && e in choice.answers && Pending(pc', e).value == choice.answers[e]
  {
    hide Record, Response;
  }

  lemma FailuresAnswerNothing(b: set<nat>, e: nat)
    ensures Pending(Settling(AllFail(b), true), e).None?
  {
  }

  lemma ActKeepsPending(p: Provider, J: Joint, m: Move)
    requires Sound(p, J) && Can(p, J, m) && ServiceHonest(p, J, m) && m.Act? && m.a.Work?
    ensures PendingTold(p, Next(p, J, m))
  {
    var i, choice, J' := m.a.i, m.a.choice, Next(p, J, m);
    StepEffect(J.W, i, choice);
    ActTells(p, J, m);
    hide Inv, AllValid, WorkerRuntime.CacheHolds, Told, WorkerStep, Allowed, LogAfter, EffectOf, SameQueries, TellsTrue;
    forall j | 0 <= j < |J'.W.workers|
      ensures TellsTrue(p, J'.W.meta, J'.W.workers[j].pc, J'.sides[j].reported)
    {
      if j != i {
        assert J'.W.workers[j] == J.W.workers[j] && J'.sides[j] == J.sides[j];
        StillTells(p, J.W.meta, J'.W.meta, J.W.workers[j].pc, J.sides[j].reported);
      }
    }
  }

  lemma StillTells(p: Provider, meta: seq<Meta>, meta': seq<Meta>, pc: Pc, reported: Option<string>)
    requires TellsTrue(p, meta, pc, reported) && SameJudgments(meta, meta')
    ensures TellsTrue(p, meta', pc, reported)
  {
    hide Told, Pending;
  }

  lemma ActTells(p: Provider, J: Joint, m: Move)
    requires Sound(p, J) && Can(p, J, m) && ServiceHonest(p, J, m) && m.Act? && m.a.Work?
    ensures var J' := Next(p, J, m);
            m.a.i < |J'.W.workers| && |J'.sides| == |J.sides|
            && TellsTrue(p, J'.W.meta, J'.W.workers[m.a.i].pc, J'.sides[m.a.i].reported)
  {
    var i, choice, J' := m.a.i, m.a.choice, Next(p, J, m);
    StepEffect(J.W, i, choice);
    assert TellsTrue(p, J.W.meta, J.W.workers[i].pc, J.sides[i].reported);
    hide Inv, AllValid, WorkerRuntime.CacheHolds, Told, WorkerStep, Allowed, Pending, LogAfter, EffectOf, SameQueries;
    forall e: nat | Pending(J'.W.workers[i].pc, e).Some?
      ensures e < |J'.W.meta| && Told(p, J'.W.meta[e].id, Pending(J'.W.workers[i].pc, e).value, J'.sides[i].reported)
    {
      PendingNext(J.W, i, choice, e);
      if J.W.workers[i].pc.Calling? {
        BatchKnown(J.W, i, choice, e);
      }
    }
  }

  lemma BatchKnown(W: World, i: nat, choice: Choice, e: nat)
    requires Inv(W) && i < |W.workers| && Allowed(W, i, choice) && W.workers[i].pc.Calling?
    requires choice.Replies? && e in choice.answers
    ensures e < |W.meta|
  {
    hide HostOk, OneEntry, OwnersOk;
    OwedFacts(W.h, W.meta, W.workers[i], i);
    OwedParts(W.workers[i]);
  }

  /** What is in the cache, in the entries and under way stays valid as long as the service is honest. */
  lemma StaysSound(p: Provider, J: Joint, m: Move)
    requires WorkerRuntime.Honest(p) && Sound(p, J) && Can(p, J, m) && ServiceHonest(p, J, m)
    ensures Sound(p, Next(p, J, m))
  {
    hide WorkerRuntime.Honest, Inv, AllValid, WorkerRuntime.CacheHolds, PendingTold, Step, Found, Truthful, Possible, Looks;
    match m
    case Act(a, _) =>
      LookupsAreTruthful(p, J, m);
      StepKeeps(J.W, a);
      StaysValid(p, J.W, a);
      if a.Work? {
        if Looks(J, a.i) { FoundIsValid(p, J, a.i); }
        ActKeepsPending(p, J, m);
      } else {
        LifecycleKeepsPending(p, J, m);
      }
    case Join(w, _) =>
      JoinKeeps(p, J, m);
    case Store(i, e) =>
      StoredIsKeyed(p, J, i, e);
      WorkerRuntime.InsertHolds(p, J.log, StoreKey(p, J, i, e).value, Pending(J.W.workers[i].pc, e).value, J.clock,
                                J.sides[i].policy.value);
      SamePending(p, J, Next(p, J, m));
    case Tick(_) =>
      SamePending(p, J, Next(p, J, m));
    case Clear =>
      NothingCached(p);
      SamePending(p, J, Next(p, J, m));
  }

  lemma NothingCached(p: Provider)
    ensures WorkerRuntime.CacheHolds(p, [])
  {
  }

  lemma SamePending(p: Provider, J: Joint, J': Joint)
    requires PendingTold(p, J) && J'.W.workers == J.W.workers && J'.W.meta == J.W.meta && J'.sides == J.sides
    ensures PendingTold(p, J')
  {
    hide TellsTrue;
  }

  lemma LifecycleKeepsPending(p: Provider, J: Joint, m: Move)
    requires PendingTold(p, J) && Can(p, J, m) && m.Act? && !m.a.Work?
    ensures PendingTold(p, Next(p, J, m))
  {
    SamePending(p, J, Next(p, J, m));
  }

  lemma JoinKeeps(p: Provider, J: Joint, m: Move)
    requires Sound(p, J) && Can(p, J, m) && m.Join?
    ensures Sound(p, Next(p, J, m))
  {
    hide Told, Pending, Inv, AllValid, WorkerRuntime.CacheHolds, Newcomer;
    StepKeeps(J.W, Spawn(m.worker));
    StaysValid(p, J.W, Spawn(m.worker));
    ArrivingHasNone();
    assert m.worker.pc.Arriving? by { Arrives(J.W, m.worker); }
  }

  lemma Arrives(W: World, w: Worker)
    requires Newcomer(W, w)
    ensures w.pc.Arriving?
  {
  }

  lemma ArrivingHasNone()
    ensures forall e: nat :: Pending(Arriving, e).None?
  {
  }

  // ---- Whole runs

  function After(p: Provider, moves: seq<Move>): Option<Joint> {
    if moves == [] then Some(FIRST)
    else
      var J :- After(p, moves[..|moves| - 1]);
      if Can(p, J, moves[|moves| - 1]) then Some(Next(p, J, moves[|moves| - 1])) else None
  }

  ghost predicate HonestRun(p: Provider, moves: seq<Move>) {
    forall k :: 0 <= k < |moves| && After(p, moves[..k]).Some? ==>
      ServiceHonest(p, After(p, moves[..k]).value, moves[k])
  }

  /** The protocol's part of a run. */
  function Actions(moves: seq<Move>): seq<Action> {
    if moves == [] then []
    else
      var before, m := Actions(moves[..|moves| - 1]), moves[|moves| - 1];
      match m
      case Act(a, _) => before + [a]
      case Join(w, _) => before + [Spawn(w)]
      case _ => before
  }

  /** A run with the cache is a run of the protocol. */
  lemma {:induction false} ProtocolPart(p: Provider, moves: seq<Move>)
    requires After(p, moves).Some?
    ensures Exec(Actions(moves)) == Some(After(p, moves).value.W)
  {
    hide Possible, Step, LogAfter, SidesAfter, Looks, Found, StoreKey, Pending;
    if moves != [] {
      var init, m := moves[..|moves| - 1], moves[|moves| - 1];
      ProtocolPart(p, init);
      var J := After(p, init).value;
      if m.Act? {
        assert (Actions(init) + [m.a])[..|Actions(init)|] == Actions(init);
      } else if m.Join? {
        assert (Actions(init) + [Spawn(m.worker)])[..|Actions(init)|] == Actions(init);
        JoinIsSpawn(J.W, m.worker);
      }
    }
  }

  lemma JoinIsSpawn(W: World, w: Worker)
    requires Newcomer(W, w)
    ensures Possible(W, Spawn(w)) && Step(W, Spawn(w)) == W.(workers := W.workers + [w])
  {
  }

  lemma {:induction false} ReachableSound(p: Provider, moves: seq<Move>)
    requires WorkerRuntime.Honest(p) && After(p, moves).Some? && HonestRun(p, moves)
    ensures Sound(p, After(p, moves).value)
  {
    if moves == [] {
      StartIsSound(p);
    } else {
      hide Sound, Can, Next, ServiceHonest, WorkerRuntime.Honest;
      var n := |moves| - 1;
      HonestInit(p, moves);
      hide HonestRun;
      ReachableSound(p, moves[..n]);
      StaysSound(p, After(p, moves[..n]).value, moves[n]);
    }
  }

  lemma HonestInit(p: Provider, moves: seq<Move>)
    requires moves != [] && HonestRun(p, moves)
    ensures var n := |moves| - 1;
            HonestRun(p, moves[..n])
            && (After(p, moves[..n]).Some? ==> ServiceHonest(p, After(p, moves[..n]).value, moves[n]))
  {
    hide After, ServiceHonest;
    var n := |moves| - 1;
    forall k | 0 <= k < n && After(p, moves[..n][..k]).Some?
      ensures ServiceHonest(p, After(p, moves[..n][..k]).value, moves[..n][k])
    {
      assert moves[..n][..k] == moves[..k] && moves[..n][k] == moves[k];
    }
  }

  lemma StartIsSound(p: Provider)
    ensures Sound(p, FIRST)
  {
  }

  /** In every run of any number of workers that share a cache, whatever is stored as the outcome of a
      judgment, by a call or by a hit on what earlier queries stored, is a valid answer to it. */
  lemma OutcomesAnswer(p: Provider, moves: seq<Move>, e: nat, v: JudgmentResult)
    requires WorkerRuntime.Honest(p) && After(p, moves).Some? && HonestRun(p, moves)
    requires var h := After(p, moves).value.W.h; e < |h.cells| && h.cells[e] == Some(Ok(v))
    ensures var meta := After(p, moves).value.W.meta;
            e < |meta| && (WorkerRuntime.SameService(p, meta[e].id) ==> WorkerRuntime.Answers(p, meta[e].id, v))
  {
    ReachableSound(p, moves);
    hide After, HonestRun, Inv, PendingTold, WorkerRuntime.CacheHolds, WorkerRuntime.Answers, WorkerRuntime.SameService;
  }

  // ---- What the others do, for one worker

  /** The runtime as worker `i` sees it, cache and clock included. */
  function SeenWith(J: Joint, i: nat, base: WorkerRuntime.Snapshot): WorkerRuntime.Snapshot
    requires i < |J.W.workers| && |J.W.h.cells| == |J.W.meta|
  {
    Seen(J.W, i, base.(cached := J.log, clock := J.clock))
  }

  predicate IsOthers(m: Move, i: nat) {
    match m
    case Act(a, _) => IsForeign(a, i)
    case Store(j, _) => j != i
    case _ => true
  }

  /** The events that another's move is for worker `i`. */
  function NewsOf(p: Provider, J: Joint, m: Move, i: nat): seq<WorkerRuntime.Event>
    requires i < |J.W.workers| && Can(p, J, m)
  {
    match m
    case Act(a, _) => EventsOf(J.W, a, i) + [WorkerRuntime.CacheBecomes(LogAfter(p, J, m))]
    case Join(_, _) => []
    case Tick(at) => [WorkerRuntime.ClockReaches(at)]
    case _ => [WorkerRuntime.CacheBecomes(LogAfter(p, J, m))]
  }

  ghost predicate AllAdmissible(p: Provider, events: seq<WorkerRuntime.Event>) {
    forall k :: 0 <= k < |events| ==> WorkerRuntime.Admissible(p, events[k])
  }

  /** From `J` to `J'` worker `i` sees these events. */
  ghost predicate SeesAs(J: Joint, J': Joint, i: nat, base: WorkerRuntime.Snapshot, events: seq<WorkerRuntime.Event>) {
    && i < |J.W.workers| && |J.W.h.cells| == |J.W.meta| && i < |J'.W.workers| && |J'.W.h.cells| == |J'.W.meta|
    && SeenWith(J', i, base) == ApplyAll(SeenWith(J, i, base), events)
  }

  /** Each move of another worker, of a user or of the host is a few admissible events for worker `i`. */
  lemma OthersMove(p: Provider, J: Joint, m: Move, i: nat, base: WorkerRuntime.Snapshot)
    requires WorkerRuntime.Honest(p) && Sound(p, J) && i < |J.W.workers| && Can(p, J, m) && ServiceHonest(p, J, m)
    requires IsOthers(m, i)
    ensures Sound(p, Next(p, J, m))
    ensures AllAdmissible(p, NewsOf(p, J, m, i)) && SeesAs(J, Next(p, J, m), i, base, NewsOf(p, J, m, i))
  {
    StaysSound(p, J, m);
    SoundParts(p, J);
    SoundParts(p, Next(p, J, m));
    MoveIsNews(p, J, m, i, base);
  }

  lemma MoveIsNews(p: Provider, J: Joint, m: Move, i: nat, base: WorkerRuntime.Snapshot)
    requires Inv(J.W) && AllValid(p, J.W) && |J.W.h.cells| == |J.W.meta| && i < |J.W.workers| && Can(p, J, m)
    requires IsOthers(m, i) && WorkerRuntime.CacheHolds(p, LogAfter(p, J, m))
    ensures AllAdmissible(p, NewsOf(p, J, m, i)) && SeesAs(J, Next(p, J, m), i, base, NewsOf(p, J, m, i))
  {
    hide LogAfter, SidesAfter, Inv, AllValid, CanAct, Newcomer, WorkerRuntime.CacheHolds, EventsOf, StoreKey, Pending, Step,
         Possible, AllAdmissible, SeesAs;
    if m.Act? {
      assert Possible(J.W, m.a) by { ActPossible(p, J, m.a); }
      ActIsSeen(p, J, Next(p, J, m), m.a, i, base);
    } else {
      RestIsNews(p, J, m, i, base);
    }
  }

  lemma ActIsSeen(p: Provider, J: Joint, J': Joint, a: Action, i: nat, base: WorkerRuntime.Snapshot)
    requires Inv(J.W) && AllValid(p, J.W) && |J.W.h.cells| == |J.W.meta| && i < |J.W.workers| && IsForeign(a, i)
    requires Possible(J.W, a) && J'.W == Step(J.W, a) && J'.clock == J.clock && WorkerRuntime.CacheHolds(p, J'.log)
    ensures var news := EventsOf(J.W, a, i) + [WorkerRuntime.CacheBecomes(J'.log)];
            AllAdmissible(p, news) && SeesAs(J, J', i, base, news)
  {
    hide Inv, AllValid, Seen, ApplyAll, WorkerRuntime.CacheHolds, EventsOf, Step, Possible, AllAdmissible;
    var s := base.(cached := J.log, clock := J.clock);
    assert s.(cached := J'.log) == base.(cached := J'.log, clock := J.clock);
    ActIsNews(p, J.W, a, i, s, J'.log);
  }

  /** Moves that are no action of the protocol, or only a new execution. */
  lemma RestIsNews(p: Provider, J: Joint, m: Move, i: nat, base: WorkerRuntime.Snapshot)
    requires |J.W.h.cells| == |J.W.meta| && i < |J.W.workers| && Can(p, J, m) && !m.Act?
    requires WorkerRuntime.CacheHolds(p, LogAfter(p, J, m))
    ensures AllAdmissible(p, NewsOf(p, J, m, i)) && SeesAs(J, Next(p, J, m), i, base, NewsOf(p, J, m, i))
  {
    hide LogAfter, SidesAfter, Seen, ApplyAll, Newcomer, WorkerRuntime.Apply, WorkerRuntime.CacheHolds, StoreKey, Pending;
    var J' := Next(p, J, m);
    var s := base.(cached := J.log, clock := J.clock);
    assert s.(cached := J'.log) == base.(cached := J'.log, clock := J.clock);
    if m.Join? {
      SpawnIsNoNews(J.W, m.worker, i, s);
      SameLog(p, J, m);
    } else if m.Tick? {
      ApplyOne(Seen(J.W, i, s), WorkerRuntime.ClockReaches(m.at));
      SeenAt(J.W, i, s, m.at);
      SameLog(p, J, m);
    } else {
      ApplyOne(Seen(J.W, i, s), WorkerRuntime.CacheBecomes(J'.log));
      SeenCached(J.W, i, s, J'.log);
    }
  }

  lemma SameLog(p: Provider, J: Joint, m: Move)
    requires Can(p, J, m) && (m.Join? || m.Tick?)
    ensures LogAfter(p, J, m) == J.log
  {
  }

  lemma ActPossible(p: Provider, J: Joint, a: Action)
    requires CanAct(p, J, a)
    ensures Possible(J.W, a)
  {
  }

  lemma SpawnIsNoNews(W: World, w: Worker, i: nat, s: WorkerRuntime.Snapshot)
    requires i < |W.workers| && |W.h.cells| == |W.meta|
    ensures Seen(W.(workers := W.workers + [w]), i, s) == Seen(W, i, s) == ApplyAll(Seen(W, i, s), [])
  {
    hide EntriesSeen, OwnedBy;
  }

  lemma SoundParts(p: Provider, J: Joint)
    requires Sound(p, J)
    ensures Inv(J.W) && AllValid(p, J.W) && WorkerRuntime.CacheHolds(p, J.log) && |J.W.h.cells| == |J.W.meta|
  {
    hide AllValid, WorkerRuntime.CacheHolds, PendingTold, WorkersOk, OwnersOk, OneEntry;
  }

  lemma ThenCache(W: World, W': World, i: nat, s: WorkerRuntime.Snapshot, events: seq<WorkerRuntime.Event>,
                  log: CacheLog.Log)
    requires i < |W.workers| && |W.h.cells| == |W.meta| && i < |W'.workers| && |W'.h.cells| == |W'.meta|
    requires Seen(W', i, s) == ApplyAll(Seen(W, i, s), events)
    ensures Seen(W', i, s.(cached := log)) == ApplyAll(Seen(W, i, s), events + [WorkerRuntime.CacheBecomes(log)])
  {
    hide Seen, ApplyAll, WorkerRuntime.Apply;
    var news := WorkerRuntime.CacheBecomes(log);
    ApplyMore(Seen(W, i, s), events, [news]);
    ApplyOne(Seen(W', i, s), news);
    SeenCached(W', i, s, log);
  }

  lemma ThenAdmissible(p: Provider, events: seq<WorkerRuntime.Event>, log: CacheLog.Log)
    requires AllAdmissible(p, events) && WorkerRuntime.CacheHolds(p, log)
    ensures AllAdmissible(p, events + [WorkerRuntime.CacheBecomes(log)])
  {
    hide WorkerRuntime.CacheHolds;
  }

  lemma ActIsNews(p: Provider, W: World, a: Action, i: nat, s: WorkerRuntime.Snapshot, log: CacheLog.Log)
    requires Inv(W) && AllValid(p, W) && WorkerRuntime.CacheHolds(p, log) && |W.h.cells| == |W.meta|
    requires i < |W.workers| && IsForeign(a, i) && Possible(W, a)
    ensures var W', news := Step(W, a), EventsOf(W, a, i) + [WorkerRuntime.CacheBecomes(log)];
            && i < |W'.workers| && |W'.h.cells| == |W'.meta| && AllAdmissible(p, news)
            && Seen(W', i, s.(cached := log)) == ApplyAll(Seen(W, i, s), news)
  {
    hide Inv, AllValid, EventsOf, Step, Possible, WorkerRuntime.CacheHolds, Seen, ApplyAll, WorkerRuntime.Admissible;
    ForeignStep(p, W, a, i, s);
    SameLengths(Step(W, a));
    ThenAdmissible(p, EventsOf(W, a, i), log);
    ThenCache(W, Step(W, a), i, s, EventsOf(W, a, i), log);
  }

  lemma SeenCached(W: World, i: nat, s: WorkerRuntime.Snapshot, log: CacheLog.Log)
    requires i < |W.workers| && |W.h.cells| == |W.meta|
    ensures Seen(W, i, s.(cached := log)) == WorkerRuntime.Apply(Seen(W, i, s), WorkerRuntime.CacheBecomes(log))
  {
  }

  lemma SeenAt(W: World, i: nat, s: WorkerRuntime.Snapshot, at: nat)
    requires i < |W.workers| && |W.h.cells| == |W.meta| && s.clock <= at
    ensures Seen(W, i, s.(clock := at)) == WorkerRuntime.Apply(Seen(W, i, s), WorkerRuntime.ClockReaches(at))
  {
  }

  /** The joint state after more moves. */
  function Continue(p: Provider, J: Joint, moves: seq<Move>): Option<Joint> {
    if moves == [] then Some(J)
    else
      var K :- Continue(p, J, moves[..|moves| - 1]);
      if Can(p, K, moves[|moves| - 1]) then Some(Next(p, K, moves[|moves| - 1])) else None
  }

  /** Only others move, and the service is honest. */
  ghost predicate Around(p: Provider, J: Joint, moves: seq<Move>, i: nat) {
    forall k :: 0 <= k < |moves| ==>
      && IsOthers(moves[k], i)
      && (Continue(p, J, moves[..k]).Some? ==> ServiceHonest(p, Continue(p, J, moves[..k]).value, moves[k]))
  }

  lemma AroundInit(p: Provider, J: Joint, moves: seq<Move>, i: nat)
    requires moves != [] && Around(p, J, moves, i)
    ensures var n := |moves| - 1;
            Around(p, J, moves[..n], i) && IsOthers(moves[n], i)
            && (Continue(p, J, moves[..n]).Some? ==> ServiceHonest(p, Continue(p, J, moves[..n]).value, moves[n]))
  {
    hide Continue, ServiceHonest, IsOthers;
    var n := |moves| - 1;
    forall k | 0 <= k < n
      ensures IsOthers(moves[..n][k], i)
      ensures Continue(p, J, moves[..n][..k]).Some? ==>
        ServiceHonest(p, Continue(p, J, moves[..n][..k]).value, moves[..n][k])
    {
      assert moves[..n][..k] == moves[..k] && moves[..n][k] == moves[k];
    }
  }

  /** The link between the two models: whatever the other workers, the users and the host do between two
      steps of worker `i`, to entries, cache, clock and lifecycle, is for it one batch of an admissible
      script, if only the service is honest. */
  lemma {:induction false} OthersAreAScript(p: Provider, J: Joint, moves: seq<Move>, i: nat, base: WorkerRuntime.Snapshot)
    returns (events: seq<WorkerRuntime.Event>)
    requires WorkerRuntime.Honest(p) && Sound(p, J) && i < |J.W.workers| && |J.W.h.cells| == |J.W.meta|
    requires Around(p, J, moves, i) && Continue(p, J, moves).Some?
    ensures var K := Continue(p, J, moves).value;
            && Sound(p, K) && i < |K.W.workers| && |K.W.h.cells| == |K.W.meta|
            && WorkerRuntime.ScriptAdmissible(p, [events])
            && SeenWith(K, i, base) == ApplyAll(SeenWith(J, i, base), events)
  {
    hide Sound, SeenWith, Can, Next, ServiceHonest, WorkerRuntime.Admissible, NewsOf, WorkerRuntime.ScriptAdmissible,
         WorkerRuntime.Honest, IsOthers;
    if moves == [] {
      events := [];
      NothingAdmissible(p);
    } else {
      var n := |moves| - 1;
      AroundInit(p, J, moves, i);
      hide Around;
      var before := OthersAreAScript(p, J, moves[..n], i, base);
      var K := Continue(p, J, moves[..n]).value;
      OthersMove(p, K, moves[n], i, base);
      SoundParts(p, Next(p, K, moves[n]));
      var more := NewsOf(p, K, moves[n], i);
      ApplyMore(SeenWith(J, i, base), before, more);
      hide ApplyAll, Continue;
      events := before + more;
      MoreAdmissible(p, before, more);
    }
  }

  /** What a worker sees of a sound state is what the executors assume of their runtime. */
  lemma SeenHolds(p: Provider, J: Joint, i: nat, base: WorkerRuntime.Snapshot)
    requires Sound(p, J) && i < |J.W.workers| && WorkerRuntime.ScriptAdmissible(p, base.script)
    requires |base.calls| <= |base.permits|
    ensures |J.W.h.cells| == |J.W.meta| && WorkerRuntime.Inv(p, SeenWith(J, i, base))
  {
    hide Valid, WorkerRuntime.CacheHolds, WorkerRuntime.ScriptAdmissible, WorkersOk, HostOk, OwnersOk, OneEntry,
         WorkerRuntime.EntriesHold, PendingTold;
    SeenValid(p, J.W.h.cells, J.W.meta, J.W.workers[i].scope, i);
  }
}
