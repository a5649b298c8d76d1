/** Exactly when the query protocol can stall: when some chunk's capability check fails midway. */
module ProtocolStall {
  import opened Text
  import opened Judgment
  import opened Host
  import opened Protocol
  import opened ProtocolInv
  import opened ProtocolProgress

  /** A world in the first query, with no outcome yet. */
  ghost predicate Scene(W: World, entries: map<Identity, nat>, meta: seq<Meta>, workers: seq<Worker>) {
    && W.h.nextQuery == 1 && W.h.cancelled == {} && IsActive(W.h, 0)
    && W.h.entries == entries && W.meta == meta && W.workers == workers
    && |W.h.cells| == |meta| && forall e :: 0 <= e < |meta| ==> W.h.cells[e].None?
  }

  lemma SceneJoins(W: World, en: map<Identity, nat>, meta: seq<Meta>, ws: seq<Worker>, w: Worker)
    requires Scene(W, en, meta, ws) && Unstarted(w) && w.scope == 0
    ensures Possible(W, Spawn(w)) && Scene(Step(W, Spawn(w)), en, meta, ws + [w])
  {
    hide Unstarted;
  }

  lemma SceneArrives(W: World, en: map<Identity, nat>, meta: seq<Meta>, ws: seq<Worker>, i: nat)
    requires Scene(W, en, meta, ws) && i < |ws| && ws[i].pc.Arriving?
    ensures Possible(W, Work(i, Plain)) && Scene(Step(W, Work(i, Plain)), en, meta, ws[i := ws[i].(pc := Recording)])
  {
    hide OptimizedRows;
  }

  lemma SceneRecords(W: World, en: map<Identity, nat>, meta: seq<Meta>, ws: seq<Worker>, i: nat)
    requires Scene(W, en, meta, ws) && i < |ws| && ws[i].pc.Recording? && ws[i].next < |ws[i].groups|
    requires MayClaim(ws[i].batched, ws[i].caps)
    ensures Possible(W, Work(i, Plain)) && Scene(Step(W, Work(i, Plain)), en, meta, ws[i := ws[i].(pc := Claiming)])
  {
    hide OptimizedRows;
  }

  /** A claim, whether it leads or follows. */
  lemma SceneClaims(W: World, en: map<Identity, nat>, meta: seq<Meta>, ws: seq<Worker>, i: nat)
    requires Scene(W, en, meta, ws) && i < |ws| && ws[i].pc.Claiming? && ws[i].next < |ws[i].groups| && ws[i].scope == 0
    requires Admitted(ws[i].caps, ws[i].groups[ws[i].next])
    ensures Possible(W, Work(i, Plain))
    ensures var id := ws[i].groups[ws[i].next];
            var w := ws[i].(next := ws[i].next + 1);
            if id in en then Scene(Step(W, Work(i, Plain)), en, meta, ws[i := w.(pc := Claimed(en[id], false))])
            else Scene(Step(W, Work(i, Plain)), en[id := |meta|], meta + [Meta(0, id, i, Led)],
                       ws[i := w.(pc := Claimed(|meta|, true))])
  {
  }

  lemma SceneClaimed(W: World, en: map<Identity, nat>, meta: seq<Meta>, ws: seq<Worker>, i: nat)
    requires Scene(W, en, meta, ws) && i < |ws| && ws[i].pc.Claimed? && ws[i].scope == 0
    ensures Possible(W, Work(i, Plain))
    ensures var e := ws[i].pc.entry;
            Scene(Step(W, Work(i, Plain)), en, meta,
                  ws[i := if ws[i].pc.leads then ws[i].(pc := Looking(e))
                          else ws[i].(waits := ws[i].waits + [e], pc := Resume(ws[i]))])
  {
  }

  lemma SceneMisses(W: World, en: map<Identity, nat>, meta: seq<Meta>, ws: seq<Worker>, i: nat)
    requires Scene(W, en, meta, ws) && i < |ws| && ws[i].pc.Looking? && ws[i].policyOk
    ensures Possible(W, Work(i, Plain))
    ensures Scene(Step(W, Work(i, Plain)), en, meta,
                  ws[i := ws[i].(todo := ws[i].todo + {ws[i].pc.entry}, pc := Resume(ws[i]))])
  {
  }

  lemma SceneWaits(W: World, en: map<Identity, nat>, meta: seq<Meta>, ws: seq<Worker>, i: nat)
    requires Scene(W, en, meta, ws) && i < |ws| && ws[i].pc.Planning? && ws[i].todo == {} && ws[i].waits != []
    ensures Possible(W, Work(i, Plain))
    ensures Scene(Step(W, Work(i, Plain)), en, meta,
                  ws[i := ws[i].(waits := ws[i].waits[1..], pc := Waiting(ws[i].waits[0]))])
  {
  }

  lemma SceneLeaves(W: World, en: map<Identity, nat>, meta: seq<Meta>, ws: seq<Worker>, i: nat)
    requires Scene(W, en, meta, ws) && i < |ws| && ws[i].pc.Claiming? && ws[i].batched && ws[i].next < |ws[i].groups|
    requires !Admitted(ws[i].caps, ws[i].groups[ws[i].next])
    ensures Possible(W, Work(i, GateFails))
    ensures Scene(Step(W, Work(i, GateFails)), en, meta, ws[i := Leave(ws[i], ws[i].todo, true)])
  {
  }

  lemma Then(actions: seq<Action>, W: World, a: Action) returns (more: seq<Action>)
    requires Exec(actions) == Some(W) && Possible(W, a)
    ensures Exec(more) == Some(Step(W, a)) && more == actions + [a]
  {
    more := actions + [a];
    assert more[..|more| - 1] == actions;
  }

  // ---- A leader claims one group after another

  /** The entry map, the entries and the leader after `n` groups have been claimed and not found. */
  function EntriesOf(groups: seq<Identity>, n: nat): map<Identity, nat>
    requires n <= |groups|
  {
    if n == 0 then map[] else EntriesOf(groups, n - 1)[groups[n - 1] := n - 1]
  }

  function MetasOf(groups: seq<Identity>, n: nat): seq<Meta>
    requires n <= |groups|
  {
    if n == 0 then [] else MetasOf(groups, n - 1) + [Meta(0, groups[n - 1], 0, Led)]
  }

  function Below(n: nat): set<nat> { if n == 0 then {} else Below(n - 1) + {n - 1} }

  function LeaderAt(w: Worker, n: nat): Worker { w.(next := n, todo := Below(n), pc := Claiming) }

  lemma {:induction false} EntryFacts(groups: seq<Identity>, n: nat)
    requires n <= |groups| && Grouped(groups)
    ensures |MetasOf(groups, n)| == n
    ensures n > 0 ==> groups[0] in EntriesOf(groups, n) && EntriesOf(groups, n)[groups[0]] == 0
    ensures forall k :: n <= k < |groups| ==> groups[k] !in EntriesOf(groups, n)
  {
    if n > 0 {
      EntryFacts(groups, n - 1);
    }
  }

  /** What only these two kinds of execution did. */
  ghost predicate SpawnsFrom(actions: seq<Action>, w: Worker) {
    forall k :: 0 <= k < |actions| && actions[k].Spawn? ==>
      actions[k].worker == w || (w.groups != [] && actions[k].worker == Part(w))
  }

  /** An execution of a one-row chunk that asks the first question only. */
  function Part(w: Worker): Worker
    requires w.groups != []
  {
    w.(groups := [w.groups[0]], rows := 1, validRows := 1)
  }

  lemma FirstQuery(w: Worker) returns (actions: seq<Action>, W: World)
    ensures Exec(actions) == Some(W) && Scene(W, map[], [], []) && SpawnsFrom(actions, w)
  {
    W := Step(START, BeginQuery);
    actions := Then([], START, BeginQuery);
  }

  lemma LeaderStarts(w: Worker) returns (actions: seq<Action>, W: World)
    requires Unstarted(w) && w.scope == 0 && w.groups != [] && MayClaim(w.batched, w.caps)
    ensures Exec(actions) == Some(W) && Scene(W, map[], [], [LeaderAt(w, 0)]) && SpawnsFrom(actions, w)
  {
    var v := w;
    assert LeaderAt(w, 0) == w.(pc := Claiming) && w.next == 0 && w.pc == Arriving;
    hide Exec, Scene, Possible, Step, Unstarted, SpawnsFrom, LeaderAt, MayClaim;
    actions, W := FirstQuery(w);
    SceneJoins(W, map[], [], [], w);
    ChunkFrom(actions, w);
    actions := Then(actions, W, Spawn(w));
    W := Step(W, Spawn(w));
    assert [] + [w] == [w];
    SceneArrives(W, map[], [], [w], 0);
    StillFrom(actions, Work(0, Plain), w);
    actions := Then(actions, W, Work(0, Plain));
    W := Step(W, Work(0, Plain));
    v := w.(pc := Recording);
    OneReplaced(w, v);
    SceneRecords(W, map[], [], [v], 0);
    StillFrom(actions, Work(0, Plain), w);
    actions := Then(actions, W, Work(0, Plain));
    W := Step(W, Work(0, Plain));
    OneReplaced(v, w.(pc := Claiming));
  }

  lemma ChunkFrom(actions: seq<Action>, w: Worker)
    requires SpawnsFrom(actions, w)
    ensures SpawnsFrom(actions + [Spawn(w)], w)
  {
  }

  lemma EntriesMore(groups: seq<Identity>, n: nat)
    requires n < |groups| && Grouped(groups)
    ensures |MetasOf(groups, n)| == n && groups[n] !in EntriesOf(groups, n)
    ensures EntriesOf(groups, n + 1) == EntriesOf(groups, n)[groups[n] := n]
    ensures MetasOf(groups, n + 1) == MetasOf(groups, n) + [Meta(0, groups[n], 0, Led)]
  {
    EntryFacts(groups, n);
  }

  lemma LeaderFacts(w: Worker, n: nat)
    ensures var l := LeaderAt(w, n);
            l.next == n && l.pc == Claiming && l.groups == w.groups && l.scope == w.scope && l.caps == w.caps
  {
    hide Below;
  }

  lemma LeaderClaims(before: seq<Action>, V: World, w: Worker, n: nat) returns (actions: seq<Action>, W: World)
    requires n + 1 < |w.groups| && Grouped(w.groups) && w.scope == 0
    requires Admitted(w.caps, w.groups[n]) && SpawnsFrom(before, w) && Exec(before) == Some(V)
    requires Scene(V, EntriesOf(w.groups, n), MetasOf(w.groups, n), [LeaderAt(w, n)])
    ensures Exec(actions) == Some(W) && SpawnsFrom(actions, w)
    ensures Scene(W, EntriesOf(w.groups, n + 1), MetasOf(w.groups, n + 1),
                  [LeaderAt(w, n).(next := n + 1, pc := Claimed(n, true))])
  {
    var l := LeaderAt(w, n);
    LeaderFacts(w, n);
    hide Exec, Scene, Possible, Step, Below, Grouped, Admitted, EntriesOf, MetasOf, SpawnsFrom, LeaderAt;
    EntriesMore(w.groups, n);
    SceneClaims(V, EntriesOf(w.groups, n), MetasOf(w.groups, n), [l], 0);
    actions := Then(before, V, Work(0, Plain));
    StillFrom(before, Work(0, Plain), w);
    W := Step(V, Work(0, Plain));
    OneReplaced(l, l.(next := n + 1, pc := Claimed(n, true)));
  }

  lemma LeaderMisses(before: seq<Action>, V: World, en: map<Identity, nat>, meta: seq<Meta>, w: Worker, n: nat)
    returns (actions: seq<Action>, W: World)
    requires n + 1 < |w.groups| && w.scope == 0 && w.batched && w.policyOk
    requires SpawnsFrom(before, w) && Exec(before) == Some(V)
    requires Scene(V, en, meta, [LeaderAt(w, n).(next := n + 1, pc := Claimed(n, true))])
    ensures Exec(actions) == Some(W) && SpawnsFrom(actions, w) && Scene(W, en, meta, [LeaderAt(w, n + 1)])
  {
    assert Below(n) + {n} == Below(n + 1);
    var l := LeaderAt(w, n).(next := n + 1, pc := Claimed(n, true));
    hide Exec, Scene, Possible, Step, Below, SpawnsFrom;
    SceneClaimed(V, en, meta, [l], 0);
    actions := Then(before, V, Work(0, Plain));
    StillFrom(before, Work(0, Plain), w);
    W := Step(V, Work(0, Plain));
    OneReplaced(l, l.(pc := Looking(n)));
    l := l.(pc := Looking(n));
    SceneMisses(W, en, meta, [l], 0);
    StillFrom(actions, Work(0, Plain), w);
    actions := Then(actions, W, Work(0, Plain));
    W := Step(W, Work(0, Plain));
    OneReplaced(l, LeaderAt(w, n + 1));
  }

  lemma OneReplaced(w: Worker, w': Worker)
    ensures [w][0 := w'] == [w']
  {
  }

  lemma {:induction false} LeaderReaches(w: Worker, n: nat) returns (actions: seq<Action>, W: World)
    requires Unstarted(w) && w.scope == 0 && w.batched && w.policyOk && MayClaim(w.batched, w.caps)
    requires n < |w.groups| && forall k :: 0 <= k < n ==> Admitted(w.caps, w.groups[k])
    ensures Exec(actions) == Some(W) && SpawnsFrom(actions, w)
    ensures Scene(W, EntriesOf(w.groups, n), MetasOf(w.groups, n), [LeaderAt(w, n)])
  {
    hide Exec, Scene, Grouped, Admitted, SpawnsFrom;
    if n == 0 {
      actions, W := LeaderStarts(w);
    } else {
      actions, W := LeaderReaches(w, n - 1);
      actions, W := LeaderClaims(actions, W, w, n - 1);
      actions, W := LeaderMisses(actions, W, EntriesOf(w.groups, n), MetasOf(w.groups, n), w, n - 1);
    }
  }

  // ---- A follower waits, the leader leaves

  /** The pair with its second worker replaced. */
  lemma SecondReplaced(l: Worker, w: Worker, w': Worker)
    ensures [l, w][1 := w'] == [l, w'] && [l, w][0 := w'] == [w', w]
  {
  }

  lemma FollowerStarts(before: seq<Action>, V: World, en: map<Identity, nat>, meta: seq<Meta>, l: Worker, w: Worker)
    returns (actions: seq<Action>, W: World)
    requires Unstarted(w) && w.scope == 0 && MayClaim(w.batched, w.caps) && w.groups != []
    requires SpawnsFrom(before, w) && Exec(before) == Some(V) && Scene(V, en, meta, [l])
    ensures Exec(actions) == Some(W) && SpawnsFrom(actions, w) && Scene(W, en, meta, [l, Part(w).(pc := Claiming)])
  {
    PartUnstarted(w);
    var v := Part(w);
    assert v.next == 0 && v.pc == Arriving;
    hide Exec, Scene, Possible, Step, Unstarted;
    SceneJoins(V, en, meta, [l], v);
    actions := Then(before, V, Spawn(v));
    hide SpawnsFrom;
    assert SpawnsFrom(actions, w) by { JoinedFrom(before, w); }
    W := Step(V, Spawn(v));
    assert [l] + [v] == [l, v];
    SceneArrives(W, en, meta, [l, v], 1);
    StillFrom(actions, Work(1, Plain), w);
    actions := Then(actions, W, Work(1, Plain));
    W := Step(W, Work(1, Plain));
    SecondReplaced(l, v, v.(pc := Recording));
    v := v.(pc := Recording);
    SceneRecords(W, en, meta, [l, v], 1);
    StillFrom(actions, Work(1, Plain), w);
    actions := Then(actions, W, Work(1, Plain));
    W := Step(W, Work(1, Plain));
    SecondReplaced(l, v, v.(pc := Claiming));
  }

  lemma JoinedFrom(actions: seq<Action>, w: Worker)
    requires w.groups != [] && SpawnsFrom(actions, w)
    ensures SpawnsFrom(actions + [Spawn(Part(w))], w)
  {
  }

  lemma FollowerClaims(before: seq<Action>, V: World, en: map<Identity, nat>, meta: seq<Meta>, l: Worker, w: Worker)
    returns (actions: seq<Action>, W: World)
    requires Unstarted(w) && w.scope == 0 && MayClaim(w.batched, w.caps) && w.groups != []
    requires Admitted(w.caps, w.groups[0]) && SpawnsFrom(before, w) && Exec(before) == Some(V)
    requires Scene(V, en, meta, [l]) && w.groups[0] in en && en[w.groups[0]] == 0
    ensures Exec(actions) == Some(W) && SpawnsFrom(actions, w)
    ensures Scene(W, en, meta, [l, Part(w).(next := 1, pc := Claimed(0, false))])
  {
    assert w.next == 0;
    hide Exec, Scene, Possible, Step, Unstarted, Admitted, SpawnsFrom;
    actions, W := FollowerStarts(before, V, en, meta, l, w);
    var v := Part(w).(pc := Claiming);
    SceneClaims(W, en, meta, [l, v], 1);
    StillFrom(actions, Work(1, Plain), w);
    actions := Then(actions, W, Work(1, Plain));
    W := Step(W, Work(1, Plain));
    SecondReplaced(l, v, v.(next := 1, pc := Claimed(0, false)));
  }

  lemma PartUnstarted(w: Worker)
    requires Unstarted(w) && w.groups != []
    ensures Unstarted(Part(w)) && !FailsMidway(Part(w))
  {
  }

  lemma FollowerWaits(before: seq<Action>, V: World, en: map<Identity, nat>, meta: seq<Meta>, l: Worker, w: Worker)
    returns (actions: seq<Action>, W: World)
    requires Unstarted(w) && w.scope == 0 && w.groups != [] && SpawnsFrom(before, w) && Exec(before) == Some(V)
    requires Scene(V, en, meta, [l, Part(w).(next := 1, pc := Claimed(0, false))])
    ensures Exec(actions) == Some(W) && SpawnsFrom(actions, w)
    ensures Scene(W, en, meta, [l, Part(w).(next := 1, pc := Waiting(0))])
  {
    var v := Part(w).(next := 1, pc := Claimed(0, false));
    assert v.waits + [0] == [0] && Resume(v) == Planning && v.todo == {};
    hide Exec, Scene, Possible, Step, Unstarted, Resume;
    SceneClaimed(V, en, meta, [l, v], 1);
    actions := Then(before, V, Work(1, Plain));
    W := Step(V, Work(1, Plain));
    SecondReplaced(l, v, v.(waits := [0], pc := Planning));
    v := v.(waits := [0], pc := Planning);
    SceneWaits(W, en, meta, [l, v], 1);
    actions := Then(actions, W, Work(1, Plain));
    W := Step(W, Work(1, Plain));
    assert v.waits[1..] == [] && v.(waits := [], pc := Waiting(0)) == Part(w).(next := 1, pc := Waiting(0));
    SecondReplaced(l, v, Part(w).(next := 1, pc := Waiting(0)));
  }

  /** No worker can step and not all are done. */
  predicate Stalled(W: World) {
    Stuck(W) && exists i :: 0 <= i < |W.workers| && !W.workers[i].pc.Done?
  }

  lemma StalledScene(W: World, en: map<Identity, nat>, meta: seq<Meta>, l: Worker, v: Worker)
    requires Scene(W, en, meta, [l, v]) && l.pc.Done? && v.pc == Waiting(0) && v.scope == 0 && |meta| > 0
    ensures Stalled(W)
  {
    assert W.workers[1] == v;
  }

  /** An execution of such a chunk and one of a part of it can stall. */
  lemma MidwayStalls(w: Worker) returns (actions: seq<Action>)
    requires Unstarted(w) && w.scope == 0 && FailsMidway(w)
    ensures Exec(actions).Some? && SpawnsFrom(actions, w) && Stalled(Exec(actions).value)
  {
    var n := FirstRefused(w, 0);
    var W;
    hide Exec, Scene, Possible, Step, Stalled, SpawnsFrom, Admitted;
    actions, W := LeaderReaches(w, n);
    EntryFacts(w.groups, n);
    ghost var en, meta, l := EntriesOf(w.groups, n), MetasOf(w.groups, n), LeaderAt(w, n);
    actions, W := FollowerClaims(actions, W, en, meta, l, w);
    actions, W := FollowerWaits(actions, W, en, meta, l, w);
    var v := Part(w).(next := 1, pc := Waiting(0));
    SceneLeaves(W, en, meta, [l, v], 0);
    ghost var before := actions;
    actions := Then(actions, W, Work(0, GateFails));
    StillFrom(before, Work(0, GateFails), w);
    SecondReplaced(l, v, Leave(l, l.todo, true));
    assert [l, v][0 := Leave(l, l.todo, true)] == [Leave(l, l.todo, true), v];
    StalledScene(Step(W, Work(0, GateFails)), en, meta, Leave(l, l.todo, true), v);
  }

  lemma StillFrom(actions: seq<Action>, a: Action, w: Worker)
    requires SpawnsFrom(actions, w) && !a.Spawn?
    ensures SpawnsFrom(actions + [a], w)
  {
  }

  /** The first group from `k` on that the check refuses. */
  lemma FirstRefused(w: Worker, k: nat) returns (n: nat)
    requires k <= |w.groups| && (forall j :: 0 <= j < k ==> Admitted(w.caps, w.groups[j]))
    requires exists j :: 0 <= j < |w.groups| && !Admitted(w.caps, w.groups[j])
    ensures n < |w.groups| && !Admitted(w.caps, w.groups[n]) && forall j :: 0 <= j < n ==> Admitted(w.caps, w.groups[j])
    decreases |w.groups| - k
  {
    if k == |w.groups| || !Admitted(w.caps, w.groups[k]) {
      n := k;
    } else {
      n := FirstRefused(w, k + 1);
    }
  }

  /** The exact condition: executions of a chunk and of its first question can stall if and only if the
      chunk's capability check passes on its first group and fails on a later one. */
  lemma StallsIffMidway(w: Worker)
    requires Unstarted(w) && w.scope == 0
    ensures FailsMidway(w)
       <==> exists actions :: Exec(actions).Some? && SpawnsFrom(actions, w) && Stalled(Exec(actions).value)
  {
    if FailsMidway(w) {
      var actions := MidwayStalls(w);
    }
    forall actions | Exec(actions).Some? && SpawnsFrom(actions, w) && Stalled(Exec(actions).value)
      ensures FailsMidway(w)
    {
      if !FailsMidway(w) {
        NoStall(actions, w);
      }
    }
  }

  lemma NoStall(actions: seq<Action>, w: Worker)
    requires Unstarted(w) && !FailsMidway(w) && Exec(actions).Some? && SpawnsFrom(actions, w)
    ensures !Stalled(Exec(actions).value)
  {
    hide Exec, FailsMidway, Stuck, Unstarted;
    forall k | 0 <= k < |actions| && actions[k].Spawn?
      ensures !FailsMidway(actions[k].worker)
    {
      if w.groups != [] {
        PartUnstarted(w);
      }
    }
    if Stuck(Exec(actions).value) {
      NoDeadlock(actions);
    }
  }
}
