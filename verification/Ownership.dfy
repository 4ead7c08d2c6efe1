/**
 First layer of the invariant: who may write. Every instance has at most one thread that can
 still change it, and only while its metadata is Running; a Suspended instance can be claimed.
 */
module Ownership {
  import opened Options
  import opened Storage
  import opened Workflows
  import opened Protocol

  type Threads = map<nat, Thread>

  ghost predicate SingleWriter(ts: Threads) {
    forall t1, t2, i :: t1 in ts && t2 in ts && Owns(ts[t1], i) && Owns(ts[t2], i) ==> t1 == t2
  }

  ghost predicate WritersRun(ts: Threads, meta: Metas) {
    forall t, i :: t in ts && Owns(ts[t], i) ==> TopLevel(i) && IsRunning(meta, i)
  }

  ghost predicate Waits(steps: Steps, i: Id, key: string) {
    var r := Ref(i, User(key));
    r in steps && steps[r] == Suspended
  }

  /** A Suspended instance holds a Suspended entry for the very key its metadata names. */
  ghost predicate Claimable(meta: Metas, steps: Steps) {
    forall i :: IsSuspended(meta, i) ==> TopLevel(i) && Waits(steps, i, meta[i].status.key)
  }

  ghost predicate ParksWell(th: Thread, steps: Steps) {
    th.Worker? && th.pc.Finishing? && th.pc.result.SuspendedAt? ==> Waits(steps, th.id, th.pc.result.key)
  }

  ghost predicate AboutToPark(ts: Threads, steps: Steps) {
    forall t :: t in ts ==> ParksWell(ts[t], steps)
  }

  ghost predicate KnownMetas(meta: Metas, used: set<Id>) {
    forall i :: i in meta ==> |i.path| > 0 && IsStamped(meta[i]) && (TopLevel(i) ==> i in used)
  }

  ghost predicate KnownSteps(steps: Steps, used: set<Id>) {
    forall r :: r in steps && TopLevel(r.id) ==> r.id in used
  }

  ghost predicate Owning(w: World) {
    && SingleWriter(w.threads)
    && WritersRun(w.threads, w.store.meta)
    && Claimable(w.store.meta, w.store.steps)
    && AboutToPark(w.threads, w.store.steps)
    && KnownMetas(w.store.meta, w.log.used)
    && KnownSteps(w.store.steps, w.log.used)
  }

  /** All threads but `t` stay as they were. */
  ghost predicate OthersKept(ts: Threads, ts': Threads, t: nat) {
    forall u :: u in ts' && u != t ==> u in ts && ts'[u] == ts[u]
  }

  /** Thread `t` may go, or move on without gaining anything. */
  ghost predicate GainsNothing(ts: Threads, ts': Threads, t: nat) {
    && OthersKept(ts, ts', t)
    && (t in ts' ==> t in ts && forall i :: Owns(ts'[t], i) ==> Owns(ts[t], i))
  }

  lemma MoveThread(ts: Threads, ts': Threads, t: nat, meta: Metas, steps: Steps)
    requires SingleWriter(ts) && WritersRun(ts, meta) && AboutToPark(ts, steps)
    requires GainsNothing(ts, ts', t)
    requires t in ts' ==> ParksWell(ts'[t], steps)
    ensures SingleWriter(ts') && WritersRun(ts', meta) && AboutToPark(ts', steps)
  {
  }

  /** The steps of instance `i` are the only ones that differ. */
  ghost predicate OnlyStepsOf(i: Id, steps: Steps, steps': Steps) {
    forall r: Ref :: r.id != i ==> (r in steps' <==> r in steps) && (r in steps ==> steps'[r] == steps[r])
  }

  /** Worker `t`, which owns `i`, rewrites step entries of `i`: nobody waits on them. */
  lemma OwnWrite(w: World, t: nat, steps': Steps)
    requires Owning(w) && IsWorker(w, t)
    requires OnlyStepsOf(w.threads[t].id, w.store.steps, steps')
    ensures Claimable(w.store.meta, steps') && KnownSteps(steps', w.log.used)
    ensures forall u :: u in w.threads && u != t ==> ParksWell(w.threads[u], steps')
  {
    var i := w.threads[t].id;
    assert Owns(w.threads[t], i);
    forall u | u in w.threads && u != t ensures ParksWell(w.threads[u], steps') {
      if w.threads[u].Worker? { assert Owns(w.threads[u], w.threads[u].id); }
    }
  }

  /** One instance is marked Running; only its own steps change. */
  lemma MarkedRunning(meta: Metas, steps: Steps, steps': Steps, used: set<Id>, i: Id)
    requires Claimable(meta, steps) && KnownMetas(meta, used) && KnownSteps(steps, used)
    requires TopLevel(i) && OnlyStepsOf(i, steps, steps')
    ensures
      var meta' := meta[i := Metadata(Running, None)];
      Claimable(meta', steps') && KnownMetas(meta', used + {i}) && KnownSteps(steps', used + {i})
  {
  }

  /** An instance without an owner gets one, in a transaction that marks it Running. */
  lemma Acquire(w: World, w': World, t: nat, i: Id)
    requires Owning(w)
    requires TopLevel(i) && !Owned(w, i)
    requires t in w'.threads && !w'.threads[t].Worker? && OthersKept(w.threads, w'.threads, t)
    requires forall j :: Owns(w'.threads[t], j) ==> j == i
    requires w'.store.meta == w.store.meta[i := Metadata(Running, None)]
    requires OnlyStepsOf(i, w.store.steps, w'.store.steps)
    requires w'.log.used == w.log.used + {i}
    ensures Owning(w')
  {
    MarkedRunning(w.store.meta, w.store.steps, w'.store.steps, w.log.used, i);
    forall u, j | u in w'.threads && u != t && Owns(w'.threads[u], j)
      ensures j != i && TopLevel(j) && IsRunning(w'.store.meta, j) && Owns(w.threads[u], j)
    {
      assert Owns(w.threads[u], j);
      assert IsRunning(w.store.meta, j);
    }
    forall u | u in w'.threads ensures ParksWell(w'.threads[u], w'.store.steps) {
      if w'.threads[u].Worker? { assert Owns(w'.threads[u], w'.threads[u].id); }
    }
  }

  lemma UnownedWhenSuspended(w: World, i: Id)
    requires Owning(w) && IsSuspended(w.store.meta, i)
    ensures !Owned(w, i) && TopLevel(i) && w.log.used + {i} == w.log.used
  {
  }

  /** A successful claim, by a signal or by the poller. */
  lemma ClaimAcquires(w: World, w': World, t: nat, i: Id, key: string, v: Value)
    requires Owning(w) && ClaimOutcome(w.store, i, key) == Claimed
    requires t in w'.threads && !w'.threads[t].Worker? && OthersKept(w.threads, w'.threads, t)
    requires forall j :: Owns(w'.threads[t], j) ==> j == i
    requires w'.store == ClaimTxn(w.store, i, key, v) && w'.log.used == w.log.used
    ensures Owning(w')
  {
    UnownedWhenSuspended(w, i);
    Acquire(w, w', t, i);
  }

  lemma UnderTopLevel(i: Id, id: Id)
    requires TopLevel(i) && |id.path| > 0 && Under(i, id)
    ensures i == id
  {
  }

  lemma ApiKeepsOwnership(w: World, t: nat, a: ApiAction)
    requires Owning(w) && ApiEnabled(w, t, a)
    ensures Owning(ApiNext(w, t, a))
  {
    var w' := ApiNext(w, t, a);
    match a
    case Invoke(id, _) =>
      Acquire(w, w', t, id);
    case Resume(id) => Acquire(w, w', t, id);
    case Signal(id, key, v) =>
      if ClaimOutcome(w.store, id, key) == Claimed { ClaimAcquires(w, w', t, id, key, v); }
    case DropClaim => MoveThread(w.threads, w'.threads, t, w.store.meta, w.store.steps);
    case Spawn => MoveThread(w.threads, w'.threads, t, w.store.meta, w.store.steps);
  }

  lemma PerformParksWell(j: Steps, now: nat, i: Id, h: History, op: Op)
    ensures var pc := PerformEffect(j, now, i, h, op).pc;
            pc.Finishing? && pc.result.SuspendedAt? ==> Waits(j, i, pc.result.key)
  {
  }

  lemma TaskKeepsOwnership(w: World, t: nat, a: TaskAction)
    requires Owning(w) && TaskEnabled(w, t, a)
    ensures Owning(TaskNext(w, t, a))
  {
    var w' := TaskNext(w, t, a);
    match a
    case ChildStep(r, _) => ChildWrites(w, r.id, w');
    case ChildMeta(c, _) => ChildWrites(w, c, w');
    case Save => JournalWrites(w, t, a);
    case SaveSuspended => JournalWrites(w, t, a);
    case WriteOutput => JournalWrites(w, t, a);
    case WriteResult => Release(w, t);
    case Perform =>
      PerformParksWell(w.store.steps, w.now, w.threads[t].id, w.threads[t].pc.h, CurrentOp(w.threads[t]));
      MoveThread(w.threads, w'.threads, t, w.store.meta, w.store.steps);
    case _ => MoveThread(w.threads, w'.threads, t, w.store.meta, w.store.steps);
  }

  lemma JournalWrite(w: World, t: nat, w': World)
    requires Owning(w) && IsWorker(w, t)
    requires t in w'.threads && w'.threads == w.threads[t := w'.threads[t]]
    requires w'.threads[t].Worker? && w'.threads[t].id == w.threads[t].id
    requires ParksWell(w'.threads[t], w'.store.steps)
    requires w'.store.meta == w.store.meta && w'.log.used == w.log.used
    requires OnlyStepsOf(w.threads[t].id, w.store.steps, w'.store.steps)
    ensures Owning(w')
  {
    OwnWrite(w, t, w'.store.steps);
    assert forall i :: Owns(w'.threads[t], i) <==> Owns(w.threads[t], i);
    forall u, i | u in w'.threads && Owns(w'.threads[u], i) ensures Owns(w.threads[u], i) {
    }
  }

  lemma JournalWrites(w: World, t: nat, a: TaskAction)
    requires Owning(w) && TaskEnabled(w, t, a) && (a.Save? || a.SaveSuspended? || a.WriteOutput?)
    ensures Owning(TaskNext(w, t, a))
  {
    JournalWrite(w, t, TaskNext(w, t, a));
  }

  /** Writes of inline children stay below the top level. */
  lemma ChildWrites(w: World, c: Id, w': World)
    requires Owning(w) && |c.path| > 1
    requires w'.threads == w.threads && w'.log.used == w.log.used
    requires c in w'.store.meta ==> !IsSuspended(w'.store.meta, c) && IsStamped(w'.store.meta[c])
    requires w'.store.meta == w.store.meta ||
             (c in w'.store.meta && w'.store.meta == w.store.meta[c := w'.store.meta[c]])
    requires OnlyStepsOf(c, w.store.steps, w'.store.steps)
    ensures Owning(w')
  {
    forall u | u in w.threads ensures ParksWell(w.threads[u], w'.store.steps) {
      if w.threads[u].Worker? { assert Owns(w.threads[u], w.threads[u].id) && TopLevel(w.threads[u].id); }
    }
    forall u, i | u in w.threads && Owns(w.threads[u], i) ensures IsRunning(w'.store.meta, i) {
      assert TopLevel(i) && IsRunning(w.store.meta, i);
    }
  }

  /** The metadata write of a task is its last write: it owns nothing afterwards. */
  lemma Release(w: World, t: nat)
    requires Owning(w) && TaskEnabled(w, t, WriteResult)
    ensures Owning(ResultTxn(w, t))
  {
    var i, w' := w.threads[t].id, ResultTxn(w, t);
    ReleaseOwner(w, t, i, w'.threads[t], w'.store.meta[i]);
  }

  lemma ReleaseOwner(w: World, t: nat, i: Id, th: Thread, m: Metadata)
    requires Owning(w) && t in w.threads && Owns(w.threads[t], i) && th.Announcing?
    requires IsStamped(m) && (m.status.SuspendedOn? ==> Waits(w.store.steps, i, m.status.key))
    ensures
      var ts', meta' := w.threads[t := th], w.store.meta[i := m];
      && SingleWriter(ts') && WritersRun(ts', meta') && AboutToPark(ts', w.store.steps)
      && Claimable(meta', w.store.steps) && KnownMetas(meta', w.log.used)
  {
    var ts' := w.threads[t := th];
    MoveThread(w.threads, ts', t, w.store.meta, w.store.steps);
    assert TopLevel(i) && IsRunning(w.store.meta, i);
    forall u, j | u in ts' && Owns(ts'[u], j) ensures j != i {
      assert u != t && Owns(w.threads[u], j);
    }
  }

  lemma PollKeepsOwnership(w: World, t: nat, a: PollAction)
    requires Owning(w) && PollEnabled(w, t, a)
    ensures Owning(PollNext(w, t, a))
  {
    match a
    case PollClaim => PollClaimKeepsOwnership(w, t, PollNext(w, t, a));
    case PollSpawn(t2) => PollSpawnKeepsOwnership(w, t, t2, PollNext(w, t, a));
    case _ => PollRowKeepsOwnership(w, t, a, PollNext(w, t, a));
  }

  lemma PollRowKeepsOwnership(w: World, t: nat, a: PollAction, w': World)
    requires Owning(w) && PollEnabled(w, t, a) && !a.PollClaim? && !a.PollSpawn? && w' == PollNext(w, t, a)
    ensures Owning(w')
  {
    MoveThread(w.threads, w'.threads, t, w.store.meta, w.store.steps);
  }

  lemma PollClaimKeepsOwnership(w: World, t: nat, w': World)
    requires Owning(w) && PollerAt(w, t, Checked) && w' == PollNext(w, t, PollClaim)
    ensures Owning(w')
  {
    var row := w.threads[t].batch[0].row;
    if ClaimOutcome(w.store, row.id, row.key) == Claimed {
      ClaimAcquires(w, w', t, row.id, row.key, UNIT);
    } else {
      assert w'.store == w.store && w'.log.used == w.log.used;
      MoveThread(w.threads, w'.threads, t, w.store.meta, w.store.steps);
    }
  }

  lemma PollSpawnKeepsOwnership(w: World, t: nat, t2: nat, w': World)
    requires Owning(w) && PollEnabled(w, t, PollSpawn(t2)) && w' == PollNext(w, t, PollSpawn(t2))
    ensures Owning(w')
  {
    var i := w.threads[t].batch[0].row.id;
    assert Owns(w.threads[t], i);
    if i.wf in w.defs {
      HandOver(w, w', t, t2, i);
    } else {
      MoveThread(w.threads, w'.threads, t, w.store.meta, w.store.steps);
    }
  }

  lemma StillRunning(meta: Metas, meta': Metas, steps: Steps, used: set<Id>, i: Id)
    requires Claimable(meta, steps) && KnownMetas(meta, used) && IsRunning(meta, i)
    requires meta' == meta || meta' == meta[i := Metadata(Running, None)]
    ensures Claimable(meta', steps) && KnownMetas(meta', used) && forall j :: IsRunning(meta, j) ==> IsRunning(meta', j)
  {
  }

  /** Thread `t` gives instance `i` up, and a new thread `t2` has it and nothing else. */
  ghost predicate PassesOn(ts: Threads, ts': Threads, t: nat, t2: nat, i: Id) {
    && t in ts && t2 !in ts && t in ts' && t2 in ts' && ts' == ts[t := ts'[t]][t2 := ts'[t2]]
    && Owns(ts[t], i) && !ts'[t].Worker? && !ts'[t2].Worker?
    && (forall j :: Owns(ts'[t], j) ==> j != i && Owns(ts[t], j)) && forall j :: Owns(ts'[t2], j) ==> j == i
  }

  lemma PassedOn(ts: Threads, ts': Threads, meta: Metas, meta': Metas, t: nat, t2: nat, i: Id)
    requires SingleWriter(ts) && WritersRun(ts, meta) && PassesOn(ts, ts', t, t2, i)
    requires forall j :: IsRunning(meta, j) ==> IsRunning(meta', j)
    ensures SingleWriter(ts') && WritersRun(ts', meta')
  {
    forall u, j | u in ts' && Owns(ts'[u], j)
      ensures TopLevel(j) && IsRunning(meta', j) && if u == t2 then j == i else j != i && u in ts && Owns(ts[u], j)
    {
      if u == t2 { assert Owns(ts[t], j); } else { assert Owns(ts[u], j); }
    }
  }

  /** Thread `t` passes instance `i` on to the new thread `t2`. */
  lemma HandOver(w: World, w': World, t: nat, t2: nat, i: Id)
    requires Owning(w) && PassesOn(w.threads, w'.threads, t, t2, i)
    requires w'.store.steps == w.store.steps && w'.log.used == w.log.used
    requires w'.store.meta == w.store.meta || w'.store.meta == w.store.meta[i := Metadata(Running, None)]
    ensures Owning(w')
  {
    assert TopLevel(i) && IsRunning(w.store.meta, i);
    StillRunning(w.store.meta, w'.store.meta, w.store.steps, w.log.used, i);
    PassedOn(w.threads, w'.threads, w.store.meta, w'.store.meta, t, t2, i);
  }

  lemma EngineKeepsOwnership(w: World, a: EngineAction)
    requires Owning(w) && EngineEnabled(w, a)
    ensures Owning(EngineNext(w, a))
  {
    match a
    case Cleanup(id) => CleanupKeepsOwnership(w, id);
    case RecoverOne(t, t2, id) =>
      assert Owns(w.threads[t], id);
      HandOver(w, EngineNext(w, a), t, t2, id);
    case RecoverDone(t) => MoveThread(w.threads, w.threads - {t}, t, w.store.meta, w.store.steps);
    case _ =>
  }

  lemma CleanupKeepsOwnership(w: World, id: Id)
    requires Owning(w) && IsTerminal(w.store.meta, id)
    ensures Owning(CleanupTxn(w, id))
  {
    var w' := CleanupTxn(w, id);
    forall i | TopLevel(i) && (IsSuspended(w.store.meta, i) || IsRunning(w.store.meta, i))
      ensures i != id && !Under(i, id)
    {
      if Under(i, id) { UnderTopLevel(i, id); }
    }
    forall u, j | u in w.threads && Owns(w.threads[u], j) ensures IsRunning(w'.store.meta, j) {
      assert TopLevel(j) && IsRunning(w.store.meta, j);
    }
    forall u | u in w.threads ensures ParksWell(w.threads[u], w'.store.steps) {
      if w.threads[u].Worker? { assert Owns(w.threads[u], w.threads[u].id); }
    }
  }

  lemma OwnershipStep(w: World, a: Action)
    requires Owning(w) && Enabled(w, a)
    ensures Owning(Next(w, a))
  {
    match a
    case Api(t, x) => ApiKeepsOwnership(w, t, x);
    case Task(t, x) => TaskKeepsOwnership(w, t, x);
    case Poll(t, x) => PollKeepsOwnership(w, t, x);
    case Engine(x) => EngineKeepsOwnership(w, x);
  }

  lemma {:induction false} OwnershipAlways(w: World, run: seq<Action>)
    requires Owning(w) && After(w, run).Some?
    ensures Owning(After(w, run).value)
    decreases |run|
  {
    if |run| > 0 {
      var before := run[..|run| - 1];
      OwnershipAlways(w, before);
      OwnershipStep(After(w, before).value, run[|run| - 1]);
    }
  }
}
