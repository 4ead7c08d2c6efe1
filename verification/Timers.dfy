/**
 Durable timers: rows are set with their step, polled when due and at most once, and a suspended
 timer step is without a row only when a poll or a reused row key took it away.
 */
module Timers {
  import opened Options
  import opened Storage
  import opened Workflows
  import opened Protocol
  import opened Ownership
  import opened Replay

  function RowRef(row: TimerRow): Ref { Ref(row.id, User(row.key)) }

  ghost predicate HasRow(timers: map<TimerKey, TimerRow>, r: Ref) {
    exists k :: k in timers && RowRef(timers[k]) == r
  }

  ghost predicate Holds(th: Thread, r: Ref) {
    th.Poller? && |th.batch| > 0 && (th.stage.Removed? || th.stage.Checked?) && RowRef(th.batch[0].row) == r
  }

  /** A poller has removed the row of `r` and not yet decided what to do about it. */
  ghost predicate Held(ts: Threads, r: Ref) {
    exists t :: t in ts && Holds(ts[t], r)
  }

  ghost predicate WasLost(lost: set<LostTimer>, r: Ref) {
    exists l :: l in lost && l.ref == r
  }

  ghost predicate Accounted(w: World, r: Ref) {
    HasRow(w.store.timers, r) || Held(w.threads, r) || WasLost(w.log.lost, r)
  }

  /** A step suspended as a timer waits or is completed, and while it waits its row is accounted for. */
  ghost predicate TimerStepsOk(w: World) {
    forall r :: r in w.log.timerSteps ==>
      && TopLevel(r.id) && r.key.User? && r in w.store.steps && !w.store.steps[r].Failed?
      && (w.store.steps[r].Suspended? ==> Accounted(w, r))
  }

  ghost predicate BatchesDue(w: World) {
    forall t, n :: IsPoller(w, t) && 0 <= n < |w.threads[t].batch| ==> w.threads[t].batch[n].k.deadline <= w.now
  }

  function InTable<V>(timers: map<TimerKey, V>, k: TimerKey): nat { if k in timers then 1 else 0 }

  /** Every removal by a poll has an insertion of its own. */
  ghost predicate PolledOnce(w: World) {
    forall k :: Count(w.log.polled, k) + InTable(w.store.timers, k) <= Count(w.log.rowsSet, k)
  }

  ghost predicate TimersOk(w: World) {
    TimerStepsOk(w) && BatchesDue(w) && PolledOnce(w)
  }

  /** Timers, pollers and losses stay; steps suspended as timers stay or are completed. */
  lemma TimersFrame(w: World, w': World)
    requires TimersOk(w)
    requires w'.store.timers == w.store.timers && w'.now >= w.now
    requires w'.log.timerSteps == w.log.timerSteps && w'.log.lost >= w.log.lost
    requires w'.log.polled == w.log.polled && w'.log.rowsSet == w.log.rowsSet
    requires forall t :: IsPoller(w, t) ==> t in w'.threads && w'.threads[t] == w.threads[t]
    requires forall t :: IsPoller(w', t) ==> IsPoller(w, t)
    requires forall r :: r in w.log.timerSteps ==>
      r in w'.store.steps && (w'.store.steps[r] == w.store.steps[r] || w'.store.steps[r].Completed?)
    ensures TimersOk(w')
  {
  }

  /** What callers leave alone. A claim completes a step, an invocation is of a new instance. */
  lemma ApiLeavesTimers(w: World, t: nat, a: ApiAction, w': World)
    requires ApiEnabled(w, t, a) && w' == ApiNext(w, t, a)
    ensures w'.store.timers == w.store.timers && w'.now == w.now
    ensures w'.log.timerSteps == w.log.timerSteps && w'.log.lost == w.log.lost
    ensures w'.log.polled == w.log.polled && w'.log.rowsSet == w.log.rowsSet
    ensures forall u :: IsPoller(w, u) <==> IsPoller(w', u)
    ensures forall u :: IsPoller(w, u) ==> w'.threads[u] == w.threads[u]
  {
  }

  lemma ApiKeepsTimers(w: World, t: nat, a: ApiAction, w': World)
    requires Owning(w) && TimersOk(w) && ApiEnabled(w, t, a) && w' == ApiNext(w, t, a)
    ensures TimersOk(w')
  {
    ApiLeavesTimers(w, t, a, w');
    TimersFrame(w, w');
  }

  /** A write of a task never hits a step that waits for a timer. */
  lemma OwnEntriesApart(w: World, t: nat)
    requires Replaying(w) && TimersOk(w) && IsWorker(w, t)
    requires w.threads[t].pc.Saving? || w.threads[t].pc.Suspending?
    ensures CurrentOp(w.threads[t]).IsJournaled() &&
            Ref(w.threads[t].id, CurrentOp(w.threads[t]).JournalKey()) !in w.log.timerSteps
  {
  }

  lemma TaskLeavesThreads(w: World, t: nat, a: TaskAction, w': World)
    requires TaskEnabled(w, t, a) && w' == TaskNext(w, t, a)
    ensures t in w.threads && !w.threads[t].Poller? && (t in w'.threads ==> !w'.threads[t].Poller?)
    ensures forall u :: u != t ==>
      (u in w.threads <==> u in w'.threads) && (u in w.threads ==> w'.threads[u] == w.threads[u])
  {
  }

  lemma TaskLeavesSteps(w: World, t: nat, a: TaskAction, w': World)
    requires TaskEnabled(w, t, a) && !a.SaveSuspended? && !a.Save? && w' == TaskNext(w, t, a)
    ensures forall r :: r in w.store.steps && TopLevel(r.id) && r.key.User? ==>
              r in w'.store.steps && w'.store.steps[r] == w.store.steps[r]
  {
  }

  lemma TaskKeepsTimers(w: World, t: nat, a: TaskAction)
    requires Owning(w) && Replaying(w) && TimersOk(w) && TaskEnabled(w, t, a)
    ensures TimersOk(TaskNext(w, t, a))
  {
    if a.SaveSuspended? {
      SuspensionKeepsTimers(w, t);
    } else {
      var w' := TaskNext(w, t, a);
      TaskLeavesTimers(w, t, a, w');
      TaskLeavesThreads(w, t, a, w');
      if a.Save? { OwnEntriesApart(w, t); } else { TaskLeavesSteps(w, t, a, w'); }
      TimersFrame(w, w');
    }
  }

  lemma SuspensionKeepsTimers(w: World, t: nat)
    requires Owning(w) && Replaying(w) && TimersOk(w) && TaskEnabled(w, t, SaveSuspended)
    ensures TimersOk(SuspendedTxn(w, t))
  {
    var w' := SuspendedTxn(w, t);
    OwnEntriesApart(w, t);
    if w.threads[t].pc.deadline.None? {
      TimersFrame(w, w');
    } else {
      forall r | r in w'.log.timerSteps && w'.store.steps[r].Suspended? ensures Accounted(w', r) {
        SuspensionAccounted(w, t, w', r);
      }
      SuspensionPaysForRow(w, t, w');
      assert Owns(w.threads[t], w.threads[t].id);
    }
  }

  /** The row that a suspension inserts, or overwrites, is counted as an insertion. */
  lemma SuspensionPaysForRow(w: World, t: nat, w': World)
    requires PolledOnce(w) && TaskEnabled(w, t, SaveSuspended) && w' == SuspendedTxn(w, t)
    requires w.threads[t].pc.deadline.Some?
    ensures PolledOnce(w')
  {
  }

  lemma SuspensionAccounted(w: World, t: nat, w': World, r: Ref)
    requires TimersOk(w) && TaskEnabled(w, t, SaveSuspended) && w' == SuspendedTxn(w, t)
    requires w.threads[t].pc.deadline.Some? && r in w'.log.timerSteps && Lookup(w'.store.steps, r) == Some(Suspended)
    ensures Accounted(w', r)
  {
    var th := w.threads[t];
    var k := TimerKey(th.pc.deadline.value, w.serial);
    assert w'.store.timers == w.store.timers[k := TimerRow(th.id, CurrentOp(th).key)];
    if r == Ref(th.id, User(CurrentOp(th).key)) {
      assert RowRef(w'.store.timers[k]) == r;
    } else {
      assert r in w.log.timerSteps && w.store.steps[r] == w'.store.steps[r];
      RowSetAccounted(w, w', r, k, t);
    }
  }

  lemma RowSetAccounted(w: World, w': World, r: Ref, k: TimerKey, t: nat)
    requires Accounted(w, r) && k in w'.store.timers && w'.store.timers == w.store.timers[k := w'.store.timers[k]]
    requires IsWorker(w, t) && t in w'.threads && w'.threads == w.threads[t := w'.threads[t]]
    requires w.log.lost <= w'.log.lost
    requires k in w.store.timers ==> LostTimer(RowRef(w.store.timers[k]), Overwritten) in w'.log.lost
    ensures Accounted(w', r)
  {
    if HasRow(w.store.timers, r) {
      var k0 :| k0 in w.store.timers && RowRef(w.store.timers[k0]) == r;
      if k0 == k {
        assert LostTimer(r, Overwritten) in w'.log.lost;
      } else {
        assert RowRef(w'.store.timers[k0]) == r;
      }
    } else if Held(w.threads, r) {
      var u :| u in w.threads && Holds(w.threads[u], r);
      assert Holds(w'.threads[u], r);
    }
  }

  /** The poller moves on: what it held and did not claim is logged as lost. */
  lemma LetGo(w: World, w': World, t: nat, r: Ref)
    requires Accounted(w, r) && IsPoller(w, t) && t in w'.threads
    requires w'.store.timers == w.store.timers && w.log.lost <= w'.log.lost
    requires forall u :: u != t && u in w.threads ==> u in w'.threads && w'.threads[u] == w.threads[u]
    requires Holds(w.threads[t], r) ==> Holds(w'.threads[t], r) || WasLost(w'.log.lost, r)
    ensures Accounted(w', r)
  {
  }

  lemma RemovalAccounted(w: World, t: nat, r: Ref)
    requires Accounted(w, r) && PollerAt(w, t, Resting)
    ensures Accounted(PollNext(w, t, RemoveRow), r)
  {
    var w', e := PollNext(w, t, RemoveRow), w.threads[t].batch[0];
    if HasRow(w.store.timers, r) {
      var k :| k in w.store.timers && RowRef(w.store.timers[k]) == r;
      if k != e.k {
        assert k in w'.store.timers && RowRef(w'.store.timers[k]) == r;
      } else if w.store.timers[k] == e.row {
        assert Holds(w'.threads[t], r);
      } else {
        assert LostTimer(r, Overwritten) in w'.log.lost;
      }
    } else if Held(w.threads, r) {
      var u :| u in w.threads && Holds(w.threads[u], r);
      assert u != t && Holds(w'.threads[u], r);
    }
  }

  lemma PollKeepsAccounts(w: World, t: nat, a: PollAction, r: Ref)
    requires PollEnabled(w, t, a) && Accounted(w, r)
    requires a.PollClaim? ==>
      ClaimOutcome(w.store, w.threads[t].batch[0].row.id, w.threads[t].batch[0].row.key) != Claimed ||
      !Holds(w.threads[t], r)
    ensures Accounted(PollNext(w, t, a), r)
  {
    var w' := PollNext(w, t, a);
    match a
    case RemoveRow => RemovalAccounted(w, t, r);
    case CheckMeta =>
      assert Holds(w.threads[t], r) && !Holds(w'.threads[t], r) ==> LostTimer(r, Skipped) in w'.log.lost;
      LetGo(w, w', t, r);
    case PollClaim =>
      assert Holds(w.threads[t], r) ==> LostTimer(r, Outrun) in w'.log.lost || LostTimer(r, Aborted) in w'.log.lost;
      LetGo(w, w', t, r);
    case _ => LetGo(w, w', t, r);
  }

  lemma PollTables(w: World, t: nat, a: PollAction, w': World)
    requires PollEnabled(w, t, a) && w' == PollNext(w, t, a)
    ensures w'.now == w.now
    ensures forall u :: u != t && IsPoller(w', u) ==> IsPoller(w, u) && w'.threads[u] == w.threads[u]
  {
  }

  lemma ClaimLeavesTimers(s: Store, i: Id, key: string, v: Value)
    ensures ClaimTxn(s, i, key, v).timers == s.timers
  {
  }

  lemma LossLeavesPolls(log: Log, row: TimerRow)
    ensures forall why :: LoseRow(log, row, why).polled == log.polled
  {
  }

  lemma ClaimKeepsTable(s: Store, log: Log, batch: seq<Expired>)
    requires |batch| > 0
    ensures var e := PollClaimEffect(s, log, batch); e.store.timers == s.timers && e.log.polled == log.polled
  {
    ClaimLeavesTimers(s, batch[0].row.id, batch[0].row.key, UNIT);
    LossLeavesPolls(log, batch[0].row);
  }

  lemma EffectKeepsTimers(s: Store, log: Log, defs: map<string, Definition>, batch: seq<Expired>, a: PollAction)
    requires !a.RemoveRow? && (a.Collect? || |batch| > 0)
    ensures var e := PollEffect(s, log, defs, batch, a); e.store.timers == s.timers && e.log.polled == log.polled
  {
    if a.PollClaim? { ClaimKeepsTable(s, log, batch); }
  }

  lemma PollKeepsRows(w: World, t: nat, a: PollAction, w': World)
    requires PollEnabled(w, t, a) && w' == PollNext(w, t, a)
    ensures !a.RemoveRow? ==> w'.store.timers == w.store.timers && w'.log.polled == w.log.polled
    ensures a.RemoveRow? ==> w'.store.timers == w.store.timers - {w.threads[t].batch[0].k}
  {
    if !a.RemoveRow? { EffectKeepsTimers(w.store, w.log, w.defs, w.threads[t].batch, a); }
  }

  lemma PollBatch(w: World, t: nat, a: PollAction, w': World)
    requires PollEnabled(w, t, a) && w' == PollNext(w, t, a)
    ensures IsPoller(w', t)
    ensures var b, b' := w.threads[t].batch, w'.threads[t].batch;
            b' == [] || b' == b || (|b| > 0 && b' == b[1..]) || (a.Collect? && b' == a.batch)
  {
  }

  lemma PollKeepsCounts(w: World, t: nat, a: PollAction)
    requires PolledOnce(w) && PollEnabled(w, t, a)
    ensures PolledOnce(PollNext(w, t, a))
  {
    PollFrame(w, t, a, PollNext(w, t, a));
    PollKeepsRows(w, t, a, PollNext(w, t, a));
  }

  lemma PollKeepsTimers(w: World, t: nat, a: PollAction)
    requires TimersOk(w) && PollEnabled(w, t, a)
    ensures TimersOk(PollNext(w, t, a))
  {
    var w' := PollNext(w, t, a);
    PollFrame(w, t, a, w');
    PollTables(w, t, a, w');
    PollBatch(w, t, a, w');
    PollKeepsCounts(w, t, a);
    forall r | r in w'.log.timerSteps && w'.store.steps[r].Suspended? ensures Accounted(w', r) {
      PollKeepsAccounts(w, t, a, r);
    }
    forall u, n | IsPoller(w', u) && 0 <= n < |w'.threads[u].batch|
      ensures w'.threads[u].batch[n].k.deadline <= w'.now
    {
      if u == t && n + 1 < |w.threads[t].batch| { assert w.threads[t].batch[n + 1].k.deadline <= w.now; }
    }
  }

  /** A row that a poll takes is counted as polled, one at a time, and nothing else is. */
  lemma PollIsCounted(w: World, t: nat, a: PollAction, k: TimerKey)
    requires PollEnabled(w, t, a)
    ensures
      var w' := PollNext(w, t, a);
      Count(w'.log.polled, k) == Count(w.log.polled, k) + InTable(w.store.timers, k) - InTable(w'.store.timers, k)
  {
    PollKeepsRows(w, t, a, PollNext(w, t, a));
    if a.RemoveRow? { RemovalIsCounted(w, t, PollNext(w, t, a), k); }
  }

  lemma RemovalIsCounted(w: World, t: nat, w': World, k: TimerKey)
    requires PollEnabled(w, t, RemoveRow) && w' == PollNext(w, t, RemoveRow)
    ensures Count(w'.log.polled, k) == Count(w.log.polled, k) + InTable(w.store.timers, k) - InTable(w'.store.timers, k)
  {
    RemovalIsLogged(w.log, w.threads[t].batch[0], w.store.timers);
  }

  lemma RemovalIsLogged(log: Log, e: Expired, timers: map<TimerKey, TimerRow>)
    ensures LogRemoval(log, e, timers).polled == if e.k in timers then Bump(log.polled, e.k) else log.polled
  {
  }

  /** A row that a task sets is counted as set, and nothing else is. */
  lemma RowIsCounted(w: World, t: nat, a: TaskAction, k: TimerKey)
    requires TaskEnabled(w, t, a)
    ensures
      var w' := TaskNext(w, t, a);
      && Count(w.log.rowsSet, k) <= Count(w'.log.rowsSet, k) <= Count(w.log.rowsSet, k) + 1
      && (Lookup(w'.store.timers, k) != Lookup(w.store.timers, k) ==>
            Count(w'.log.rowsSet, k) == Count(w.log.rowsSet, k) + 1)
  {
    if !a.SaveSuspended? { TaskLeavesTimers(w, t, a, TaskNext(w, t, a)); }
  }

  lemma CrashKeepsTimers(w: World, exit: bool)
    requires TimersOk(w)
    ensures TimersOk(EngineNext(w, Crash(exit)))
  {
    var w' := EngineNext(w, Crash(exit));
    forall r | r in w.log.timerSteps && Accounted(w, r) ensures Accounted(w', r) {
      if Held(w.threads, r) {
        var t :| t in w.threads && Holds(w.threads[t], r);
        assert LostTimer(r, CutOff) in w'.log.lost;
      }
    }
  }

  lemma CleanupKeepsTimers(w: World, id: Id)
    requires Owning(w) && TimersOk(w) && IsTerminal(w.store.meta, id)
    ensures TimersOk(CleanupTxn(w, id))
  {
    var w' := CleanupTxn(w, id);
    forall r | r in w'.log.timerSteps && w'.store.steps[r].Suspended? ensures Accounted(w', r) {
      if HasRow(w.store.timers, r) {
        var k :| k in w.store.timers && RowRef(w.store.timers[k]) == r;
        assert k in w'.store.timers && RowRef(w'.store.timers[k]) == r;
      }
    }
  }

  lemma EngineKeepsTimers(w: World, a: EngineAction)
    requires Owning(w) && TimersOk(w) && EngineEnabled(w, a)
    ensures TimersOk(EngineNext(w, a))
  {
    match a
    case Cleanup(id) => CleanupKeepsTimers(w, id);
    case Crash(exit) => CrashKeepsTimers(w, exit);
    case Start(p, t, recover) =>
      var w' := EngineNext(w, a);
      forall r | r in w.log.timerSteps && Accounted(w, r) ensures Accounted(w', r) { }
    case _ => TimersFrame(w, EngineNext(w, a));
  }

  lemma TimersStep(w: World, a: Action)
    requires Owning(w) && Replaying(w) && TimersOk(w) && Enabled(w, a)
    ensures TimersOk(Next(w, a))
  {
    match a
    case Api(t, x) => ApiKeepsTimers(w, t, x, ApiNext(w, t, x));
    case Task(t, x) => TaskKeepsTimers(w, t, x);
    case Poll(t, x) => PollKeepsTimers(w, t, x);
    case Engine(x) => EngineKeepsTimers(w, x);
  }
}
