/**
 Rows and losses. Within one process lifetime, and as long as its instance is not deleted, a waiting
 timer step has its row, on disk or in the hands of the poller, exactly if no loss of it is logged.
 */
module TimerRows {
  import opened Options
  import opened Storage
  import opened Workflows
  import opened Protocol
  import opened Ownership
  import opened Replay
  import opened Timers
  import opened Durability
  import opened TimerKeys

  ghost predicate OnePoller(ts: Threads) {
    forall t, u :: t in ts && u in ts && ts[t].Poller? && ts[u].Poller? ==> t == u
  }

  /** Every row of `i` belongs to a timer step, and no two rows to the same one. */
  ghost predicate RowsApart(timers: map<TimerKey, TimerRow>, timerSteps: set<Ref>, i: Id) {
    && (forall k :: k in timers && timers[k].id == i ==> RowRef(timers[k]) in timerSteps)
    && (forall k, k2 :: k in timers && k2 in timers && timers[k].id == i && timers[k2] == timers[k] ==> k == k2)
  }

  /** The rows of `i` that a batch has still to remove are in the table. */
  ghost predicate BatchThere(th: Thread, timers: map<TimerKey, TimerRow>, i: Id)
    requires th.Poller?
  {
    && (forall n :: 0 <= n < |th.batch| && (n == 0 ==> th.stage.Resting?) && th.batch[n].row.id == i ==>
          th.batch[n].k in timers && timers[th.batch[n].k] == th.batch[n].row)
    && (forall m, n :: 0 <= m < n < |th.batch| ==> th.batch[m].k != th.batch[n].k)
  }

  ghost predicate BatchesThere(ts: Threads, timers: map<TimerKey, TimerRow>, i: Id) {
    forall t :: t in ts && ts[t].Poller? ==> BatchThere(ts[t], timers, i)
  }

  /** What a poller holds is no longer in the table. */
  ghost predicate HeldApart(ts: Threads, timers: map<TimerKey, TimerRow>, timerSteps: set<Ref>, i: Id) {
    forall t, r: Ref :: t in ts && r.id == i && Holds(ts[t], r) ==> r in timerSteps && !HasRow(timers, r)
  }

  /** What was lost is neither in the table nor held. */
  ghost predicate LostApart(ts: Threads, timers: map<TimerKey, TimerRow>, timerSteps: set<Ref>, lost: set<LostTimer>,
                            i: Id)
  {
    forall l :: l in lost && l.ref.id == i ==> l.ref in timerSteps && !HasRow(timers, l.ref) && !Held(ts, l.ref)
  }

  ghost predicate RowsOk(w: World, i: Id) {
    && OnePoller(w.threads)
    && RowsApart(w.store.timers, w.log.timerSteps, i)
    && BatchesThere(w.threads, w.store.timers, i)
    && HeldApart(w.threads, w.store.timers, w.log.timerSteps, i)
    && LostApart(w.threads, w.store.timers, w.log.timerSteps, w.log.lost, i)
  }

  ghost predicate SamePollers(ts: Threads, ts': Threads) {
    forall t :: t in ts' && ts'[t].Poller? ==> t in ts && ts'[t] == ts[t]
  }

  lemma RowsUnaffected(w: World, w': World, i: Id)
    requires RowsOk(w, i) && SamePollers(w.threads, w'.threads)
    requires w'.store.timers == w.store.timers && w'.log.timerSteps == w.log.timerSteps && w'.log.lost == w.log.lost
    ensures RowsOk(w', i)
  {
  }

  lemma ApiKeepsRows(w: World, t: nat, a: ApiAction, w': World, i: Id)
    requires RowsOk(w, i) && ApiEnabled(w, t, a) && w' == ApiNext(w, t, a)
    ensures RowsOk(w', i)
  {
    ApiLeavesTimers(w, t, a, w');
    RowsUnaffected(w, w', i);
  }

  lemma TaskKeepsRows(w: World, t: nat, a: TaskAction, w': World, i: Id)
    requires Inv(w) && OneLifetime(w) && RowsOk(w, i) && TaskEnabled(w, t, a) && w' == TaskNext(w, t, a)
    ensures RowsOk(w', i)
  {
    if a.SaveSuspended? {
      SuspensionKeepsRows(w, t, w', i);
    } else {
      TaskLeavesTimers(w, t, a, w');
      TaskLeavesThreads(w, t, a, w');
      RowsUnaffected(w, w', i);
    }
  }

  /** A timer is set once for a step: its row is a new one, for a step that was never a timer's before. */
  lemma SuspensionKeepsRows(w: World, t: nat, w': World, i: Id)
    requires Inv(w) && OneLifetime(w) && RowsOk(w, i) && TaskEnabled(w, t, SaveSuspended) && w' == SuspendedTxn(w, t)
    ensures RowsOk(w', i)
  {
    var th := w.threads[t];
    OwnEntriesApart(w, t);
    if th.pc.deadline.Some? {
      var k, row := TimerKey(th.pc.deadline.value, w.serial), TimerRow(th.id, CurrentOp(th).key);
      assert Count(w.log.rowsSet, k) == 0;
      assert k !in w.store.timers;
      RowAdded(w.threads, w'.threads, w.store.timers, w.log.timerSteps, w.log.lost, k, row, i);
    } else {
      RowsUnaffected(w, w', i);
    }
  }

  lemma RowAdded(ts: Threads, ts': Threads, timers: map<TimerKey, TimerRow>, timerSteps: set<Ref>, lost: set<LostTimer>,
                 k: TimerKey, row: TimerRow, i: Id)
    requires OnePoller(ts) && RowsApart(timers, timerSteps, i) && BatchesThere(ts, timers, i)
    requires HeldApart(ts, timers, timerSteps, i) && LostApart(ts, timers, timerSteps, lost, i)
    requires SamePollers(ts, ts') && k !in timers && RowRef(row) !in timerSteps
    ensures
      var timers', timerSteps' := timers[k := row], timerSteps + {RowRef(row)};
      && OnePoller(ts') && RowsApart(timers', timerSteps', i) && BatchesThere(ts', timers', i)
      && HeldApart(ts', timers', timerSteps', i) && LostApart(ts', timers', timerSteps', lost, i)
  {
    var timers' := timers[k := row];
    forall r | r in timerSteps && HasRow(timers', r) ensures HasRow(timers, r) {
      var k2 :| k2 in timers' && RowRef(timers'[k2]) == r;
      assert k2 != k && k2 in timers && RowRef(timers[k2]) == r;
    }
  }

  // ---- The poller ----------------------------------------------------------------------------

  lemma RemovalMoves(w: World, t: nat, w': World)
    requires PollerAt(w, t, Resting) && w' == PollNext(w, t, RemoveRow)
    requires BatchCurrent(w.threads[t].batch, w.store.timers, w.serial)
    ensures w'.log.lost == w.log.lost && w'.log.timerSteps == w.log.timerSteps
    ensures w'.threads == w.threads[t := Poller(w.threads[t].batch, Removed)]
    ensures w'.store.timers == w.store.timers - {w.threads[t].batch[0].k}
  {
  }

  lemma RemovalKeepsRows(w: World, t: nat, w': World, i: Id)
    requires OneLifetime(w) && RowsOk(w, i) && PollerAt(w, t, Resting) && w' == PollNext(w, t, RemoveRow)
    ensures RowsOk(w', i)
  {
    var e := w.threads[t].batch[0];
    assert BatchCurrent(w.threads[t].batch, w.store.timers, w.serial) && BatchThere(w.threads[t], w.store.timers, i);
    RemovalMoves(w, t, w');
    forall r | HasRow(w'.store.timers, r)
      ensures HasRow(w.store.timers, r) && (r.id == i && e.row.id == i ==> RowRef(e.row) != r)
    {
      var k :| k in w'.store.timers && RowRef(w'.store.timers[k]) == r;
      assert k in w.store.timers && RowRef(w.store.timers[k]) == r;
    }
    if e.row.id == i { assert HasRow(w.store.timers, RowRef(e.row)); }
  }

  /** The poller drops its first row, or all of them, with or without logging a loss. */
  lemma DropKeepsRows(w: World, t: nat, w': World, more: set<LostTimer>, i: Id)
    requires RowsOk(w, i) && IsPoller(w, t) && |w.threads[t].batch| > 0
    requires w.threads[t].stage.Removed? || w.threads[t].stage.Checked? || w.threads[t].stage.Fired?
    requires t in w'.threads && w'.threads[t].Poller? && w'.store.timers == w.store.timers
    requires w'.log.timerSteps == w.log.timerSteps
    requires forall u :: u in w'.threads && u != t && w'.threads[u].Poller? ==>
      u in w.threads && w'.threads[u] == w.threads[u]
    requires w'.threads[t] == Poller([], Resting) || w'.threads[t] == Poller(w.threads[t].batch[1..], Resting)
             || w'.threads[t] == Poller(w.threads[t].batch, Fired)
    requires w'.log.lost == w.log.lost + more
    requires forall l :: l in more ==> l.ref == RowRef(w.threads[t].batch[0].row) && !w.threads[t].stage.Fired?
    ensures RowsOk(w', i)
  {
    assert BatchThere(w.threads[t], w.store.timers, i);
    assert forall l :: l in more ==> Holds(w.threads[t], l.ref);
  }

  lemma CollectKeepsRows(w: World, t: nat, batch: seq<Expired>, w': World, i: Id)
    requires OneLifetime(w) && RowsOk(w, i) && PollEnabled(w, t, Collect(batch)) && w' == PollNext(w, t, Collect(batch))
    ensures RowsOk(w', i)
  {
    assert w'.threads == w.threads[t := Poller(batch, Resting)];
  }

  lemma PollKeepsTimerRows(w: World, t: nat, a: PollAction, w': World, i: Id)
    requires OneLifetime(w) && RowsOk(w, i) && PollEnabled(w, t, a) && w' == PollNext(w, t, a)
    ensures RowsOk(w', i)
  {
    match a
    case RemoveRow => RemovalKeepsRows(w, t, w', i);
    case Collect(batch) => CollectKeepsRows(w, t, batch, w', i);
    case CheckMeta => CheckKeepsRows(w, t, w', i);
    case PollClaim => ClaimKeepsRows(w, t, w', i);
    case PollSpawn(t2) => DropKeepsRows(w, t, w', {}, i);
  }

  lemma CheckKeepsRows(w: World, t: nat, w': World, i: Id)
    requires RowsOk(w, i) && PollerAt(w, t, Removed) && w' == PollNext(w, t, CheckMeta)
    ensures RowsOk(w', i)
  {
    var batch := w.threads[t].batch;
    if IsSuspended(w.store.meta, batch[0].row.id) {
      assert w'.threads == w.threads[t := Poller(batch, Checked)];
      assert forall r :: Holds(w'.threads[t], r) <==> Holds(w.threads[t], r);
    } else {
      DropKeepsRows(w, t, w', {LossOf(batch[0].row, Skipped)}, i);
    }
  }

  lemma ClaimLoses(s: Store, log: Log, batch: seq<Expired>, e: Polled)
    requires |batch| > 0 && e == PollClaimEffect(s, log, batch)
    ensures
      var row := batch[0].row;
      match ClaimOutcome(s, row.id, row.key)
      case Claimed => e.log.lost == log.lost
      case Superseded => e.log.lost == log.lost + {LossOf(row, Outrun)}
      case _ => e.log.lost == log.lost + {LossOf(row, Aborted)}
    ensures e.log.timerSteps == log.timerSteps
  {
  }

  lemma ClaimMoves(s: Store, log: Log, batch: seq<Expired>, e: Polled)
    requires |batch| > 0 && e == PollClaimEffect(s, log, batch)
    ensures (e.stage.Resting? && (e.batch == [] || e.batch == batch[1..])) || (e.stage.Fired? && e.batch == batch)
  {
  }

  lemma ClaimKeepsRows(w: World, t: nat, w': World, i: Id)
    requires RowsOk(w, i) && PollerAt(w, t, Checked) && w' == PollNext(w, t, PollClaim)
    ensures RowsOk(w', i)
  {
    var batch := w.threads[t].batch;
    var e := PollClaimEffect(w.store, w.log, batch);
    ClaimKeepsTable(w.store, w.log, batch);
    ClaimLoses(w.store, w.log, batch, e);
    ClaimMoves(w.store, w.log, batch, e);
    match ClaimOutcome(w.store, batch[0].row.id, batch[0].row.key)
    case Claimed => DropKeepsRows(w, t, w', {}, i);
    case Superseded => DropKeepsRows(w, t, w', {LossOf(batch[0].row, Outrun)}, i);
    case _ => DropKeepsRows(w, t, w', {LossOf(batch[0].row, Aborted)}, i);
  }

  // ---- The engine ----------------------------------------------------------------------------

  lemma CrashKeepsRows(w: World, exit: bool, i: Id)
    requires RowsOk(w, i)
    ensures RowsOk(EngineNext(w, Crash(exit)), i)
  {
    forall l | l in InHand(w) ensures Held(w.threads, l.ref) {
      var t :| t in w.threads && w.threads[t].Poller? && |w.threads[t].batch| > 0 &&
               (w.threads[t].stage.Removed? || w.threads[t].stage.Checked?) &&
               l == LostTimer(Ref(w.threads[t].batch[0].row.id, User(w.threads[t].batch[0].row.key)), CutOff);
      assert Holds(w.threads[t], l.ref);
    }
  }

  lemma CleanupKeepsRows(w: World, id: Id, w': World, i: Id)
    requires RowsOk(w, i) && w' == CleanupTxn(w, id) && !Under(i, id)
    ensures RowsOk(w', i)
  {
    forall r | HasRow(w'.store.timers, r) ensures HasRow(w.store.timers, r) {
      var k :| k in w'.store.timers && RowRef(w'.store.timers[k]) == r;
      assert k in w.store.timers && RowRef(w.store.timers[k]) == r;
    }
  }

  lemma EngineKeepsRows(w: World, a: EngineAction, w': World, i: Id)
    requires RowsOk(w, i) && EngineEnabled(w, a) && w' == EngineNext(w, a) && !DeletedBy(Engine(a), i)
    ensures RowsOk(w', i)
  {
    match a
    case Cleanup(id) => CleanupKeepsRows(w, id, w', i);
    case Crash(exit) => CrashKeepsRows(w, exit, i);
    case Start(p, t, recover) =>
    case _ => RowsUnaffected(w, w', i);
  }

  lemma RowsStep(w: World, a: Action, i: Id)
    requires Inv(w) && OneLifetime(w) && RowsOk(w, i) && Enabled(w, a) && !DeletedBy(a, i)
    ensures RowsOk(Next(w, a), i)
  {
    match a
    case Api(t, x) => ApiKeepsRows(w, t, x, ApiNext(w, t, x), i);
    case Task(t, x) => TaskKeepsRows(w, t, x, TaskNext(w, t, x), i);
    case Poll(t, x) => PollKeepsTimerRows(w, t, x, PollNext(w, t, x), i);
    case Engine(x) => EngineKeepsRows(w, x, EngineNext(w, x), i);
  }

  lemma {:induction false} RowsAlong(w: World, run: seq<Action>, i: Id)
    requires Inv(w) && OneLifetime(w) && RowsOk(w, i)
    requires After(w, run).Some? && forall a :: a in run ==> !Exits(a) && !DeletedBy(a, i)
    ensures RowsOk(After(w, run).value, i)
    decreases |run|
  {
    if |run| > 0 {
      var before := run[..|run| - 1];
      RowsAlong(w, before, i);
      InvAlong(w, before);
      KeysAlong(w, before);
      RowsStep(After(w, before).value, run[|run| - 1], i);
    }
  }

  lemma RowsInitially(defs: map<string, Definition>, i: Id)
    ensures Inv(Initial(defs)) && OneLifetime(Initial(defs)) && RowsOk(Initial(defs), i)
  {
    LifetimeBegins(defs);
  }

  lemma AccountedExactly(w: World, r: Ref)
    requires TimersOk(w) && RowsOk(w, r.id) && r in w.log.timerSteps && Lookup(w.store.steps, r) == Some(Suspended)
    ensures HasRow(w.store.timers, r) || Held(w.threads, r) <==> !WasLost(w.log.lost, r)
  {
    assert Accounted(w, r);
  }

  /**
   In one process lifetime, as long as its instance is not deleted, a waiting timer step has its row,
   in the table or in the poller's hands, if and only if the log has no loss of it.
   */
  lemma RowOrLoss(defs: map<string, Definition>, run: seq<Action>, r: Ref)
    requires After(Initial(defs), run).Some?
    requires forall a :: a in run ==> !Exits(a) && !DeletedBy(a, r.id)
    requires
      var w := After(Initial(defs), run).value;
      r in w.log.timerSteps && Lookup(w.store.steps, r) == Some(Suspended)
    ensures
      var w := After(Initial(defs), run).value;
      HasRow(w.store.timers, r) || Held(w.threads, r) <==> !WasLost(w.log.lost, r)
  {
    var w0, w := Initial(defs), After(Initial(defs), run).value;
    RowsInitially(defs, r.id);
    InvAlong(w0, run);
    RowsAlong(w0, run, r.id);
    AccountedExactly(w, r);
  }
}
