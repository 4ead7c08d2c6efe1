/**
 Timer row keys are a deadline and a serial, and the serial starts at 0 again with every process.
 Within one process lifetime that starts from an empty table no key is used twice.
 */
module TimerKeys {
  import opened Options
  import opened Storage
  import opened Workflows
  import opened Protocol
  import opened Ownership
  import opened Replay
  import opened Timers
  import opened Durability

  ghost predicate SetOnce(w: World) {
    forall k :: Count(w.log.rowsSet, k) <= 1 && (Count(w.log.rowsSet, k) > 0 ==> k.serial < w.serial)
  }

  /** The rows of a batch are still the ones in the table, as far as they are there. */
  ghost predicate BatchCurrent(batch: seq<Expired>, timers: map<TimerKey, TimerRow>, serial: nat) {
    forall n :: 0 <= n < |batch| ==>
      batch[n].k.serial < serial && (batch[n].k in timers ==> timers[batch[n].k] == batch[n].row)
  }

  ghost predicate BatchesCurrent(w: World) {
    forall t :: IsPoller(w, t) ==> BatchCurrent(w.threads[t].batch, w.store.timers, w.serial)
  }

  ghost predicate NoneOverwritten(w: World) {
    forall l :: l in w.log.lost ==> l.why != Overwritten
  }

  ghost predicate OneLifetime(w: World) {
    SetOnce(w) && BatchesCurrent(w) && NoneOverwritten(w)
  }

  predicate Exits(a: Action) { a.Engine? && a.event.Crash? && a.event.exit }

  lemma Unaffected(w: World, w': World)
    requires OneLifetime(w)
    requires w'.store.timers.Keys <= w.store.timers.Keys
    requires forall k :: k in w'.store.timers ==> w'.store.timers[k] == w.store.timers[k]
    requires w'.serial == w.serial && w'.log.rowsSet == w.log.rowsSet && w'.log.lost == w.log.lost
    requires forall t :: IsPoller(w', t) ==>
      w'.threads[t].batch == [] || (IsPoller(w, t) && w'.threads[t] == w.threads[t])
    ensures OneLifetime(w')
  {
  }

  lemma SuspensionKeepsKeys(w: World, t: nat, w': World)
    requires OneLifetime(w) && PolledOnce(w) && TaskEnabled(w, t, SaveSuspended) && w' == SuspendedTxn(w, t)
    ensures OneLifetime(w')
  {
    var th := w.threads[t];
    if th.pc.deadline.Some? {
      var k := TimerKey(th.pc.deadline.value, w.serial);
      assert Count(w.log.rowsSet, k) == 0;
      assert k !in w.store.timers;
      forall u | IsPoller(w', u) ensures BatchCurrent(w'.threads[u].batch, w'.store.timers, w'.serial) {
        assert IsPoller(w, u) && BatchCurrent(w.threads[u].batch, w.store.timers, w.serial);
      }
    }
  }

  lemma TaskSerial(w: World, t: nat, a: TaskAction, w': World)
    requires TaskEnabled(w, t, a) && !a.SaveSuspended? && w' == TaskNext(w, t, a)
    ensures w'.serial == w.serial
  {
  }

  lemma PollKeepsKeys(w: World, t: nat, a: PollAction, w': World)
    requires OneLifetime(w) && PolledOnce(w) && PollEnabled(w, t, a) && w' == PollNext(w, t, a)
    ensures OneLifetime(w')
  {
    PollFrame(w, t, a, w');
    PollTables(w, t, a, w');
    PollKeepsRows(w, t, a, w');
    PollBatch(w, t, a, w');
    PollOverwrites(w, t, a, w');
    assert BatchCurrent(w.threads[t].batch, w.store.timers, w.serial);
    if a.Collect? {
      forall n | 0 <= n < |a.batch| ensures a.batch[n].k.serial < w.serial {
        assert Count(w.log.rowsSet, a.batch[n].k) > 0;
      }
    }
    forall u | IsPoller(w', u) ensures BatchCurrent(w'.threads[u].batch, w'.store.timers, w'.serial) {
      if u != t { assert BatchCurrent(w.threads[u].batch, w.store.timers, w.serial); }
    }
  }

  lemma PollOverwrites(w: World, t: nat, a: PollAction, w': World)
    requires NoneOverwritten(w) && PollEnabled(w, t, a) && w' == PollNext(w, t, a)
    requires BatchCurrent(w.threads[t].batch, w.store.timers, w.serial)
    ensures NoneOverwritten(w')
  {
    var batch := w.threads[t].batch;
    assert w'.log.lost == PollEffect(w.store, w.log, w.defs, batch, a).log.lost;
    match a
    case RemoveRow => assert LogRemoval(w.log, batch[0], w.store.timers).lost == w.log.lost;
    case CheckMeta => LossWith(w.log, batch[0].row, Skipped);
    case PollClaim =>
      LossWith(w.log, batch[0].row, Outrun);
      LossWith(w.log, batch[0].row, Aborted);
    case _ =>
  }

  lemma LossWith(log: Log, row: TimerRow, why: Loss)
    requires why != Overwritten && forall l :: l in log.lost ==> l.why != Overwritten
    ensures forall l :: l in LoseRow(log, row, why).lost ==> l.why != Overwritten
  {
  }

  lemma TaskKeepsKeys(w: World, t: nat, a: TaskAction, w': World)
    requires OneLifetime(w) && PolledOnce(w) && TaskEnabled(w, t, a) && w' == TaskNext(w, t, a)
    ensures OneLifetime(w')
  {
    if a.SaveSuspended? {
      SuspensionKeepsKeys(w, t, w');
    } else {
      TaskLeavesTimers(w, t, a, w');
      TaskLeavesThreads(w, t, a, w');
      TaskSerial(w, t, a, w');
      Unaffected(w, w');
    }
  }

  lemma ApiKeepsKeys(w: World, t: nat, a: ApiAction, w': World)
    requires OneLifetime(w) && ApiEnabled(w, t, a) && w' == ApiNext(w, t, a)
    ensures OneLifetime(w')
  {
  }

  lemma KeysStep(w: World, a: Action)
    requires Inv(w) && OneLifetime(w) && Enabled(w, a) && !Exits(a)
    ensures OneLifetime(Next(w, a))
  {
    match a
    case Api(t, x) => ApiKeepsKeys(w, t, x, ApiNext(w, t, x));
    case Task(t, x) => TaskKeepsKeys(w, t, x, TaskNext(w, t, x));
    case Poll(t, x) => PollKeepsKeys(w, t, x, PollNext(w, t, x));
    case Engine(x) => EngineKeepsKeys(w, x, EngineNext(w, x));
  }

  lemma EngineKeepsKeys(w: World, a: EngineAction, w': World)
    requires OneLifetime(w) && EngineEnabled(w, a) && !Exits(Engine(a)) && w' == EngineNext(w, a)
    ensures OneLifetime(w')
  {
  }

  lemma {:induction false} KeysAlong(w: World, run: seq<Action>)
    requires Inv(w) && OneLifetime(w) && After(w, run).Some? && forall a :: a in run ==> !Exits(a)
    ensures OneLifetime(After(w, run).value)
    decreases |run|
  {
    if |run| > 0 {
      var before := run[..|run| - 1];
      KeysAlong(w, before);
      InvAlong(w, before);
      KeysStep(After(w, before).value, run[|run| - 1]);
    }
  }

  lemma LifetimeBegins(defs: map<string, Definition>)
    ensures Inv(Initial(defs)) && OneLifetime(Initial(defs))
  {
  }

  /**
   In one process lifetime a timer row is polled at most once, and a suspended timer step can be
   without its row for one reason only: a poll took it and was skipped, outrun, aborted or cut off.
   */
  lemma PolledAtMostOnce(defs: map<string, Definition>, run: seq<Action>, k: TimerKey, r: Ref)
    requires After(Initial(defs), run).Some? && forall a :: a in run ==> !Exits(a)
    ensures
      var w := After(Initial(defs), run).value;
      && Count(w.log.polled, k) <= 1
      && (r in w.log.timerSteps && Lookup(w.store.steps, r) == Some(Suspended) ==>
            HasRow(w.store.timers, r) || Held(w.threads, r) ||
            exists why :: why != Overwritten && LostTimer(r, why) in w.log.lost)
  {
    var w := After(Initial(defs), run).value;
    LifetimeBegins(defs);
    InvAlong(Initial(defs), run);
    KeysAlong(Initial(defs), run);
    if r in w.log.timerSteps && Lookup(w.store.steps, r) == Some(Suspended) && WasLost(w.log.lost, r) {
      var l :| l in w.log.lost && l.ref == r;
      assert LostTimer(r, l.why) in w.log.lost;
    }
  }
}
