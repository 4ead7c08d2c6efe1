/** Runs in which a timer is lost: its instance stays suspended, and no row is left to wake it up. */
module LostTimers {
  import opened Options
  import opened Storage
  import opened Workflows
  import opened Protocol
  import opened Ownership
  import opened Replay
  import opened Timers
  import opened Schedules

  /** Sleep until now, then return. */
  function Sleeps(h: History): Op {
    if |h| == 0 then Timer("k", 0) else Return(UNIT)
  }

  const SLEEPING: map<string, Definition> := map["w" := NoInput(Sleeps)]

  const FIRST_KEY := TimerKey(0, 0)

  function RowOf(i: Id): TimerRow { TimerRow(i, "k") }

  ghost predicate Situation(w: World, ts: map<nat, Thread>, store: Store, serial: nat, used: set<Id>) {
    && Reachable(SLEEPING, w) && w.running && w.defs == SLEEPING && w.now == 0 && w.serial == serial
    && w.threads == ts && w.store == store && w.log.used == used
  }

  /** The tables when `i` is at `status` and waits for its timer. */
  function Sleeping(i: Id, status: MetadataStatus, timers: map<TimerKey, TimerRow>): Store {
    Store(map[Ref(i, User("k")) := Suspended], map[i := Metadata(status, None)], timers)
  }

  lemma BeginsToSleep(i: Id) returns (w: World)
    requires TopLevel(i) && i.wf == "w"
    ensures
      Situation(w, map[0 := RESTING, 2 := Worker(i, Sleeps, Suspending([], Some(0)))],
        Store(map[], map[i := Metadata(Running, None)], map[]), 0, {i})
  {
    var w0 := Launched(SLEEPING, i);
    w := TaskNext(w0, 2, Perform);
    ReachTask(SLEEPING, w0, 2, Perform, w);
    assert w.threads == map[0 := RESTING, 2 := Worker(i, Sleeps, Suspending([], Some(0)))];
  }

  lemma SetsTimer(i: Id) returns (w: World)
    requires TopLevel(i) && i.wf == "w"
    ensures
      Situation(w, map[0 := RESTING, 2 := Worker(i, Sleeps, Finishing([], SuspendedAt("k")))],
        Sleeping(i, Running, map[FIRST_KEY := RowOf(i)]), 1, {i})
  {
    var w1 := BeginsToSleep(i);
    w := TaskNext(w1, 2, SaveSuspended);
    ReachTask(SLEEPING, w1, 2, SaveSuspended, w);
    assert w.threads == map[0 := RESTING, 2 := Worker(i, Sleeps, Finishing([], SuspendedAt("k")))];
  }

  /** The last steps of a task that suspends. */
  lemma Parks(i: Id, w: World, timers: map<TimerKey, TimerRow>) returns (w': World)
    requires
      Situation(w, map[0 := RESTING, 2 := Worker(i, Sleeps, Finishing([], SuspendedAt("k")))],
        Sleeping(i, Running, timers), 1, {i})
    ensures Situation(w', map[0 := RESTING], Sleeping(i, SuspendedOn("k"), timers), 1, {i})
  {
    var w1 := Records(i, w, timers);
    w' := TaskNext(w1, 2, Announce);
    ReachTask(SLEEPING, w1, 2, Announce, w');
    assert w'.threads == map[0 := RESTING];
  }

  lemma Records(i: Id, w: World, timers: map<TimerKey, TimerRow>) returns (w': World)
    requires
      Situation(w, map[0 := RESTING, 2 := Worker(i, Sleeps, Finishing([], SuspendedAt("k")))],
        Sleeping(i, Running, timers), 1, {i})
    ensures
      var announcing := Announcing(i, FinalWatch(SuspendedAt("k"), WatchOf(w, i).Message()));
      Situation(w', map[0 := RESTING, 2 := announcing], Sleeping(i, SuspendedOn("k"), timers), 1, {i})
  {
    w' := TaskNext(w, 2, WriteResult);
    ReachTask(SLEEPING, w, 2, WriteResult, w');
    assert w'.threads == map[0 := RESTING, 2 := w'.threads[2]];
  }

  // ---- A resume between the poll's check and its claim -----------------------------------------

  lemma ReachPoll(w: World, a: PollAction, w': World)
    requires Reachable(SLEEPING, w) && PollEnabled(w, 0, a) && w' == PollNext(w, 0, a)
    ensures Reachable(SLEEPING, w')
  {
    ReachNext(SLEEPING, w, Poll(0, a), w');
  }

  lemma PollRemoves(i: Id, w: World) returns (w': World)
    requires Situation(w, map[0 := RESTING], Sleeping(i, SuspendedOn("k"), map[FIRST_KEY := RowOf(i)]), 1, {i})
    ensures
      Situation(w', map[0 := Poller([Expired(FIRST_KEY, RowOf(i))], Removed)],
        Sleeping(i, SuspendedOn("k"), map[]), 1, {i})
  {
    var batch := [Expired(FIRST_KEY, RowOf(i))];
    assert batch[0].k == FIRST_KEY && IsBatch(w, batch);
    var w1 := PollNext(w, 0, Collect(batch));
    ReachPoll(w, Collect(batch), w1);
    w' := PollNext(w1, 0, RemoveRow);
    ReachPoll(w1, RemoveRow, w');
    assert w'.store.timers == map[];
  }

  lemma PollChecks(i: Id, w: World) returns (w': World)
    requires Situation(w, map[0 := RESTING], Sleeping(i, SuspendedOn("k"), map[FIRST_KEY := RowOf(i)]), 1, {i})
    ensures
      Situation(w', map[0 := Poller([Expired(FIRST_KEY, RowOf(i))], Checked)],
        Sleeping(i, SuspendedOn("k"), map[]), 1, {i})
  {
    var w1 := PollRemoves(i, w);
    w' := PollNext(w1, 0, CheckMeta);
    ReachPoll(w1, CheckMeta, w');
  }

  lemma ResumeComes(i: Id, w: World) returns (w': World)
    requires TopLevel(i) && i.wf == "w"
    requires
      Situation(w, map[0 := Poller([Expired(FIRST_KEY, RowOf(i))], Checked)],
        Sleeping(i, SuspendedOn("k"), map[]), 1, {i})
    ensures
      Situation(w', map[0 := Poller([Expired(FIRST_KEY, RowOf(i))], Checked), 2 := Launch(i)],
        Sleeping(i, Running, map[]), 1, {i})
  {
    w' := ApiNext(w, 2, Resume(i));
    ReachApi(SLEEPING, w, 2, Resume(i), w');
  }

  lemma ClaimIsOutrun(i: Id, w: World) returns (w': World)
    requires
      Situation(w, map[0 := Poller([Expired(FIRST_KEY, RowOf(i))], Checked), 2 := Launch(i)],
        Sleeping(i, Running, map[]), 1, {i})
    ensures Situation(w', map[0 := RESTING, 2 := Launch(i)], Sleeping(i, Running, map[]), 1, {i})
  {
    var batch := [Expired(FIRST_KEY, RowOf(i))];
    assert w.threads[0] == Poller(batch, Checked);
    assert batch[1..] == [];
    w' := PollNext(w, 0, PollClaim);
    ReachPoll(w, PollClaim, w');
    assert w'.threads == map[0 := RESTING, 2 := Launch(i)];
  }

  lemma WaitsAgain(i: Id, w: World) returns (w': World)
    requires TopLevel(i) && i.wf == "w"
    requires Situation(w, map[0 := RESTING, 2 := Launch(i)], Sleeping(i, Running, map[]), 1, {i})
    ensures
      Situation(w', map[0 := RESTING, 2 := Worker(i, Sleeps, Finishing([], SuspendedAt("k")))],
        Sleeping(i, Running, map[]), 1, {i})
  {
    var w1 := ApiNext(w, 2, Spawn);
    ReachApi(SLEEPING, w, 2, Spawn, w1);
    var w2 := TaskNext(w1, 2, ReadInput);
    ReachTask(SLEEPING, w1, 2, ReadInput, w2);
    w' := TaskNext(w2, 2, Perform);
    ReachTask(SLEEPING, w2, 2, Perform, w');
    assert w'.threads == map[0 := RESTING, 2 := Worker(i, Sleeps, Finishing([], SuspendedAt("k")))];
  }

  /**
   A resume that comes between the poll's check and its claim costs the instance its timer: the claim
   is superseded, the resumed run suspends on the same step again, and no row is left to wake it.
   */
  lemma ResumeLosesTimer(i: Id) returns (w: World)
    requires TopLevel(i) && i.wf == "w"
    ensures Reachable(SLEEPING, w) && w.running && w.threads == map[0 := RESTING] && w.store.timers == map[]
    ensures IsSuspended(w.store.meta, i) && w.store.meta[i].status.key == "k" && Waits(w.store.steps, i, "k")
  {
    var w0 := SetsTimer(i);
    var w1 := Parks(i, w0, map[FIRST_KEY := RowOf(i)]);
    var w2 := PollChecks(i, w1);
    var w3 := ResumeComes(i, w2);
    var w4 := ClaimIsOutrun(i, w3);
    var w5 := WaitsAgain(i, w4);
    w := Parks(i, w5, map[]);
  }

  // ---- A row key that is used again after a restart --------------------------------------------

  lemma ProcessExits(w: World, store: Store, used: set<Id>) returns (w': World)
    requires Situation(w, map[0 := RESTING], store, 1, used)
    ensures Reachable(SLEEPING, w') && !w'.running && w'.defs == SLEEPING && w'.now == 0 && w'.serial == 0
    ensures w'.threads == map[] && w'.store == store && w'.log.used == used
  {
    w' := Next(w, Engine(Crash(true)));
    ReachNext(SLEEPING, w, Engine(Crash(true)), w');
  }

  /** The process exits and comes up again: the serial starts at 0. */
  lemma ProcessRestarts(w: World, store: Store, used: set<Id>) returns (w': World)
    requires Situation(w, map[0 := RESTING], store, 1, used)
    ensures Situation(w', map[0 := RESTING], store, 0, used)
  {
    var w1 := ProcessExits(w, store, used);
    var w2 := Next(w1, Engine(Start(0, 1, false)));
    ReachNext(SLEEPING, w1, Engine(Start(0, 1, false)), w2);
    assert w2.threads[1] == Recovery({});
    w' := Next(w2, Engine(RecoverDone(1)));
    ReachNext(SLEEPING, w2, Engine(RecoverDone(1)), w');
    assert w'.threads == map[0 := RESTING];
  }

  lemma OtherStarts(i: Id, j: Id, w: World) returns (w': World)
    requires TopLevel(j) && j.wf == "w" && j != i
    requires Situation(w, map[0 := RESTING], Sleeping(i, SuspendedOn("k"), map[FIRST_KEY := RowOf(i)]), 0, {i})
    ensures Reachable(SLEEPING, w') && w'.now == 0 && w'.serial == 0
    ensures w'.threads == map[0 := RESTING, 2 := Worker(j, Sleeps, At([]))]
    ensures w'.store.steps == w.store.steps && w'.store.timers == w.store.timers
    ensures i in w'.store.meta && w'.store.meta[i] == w.store.meta[i]
  {
    var w1 := ApiNext(w, 2, Invoke(j, None));
    ReachApi(SLEEPING, w, 2, Invoke(j, None), w1);
    var w2 := ApiNext(w1, 2, Spawn);
    ReachApi(SLEEPING, w1, 2, Spawn, w2);
    w' := TaskNext(w2, 2, ReadInput);
    ReachTask(SLEEPING, w2, 2, ReadInput, w');
    assert w'.threads == map[0 := RESTING, 2 := Worker(j, Sleeps, At([]))];
  }

  lemma OtherSuspends(j: Id, w: World) returns (w': World)
    requires Reachable(SLEEPING, w) && w.now == 0 && w.serial == 0
    requires w.threads == map[0 := RESTING, 2 := Worker(j, Sleeps, At([]))] && Ref(j, User("k")) !in w.store.steps
    ensures Reachable(SLEEPING, w') && w'.now == 0 && w'.serial == 0 && w'.store == w.store
    ensures w'.threads == map[0 := RESTING, 2 := Worker(j, Sleeps, Suspending([], Some(0)))]
  {
    w' := TaskNext(w, 2, Perform);
    ReachTask(SLEEPING, w, 2, Perform, w');
    assert w'.threads == map[0 := RESTING, 2 := Worker(j, Sleeps, Suspending([], Some(0)))];
  }

  lemma OtherReplacesRow(i: Id, j: Id, w: World) returns (w': World)
    requires Reachable(SLEEPING, w) && w.now == 0 && w.serial == 0 && i != j
    requires w.threads == map[0 := RESTING, 2 := Worker(j, Sleeps, Suspending([], Some(0)))]
    requires w.store.timers == map[FIRST_KEY := RowOf(i)]
    ensures Reachable(SLEEPING, w') && w'.store.timers == map[FIRST_KEY := RowOf(j)]
    ensures w'.threads == map[0 := RESTING, 2 := Worker(j, Sleeps, Finishing([], SuspendedAt("k")))]
    ensures w'.store.meta == w.store.meta
    ensures forall r: Ref :: r.id == i ==> Lookup(w'.store.steps, r) == Lookup(w.store.steps, r)
    ensures LostTimer(Ref(i, User("k")), Overwritten) in w'.log.lost
  {
    w' := TaskNext(w, 2, SaveSuspended);
    ReachTask(SLEEPING, w, 2, SaveSuspended, w');
    assert w'.threads == map[0 := RESTING, 2 := Worker(j, Sleeps, Finishing([], SuspendedAt("k")))];
  }

  /**
   A restart of the process costs an instance its timer too: the first timer that is set afterwards,
   for the same deadline, has the key of the first one that was set before, and replaces its row.
   */
  lemma RestartLosesTimer(i: Id, j: Id) returns (w: World)
    requires TopLevel(i) && i.wf == "w" && TopLevel(j) && j.wf == "w" && j != i
    ensures Reachable(SLEEPING, w)
    ensures IsSuspended(w.store.meta, i) && w.store.meta[i].status.key == "k" && Waits(w.store.steps, i, "k")
    ensures w.store.timers == map[FIRST_KEY := RowOf(j)] && !Held(w.threads, Ref(i, User("k")))
    ensures LostTimer(Ref(i, User("k")), Overwritten) in w.log.lost
  {
    var w0 := SetsTimer(i);
    var w1 := Parks(i, w0, map[FIRST_KEY := RowOf(i)]);
    var w2 := ProcessRestarts(w1, w1.store, {i});
    var w3 := OtherStarts(i, j, w2);
    var w4 := OtherSuspends(j, w3);
    w := OtherReplacesRow(i, j, w4);
  }
}
