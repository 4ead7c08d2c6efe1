/**
 Running a completed instance again. Whether that can execute anything is decided by its journal:
 by whether the workflow, fed from the journal, comes to an operation whose entry is open.
 */
module Settled {
  import opened Options
  import opened Storage
  import opened Workflows
  import opened Accounts
  import opened Protocol
  import opened Ownership
  import opened Replay

  // ---- What a journal leaves open ------------------------------------------------------------

  lemma FeedsKept(j: Steps, j': Steps, i: Id, wf: Workflow)
    requires SameFeeds(j, j', i)
    ensures Opens(j', i, wf) ==> Opens(j, i, wf)
    ensures forall h :: Consistent(j, i, wf, h) ==> Consistent(j', i, wf, h)
  {
    if Opens(j', i, wf) {
      var h :| OpenAt(j', i, wf, h);
      assert OpenAt(j, i, wf, h);
    }
  }

  // ---- An instance with nothing open stays so ------------------------------------------------

  ghost predicate OnlyFed(th: Thread, j: Steps)
    requires th.Worker?
  {
    Consistent(j, th.id, th.prog, th.pc.h) && !AtWork(th.pc)
  }

  ghost predicate TasksOnlyFed(ts: Threads, j: Steps, i: Id) {
    forall t :: t in ts && ts[t].Worker? && ts[t].id == i ==> OnlyFed(ts[t], j)
  }

  /** The journal of `i` leaves nothing open, and no task of it is at work. */
  ghost predicate Closed(w: World, i: Id) {
    && TopLevel(i) && i.wf in w.defs && i in w.store.meta && !w.store.meta[i].status.SuspendedOn?
    && !Opens(w.store.steps, i, BodyOf(w.defs[i.wf], w.store.steps, i))
    && TasksOnlyFed(w.threads, w.store.steps, i)
  }

  lemma ClosedKept(w: World, w': World, i: Id)
    requires Closed(w, i) && w'.defs == w.defs && SameFeeds(w.store.steps, w'.store.steps, i)
    requires i in w'.store.meta && !w'.store.meta[i].status.SuspendedOn?
    requires TasksOnlyFed(w'.threads, w.store.steps, i)
    ensures Closed(w', i)
  {
    BodyGrows(w.defs[i.wf], w.store.steps, w'.store.steps, i);
    FeedsKept(w.store.steps, w'.store.steps, i, BodyOf(w.defs[i.wf], w.store.steps, i));
    forall t | t in w'.threads && w'.threads[t].Worker? && w'.threads[t].id == i
      ensures OnlyFed(w'.threads[t], w'.store.steps)
    {
      FeedsKept(w.store.steps, w'.store.steps, i, w'.threads[t].prog);
    }
  }

  lemma ConsistentExtend(j: Steps, i: Id, wf: Workflow, h: History, seen: Seen)
    requires Consistent(j, i, wf, h) && Fed(j, i, wf(h)) == Some(seen)
    ensures Consistent(j, i, wf, h + [seen])
  {
    var h' := h + [seen];
    forall n | 0 <= n < |h'| ensures Fed(j, i, wf(h'[..n])) == Some(h'[n]) {
      assert h'[..n] == h[..n];
      if n == |h| { assert h[..n] == h; }
    }
  }

  /** Where nothing is open, performing an operation only feeds the run. */
  lemma PerformOnlyFeeds(j: Steps, now: nat, i: Id, wf: Workflow, h: History)
    requires Consistent(j, i, wf, h) && LegalOp(wf(h)) && !Opens(j, i, wf)
    ensures var pc := PerformEffect(j, now, i, h, wf(h)).pc; Consistent(j, i, wf, pc.h) && !AtWork(pc)
  {
    assert !OpenAt(j, i, wf, h);
    if wf(h).IsJournaled() || wf(h).SetStatus? {
      PerformFeeds(j, now, i, h, wf(h));
      ConsistentExtend(j, i, wf, h, Fed(j, i, wf(h)).value);
    }
  }

  /** Steps of a task that are not transactions leave the tables and the recorded results alone. */
  lemma QuietStep(w: World, t: nat, a: TaskAction, w': World)
    requires TaskEnabled(w, t, a) && w' == TaskNext(w, t, a) && !IsWrite(a)
    ensures w'.store == w.store && w'.log.final == w.log.final && w'.defs == w.defs
    ensures BookOf(w') == BookOf(w) && OthersKept(w.threads, w'.threads, t)
  {
  }

  lemma OwnTaskOnlyFed(w: World, t: nat, a: TaskAction, w': World, i: Id)
    requires Owning(w) && Replaying(w) && Closed(w, i) && TaskEnabled(w, t, a) && w' == TaskNext(w, t, a)
    requires IsWorker(w, t) && w.threads[t].id == i
    ensures a.Perform? || a.WriteOutput? || a.WriteResult? || a.Panic?
    ensures t in w'.threads && w'.threads[t].Worker? ==> OnlyFed(w'.threads[t], w.store.steps)
  {
    var th := w.threads[t];
    assert OnlyFed(th, w.store.steps) && TaskOk(th, w.defs, w.store.steps);
    if a.Perform? { PerformOnlyFeeds(w.store.steps, w.now, i, th.prog, th.pc.h); }
  }

  lemma TaskKeepsClosed(w: World, t: nat, a: TaskAction, w': World, i: Id)
    requires Owning(w) && Replaying(w) && Closed(w, i) && TaskEnabled(w, t, a) && w' == TaskNext(w, t, a)
    ensures Closed(w', i) && SameFeeds(w.store.steps, w'.store.steps, i)
  {
    if IsWorker(w, t) && w.threads[t].id == i {
      OwnTaskOnlyFed(w, t, a, w', i);
      OwnTaskKeepsClosed(w, t, a, w', i);
    } else {
      OtherTaskKeepsClosed(w, t, a, w', i);
    }
  }

  lemma OwnTaskKeepsClosed(w: World, t: nat, a: TaskAction, w': World, i: Id)
    requires Closed(w, i) && TaskEnabled(w, t, a) && w' == TaskNext(w, t, a)
    requires IsWorker(w, t) && w.threads[t].id == i && !AtWork(w.threads[t].pc)
    requires a.Perform? || a.WriteOutput? || a.WriteResult? || a.Panic?
    requires t in w'.threads && w'.threads[t].Worker? ==> OnlyFed(w'.threads[t], w.store.steps)
    ensures Closed(w', i) && SameFeeds(w.store.steps, w'.store.steps, i)
  {
    ClosedKept(w, w', i);
  }

  lemma OtherTaskKeepsClosed(w: World, t: nat, a: TaskAction, w': World, i: Id)
    requires Owning(w) && Replaying(w) && Closed(w, i) && TaskEnabled(w, t, a) && w' == TaskNext(w, t, a)
    requires !(IsWorker(w, t) && w.threads[t].id == i)
    ensures Closed(w', i) && SameFeeds(w.store.steps, w'.store.steps, i)
  {
    if IsWrite(a) {
      OtherWriteFrame(w, t, a, w', i);
    } else {
      QuietStep(w, t, a, w');
      if a.ReadInput? && w.threads[t].id == i { NewTaskOnlyFed(w, t, w', i); }
    }
    ClosedKept(w, w', i);
  }

  lemma OtherWriteFrame(w: World, t: nat, a: TaskAction, w': World, i: Id)
    requires TaskEnabled(w, t, a) && IsWrite(a) && w' == TaskNext(w, t, a) && TopLevel(i) && w.threads[t].id != i
    ensures forall r: Ref :: r.id == i ==> Lookup(w'.store.steps, r) == Lookup(w.store.steps, r)
    ensures Lookup(w'.store.meta, i) == Lookup(w.store.meta, i) && w'.defs == w.defs
    ensures i in w.log.final ==> i in w'.log.final && w'.log.final[i] == w.log.final[i]
    ensures OthersKept(w.threads, w'.threads, t)
    ensures t in w'.threads && w'.threads[t].Worker? ==> w'.threads[t].id != i
  {
  }

  lemma NewTaskOnlyFed(w: World, t: nat, w': World, i: Id)
    requires TaskEnabled(w, t, ReadInput) && w' == TaskNext(w, t, ReadInput) && w.threads[t].id == i
    ensures t in w'.threads && w'.threads[t].Worker? && OnlyFed(w'.threads[t], w.store.steps)
  {
  }

  /** Calls leave alone what a known instance reads, and claim only what is suspended. */
  lemma ApiFrame(w: World, t: nat, a: ApiAction, w': World, i: Id)
    requires Owning(w) && ApiEnabled(w, t, a) && w' == ApiNext(w, t, a)
    requires TopLevel(i) && i in w.store.meta && !w.store.meta[i].status.SuspendedOn?
    ensures forall r: Ref :: r.id == i ==> Lookup(w'.store.steps, r) == Lookup(w.store.steps, r)
    ensures i in w'.store.meta && (w'.store.meta[i] == w.store.meta[i] || w'.store.meta[i].status.Running?)
    ensures w'.defs == w.defs && w'.log.final == w.log.final
    ensures forall u :: u in w'.threads && w'.threads[u].Worker? ==> u in w.threads && w'.threads[u] == w.threads[u]
  {
  }

  lemma ApiKeepsClosed(w: World, t: nat, a: ApiAction, w': World, i: Id)
    requires Owning(w) && Closed(w, i) && ApiEnabled(w, t, a) && w' == ApiNext(w, t, a)
    ensures Closed(w', i) && SameFeeds(w.store.steps, w'.store.steps, i)
  {
    ApiFrame(w, t, a, w', i);
    ClosedKept(w, w', i);
  }

  lemma PollKeepsClosed(w: World, t: nat, a: PollAction, w': World, i: Id)
    requires Owning(w) && Closed(w, i) && PollEnabled(w, t, a) && w' == PollNext(w, t, a)
    ensures Closed(w', i) && SameFeeds(w.store.steps, w'.store.steps, i)
  {
    PollFrame(w, t, a, w');
    ClosedKept(w, w', i);
  }

  lemma EngineKeepsClosed(w: World, a: EngineAction, w': World, i: Id)
    requires Owning(w) && Closed(w, i) && EngineEnabled(w, a) && w' == EngineNext(w, a) && !DeletedBy(Engine(a), i)
    ensures Closed(w', i) && SameFeeds(w.store.steps, w'.store.steps, i)
  {
    ClosedKept(w, w', i);
  }

  lemma ClosedStep(w: World, a: Action, i: Id)
    requires Owning(w) && Replaying(w) && Closed(w, i) && Enabled(w, a) && !DeletedBy(a, i)
    ensures Closed(Next(w, a), i) && SameFeeds(w.store.steps, Next(w, a).store.steps, i)
  {
    match a
    case Api(t, x) => ApiKeepsClosed(w, t, x, ApiNext(w, t, x), i);
    case Task(t, x) => TaskKeepsClosed(w, t, x, TaskNext(w, t, x), i);
    case Poll(t, x) => PollKeepsClosed(w, t, x, PollNext(w, t, x), i);
    case Engine(x) => EngineKeepsClosed(w, x, EngineNext(w, x), i);
  }

  // ---- A completed instance only replays -----------------------------------------------------

  ghost predicate SameJournal(w: World, w': World, i: Id) {
    forall r: Ref :: r.id == i ==> Lookup(w'.store.steps, r) == Lookup(w.store.steps, r)
  }

  /** The journal leads the workflow of `i` to a return, and has the returned value for an output. */
  ghost predicate IsSettled(w: World, i: Id) {
    && Closed(w, i) && i in w.log.final
    && Consistent(w.store.steps, i, BodyOf(w.defs[i.wf], w.store.steps, i), w.log.final[i])
    && OutputOk(w.defs, w.store.steps, i, w.log.final[i])
    && (w.store.meta[i].status.Running? || w.store.meta[i].status.Finished?)
  }

  /** An instance that has completed in a run whose errors its journal determines is settled. */
  lemma FinishedIsSettled(w: World, i: Id)
    requires Owning(w) && Replaying(w) && TopLevel(i) && i in w.store.meta && w.store.meta[i].status.Finished?
    requires i in w.log.final && i.wf in w.defs
    requires Determined(w.store.steps, i, BodyOf(w.defs[i.wf], w.store.steps, i), w.log.final[i])
    ensures IsSettled(w, i)
  {
    var j, wf, h := w.store.steps, BodyOf(w.defs[i.wf], w.store.steps, i), w.log.final[i];
    assert Returned(w.defs, j, i, h) && OutputOk(w.defs, j, i, h);
    FaithfulIsConsistent(j, i, wf, h);
    EndLeavesNothingOpen(j, i, wf, h);
    forall t | t in w.threads && w.threads[t].Worker?
      ensures w.threads[t].id != i
    {
      assert Owns(w.threads[t], w.threads[t].id);
    }
  }

  lemma SettledKept(w: World, w': World, i: Id)
    requires IsSettled(w, i) && Closed(w', i) && w'.defs == w.defs && SameJournal(w, w', i)
    requires i in w'.log.final && w'.log.final[i] == w.log.final[i]
    requires w'.store.meta[i].status.Running? || w'.store.meta[i].status.Finished?
    ensures IsSettled(w', i)
  {
    BodyGrows(w.defs[i.wf], w.store.steps, w'.store.steps, i);
    FeedsKept(w.store.steps, w'.store.steps, i, BodyOf(w.defs[i.wf], w.store.steps, i));
  }

  /** A task of a settled instance ends where the recorded run ended. */
  lemma TaskEndsAlike(w: World, t: nat, i: Id)
    requires Replaying(w) && IsSettled(w, i) && IsWorker(w, t) && w.threads[t].id == i
    requires w.threads[t].pc.Outputting? || w.threads[t].pc.Finishing?
    ensures w.threads[t].pc.h == w.log.final[i] && CurrentOp(w.threads[t]).Return?
    ensures Lookup(w.store.steps, Ref(i, Output)) == Some(Completed(CurrentOp(w.threads[t]).out, None))
    ensures w.threads[t].pc.Finishing? ==> w.threads[t].pc.result.Success?
  {
    var th := w.threads[t];
    assert TaskOk(th, w.defs, w.store.steps) && OnlyFed(th, w.store.steps);
    assert PcOk(w.store.steps, i, CurrentOp(th), th.pc);
    OneEnd(w.store.steps, i, th.prog, th.pc.h, w.log.final[i]);
  }

  lemma OwnTaskKeepsSettled(w: World, t: nat, a: TaskAction, w': World, i: Id)
    requires Owning(w) && Replaying(w) && IsSettled(w, i) && Closed(w', i)
    requires TaskEnabled(w, t, a) && w' == TaskNext(w, t, a) && IsWorker(w, t) && w.threads[t].id == i
    ensures SameJournal(w, w', i) && IsSettled(w', i)
  {
    OwnTaskOnlyFed(w, t, a, w', i);
    if a.WriteOutput? || a.WriteResult? {
      TaskEndsAlike(w, t, i);
    } else {
      QuietStep(w, t, a, w');
    }
    SettledKept(w, w', i);
  }

  lemma TaskKeepsSettled(w: World, t: nat, a: TaskAction, w': World, i: Id)
    requires Owning(w) && Replaying(w) && IsSettled(w, i) && Closed(w', i) && TaskEnabled(w, t, a)
    requires w' == TaskNext(w, t, a)
    ensures SameJournal(w, w', i) && IsSettled(w', i)
  {
    if IsWorker(w, t) && w.threads[t].id == i {
      OwnTaskKeepsSettled(w, t, a, w', i);
    } else {
      if IsWrite(a) { OtherWriteFrame(w, t, a, w', i); } else { QuietStep(w, t, a, w'); }
      SettledKept(w, w', i);
    }
  }

  lemma ApiKeepsSettled(w: World, t: nat, a: ApiAction, w': World, i: Id)
    requires Owning(w) && IsSettled(w, i) && Closed(w', i) && ApiEnabled(w, t, a) && w' == ApiNext(w, t, a)
    ensures SameJournal(w, w', i) && IsSettled(w', i)
  {
    ApiFrame(w, t, a, w', i);
    SettledKept(w, w', i);
  }

  lemma PollKeepsSettled(w: World, t: nat, a: PollAction, w': World, i: Id)
    requires Owning(w) && IsSettled(w, i) && Closed(w', i) && PollEnabled(w, t, a) && w' == PollNext(w, t, a)
    ensures SameJournal(w, w', i) && IsSettled(w', i)
  {
    PollFrame(w, t, a, w');
    SettledKept(w, w', i);
  }

  lemma EngineKeepsSettled(w: World, a: EngineAction, w': World, i: Id)
    requires IsSettled(w, i) && Closed(w', i) && EngineEnabled(w, a) && w' == EngineNext(w, a)
    requires !DeletedBy(Engine(a), i)
    ensures SameJournal(w, w', i) && IsSettled(w', i)
  {
    SettledKept(w, w', i);
  }

  lemma SettledStep(w: World, a: Action, i: Id)
    requires Owning(w) && Replaying(w) && IsSettled(w, i) && Enabled(w, a) && !DeletedBy(a, i)
    ensures SameJournal(w, Next(w, a), i) && IsSettled(Next(w, a), i)
  {
    ClosedStep(w, a, i);
    match a
    case Api(t, x) => ApiKeepsSettled(w, t, x, ApiNext(w, t, x), i);
    case Task(t, x) => TaskKeepsSettled(w, t, x, TaskNext(w, t, x), i);
    case Poll(t, x) => PollKeepsSettled(w, t, x, PollNext(w, t, x), i);
    case Engine(x) => EngineKeepsSettled(w, x, EngineNext(w, x), i);
  }
}
