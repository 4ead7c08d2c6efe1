/**
 Third layer: errors. Every error that a run was given is accounted for by the tables: by the journal, by
 a Failed entry, by an entry that is still open, or by the record of a child. So what a run came to in spite
 of errors, or because of one, is what a run that the tables bear out comes to.
 */
module Errors {
  import opened Options
  import opened Storage
  import opened Workflows
  import opened Keys
  import opened Accounts
  import opened Protocol
  import opened Ownership
  import opened Replay

  // ---- What such runs leave open -------------------------------------------------------------

  /** If nothing was tried again, an error that the journal does not determine leaves an open entry. */
  lemma {:induction false} UndeterminedIsOpen(b: Book, i: Id, wf: Workflow, h: History)
    requires BorneOut(b, i, wf, h) && NoKeyRetried(wf) && !Determined(b.steps, i, wf, h)
    ensures Opens(b.steps, i, wf)
    decreases |h|
  {
    var n := |h| - 1;
    var g := h[..n];
    assert forall m :: 0 <= m < n ==> g[..m] == h[..m] && g[m] == h[m];
    if Determined(b.steps, i, wf, g) {
      FaithfulIsConsistent(b.steps, i, wf, g);
      NeverUsedAgain(wf, h, n);
      assert Stands(b, i, wf, h, n);
      assert OpenAt(b.steps, i, wf, g);
    } else {
      forall m | 0 <= m < n && g[m].Caught? ensures Stands(b, i, wf, g, m) {
        assert Stands(b, i, wf, h, m);
        NeverUsedAgain(wf, h, m);
      }
      UndeterminedIsOpen(b, i, wf, g);
    }
  }

  /** A run that has ended was given determined errors only, if and only if the journal leaves nothing open. */
  lemma EndIsExact(b: Book, i: Id, wf: Workflow, h: History)
    requires BorneOut(b, i, wf, h) && NoKeyRetried(wf) && (wf(h).Return? || wf(h).Throw?)
    ensures Determined(b.steps, i, wf, h) <==> Consistent(b.steps, i, wf, h)
    ensures Determined(b.steps, i, wf, h) <==> !Opens(b.steps, i, wf)
  {
    if Determined(b.steps, i, wf, h) {
      FaithfulIsConsistent(b.steps, i, wf, h);
      EndLeavesNothingOpen(b.steps, i, wf, h);
    } else {
      UndeterminedIsOpen(b, i, wf, h);
    }
  }

  /** The workflow means what this run returned if and only if the journal leaves nothing open. */
  lemma ReturnIsExact(b: Book, i: Id, wf: Workflow, h: History, v: Value)
    requires BorneOut(b, i, wf, h) && NoKeyRetried(wf) && wf(h) == Return(v)
    ensures Denote(b.steps, i, wf) == Done(v) <==> !Opens(b.steps, i, wf)
  {
    EndIsExact(b, i, wf, h);
    if Opens(b.steps, i, wf) { OpenMeansNothing(b.steps, i, wf); } else { DenoteUnique(b.steps, i, wf, h, v); }
  }

  lemma ThrowIsExact(b: Book, i: Id, wf: Workflow, h: History, e: string)
    requires BorneOut(b, i, wf, h) && NoKeyRetried(wf) && wf(h) == Throw(e)
    ensures FailsWith(b.steps, i, wf, e) <==> !Opens(b.steps, i, wf)
  {
    EndIsExact(b, i, wf, h);
    if Opens(b.steps, i, wf) { OpenMeansNothing(b.steps, i, wf); }
  }

  // ---- The invariant -------------------------------------------------------------------------

  ghost predicate TaskStands(th: Thread, b: Book) { th.Worker? ==> ErrorsStand(b, th.id, th.prog, th.pc.h) }

  ghost predicate TasksStand(ts: Threads, b: Book) { forall t :: t in ts ==> TaskStands(ts[t], b) }

  ghost predicate FinalStands(defs: map<string, Definition>, b: Book, i: Id, h: History) {
    i.wf in defs ==> ErrorsStand(b, i, BodyOf(defs[i.wf], b.steps, i), h)
  }

  ghost predicate FinalsStand(defs: map<string, Definition>, b: Book, final: map<Id, History>) {
    forall i :: i in b.meta && TopLevel(i) && b.meta[i].status.Finished? && i in final ==>
      FinalStands(defs, b, i, final[i])
  }

  /** A run of `i` that the tables bear out ended with the error `e`. */
  ghost predicate Threw(defs: map<string, Definition>, b: Book, i: Id, e: string) {
    && i.wf in defs
    && var wf := BodyOf(defs[i.wf], b.steps, i); exists h :: BorneOut(b, i, wf, h) && wf(h) == Throw(e)
  }

  ghost predicate FailuresStand(defs: map<string, Definition>, b: Book) {
    forall i :: i in b.meta && TopLevel(i) && b.meta[i].status.Errored? ==> Threw(defs, b, i, b.meta[i].status.error)
  }

  ghost predicate Standing(w: World) {
    && TasksStand(w.threads, BookOf(w))
    && FinalsStand(w.defs, BookOf(w), w.log.final) && FailuresStand(w.defs, BookOf(w))
  }

  // ---- Every action keeps the layer ----------------------------------------------------------

  lemma FinalKept(defs: map<string, Definition>, b: Book, b': Book, i: Id, h: History)
    requires FinalStands(defs, b, i, h) && SameAccount(b, b', i)
    ensures FinalStands(defs, b', i, h)
  {
    if i.wf in defs {
      BodyGrows(defs[i.wf], b.steps, b'.steps, i);
      StandsKept(b, b', i, BodyOf(defs[i.wf], b.steps, i), h);
    }
  }

  lemma ThrewKept(defs: map<string, Definition>, b: Book, b': Book, i: Id, e: string)
    requires Threw(defs, b, i, e) && SameAccount(b, b', i)
    ensures Threw(defs, b', i, e)
  {
    var wf := BodyOf(defs[i.wf], b.steps, i);
    var h :| BorneOut(b, i, wf, h) && wf(h) == Throw(e);
    BodyGrows(defs[i.wf], b.steps, b'.steps, i);
    BorneOutKept(b, b', i, wf, h);
  }

  /** Nothing that accounts for runs of other top-level instances has changed. */
  ghost predicate Beside(b: Book, b': Book, i: Id) {
    forall k :: TopLevel(k) && k != i ==> SameAccount(b, b', k)
  }

  lemma BelowIsDeep(d: Id, i: Id)
    requires TopLevel(i) && Below(d, i)
    ensures !TopLevel(d)
  {
  }

  lemma StepsOfOne(b: Book, b': Book, i: Id)
    requires OnlyStepsOf(i, b.steps, b'.steps) && b'.gone == b.gone && b.past <= b'.past
    requires forall d :: !TopLevel(d) ==> Lookup(b'.meta, d) == Lookup(b.meta, d)
    ensures Beside(b, b', i)
  {
  }

  lemma RecordsStand(w: World, w': World, i: Id)
    requires Standing(w) && w'.defs == w.defs && Beside(BookOf(w), BookOf(w'), i)
    requires forall k :: k != i && TopLevel(k) && k in w'.store.meta ==>
      k in w.store.meta && w'.store.meta[k] == w.store.meta[k]
    requires forall k :: k != i && k in w'.log.final ==> k in w.log.final && w'.log.final[k] == w.log.final[k]
    requires TopLevel(i) && i in w'.store.meta && w'.store.meta[i].status.Finished? && i in w'.log.final ==>
      FinalStands(w'.defs, BookOf(w'), i, w'.log.final[i])
    requires TopLevel(i) && i in w'.store.meta && w'.store.meta[i].status.Errored? ==>
      Threw(w'.defs, BookOf(w'), i, w'.store.meta[i].status.error)
    ensures FinalsStand(w'.defs, BookOf(w'), w'.log.final) && FailuresStand(w'.defs, BookOf(w'))
  {
    forall k | k != i && k in w'.store.meta && TopLevel(k) && w'.store.meta[k].status.Finished? && k in w'.log.final
      ensures FinalStands(w'.defs, BookOf(w'), k, w'.log.final[k])
    {
      FinalKept(w.defs, BookOf(w), BookOf(w'), k, w.log.final[k]);
    }
    forall k | k != i && k in w'.store.meta && TopLevel(k) && w'.store.meta[k].status.Errored?
      ensures Threw(w'.defs, BookOf(w'), k, w'.store.meta[k].status.error)
    {
      ThrewKept(w.defs, BookOf(w), BookOf(w'), k, w.store.meta[k].status.error);
    }
  }

  lemma OthersStand(w: World, w': World, t: nat, i: Id)
    requires Owning(w) && Standing(w) && OthersKept(w.threads, w'.threads, t) && Beside(BookOf(w), BookOf(w'), i)
    requires forall u :: u in w'.threads && u != t && w'.threads[u].Worker? ==> w'.threads[u].id != i
    requires t in w'.threads ==> TaskStands(w'.threads[t], BookOf(w'))
    ensures TasksStand(w'.threads, BookOf(w'))
  {
    forall u | u in w'.threads && u != t && w'.threads[u].Worker? ensures TaskStands(w'.threads[u], BookOf(w')) {
      var th := w.threads[u];
      assert TaskStands(th, BookOf(w)) && Owns(th, th.id);
      StandsKept(BookOf(w), BookOf(w'), th.id, th.prog, th.pc.h);
    }
  }

  /** No table changes, and only task `t` moves. */
  lemma MoveStands(w: World, w': World, t: nat)
    requires Standing(w) && OthersKept(w.threads, w'.threads, t) && w'.defs == w.defs
    requires BookOf(w') == BookOf(w) && w'.log.final == w.log.final
    requires t in w'.threads ==> TaskStands(w'.threads[t], BookOf(w))
    ensures Standing(w')
  {
  }

  lemma PerformStands(w: World, t: nat, w': World)
    requires Replaying(w) && Standing(w) && TaskEnabled(w, t, Perform) && w' == PerformOp(w, t)
    ensures Standing(w')
  {
    var th, j := w.threads[t], w.store.steps;
    var op := CurrentOp(th);
    assert TaskStands(th, BookOf(w));
    if op.IsJournaled() || op.SetStatus? {
      PerformFeeds(j, w.now, th.id, th.pc.h, op);
      if Fed(j, th.id, op).Some? { StandsExtend(BookOf(w), th.id, th.prog, th.pc.h, Fed(j, th.id, op).value); }
    }
    MoveStands(w, w', t);
  }

  lemma ClosureStands(w: World, t: nat, o: Outcome, w': World)
    requires Replaying(w) && Standing(w) && TaskEnabled(w, t, ClosureReturn(o)) && w' == ClosureReturns(w, t, o)
    ensures Standing(w')
  {
    var th := w.threads[t];
    assert TaskStands(th, BookOf(w)) && TaskOk(th, w.defs, w.store.steps);
    StandsExtend(BookOf(w), th.id, th.prog, th.pc.h, Caught(TIMED_OUT));
    MoveStands(w, w', t);
  }

  lemma GatherStands(w: World, t: nat, o: Outcome, w': World)
    requires Replaying(w) && Standing(w) && TaskEnabled(w, t, Gather(o)) && w' == FanOutReturns(w, t, o)
    ensures Standing(w')
  {
    var th := w.threads[t];
    assert TaskStands(th, BookOf(w)) && TaskOk(th, w.defs, w.store.steps);
    if o.Permanent? { StandsExtend(BookOf(w), th.id, th.prog, th.pc.h, Caught(o.error)); }
    MoveStands(w, w', t);
  }

  /** After the write of what a task was given, the error, if it is one, is accounted for. */
  lemma SavedStands(b: Book, i: Id, wf: Workflow, h: History, data: StepData, seen: Seen)
    requires ErrorsStand(b, i, wf, h) && PcOk(b.steps, i, wf(h), Saving(h, data, seen))
    requires seen.Caught? ==> data.Failed?
    ensures
      var r := Ref(i, wf(h).JournalKey());
      ErrorsStand(b.(steps := b.steps[r := data], past := b.past + InEntry(r, data)), i, wf, h + [seen])
  {
    var r := Ref(i, wf(h).JournalKey());
    var b' := b.(steps := b.steps[r := data], past := b.past + InEntry(r, data));
    WriteStands(b, b', i, wf, h);
    StandsExtend(b', i, wf, h, seen);
  }

  /** A task journals something, and the errors that it was given still stand. */
  lemma JournalingStands(w: World, t: nat, w': World)
    requires Owning(w) && Standing(w) && IsWorker(w, t) && OthersKept(w.threads, w'.threads, t)
    requires w'.store.meta == w.store.meta && w'.log.final == w.log.final && w'.log.cleaned == w.log.cleaned
    requires w.log.mishaps <= w'.log.mishaps
    requires w'.defs == w.defs && OnlyStepsOf(w.threads[t].id, w.store.steps, w'.store.steps)
    requires t in w'.threads ==> TaskStands(w'.threads[t], BookOf(w'))
    ensures Standing(w')
  {
    var th := w.threads[t];
    assert Owns(th, th.id);
    OwnerIsAlone(w, t, th.id);
    StepsOfOne(BookOf(w), BookOf(w'), th.id);
    OthersStand(w, w', t, th.id);
    RecordsStand(w, w', th.id);
  }

  lemma SaveStands(w: World, t: nat, w': World)
    requires Owning(w) && Replaying(w) && Standing(w) && TaskEnabled(w, t, Save) && w' == SaveTxn(w, t)
    ensures Standing(w')
  {
    var th, j := w.threads[t], w.store.steps;
    assert TaskStands(th, BookOf(w)) && TaskOk(th, w.defs, j) && PcOk(j, th.id, CurrentOp(th), th.pc);
    assert Owns(th, th.id);
    SavedStands(BookOf(w), th.id, th.prog, th.pc.h, th.pc.data, th.pc.seen);
    JournalingStands(w, t, w');
  }

  lemma SuspendStands(w: World, t: nat, w': World)
    requires Owning(w) && Replaying(w) && Standing(w) && TaskEnabled(w, t, SaveSuspended) && w' == SuspendedTxn(w, t)
    ensures Standing(w')
  {
    var th := w.threads[t];
    assert TaskStands(th, BookOf(w)) && TaskOk(th, w.defs, w.store.steps) && Owns(th, th.id);
    WriteStands(BookOf(w), BookOf(w'), th.id, th.prog, th.pc.h);
    JournalingStands(w, t, w');
  }

  lemma OutputStands(w: World, t: nat, w': World)
    requires Owning(w) && Replaying(w) && Standing(w) && TaskEnabled(w, t, WriteOutput)
    requires w' == TaskNext(w, t, WriteOutput)
    ensures Standing(w')
  {
    var th := w.threads[t];
    assert TaskStands(th, BookOf(w)) && Owns(th, th.id);
    StandsKept(BookOf(w), BookOf(w'), th.id, th.prog, th.pc.h);
    JournalingStands(w, t, w');
  }

  lemma ResultKeepsAccounts(w: World, t: nat, w': World)
    requires TaskEnabled(w, t, WriteResult) && w' == ResultTxn(w, t) && TopLevel(w.threads[t].id)
    ensures forall k :: TopLevel(k) ==> SameAccount(BookOf(w), BookOf(w'), k)
  {
  }

  /** What a run returned with, or what it threw, is recorded together with it. */
  lemma ResultStands(w: World, t: nat, w': World)
    requires Owning(w) && Replaying(w) && Standing(w) && TaskEnabled(w, t, WriteResult) && w' == ResultTxn(w, t)
    ensures Standing(w')
  {
    var th, b := w.threads[t], BookOf(w');
    assert TaskStands(th, BookOf(w)) && TaskOk(th, w.defs, w.store.steps) && Owns(th, th.id);
    ResultKeepsAccounts(w, t, w');
    StandsKept(BookOf(w), b, th.id, th.prog, th.pc.h);
    assert BorneOut(b, th.id, th.prog, th.pc.h);
    OwnerIsAlone(w, t, th.id);
    OthersStand(w, w', t, th.id);
    RecordsStand(w, w', th.id);
  }

  /** What a child of a fan-out writes touches nothing that accounts for errors of other operations. */
  lemma ChildTouchesLittle(b: Book, b': Book, i: Id, op: Op, c: Id)
    requires op.FanOut? && OfChild(i, op, c) && b'.gone == b.gone && b.past <= b'.past
    requires OnlyStepsOf(c, b.steps, b'.steps) && forall d :: d != c ==> Lookup(b'.meta, d) == Lookup(b.meta, d)
    ensures c != i && OnlyUnder(b, b', i, op)
  {
    var m: nat :| m < |op.kids| && Under(c, Child(i, op.key, m));
    forall key, n: nat | Child(i, key, n) == c ensures key == op.key {
      assert c.path[..|i.path| + 1] == c.path;
      ChildInjective(i, key, n, i, op.key, m);
    }
  }

  lemma ChildStands(w: World, t: nat, a: TaskAction, w': World)
    requires Owning(w) && Standing(w) && TaskEnabled(w, t, a) && (a.ChildStep? || a.ChildMeta?)
    requires w' == TaskNext(w, t, a)
    ensures Standing(w')
  {
    var c, th := if a.ChildStep? then a.ref.id else a.child, w.threads[t];
    assert TaskStands(th, BookOf(w)) && Owns(th, th.id);
    ChildTouchesLittle(BookOf(w), BookOf(w'), th.id, CurrentOp(th), c);
    WriteStands(BookOf(w), BookOf(w'), th.id, th.prog, th.pc.h);
    OwnerIsAlone(w, t, th.id);
    ChildBesideOthers(BookOf(w), BookOf(w'), th.id, c);
    OthersStand(w, w', t, th.id);
    RecordsStand(w, w', th.id);
  }

  lemma ChildBesideOthers(b: Book, b': Book, i: Id, c: Id)
    requires TopLevel(i) && Below(c, i) && b'.gone == b.gone && b.past <= b'.past
    requires OnlyStepsOf(c, b.steps, b'.steps) && forall d :: d != c ==> Lookup(b'.meta, d) == Lookup(b.meta, d)
    ensures Beside(b, b', i)
  {
    assert c.path[..1] == i.path;
    forall k | TopLevel(k) && k != i ensures !Under(c, k) { }
  }

  lemma TaskKeepsStanding(w: World, t: nat, a: TaskAction)
    requires Owning(w) && Replaying(w) && Standing(w) && TaskEnabled(w, t, a)
    ensures Standing(TaskNext(w, t, a))
  {
    var w' := TaskNext(w, t, a);
    match a
    case Perform => PerformStands(w, t, w');
    case ClosureReturn(o) => ClosureStands(w, t, o, w');
    case Gather(o) => GatherStands(w, t, o, w');
    case Save => SaveStands(w, t, w');
    case SaveSuspended => SuspendStands(w, t, w');
    case WriteOutput => OutputStands(w, t, w');
    case WriteResult => ResultStands(w, t, w');
    case ChildStep(_, _) => ChildStands(w, t, a, w');
    case ChildMeta(_, _) => ChildStands(w, t, a, w');
    case _ => MoveStands(w, w', t);
  }

  /** A transaction that marks an unowned instance Running. */
  lemma AcquireStands(w: World, w': World, t: nat, i: Id)
    requires Owning(w) && Standing(w) && !Owned(w, i) && w'.defs == w.defs && w'.log.final == w.log.final
    requires TopLevel(i) && w'.log.cleaned == w.log.cleaned && w'.log.mishaps == w.log.mishaps
    requires t in w'.threads && !w'.threads[t].Worker? && OthersKept(w.threads, w'.threads, t)
    requires w'.store.meta == w.store.meta[i := Metadata(Running, None)]
    requires OnlyStepsOf(i, w.store.steps, w'.store.steps)
    ensures Standing(w')
  {
    UnownedHasNoTask(w, i);
    StepsOfOne(BookOf(w), BookOf(w'), i);
    OthersStand(w, w', t, i);
    RecordsStand(w, w', i);
  }

  lemma ApiKeepsStanding(w: World, t: nat, a: ApiAction, w': World)
    requires Owning(w) && Standing(w) && ApiEnabled(w, t, a) && w' == ApiNext(w, t, a)
    ensures Standing(w')
  {
    match a
    case Invoke(id, _) => AcquireStands(w, w', t, id);
    case Resume(id) => AcquireStands(w, w', t, id);
    case Signal(id, key, v) =>
      if ClaimOutcome(w.store, id, key) == Claimed {
        UnownedWhenSuspended(w, id);
        AcquireStands(w, w', t, id);
      }
    case _ => MoveStands(w, w', t);
  }

  lemma PollKeepsStanding(w: World, t: nat, a: PollAction, w': World)
    requires Owning(w) && Standing(w) && PollEnabled(w, t, a) && w' == PollNext(w, t, a)
    ensures Standing(w')
  {
    PollFrame(w, t, a, w');
    if a.PollClaim? {
      var row := w.threads[t].batch[0].row;
      if ClaimOutcome(w.store, row.id, row.key) == Claimed {
        UnownedWhenSuspended(w, row.id);
        AcquireStands(w, w', t, row.id);
      }
    }
  }

  /** Deleting an instance leaves what accounts for another top-level instance. */
  lemma CleanupBeside(w: World, id: Id, k: Id)
    requires TopLevel(k) && !Under(k, id)
    ensures SameAccount(BookOf(w), BookOf(CleanupTxn(w, id)), k)
  {
  }

  lemma CleanupStands(w: World, id: Id, w': World)
    requires Owning(w) && Standing(w) && IsTerminal(w.store.meta, id) && w' == CleanupTxn(w, id)
    ensures Standing(w')
  {
    var b, b' := BookOf(w), BookOf(w');
    forall k | TopLevel(k) && k in w'.store.meta ensures SameAccount(b, b', k) {
      if Under(k, id) { UnderTopLevel(k, id); }
      CleanupBeside(w, id, k);
    }
    forall t | t in w.threads && w.threads[t].Worker? ensures TaskStands(w.threads[t], b') {
      var th := w.threads[t];
      assert Owns(th, th.id) && TaskStands(th, b) && TopLevel(th.id) && IsRunning(w.store.meta, th.id);
      StandsKept(b, b', th.id, th.prog, th.pc.h);
    }
    forall k | k in w'.store.meta && TopLevel(k) && w'.store.meta[k].status.Finished? && k in w'.log.final
      ensures FinalStands(w'.defs, b', k, w'.log.final[k])
    {
      FinalKept(w.defs, b, b', k, w.log.final[k]);
    }
    forall k | k in w'.store.meta && TopLevel(k) && w'.store.meta[k].status.Errored?
      ensures Threw(w'.defs, b', k, w'.store.meta[k].status.error)
    {
      ThrewKept(w.defs, b, b', k, w.store.meta[k].status.error);
    }
  }

  lemma EngineKeepsStanding(w: World, a: EngineAction, w': World)
    requires Owning(w) && Standing(w) && EngineEnabled(w, a) && w' == EngineNext(w, a)
    ensures Standing(w')
  {
    match a
    case Cleanup(id) => CleanupStands(w, id, w');
    case RecoverOne(t, t2, id) => RecoveryStands(w, t, id, w');
    case _ =>
  }

  lemma RecoveryStands(w: World, t: nat, id: Id, w': World)
    requires Owning(w) && Standing(w) && t in w.threads && Owns(w.threads[t], id) && w'.defs == w.defs
    requires w'.store == SpawnTxn(w.store, id, None) && w'.log == w.log
    requires forall u :: u in w'.threads && w'.threads[u].Worker? ==> u in w.threads && w'.threads[u] == w.threads[u]
    ensures Standing(w')
  {
    assert TopLevel(id) && IsRunning(w.store.meta, id) && IsStamped(w.store.meta[id]);
    assert w.store.meta[id] == Metadata(Running, None);
    assert BookOf(w') == BookOf(w);
  }

  lemma StandingStep(w: World, a: Action)
    requires Owning(w) && Replaying(w) && Standing(w) && Enabled(w, a)
    ensures Standing(Next(w, a))
  {
    match a
    case Api(t, x) => ApiKeepsStanding(w, t, x, ApiNext(w, t, x));
    case Task(t, x) => TaskKeepsStanding(w, t, x);
    case Poll(t, x) => PollKeepsStanding(w, t, x, PollNext(w, t, x));
    case Engine(x) => EngineKeepsStanding(w, x, EngineNext(w, x));
  }
}
