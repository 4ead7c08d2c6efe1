/** The whole invariant, and what it says about every reachable state and every run. */
module Durability {
  import opened Options
  import opened Storage
  import opened Workflows
  import opened Accounts
  import opened Protocol
  import opened Ownership
  import opened Replay
  import opened Settled
  import opened Errors
  import opened Resumption
  import opened Timers
  import opened Claims
  import opened Status
  import opened Retention

  ghost predicate Inv(w: World) {
    Owning(w) && Replaying(w) && Standing(w) && TimersOk(w) && Reporting(w)
  }

  lemma InvStep(w: World, a: Action)
    requires Inv(w) && Enabled(w, a)
    ensures Inv(Next(w, a))
  {
    OwnershipStep(w, a);
    ReplayStep(w, a);
    StandingStep(w, a);
    TimersStep(w, a);
    ReportingStep(w, a);
  }

  lemma {:induction false} InvAlong(w: World, run: seq<Action>)
    requires Inv(w) && After(w, run).Some?
    ensures Inv(After(w, run).value)
    decreases |run|
  {
    if |run| > 0 {
      var before := run[..|run| - 1];
      InvAlong(w, before);
      InvStep(After(w, before).value, run[|run| - 1]);
    }
  }

  lemma InvReachable(defs: map<string, Definition>, w: World)
    requires Reachable(defs, w)
    ensures Inv(w)
  {
    var run :| After(Initial(defs), run) == Some(w);
    InvInitially(defs);
    InvAlong(Initial(defs), run);
  }

  lemma InvInitially(defs: map<string, Definition>)
    ensures Inv(Initial(defs))
  {
  }

  // ---- Safety of every reachable state ------------------------------------------------------

  /** At most one thread can still write an instance, and none while it is Suspended or terminal. */
  lemma SingleWriterTheorem(defs: map<string, Definition>, w: World, t: nat, i: Id)
    requires Reachable(defs, w) && t in w.threads && Owns(w.threads[t], i)
    ensures IsRunning(w.store.meta, i)
    ensures forall u :: u in w.threads && Owns(w.threads[u], i) ==> u == t
  {
    InvReachable(defs, w);
  }

  /**
   No dead suspension: a signal for the key that the metadata names succeeds. And whatever crash
   comes now, a known top-level instance is Running, claimable or terminal afterwards.
   */
  lemma NoDeadSuspension(defs: map<string, Definition>, w: World, i: Id, exit: bool)
    requires Reachable(defs, w) && TopLevel(i) && i in w.store.meta
    ensures
      var crashed := Next(w, Engine(Crash(exit)));
      || IsRunning(crashed.store.meta, i)
      || IsTerminal(crashed.store.meta, i)
      || (IsSuspended(crashed.store.meta, i) &&
          ClaimOutcome(crashed.store, i, crashed.store.meta[i].status.key) == Claimed)
  {
    InvReachable(defs, w);
  }

  /** What an invocation gave as input stays in the journal, and a completed instance has an output. */
  lemma InputAndOutputDurable(defs: map<string, Definition>, w: World, i: Id)
    requires Reachable(defs, w) && TopLevel(i)
    ensures i in w.log.inputs ==> Lookup(w.store.steps, Ref(i, Input)) == Some(Completed(w.log.inputs[i], None))
    ensures i in w.store.meta && w.store.meta[i].status.Finished? ==> IsCompleted(w.store.steps, Ref(i, Output))
  {
    InvReachable(defs, w);
  }

  /**
   In every reachable state a retention pass, at whatever time and with whatever periods, spares every
   live top-level instance: its metadata, its journal and its timers.
   */
  lemma RetentionSparesLive(defs: map<string, Definition>, w: World, nowSecs: nat, policy: Policy, i: Id)
    requires Reachable(defs, w) && TopLevel(i) && (IsRunning(w.store.meta, i) || IsSuspended(w.store.meta, i))
    ensures
      var s' := Without(w.store, ExpiredIds(w.store, nowSecs, policy));
      && Lookup(s'.meta, i) == Lookup(w.store.meta, i)
      && (forall r: Ref :: r.id == i ==> Lookup(s'.steps, r) == Lookup(w.store.steps, r))
      && (forall k :: k in w.store.timers && w.store.timers[k].id == i ==>
            Lookup(s'.timers, k) == Lookup(w.store.timers, k))
  {
    InvReachable(defs, w);
    LiveInstanceUntouched(w.store, nowSecs, policy, i);
  }

  // ---- Meaning ------------------------------------------------------------------------------

  /** The last run of `i` that completed was given no error that the journal does not determine. */
  ghost predicate EndedDetermined(w: World, i: Id) {
    && i in w.log.final && i.wf in w.defs
    && Determined(w.store.steps, i, BodyOf(w.defs[i.wf], w.store.steps, i), w.log.final[i])
  }

  /**
   Replay preserves meaning. An instance that is Completed, and whose last run swallowed no error
   that the journal does not determine, has the output that its workflow denotes under the final
   journal, whatever crashes, restarts, resumes, signals and timers came before. Only such a run is
   itself one that the journal alone accounts for.
   */
  lemma ReplayPreservesMeaning(defs: map<string, Definition>, w: World, i: Id)
    requires Reachable(defs, w) && TopLevel(i)
    requires i in w.store.meta && w.store.meta[i].status.Finished?
    ensures i in w.log.final && i.wf in w.defs && IsCompleted(w.store.steps, Ref(i, Output))
    ensures
      var wf := BodyOf(w.defs[i.wf], w.store.steps, i);
      EndedDetermined(w, i) <==> Denotes(w.store.steps, i, wf, w.log.final[i], w.store.steps[Ref(i, Output)].result)
    ensures EndedDetermined(w, i) ==>
      Denote(w.store.steps, i, BodyOf(w.defs[i.wf], w.store.steps, i)) == Done(w.store.steps[Ref(i, Output)].result)
  {
    InvReachable(defs, w);
    var j, h := w.store.steps, w.log.final[i];
    var wf := BodyOf(w.defs[i.wf], j, i);
    assert Returned(w.defs, j, i, h) && OutputOk(w.defs, j, i, h);
    if EndedDetermined(w, i) {
      FaithfulIsConsistent(j, i, wf, h);
      DenoteUnique(j, i, wf, h, wf(h).out);
    }
  }

  /**
   When replay preserves meaning. If a workflow uses no key again after it gave an error, a Completed instance
   of it has the output that the workflow denotes under the final journal if and only if that journal leaves
   nothing open, and so if and only if the last run was given no error but what the journal determines.
   */
  lemma MeaningIsExact(defs: map<string, Definition>, w: World, i: Id)
    requires Reachable(defs, w) && TopLevel(i)
    requires i in w.store.meta && w.store.meta[i].status.Finished?
    requires i.wf in w.defs && NoKeyRetried(BodyOf(w.defs[i.wf], w.store.steps, i))
    ensures IsCompleted(w.store.steps, Ref(i, Output))
    ensures
      var wf := BodyOf(w.defs[i.wf], w.store.steps, i);
      && (Denote(w.store.steps, i, wf) == Done(w.store.steps[Ref(i, Output)].result) <==> !Opens(w.store.steps, i, wf))
      && (EndedDetermined(w, i) <==> !Opens(w.store.steps, i, wf))
  {
    InvReachable(defs, w);
    var j, h := w.store.steps, w.log.final[i];
    var wf := BodyOf(w.defs[i.wf], j, i);
    assert Returned(w.defs, j, i, h) && OutputOk(w.defs, j, i, h) && FinalStands(w.defs, BookOf(w), i, h);
    EndIsExact(BookOf(w), i, wf, h);
    ReturnIsExact(BookOf(w), i, wf, h, wf(h).out);
  }

  /** A workflow that passes errors on, as `?` does, never completes with an error behind it. */
  lemma PropagatingRunIsDetermined(defs: map<string, Definition>, w: World, i: Id)
    requires Reachable(defs, w) && TopLevel(i)
    requires i in w.store.meta && w.store.meta[i].status.Finished?
    requires i.wf in w.defs && Propagates(BodyOf(w.defs[i.wf], w.store.steps, i))
    ensures EndedDetermined(w, i) && NoErrors(w.log.final[i])
  {
    InvReachable(defs, w);
    assert Returned(w.defs, w.store.steps, i, w.log.final[i]);
    assert NoErrors(w.log.final[i]);
  }

  lemma PropagatingWorkflowMeans(defs: map<string, Definition>, w: World, i: Id)
    requires Reachable(defs, w) && TopLevel(i)
    requires i in w.store.meta && w.store.meta[i].status.Finished?
    requires i.wf in w.defs && Propagates(BodyOf(w.defs[i.wf], w.store.steps, i))
    ensures IsCompleted(w.store.steps, Ref(i, Output))
    ensures
      Denote(w.store.steps, i, BodyOf(w.defs[i.wf], w.store.steps, i)) == Done(w.store.steps[Ref(i, Output)].result)
  {
    PropagatingRunIsDetermined(defs, w, i);
    ReplayPreservesMeaning(defs, w, i);
  }

  /**
   An instance that is Failed was failed by its own workflow, in a run whose errors the tables account for: the
   journal determines them, or a step that failed with that error or timed out has left its entry open, or a
   fan-out that gave up has, with a child recorded as failed so. If its key was used again since, the failure
   was written once.
   */
  lemma FailedInstanceThrew(defs: map<string, Definition>, w: World, i: Id)
    requires Reachable(defs, w) && TopLevel(i) && i in w.store.meta && w.store.meta[i].status.Errored?
    ensures Threw(w.defs, BookOf(w), i, w.store.meta[i].status.error)
  {
    InvReachable(defs, w);
  }

  /**
   If the workflow uses no key again after it gave an error, the journal of a Failed instance leads the workflow
   to the very error that is recorded if and only if it leaves nothing open; otherwise a resume can execute
   something again.
   */
  lemma FailureIsExact(defs: map<string, Definition>, w: World, i: Id)
    requires Reachable(defs, w) && w.running && Quiet(w)
    requires TopLevel(i) && i in w.store.meta && w.store.meta[i].status.Errored?
    requires i.wf in w.defs && NoKeyRetried(BodyOf(w.defs[i.wf], w.store.steps, i))
    ensures
      var wf := BodyOf(w.defs[i.wf], w.store.steps, i);
      && (FailsWith(w.store.steps, i, wf, w.store.meta[i].status.error) <==> !Opens(w.store.steps, i, wf))
      && (MayExecute(w, i) <==> Opens(w.store.steps, i, wf))
  {
    InvReachable(defs, w);
    var e, wf := w.store.meta[i].status.error, BodyOf(w.defs[i.wf], w.store.steps, i);
    assert Threw(w.defs, BookOf(w), i, e);
    var h :| BorneOut(BookOf(w), i, wf, h) && wf(h) == Throw(e);
    ThrowIsExact(BookOf(w), i, wf, h, e);
    ExecutesExactlyWhatIsOpen(w, i);
  }

  /** Every value that any run of an instance was given for a key is the one the journal holds now. */
  lemma EveryRunSawTheSame(defs: map<string, Definition>, w: World, s: Sighting)
    requires Reachable(defs, w) && s in w.log.seen
    ensures IsCompleted(w.store.steps, s.ref) && w.store.steps[s.ref].result == s.value
  {
    InvReachable(defs, w);
  }

  // ---- Non-interference ---------------------------------------------------------------------

  /** The instance that an action is about. The others are about none. */
  ghost function Subject(w: World, a: Action): Option<Id> {
    match a
    case Api(_, Invoke(id, _)) => Some(id)
    case Api(_, Resume(id)) => Some(id)
    case Api(_, Signal(id, _, _)) => Some(id)
    case Task(t, _) => if t in w.threads && (w.threads[t].Worker? || w.threads[t].Starting? || w.threads[t].Announcing?)
                       then Some(w.threads[t].id) else None
    case Poll(t, _) => if IsPoller(w, t) && |w.threads[t].batch| > 0 then Some(w.threads[t].batch[0].row.id) else None
    case Engine(Cleanup(id)) => Some(id)
    case Engine(RecoverOne(_, _, id)) => Some(id)
    case _ => None
  }

  ghost predicate SameOutside(w: World, w': World, subject: Option<Id>) {
    forall r: Ref :: (subject.Some? ==> !Under(r.id, subject.value)) ==>
      Lookup(w'.store.steps, r) == Lookup(w.store.steps, r) && Lookup(w'.store.meta, r.id) == Lookup(w.store.meta, r.id)
  }

  lemma TaskKeepsApart(w: World, t: nat, a: TaskAction, w': World)
    requires TaskEnabled(w, t, a) && w' == TaskNext(w, t, a)
    ensures SameOutside(w, w', Subject(w, Task(t, a)))
  {
    if !IsWrite(a) { QuietStep(w, t, a, w'); } else { WriteKeepsApart(w, t, a, w'); }
  }

  lemma WriteKeepsApart(w: World, t: nat, a: TaskAction, w': World)
    requires TaskEnabled(w, t, a) && IsWrite(a) && w' == TaskNext(w, t, a)
    ensures SameOutside(w, w', Some(w.threads[t].id))
  {
    assert Under(w.threads[t].id, w.threads[t].id);
  }

  lemma PollKeepsApart(w: World, t: nat, a: PollAction, w': World)
    requires PollEnabled(w, t, a) && w' == PollNext(w, t, a)
    ensures SameOutside(w, w', Subject(w, Poll(t, a)))
  {
  }

  lemma ApiKeepsApart(w: World, t: nat, a: ApiAction, w': World)
    requires ApiEnabled(w, t, a) && w' == ApiNext(w, t, a)
    ensures SameOutside(w, w', Subject(w, Api(t, a)))
  {
  }

  lemma EngineKeepsApart(w: World, a: EngineAction, w': World)
    requires EngineEnabled(w, a) && w' == EngineNext(w, a)
    ensures SameOutside(w, w', Subject(w, Engine(a)))
  {
  }

  /** What is done for one instance never changes what another, outside its subtree, will read. */
  lemma NonInterference(w: World, a: Action)
    requires Enabled(w, a)
    ensures SameOutside(w, Next(w, a), Subject(w, a))
  {
    match a
    case Api(t, x) => ApiKeepsApart(w, t, x, ApiNext(w, t, x));
    case Task(t, x) => TaskKeepsApart(w, t, x, TaskNext(w, t, x));
    case Poll(t, x) => PollKeepsApart(w, t, x, PollNext(w, t, x));
    case Engine(x) => EngineKeepsApart(w, x, EngineNext(w, x));
  }

  // ---- Completed entries --------------------------------------------------------------------

  /** The entry of `r` is there after the step exactly as it was before. */
  ghost predicate Kept(w: World, w': World, r: Ref) {
    r in w.store.steps && r in w'.store.steps && w'.store.steps[r] == w.store.steps[r]
  }

  lemma SaveKeepsCompleted(w: World, t: nat, a: TaskAction, w': World, r: Ref)
    requires Replaying(w) && TaskEnabled(w, t, a) && (a.Save? || a.SaveSuspended?) && w' == TaskNext(w, t, a)
    requires IsCompleted(w.store.steps, r)
    ensures Kept(w, w', r)
  {
    var th := w.threads[t];
    assert TaskOk(th, w.defs, w.store.steps) && PcOk(w.store.steps, th.id, CurrentOp(th), th.pc);
    assert r != Ref(th.id, CurrentOp(th).JournalKey());
  }

  lemma TaskKeepsCompleted(w: World, t: nat, a: TaskAction, w': World, r: Ref)
    requires Inv(w) && TaskEnabled(w, t, a) && w' == TaskNext(w, t, a)
    requires TopLevel(r.id) && !r.key.Output? && IsCompleted(w.store.steps, r)
    ensures Kept(w, w', r)
  {
    if a.Save? || a.SaveSuspended? {
      SaveKeepsCompleted(w, t, a, w', r);
    } else if !IsWrite(a) {
      QuietStep(w, t, a, w');
    }
  }

  lemma ApiKeepsCompleted(w: World, t: nat, a: ApiAction, w': World, r: Ref)
    requires Inv(w) && ApiEnabled(w, t, a) && w' == ApiNext(w, t, a)
    requires TopLevel(r.id) && IsCompleted(w.store.steps, r)
    ensures Kept(w, w', r)
  {
  }

  lemma CompletedStays(w: World, a: Action, r: Ref)
    requires Inv(w) && Enabled(w, a) && TopLevel(r.id) && !r.key.Output?
    requires IsCompleted(w.store.steps, r) && !DeletedBy(a, r.id)
    ensures Kept(w, Next(w, a), r)
  {
    match a
    case Api(t, x) => ApiKeepsCompleted(w, t, x, ApiNext(w, t, x), r);
    case Task(t, x) => TaskKeepsCompleted(w, t, x, TaskNext(w, t, x), r);
    case Poll(t, x) => PollFrame(w, t, x, PollNext(w, t, x));
    case Engine(x) => EngineKeepsCompleted(w, x, EngineNext(w, x), r);
  }

  lemma EngineKeepsCompleted(w: World, a: EngineAction, w': World, r: Ref)
    requires EngineEnabled(w, a) && w' == EngineNext(w, a)
    requires r in w.store.steps && !DeletedBy(Engine(a), r.id)
    ensures Kept(w, w', r)
  {
  }

  lemma {:induction false} CompletedStaysAlong(w: World, run: seq<Action>, r: Ref)
    requires Inv(w) && After(w, run).Some? && TopLevel(r.id) && !r.key.Output?
    requires IsCompleted(w.store.steps, r) && forall a :: a in run ==> !DeletedBy(a, r.id)
    ensures Kept(w, After(w, run).value, r)
    decreases |run|
  {
    if |run| > 0 {
      var before := run[..|run| - 1];
      CompletedStaysAlong(w, before, r);
      InvAlong(w, before);
      CompletedStays(After(w, before).value, run[|run| - 1], r);
    }
  }

  /** The journaled operation that a task is executing: a closure is running, or a fan-out. */
  ghost function Executing(w: World, t: nat): Ref
    requires IsWorker(w, t) && CurrentOp(w.threads[t]).IsJournaled()
  {
    Ref(w.threads[t].id, CurrentOp(w.threads[t]).JournalKey())
  }

  /** Steps of a task that it makes only while a closure or a fan-out of its own is running. */
  ghost predicate Executes(w: World, t: nat, a: TaskAction) {
    && TaskEnabled(w, t, a) && IsWorker(w, t) && CurrentOp(w.threads[t]).IsJournaled()
    && (a.ClosureReturn? || a.Gather? || a.ChildStep? || a.ChildMeta?)
  }

  lemma ExecutingIsOpen(w: World, t: nat, a: TaskAction)
    requires Inv(w) && Executes(w, t, a)
    ensures !IsCompleted(w.store.steps, Executing(w, t)) && TopLevel(w.threads[t].id)
  {
  }

  /**
   A journaled operation is never executed again: once its entry is Completed, no run that retention
   does not cut short reaches a state in which its closure can return, or its children can write.
   */
  lemma NothingRunsAgain(defs: map<string, Definition>, w: World, run: seq<Action>, t: nat, a: TaskAction)
    requires Reachable(defs, w) && After(w, run).Some? && Executes(After(w, run).value, t, a)
    requires IsCompleted(w.store.steps, Executing(After(w, run).value, t))
    ensures exists d :: d in run && DeletedBy(d, Executing(After(w, run).value, t).id)
  {
    InvReachable(defs, w);
    InvAlong(w, run);
    var w' := After(w, run).value;
    ExecutingIsOpen(w', t, a);
    if forall d :: d in run ==> !DeletedBy(d, Executing(w', t).id) {
      CompletedStaysAlong(w, run, Executing(w', t));
    }
  }

  /** What a run was given for an operation is journaled under its key, and stays so until retention deletes it. */
  lemma HistoryIsJournaled(defs: map<string, Definition>, w: World, t: nat, n: nat, run: seq<Action>)
    requires Reachable(defs, w) && IsWorker(w, t) && n < |w.threads[t].pc.h| && w.threads[t].pc.h[n].Got?
    requires After(w, run).Some? && forall a :: a in run ==> !DeletedBy(a, w.threads[t].id)
    ensures
      var th := w.threads[t];
      var op, entry := th.prog(th.pc.h[..n]), After(w, run).value.store.steps;
      && op.IsJournaled() && IsCompleted(entry, Ref(th.id, op.JournalKey()))
      && entry[Ref(th.id, op.JournalKey())].result == th.pc.h[n].value
  {
    InvReachable(defs, w);
    var th, j := w.threads[t], w.store.steps;
    var h := th.pc.h;
    assert TaskOk(th, w.defs, j) && Owns(th, th.id);
    assert Gives(j, th.id, th.prog(h[..n]), h[n]);
    CompletedStaysAlong(w, run, Ref(th.id, th.prog(h[..n]).JournalKey()));
  }

  /** Two runs of an instance, one of them later, are never given different values for one key. */
  lemma RunsAgree(defs: map<string, Definition>, w: World, t: nat, n: nat, run: seq<Action>, u: nat, m: nat)
    requires Reachable(defs, w) && IsWorker(w, t) && n < |w.threads[t].pc.h| && w.threads[t].pc.h[n].Got?
    requires After(w, run).Some? && forall a :: a in run ==> !DeletedBy(a, w.threads[t].id)
    requires
      var w' := After(w, run).value;
      && IsWorker(w', u) && w'.threads[u].id == w.threads[t].id
      && m < |w'.threads[u].pc.h| && w'.threads[u].pc.h[m].Got?
      && SameKey(w.threads[t].prog(w.threads[t].pc.h[..n]), w'.threads[u].prog(w'.threads[u].pc.h[..m]))
    ensures After(w, run).value.threads[u].pc.h[m] == w.threads[t].pc.h[n]
  {
    var w' := After(w, run).value;
    HistoryIsJournaled(defs, w, t, n, run);
    InvReachable(defs, w);
    InvAlong(w, run);
    var th := w'.threads[u];
    assert TaskOk(th, w'.defs, w'.store.steps);
    assert Gives(w'.store.steps, th.id, th.prog(th.pc.h[..m]), th.pc.h[m]);
  }

  /** The input of an invocation is journaled, and every run until retention deletes it has its body from it. */
  lemma InputIsDelivered(defs: map<string, Definition>, w: World, t: nat, i: Id, v: Value, run: seq<Action>)
    requires Reachable(defs, w) && ApiEnabled(w, t, Invoke(i, Some(v)))
    requires
      After(ApiNext(w, t, Invoke(i, Some(v))), run).Some? && forall a :: a in run ==> !DeletedBy(a, i)
    ensures
      var w' := After(ApiNext(w, t, Invoke(i, Some(v))), run).value;
      && ApiNext(w, t, Invoke(i, Some(v))).log.inputs == w.log.inputs[i := v]
      && Lookup(w'.store.steps, Ref(i, Input)) == Some(Completed(v, None))
      && forall bodyFor :: BodyOf(WithInput(v.ty, bodyFor), w'.store.steps, i) == bodyFor(v)
  {
    var w1 := ApiNext(w, t, Invoke(i, Some(v)));
    InvReachable(defs, w);
    InvStep(w, Api(t, Invoke(i, Some(v))));
    assert w1 == Next(w, Api(t, Invoke(i, Some(v))));
    CompletedStaysAlong(w1, run, Ref(i, Input));
  }

  /**
   What was delivered to a waiting step is what the journal holds under its key from then on, what every run
   was or will be given for it, and what a run that comes to wait for a value of that type is given.
   */
  ghost predicate HasArrived(w: World, i: Id, key: string, v: Value) {
    && Lookup(w.store.steps, Ref(i, User(key))) == Some(Completed(v, None))
    && (forall s :: s in w.log.seen && s.ref == Ref(i, User(key)) ==> s.value == v)
    && forall t ::
         TaskEnabled(w, t, Perform) && w.threads[t].id == i && WaitsFor(CurrentOp(w.threads[t]), key, v.ty) ==>
           TaskNext(w, t, Perform).threads[t].pc == At(w.threads[t].pc.h + [Got(v)])
  }

  predicate WaitsFor(op: Op, key: string, ty: string) {
    op == Op.Suspend(key, ty) || (op.Timer? && op.key == key && ty == UNIT.ty && ValidUserKey(key))
  }

  lemma ArrivedStays(w: World, run: seq<Action>, i: Id, key: string, v: Value)
    requires Inv(w) && TopLevel(i) && Lookup(w.store.steps, Ref(i, User(key))) == Some(Completed(v, None))
    requires After(w, run).Some? && forall a :: a in run ==> !DeletedBy(a, i)
    ensures HasArrived(After(w, run).value, i, key, v)
  {
    var w' := After(w, run).value;
    CompletedStaysAlong(w, run, Ref(i, User(key)));
    InvAlong(w, run);
    forall t | TaskEnabled(w', t, Perform) && w'.threads[t].id == i && WaitsFor(CurrentOp(w'.threads[t]), key, v.ty)
      ensures TaskNext(w', t, Perform).threads[t].pc == At(w'.threads[t].pc.h + [Got(v)])
    {
      PerformFeeds(w'.store.steps, w'.now, i, w'.threads[t].pc.h, CurrentOp(w'.threads[t]));
    }
  }

  /** A signal whose claim succeeds delivers its payload, for good. */
  lemma SignalIsDelivered(
    defs: map<string, Definition>, w: World, t: nat, i: Id, key: string, v: Value, run: seq<Action>)
    requires Reachable(defs, w) && ApiEnabled(w, t, Signal(i, key, v))
    requires IsSuspended(w.store.meta, i) && Lookup(w.store.steps, Ref(i, User(key))) == Some(Suspended)
    requires After(ApiNext(w, t, Signal(i, key, v)), run).Some? && forall a :: a in run ==> !DeletedBy(a, i)
    ensures HasArrived(After(ApiNext(w, t, Signal(i, key, v)), run).value, i, key, v)
  {
    var w1 := ApiNext(w, t, Signal(i, key, v));
    InvReachable(defs, w);
    InvStep(w, Api(t, Signal(i, key, v)));
    assert w1 == Next(w, Api(t, Signal(i, key, v)));
    ArrivedStays(w1, run, i, key, v);
  }

  /** A timer that fires delivers unit, for good. */
  lemma TimerIsDelivered(defs: map<string, Definition>, w: World, t: nat, row: TimerRow, run: seq<Action>)
    requires Reachable(defs, w) && PollerAt(w, t, Checked) && w.threads[t].batch[0].row == row
    requires IsSuspended(w.store.meta, row.id) && Lookup(w.store.steps, RowRef(row)) == Some(Suspended)
    requires After(PollNext(w, t, PollClaim), run).Some? && forall a :: a in run ==> !DeletedBy(a, row.id)
    ensures HasArrived(After(PollNext(w, t, PollClaim), run).value, row.id, row.key, UNIT)
  {
    var w1 := PollNext(w, t, PollClaim);
    InvReachable(defs, w);
    InvStep(w, Poll(t, PollClaim));
    assert w1 == Next(w, Poll(t, PollClaim)) && TopLevel(row.id);
    PollFrame(w, t, PollClaim, w1);
    ArrivedStays(w1, run, row.id, row.key, UNIT);
  }

  // ---- Running a completed instance again ---------------------------------------------------

  /**
   A terminal instance that is run again can come to execute a closure or a fan-out, or to suspend,
   if and only if its journal leaves something open: fed from it, the workflow comes to an operation
   that has no completed entry.
   */
  lemma ResumeExecutesWhatIsOpen(defs: map<string, Definition>, w: World, i: Id)
    requires Reachable(defs, w) && w.running && Quiet(w)
    requires TopLevel(i) && IsTerminal(w.store.meta, i) && i.wf in w.defs
    ensures MayExecute(w, i) <==> Opens(w.store.steps, i, BodyOf(w.defs[i.wf], w.store.steps, i))
  {
    InvReachable(defs, w);
    ExecutesExactlyWhatIsOpen(w, i);
  }

  /**
   When no key is used again after it gave an error, this is so for a Completed instance if and only if its last
   run was given an error that the journal does not determine.
   */
  lemma SwallowedErrorsRunAgain(defs: map<string, Definition>, w: World, i: Id)
    requires Reachable(defs, w) && w.running && Quiet(w)
    requires TopLevel(i) && i in w.store.meta && w.store.meta[i].status.Finished?
    requires i.wf in w.defs && NoKeyRetried(BodyOf(w.defs[i.wf], w.store.steps, i))
    ensures MayExecute(w, i) <==> !EndedDetermined(w, i)
  {
    InvReachable(defs, w);
    ExecutesExactlyWhatIsOpen(w, i);
    MeaningIsExact(defs, w, i);
  }

  /**
   Running a completed instance again is a pure replay if its last run swallowed no error that the
   journal does not determine: however it is resumed, crashed and recovered, as long as it is not
   deleted it executes nothing, none of its journal entries changes, the output included, and it is
   Running or Completed.
   */
  lemma CompletedInstanceOnlyReplays(defs: map<string, Definition>, w: World, run: seq<Action>, i: Id)
    requires Reachable(defs, w) && TopLevel(i) && i in w.store.meta && w.store.meta[i].status.Finished?
    requires EndedDetermined(w, i)
    requires After(w, run).Some? && forall a :: a in run ==> !DeletedBy(a, i)
    ensures SameJournal(w, After(w, run).value, i)
    ensures forall t :: !ExecutesIn(After(w, run).value, t, i)
    ensures
      var meta := After(w, run).value.store.meta;
      i in meta && (meta[i].status.Running? || meta[i].status.Finished?)
  {
    InvReachable(defs, w);
    FinishedIsSettled(w, i);
    SettledAlong(w, run, i);
  }

  // ---- Status -------------------------------------------------------------------------------

  /**
   Silently or not, a run shows the last status that its workflow set on the way to where it is, or
   that was stored with a result which it was given, exactly as long as no older run of the instance
   sends its final status late.
   */
  lemma ShowsLastStatus(defs: map<string, Definition>, w: World, t: nat)
    requires Reachable(defs, w) && IsWorker(w, t)
    requires !(w.threads[t].pc.Finishing? && w.threads[t].pc.result.SuspendedAt?)
    ensures
      var th := w.threads[t];
      WatchOf(w, th.id) == Shows(w.store.steps, th.id, th.prog, th.pc.h) <==> th.id !in w.late
  {
    InvReachable(defs, w);
    ShowsIsNotFinal(w.store.steps, w.threads[t].id, w.threads[t].prog, w.threads[t].pc.h);
    assert Showing(w.threads[t], w.store.steps, w.watch, w.late);
  }

  /** A workflow that uses no key twice and passes errors on is shown to have set that status itself, in this run. */
  lemma CleanRunShowsWhatItSet(defs: map<string, Definition>, w: World, t: nat)
    requires Reachable(defs, w) && IsWorker(w, t) && Clean(w.threads[t].prog)
    ensures var th := w.threads[t]; Shows(w.store.steps, th.id, th.prog, th.pc.h) == Shown(th.prog, th.pc.h)
  {
    InvReachable(defs, w);
    OwnTask(w, t);
    var th := w.threads[t];
    CleanShowsWhatWasSet(w.defs, w.store.steps, w.log.writtenAt, th.id, th.prog, th.pc.h);
  }

  /**
   The Completed message is the status that the last run showed last: set on its way, or stored with a
   result that it was given; and in a clean workflow, set on the way that the journal leads.
   */
  lemma CompletedMessage(defs: map<string, Definition>, w: World, i: Id)
    requires Reachable(defs, w) && TopLevel(i) && i in w.store.meta && w.store.meta[i].status.Finished?
    requires i !in w.tainted
    ensures i in w.log.final && i.wf in w.defs
    ensures
      var wf, h := BodyOf(w.defs[i.wf], w.store.steps, i), w.log.final[i];
      && wf(h).Return? && w.store.meta[i].status.message == Shows(w.store.steps, i, wf, h).Message()
      && (Clean(wf) ==> Consistent(w.store.steps, i, wf, h))
      && (Clean(wf) ==> w.store.meta[i].status.message == Shown(wf, h).Message())
  {
    InvReachable(defs, w);
    var wf, h := BodyOf(w.defs[i.wf], w.store.steps, i), w.log.final[i];
    assert Returned(w.defs, w.store.steps, i, h);
    if Clean(wf) {
      PropagatingRunIsDetermined(defs, w, i);
      FaithfulIsConsistent(w.store.steps, i, wf, h);
      CleanShowsWhatWasSet(w.defs, w.store.steps, w.log.writtenAt, i, wf, h);
    }
  }

  lemma TaskKeepsDefs(w: World, t: nat, a: TaskAction)
    requires TaskEnabled(w, t, a)
    ensures TaskNext(w, t, a).defs == w.defs
  {
  }

  lemma StepKeepsDefs(w: World, a: Action)
    requires Enabled(w, a)
    ensures Next(w, a).defs == w.defs
  {
    match a
    case Task(t, x) => TaskKeepsDefs(w, t, x);
    case Poll(t, x) => PollFrame(w, t, x, PollNext(w, t, x));
    case _ =>
  }

  lemma {:induction false} DefsNeverChange(w: World, run: seq<Action>)
    requires After(w, run).Some?
    ensures After(w, run).value.defs == w.defs
    decreases |run|
  {
    if |run| > 0 {
      DefsNeverChange(w, run[..|run| - 1]);
      StepKeepsDefs(After(w, run[..|run| - 1]).value, run[|run| - 1]);
    }
  }

  ghost predicate CompletedUntainted(w: World, i: Id) {
    i in w.store.meta && w.store.meta[i].status.Finished? && i !in w.tainted && EndedDetermined(w, i)
  }

  /**
   The message does not depend on how often, or where, the runs were interrupted: two histories of
   an instance that end Completed with the same journal, swallowing no error that the journal does not
   determine, end with the same message.
   */
  lemma MessageIndependentOfInterruptions(defs: map<string, Definition>, run: seq<Action>, run2: seq<Action>, i: Id)
    requires After(Initial(defs), run).Some? && After(Initial(defs), run2).Some? && TopLevel(i)
    requires
      var w, w2 := After(Initial(defs), run).value, After(Initial(defs), run2).value;
      CompletedUntainted(w, i) && CompletedUntainted(w2, i) && SameJournal(w, w2, i)
    ensures
      After(Initial(defs), run).value.store.meta[i].status == After(Initial(defs), run2).value.store.meta[i].status
  {
    var w, w2 := After(Initial(defs), run).value, After(Initial(defs), run2).value;
    DefsNeverChange(Initial(defs), run);
    DefsNeverChange(Initial(defs), run2);
    BodyGrows(defs[i.wf], w.store.steps, w2.store.steps, i);
    CompletedMessage(defs, w, i);
    CompletedMessage(defs, w2, i);
    ReplayPreservesMeaning(defs, w, i);
    ReplayPreservesMeaning(defs, w2, i);
    SameEnd(w.store.steps, w2.store.steps, i, BodyOf(defs[i.wf], w.store.steps, i), w.log.final[i], w2.log.final[i]);
  }

  lemma SameEnd(j: Steps, j2: Steps, i: Id, wf: Workflow, h: History, h2: History)
    requires Consistent(j, i, wf, h) && wf(h).Return? && Consistent(j2, i, wf, h2) && wf(h2).Return?
    requires forall r: Ref :: r.id == i ==> Lookup(j2, r) == Lookup(j, r)
    ensures h == h2 && Shows(j, i, wf, h) == Shows(j2, i, wf, h2)
  {
    assert Consistent(j, i, wf, h2);
    OneEnd(j, i, wf, h, h2);
    ShowsGrows(j, j2, i, wf, h);
  }

  // ---- Timers -------------------------------------------------------------------------------

  /** A row is polled only when due, and over a whole run no more often than it was set. */
  lemma TimersPolledDueAndOnce(defs: map<string, Definition>, w: World, t: nat, k: TimerKey)
    requires Reachable(defs, w)
    ensures Count(w.log.polled, k) <= Count(w.log.rowsSet, k)
    ensures PollerAt(w, t, Resting) ==> w.threads[t].batch[0].k.deadline <= w.now
  {
    InvReachable(defs, w);
  }

  /**
   A step that was suspended as a timer and still waits has its row, or a poller holds that row
   right now, or the log says how a poll or a reused row key took it.
   */
  lemma SuspendedTimerHasRow(defs: map<string, Definition>, w: World, r: Ref)
    requires Reachable(defs, w) && r in w.log.timerSteps && Lookup(w.store.steps, r) == Some(Suspended)
    ensures HasRow(w.store.timers, r) || Held(w.threads, r) || exists why :: LostTimer(r, why) in w.log.lost
  {
    InvReachable(defs, w);
    if WasLost(w.log.lost, r) {
      var l :| l in w.log.lost && l.ref == r;
      assert LostTimer(r, l.why) in w.log.lost;
    }
  }

  lemma TimerStepStays(w: World, a: Action, r: Ref)
    requires Enabled(w, a) && r in w.log.timerSteps && !DeletedBy(a, r.id)
    ensures r in Next(w, a).log.timerSteps
  {
    match a
    case Task(t, x) => if !x.SaveSuspended? { TaskLeavesTimers(w, t, x, TaskNext(w, t, x)); }
    case Api(t, x) => ApiLeavesTimers(w, t, x, ApiNext(w, t, x));
    case Poll(t, x) => PollFrame(w, t, x, PollNext(w, t, x));
    case Engine(x) => EngineKeepsTimerStep(w, x, EngineNext(w, x), r);
  }

  /** What runs were given is on record until retention deletes it. */
  lemma SightingStays(w: World, a: Action, s: Sighting)
    requires Enabled(w, a) && s in w.log.seen && !DeletedBy(a, s.ref.id)
    ensures s in Next(w, a).log.seen
  {
    match a
    case Task(t, x) => TaskKeepsSighting(w, t, x, TaskNext(w, t, x), s);
    case Poll(t, x) => PollFrame(w, t, x, PollNext(w, t, x));
    case Api(t, x) => ApiKeepsSighting(w, t, x, ApiNext(w, t, x));
    case Engine(x) => EngineKeepsSighting(w, x, EngineNext(w, x), s);
  }

  lemma ApiKeepsSighting(w: World, t: nat, a: ApiAction, w': World)
    requires ApiEnabled(w, t, a) && w' == ApiNext(w, t, a)
    ensures w'.log.seen == w.log.seen
  {
  }

  lemma EngineKeepsSighting(w: World, a: EngineAction, w': World, s: Sighting)
    requires EngineEnabled(w, a) && w' == EngineNext(w, a) && s in w.log.seen && !DeletedBy(Engine(a), s.ref.id)
    ensures s in w'.log.seen
  {
  }

  lemma TaskKeepsSighting(w: World, t: nat, a: TaskAction, w': World, s: Sighting)
    requires TaskEnabled(w, t, a) && w' == TaskNext(w, t, a) && s in w.log.seen
    ensures s in w'.log.seen
  {
    match a
    case Perform => assert w' == PerformOp(w, t);
    case Save => assert w' == SaveTxn(w, t);
    case WriteResult => assert w' == ResultTxn(w, t);
    case _ => OtherTasksKeepSightings(w, t, a, w');
  }

  lemma OtherTasksKeepSightings(w: World, t: nat, a: TaskAction, w': World)
    requires TaskEnabled(w, t, a) && w' == TaskNext(w, t, a) && !a.Perform? && !a.Save? && !a.WriteResult?
    ensures w'.log.seen == w.log.seen
  {
  }

  lemma EngineKeepsTimerStep(w: World, a: EngineAction, w': World, r: Ref)
    requires EngineEnabled(w, a) && w' == EngineNext(w, a) && r in w.log.timerSteps && !DeletedBy(Engine(a), r.id)
    ensures r in w'.log.timerSteps
  {
  }

  lemma {:induction false} TimerStepStaysAlong(w: World, run: seq<Action>, r: Ref)
    requires After(w, run).Some? && r in w.log.timerSteps && forall a :: a in run ==> !DeletedBy(a, r.id)
    ensures r in After(w, run).value.log.timerSteps
    decreases |run|
  {
    if |run| > 0 {
      TimerStepStaysAlong(w, run[..|run| - 1], r);
      TimerStepStays(After(w, run[..|run| - 1]).value, run[|run| - 1], r);
    }
  }

  /**
   From the moment at which a timer is set its step has a row; and until it is completed, unless retention
   deletes it, it has that row, or a poller holds it, or the log says how it was lost.
   */
  lemma TimerIsWatched(defs: map<string, Definition>, w: World, t: nat, run: seq<Action>)
    requires Reachable(defs, w) && TaskEnabled(w, t, SaveSuspended) && CurrentOp(w.threads[t]).Timer?
    requires After(SuspendedTxn(w, t), run).Some? && forall a :: a in run ==> !DeletedBy(a, w.threads[t].id)
    ensures
      var r := Ref(w.threads[t].id, User(CurrentOp(w.threads[t]).key));
      && HasRow(SuspendedTxn(w, t).store.timers, r)
      && var w' := After(SuspendedTxn(w, t), run).value;
         && r in w'.store.steps && !w'.store.steps[r].Failed?
         && (w'.store.steps[r].Suspended? ==>
               HasRow(w'.store.timers, r) || Held(w'.threads, r) || exists why :: LostTimer(r, why) in w'.log.lost)
  {
    var r, w1 := Ref(w.threads[t].id, User(CurrentOp(w.threads[t]).key)), SuspendedTxn(w, t);
    InvReachable(defs, w);
    TimerIsSet(w, t);
    InvStep(w, Task(t, SaveSuspended));
    assert w1 == Next(w, Task(t, SaveSuspended));
    TimerStepStaysAlong(w1, run, r);
    InvAlong(w1, run);
    var w' := After(w1, run).value;
    if WasLost(w'.log.lost, r) {
      var l :| l in w'.log.lost && l.ref == r;
      assert LostTimer(r, l.why) in w'.log.lost;
    }
  }

  lemma TimerIsSet(w: World, t: nat)
    requires Inv(w) && TaskEnabled(w, t, SaveSuspended) && CurrentOp(w.threads[t]).Timer?
    ensures
      var r, w' := Ref(w.threads[t].id, User(CurrentOp(w.threads[t]).key)), SuspendedTxn(w, t);
      r in w'.log.timerSteps && HasRow(w'.store.timers, r)
  {
    var th := w.threads[t];
    assert TaskOk(th, w.defs, w.store.steps) && PcOk(w.store.steps, th.id, CurrentOp(th), th.pc);
    var k := TimerKey(th.pc.deadline.value, w.serial);
    assert k in SuspendedTxn(w, t).store.timers && RowRef(SuspendedTxn(w, t).store.timers[k]) ==
           Ref(th.id, User(CurrentOp(th).key));
  }

  /**
   A stale row is harmless for good: once its step has been completed otherwise, then as long as the
   instance is not deleted no claim for that row, whenever it comes, changes any table.
   */
  lemma StaleRowIsHarmless(defs: map<string, Definition>, w: World, run: seq<Action>, t: nat, row: TimerRow)
    requires Reachable(defs, w) && TopLevel(row.id) && IsCompleted(w.store.steps, RowRef(row))
    requires After(w, run).Some? && forall a :: a in run ==> !DeletedBy(a, row.id)
    requires var w' := After(w, run).value; PollerAt(w', t, Checked) && w'.threads[t].batch[0].row == row
    ensures
      var w' := After(w, run).value;
      && PollNext(w', t, PollClaim).store == w'.store
      && PollNext(w', t, PollClaim).threads == w'.threads[t := Poller(w'.threads[t].batch[1..], Resting)]
  {
    InvReachable(defs, w);
    CompletedStaysAlong(w, run, RowRef(row));
  }
}
